/**
 Events of one (thread, turn) leave the router in the order they arrived,
 through buffering, displacement, adoption by an announcement, and adoption
 nested inside one drain of the work list.

 The work list consists of blocks: each adopted buffer is one run of events of
 one thread and at most one turn. While a block is in the list its thread has
 no buffer, except for a block at the head that is being put back because its
 thread can no longer be delivered to.
 */
module CodexOrder {
  import opened CodexIds
  import opened Options
  import opened Tombstones
  import opened CodexRouting
  import opened CodexInvariants
  import opened CodexInvariantSteps
  import opened CodexAttribution

  ghost predicate SameStream(a: Tagged, b: Tagged) {
    a.message.thread == b.message.thread && a.message.turn == b.message.turn
  }

  ghost predicate Before(a: Tagged, b: Tagged) {
    a.message.stamp < b.message.stamp
  }

  /** Deliveries of one stream are in arrival order. */
  ghost predicate LogOrdered(log: seq<Delivery>) {
    forall i, j | 0 <= i < j < |log| && SameStream(log[i].event, log[j].event) :: Before(log[i].event, log[j].event)
  }

  /** What was delivered precedes `e` if it is of the same stream. */
  ghost predicate After(log: seq<Delivery>, e: Tagged) {
    forall i | 0 <= i < |log| && SameStream(log[i].event, e) :: Before(log[i].event, e)
  }

  ghost predicate AllAfter(log: seq<Delivery>, events: seq<Tagged>) {
    forall i | 0 <= i < |events| :: After(log, events[i])
  }

  ghost predicate Sorted(events: seq<Tagged>) {
    forall i, j | 0 <= i < j < |events| :: Before(events[i], events[j])
  }

  /** Events of one thread are in arrival order. */
  ghost predicate ThreadsSorted(events: seq<Tagged>) {
    forall i, j | 0 <= i < j < |events| && events[i].message.thread == events[j].message.thread ::
      Before(events[i], events[j])
  }

  /** Everything buffered for a thread precedes everything pending for it. */
  ghost predicate BufferFirst(buffered: map<Id, Buffer>, pending: seq<Tagged>) {
    forall p, k | 0 <= p < |pending| && pending[p].message.thread in buffered
                  && 0 <= k < |buffered[pending[p].message.thread].messages| ::
      Before(buffered[pending[p].message.thread].messages[k], pending[p])
  }

  ghost predicate BuffersOrdered(log: seq<Delivery>, buffered: map<Id, Buffer>) {
    forall t | t in buffered :: Sorted(buffered[t].messages) && AllAfter(log, buffered[t].messages)
  }

  /** The order kept between the log, the buffers and the pending events. */
  ghost predicate OrderInv(log: seq<Delivery>, buffered: map<Id, Buffer>, pending: seq<Tagged>) {
    && LogOrdered(log)
    && BuffersOrdered(log, buffered)
    && AllAfter(log, pending)
    && ThreadsSorted(pending)
    && BufferFirst(buffered, pending)
  }

  // ---- Shape of the work list -----------------------------------------------

  ghost predicate Contiguous(queue: seq<Tagged>) {
    forall i, j, k | 0 <= i < j < k < |queue| && queue[i].message.thread == queue[k].message.thread ::
      queue[j].message.thread == queue[i].message.thread
  }

  ghost predicate OneTurnEach(queue: seq<Tagged>) {
    forall i, j | 0 <= i < |queue| && 0 <= j < |queue| && queue[i].message.thread == queue[j].message.thread
                  && queue[i].message.turn.Some? && queue[j].message.turn.Some? ::
      queue[i].message.turn == queue[j].message.turn
  }

  /** An owner that has bound a turn bound the one its block speaks with. */
  ghost predicate Matches(owners: map<Id, Owner>, routes: map<Id, Route>, e: Tagged) {
    var t := e.message.thread;
    t in owners && t !in routes && owners[t].childTurn.Some? && e.message.turn.Some? ==>
      owners[t].childTurn == e.message.turn
  }

  ghost predicate AllMatch(owners: map<Id, Owner>, routes: map<Id, Route>, queue: seq<Tagged>) {
    forall i | 0 <= i < |queue| :: Matches(owners, routes, queue[i])
  }

  /** Nothing for this thread can be delivered: its route is not activated, or it has neither route nor owner. */
  ghost predicate Dead(owners: map<Id, Owner>, routes: map<Id, Route>, t: Id) {
    if t in routes then routes[t].turn.None? else t !in owners
  }

  ghost predicate Separated(s: Router, queue: seq<Tagged>) {
    forall i | 0 <= i < |queue| && queue[i].message.thread in s.buffered ::
      && Dead(s.owners, s.routes, queue[i].message.thread)
      && forall k | 0 <= k < i :: queue[k].message.thread == queue[i].message.thread
  }

  ghost predicate Blocks(s: Router, queue: seq<Tagged>) {
    && Contiguous(queue)
    && OneTurnEach(queue)
    && AllMatch(s.owners, s.routes, queue)
    && Separated(s, queue)
  }

  // ---- Order ----------------------------------------------------------------

  lemma OrderShrinks(log: seq<Delivery>, buffered: map<Id, Buffer>, pending: seq<Tagged>, buffered': map<Id, Buffer>)
    requires OrderInv(log, buffered, pending) && SubMap(buffered', buffered)
    ensures OrderInv(log, buffered', pending)
  {
    hide After, Before;
  }

  lemma OrderDrops(log: seq<Delivery>, buffered: map<Id, Buffer>, pending: seq<Tagged>, buffered': map<Id, Buffer>)
    requires pending != [] && OrderInv(log, buffered, pending) && SubMap(buffered', buffered)
    ensures OrderInv(log, buffered', pending[1..])
  {
    hide After, Before;
  }

  /** Putting an event in its buffer keeps the order. */
  lemma OrderHolds(log: seq<Delivery>, buffered: map<Id, Buffer>, pending: seq<Tagged>, buffered': map<Id, Buffer>)
    requires pending != [] && OrderInv(log, buffered, pending)
    requires
      var e, t := pending[0], pending[0].message.thread;
      && t in buffered'
      && (forall x | x in buffered' && x != t :: x in buffered && buffered'[x] == buffered[x])
      && Sorted(buffered'[t].messages)
      && (forall x | x in buffered'[t].messages :: x == e || (t in buffered && x in buffered[t].messages))
    ensures OrderInv(log, buffered', pending[1..])
  {
    var e, t, rest := pending[0], pending[0].message.thread, pending[1..];
    forall k | 0 <= k < |buffered'[t].messages|
      ensures After(log, buffered'[t].messages[k])
      ensures forall p | 0 <= p < |rest| && rest[p].message.thread == t :: Before(buffered'[t].messages[k], rest[p])
    {
      var x := buffered'[t].messages[k];
      assert x in buffered'[t].messages;
      assert forall p | 0 <= p < |rest| :: rest[p] == pending[p + 1];
      if x != e {
        var i :| 0 <= i < |buffered[t].messages| && buffered[t].messages[i] == x;
      }
    }
  }

  lemma EnqueueSorted(b: Buffer, subscribed: bool, event: Tagged)
    requires Sorted(b.messages) && forall k | 0 <= k < |b.messages| :: Before(b.messages[k], event)
    ensures Sorted(Enqueue(b, subscribed, event).buffer.messages)
  {
    hide RecordLoss, FirstEvictable;
  }

  /** Delivering an event whose stream has nothing buffered keeps the order. */
  lemma OrderSends(log: seq<Delivery>, buffered: map<Id, Buffer>, pending: seq<Tagged>, d: Delivery)
    requires pending != [] && OrderInv(log, buffered, pending) && d.event == pending[0]
    requires forall t, k | t in buffered && 0 <= k < |buffered[t].messages| ::
               !SameStream(d.event, buffered[t].messages[k])
    ensures OrderInv(log + [d], buffered, pending[1..])
  {
    var grown := log + [d];
    forall e | After(log, e) && (SameStream(d.event, e) ==> Before(d.event, e)) ensures After(grown, e) {}
    forall i | 0 <= i < |pending[1..]| ensures After(grown, pending[1..][i]) {
      assert pending[1..][i] == pending[i + 1];
    }
  }

  /** Adopting the buffer of a thread that is not in the work list keeps the order. */
  lemma OrderAdopts(log: seq<Delivery>, buffered: map<Id, Buffer>, queue: seq<Tagged>, later: seq<Tagged>,
                    t: Id, more: seq<Tagged>)
    requires OrderInv(log, buffered, queue + later) && OfThread(t, more) && Sorted(more)
    requires more != [] ==> t in buffered
    requires forall e | e in more :: e in buffered[t].messages
    requires more != [] ==> forall i | 0 <= i < |queue| :: queue[i].message.thread != t
    ensures OrderInv(log, buffered - {t}, queue + more + later)
  {
    hide After, Before;
    var p, p', q, n := queue + later, queue + more + later, |queue|, |more|;
    assert forall i | 0 <= i < |p'| && !(q <= i < q + n) :: p'[i] == p[if i < q then i else i - n];
    assert forall i | q <= i < q + n :: p'[i] == more[i - q] && more[i - q] in more;
    forall i | 0 <= i < |p'| ensures After(log, p'[i]) {
      if q <= i < q + n { var k := InBuffer(buffered[t].messages, p'[i]); }
    }
    forall i, j | 0 <= i < j < |p'| && p'[i].message.thread == p'[j].message.thread ensures Before(p'[i], p'[j]) {
      if q <= i < q + n && q + n <= j {
        var k := InBuffer(buffered[t].messages, p'[i]);
        assert p[j - n].message.thread == t;
      }
    }
    forall i, k | 0 <= i < |p'| && p'[i].message.thread in buffered - {t}
                  && 0 <= k < |buffered[p'[i].message.thread].messages|
      ensures Before(buffered[p'[i].message.thread].messages[k], p'[i])
    {
      assert !(q <= i < q + n);
    }
  }

  lemma InBuffer(events: seq<Tagged>, e: Tagged) returns (k: nat)
    requires e in events
    ensures k < |events| && events[k] == e
  {
    k :| k < |events| && events[k] == e;
  }

  // ---- Announcements release blocks -----------------------------------------

  /** No thread in the work list has a buffer. */
  ghost predicate NoConflict(buffered: map<Id, Buffer>, queue: seq<Tagged>) {
    forall i | 0 <= i < |queue| :: queue[i].message.thread !in buffered
  }

  /** The work list between deliveries: blocks whose threads have no buffer. */
  ghost predicate Tidy(s: Router, queue: seq<Tagged>) {
    && Contiguous(queue)
    && OneTurnEach(queue)
    && AllMatch(s.owners, s.routes, queue)
    && NoConflict(s.buffered, queue)
  }

  lemma {:induction false} EligibleSorted(s: Router, child: Id, events: seq<Tagged>, unresolved: bool, generation: nat)
    requires Sorted(events)
    ensures Sorted(EligibleEvents(s, child, events, unresolved, generation))
    decreases |events|
  {
    if events != [] {
      EligibleSorted(s, child, events[1..], unresolved, generation);
      EligibleAreFresh(s, child, events[1..], unresolved, generation);
      var rest := EligibleEvents(s, child, events[1..], unresolved, generation);
      forall i | 0 <= i < |rest| ensures Before(events[0], rest[i]) {
        assert rest[i] in rest;
        var k := InBuffer(events[1..], rest[i]);
        assert events[k + 1] == rest[i];
      }
    }
  }

  /** What an announcement releases is one block of its child, which its owner will accept. */
  lemma AnnounceReleases(s: Router, child: Id, claim: Claim)
    requires Inv(s) && ClaimLive(s, claim) && (child in s.buffered ==> Sorted(s.buffered[child].messages))
    ensures
      var r := Announce(s, child, claim);
      && (r.more != [] ==> child in s.buffered && child != claim.root)
      && OfThread(child, r.more) && Sorted(r.more) && OneTurnEach(r.more)
      && (forall e | e in r.more :: child in s.buffered && e in s.buffered[child].messages)
      && AllMatch(r.state.owners, s.routes, r.more)
      && (forall e: Tagged | child !in s.buffered && Matches(s.owners, s.routes, e) ::
            Matches(r.state.owners, s.routes, e))
      && (forall e: Tagged | e.message.thread != child && Matches(s.owners, s.routes, e) ::
            Matches(r.state.owners, s.routes, e))
  {
    hide IndexInv, BuffersInv, RoutesInv, OwnersInv, WellFormed, DeclineAll, Discard, EligibleEvents, StaleEvents,
         Before, Own;
    if child != claim.root {
      var unresolved := child in s.retiredUnbound.live;
      var lifted := s.(retiredUnbound := Exhume(s.retiredUnbound, child));
      var base := Discard(lifted, child);
      if child in s.buffered {
        var messages := s.buffered[child].messages;
        var eligible := EligibleEvents(s, child, messages, unresolved, claim.generation);
        var stale := StaleEvents(s, child, messages, unresolved, claim.generation);
        var taken := base.(out := DeclineAll(s.out, stale, StaleClaim),
                           adoptions := s.adoptions + [Adoption(claim.tx, s.buffered[child])]);
        OwnClaims(taken, child, claim, ChildTurnOf(eligible));
        EligibleAreFresh(s, child, messages, unresolved, claim.generation);
        EligibleSorted(s, child, messages, unresolved, claim.generation);
        BufferedEventsAre(s, child);
        assert OfThread(child, eligible) by {
          forall i | 0 <= i < |eligible| ensures eligible[i].message.thread == child {
            assert eligible[i] in eligible;
          }
        }
      } else {
        OwnClaims(base, child, claim, None);
      }
    }
  }

  lemma TidyGrows(s: Router, r: Router, queue: seq<Tagged>, child: Id, more: seq<Tagged>)
    requires Tidy(s, queue) && r.routes == s.routes
    requires OfThread(child, more) && OneTurnEach(more) && AllMatch(r.owners, s.routes, more)
    requires more != [] ==> child in s.buffered
    requires SubMap(r.buffered, s.buffered) && (more != [] ==> child !in r.buffered)
    requires AllMatch(r.owners, s.routes, queue)
    ensures Tidy(r, queue + more)
  {
    hide Matches;
  }

  lemma AnnounceOrders(s: Router, child: Id, claim: Claim, queue: seq<Tagged>, later: seq<Tagged>)
    requires Inv(s) && ClaimLive(s, claim) && Tidy(s, queue)
    requires OrderInv(s.wire.log, s.buffered, queue + later)
    ensures
      var r := Announce(s, child, claim);
      && Tidy(r.state, queue + r.more)
      && OrderInv(s.wire.log, r.state.buffered, queue + r.more + later)
  {
    hide Inv, Announce, Matches, After, Before, Contiguous, OneTurnEach, ThreadsSorted, LogOrdered, BufferFirst;
    AnnounceReleases(s, child, claim);
    AnnounceKeeps(s, child, claim);
    var r := Announce(s, child, claim);
    forall i | 0 <= i < |queue| ensures Matches(r.state.owners, s.routes, queue[i]) {
      assert queue[i].message.thread !in s.buffered && Matches(s.owners, s.routes, queue[i]);
    }
    TidyGrows(s, r.state, queue, child, r.more);
    OrderAdopts(s.wire.log, s.buffered, queue, later, child, r.more);
    if child == claim.root {
      assert queue + [] + later == queue + later;
    }
  }

  lemma {:induction false} AnnounceAllOrders(s: Router, children: seq<Id>, claim: Claim,
                                             queue: seq<Tagged>, later: seq<Tagged>)
    requires Inv(s) && ClaimLive(s, claim) && Tidy(s, queue)
    requires OrderInv(s.wire.log, s.buffered, queue + later)
    ensures
      var r := AnnounceAll(s, children, claim);
      && Tidy(r.state, queue + r.more)
      && OrderInv(s.wire.log, r.state.buffered, queue + r.more + later)
    decreases |children|
  {
    hide Inv, Announce, Tidy, OrderInv;
    if children == [] {
      assert queue + [] == queue;
    } else {
      var first := Announce(s, children[0], claim);
      AnnounceKeeps(s, children[0], claim);
      AnnounceOrders(s, children[0], claim, queue, later);
      AnnounceAllOrders(first.state, children[1..], claim, queue + first.more, later);
      var others := AnnounceAll(first.state, children[1..], claim);
      assert queue + (first.more + others.more) == (queue + first.more) + others.more;
    }
  }

  // ---- One step -------------------------------------------------------------

  /** A first event alone, or a work list of blocks. */
  ghost predicate Worklist(s: Router, queue: seq<Tagged>) {
    |queue| <= 1 || Blocks(s, queue)
  }

  lemma TidyIsBlocks(s: Router, queue: seq<Tagged>)
    requires Tidy(s, queue)
    ensures Blocks(s, queue)
  {}

  /** An event that can be delivered leaves no thread of the work list with a buffer. */
  lemma SendMeansTidy(s: Router, queue: seq<Tagged>)
    requires queue != [] && Worklist(s, queue) && Classify(s, queue[0]).Send?
    ensures Tidy(s, queue[1..])
  {
    hide Matches;
    SendIsLive(s, queue[0]);
    var rest := queue[1..];
    assert forall i | 0 <= i < |rest| :: rest[i] == queue[i + 1];
  }

  /** Nothing buffered belongs to the stream of an event that can be delivered. */
  lemma SendSkipsNothing(s: Router, event: Tagged)
    requires Inv(s) && Classify(s, event).Send?
    ensures forall t, k | t in s.buffered && 0 <= k < |s.buffered[t].messages| ::
              !SameStream(event, s.buffered[t].messages[k])
  {
    hide IndexInv, WellFormed;
    SendIsLive(s, event);
    var f, thread := Classify(s, event), event.message.thread;
    assert RouteOk(|s.arrivals|, s.subscriptions, s.buffered.Keys, f.root, s.routes[f.root]);
    if f.child { OwnersInvAt(s, thread); }
    forall t, k | t in s.buffered && 0 <= k < |s.buffered[t].messages|
      ensures !SameStream(event, s.buffered[t].messages[k])
    {
      BufferedEventsAre(s, t);
    }
  }

  lemma DeliveredOrders(s: Router, event: Tagged, fate: Fate, queue: seq<Tagged>, later: seq<Tagged>)
    requires Inv(s) && fate.Send? && Live(s.routes, fate.root, fate.rootTurn, fate.generation) && Tidy(s, queue)
    requires OrderInv(s.wire.log, s.buffered, queue + later)
    ensures
      var r := Delivered(s, event, fate);
      && Tidy(r.state, queue + r.more)
      && OrderInv(s.wire.log, r.state.buffered, queue + r.more + later)
  {
    hide IndexInv, BuffersInv, RoutesInv, OwnersInv, WellFormed, RetireOwner, AnnounceAll, OrderInv,
         Contiguous, OneTurnEach;
    var t := event.message.thread;
    ExhumeKeeps(s.failed, t);
    ExhumeKeeps(Exhume(s.failed, t), fate.root);
    var cleared := s.(failed := Exhume(Exhume(s.failed, t), fate.root));
    RetireOwnerKeeps(cleared, t);
    var ended := if fate.child && EndsTurn(event.message) then RetireOwner(cleared, t) else cleared;
    AnnounceAllOrders(ended, event.message.children,
                      Claim(fate.root, fate.rootTurn, fate.generation, fate.tx), queue, later);
  }

  lemma BufferMessageStores(s: Router, event: Tagged)
    requires Inv(s)
    ensures
      var b, t := BufferMessage(s, event).buffered, event.message.thread;
      || b == s.buffered
      || (&& t in b
          && (forall x | x in b && x != t :: x in s.buffered && b[x] == s.buffered[x])
          && b[t] == Enqueue(BufferOf(s, t), t in s.routes, event).buffer)
  {
    hide IndexInv, BuffersInv, RoutesInv, OwnersInv, WellFormed, Enqueue, EvictUnknown;
    var t := event.message.thread;
    if t !in s.routes && t !in s.buffered { TrackUnknownKeeps(s, t); }
  }

  lemma HoldOrders(s: Router, queue: seq<Tagged>, later: seq<Tagged>)
    requires Inv(s) && queue != [] && MayWait(s, queue[0]) && EventOk(|s.arrivals|, s.subscriptions, queue[0])
    requires OrderInv(s.wire.log, s.buffered, queue + later)
    ensures OrderInv(s.wire.log, BufferMessage(s, queue[0]).buffered, queue[1..] + later)
  {
    hide IndexInv, RoutesInv, OwnersInv, WellFormed, Enqueue, BufferMessage, After, EventOk, LossesRecorded;
    var e, t, p := queue[0], queue[0].message.thread, queue + later;
    assert p[0] == e && p[1..] == queue[1..] + later;
    BufferMessageStores(s, e);
    var b := BufferMessage(s, e).buffered;
    if b == s.buffered {
      OrderDrops(s.wire.log, s.buffered, p, b);
    } else {
      assert forall k | 0 <= k < |BufferOf(s, t).messages| :: Before(BufferOf(s, t).messages[k], p[0]);
      EnqueueSorted(BufferOf(s, t), t in s.routes, e);
      EnqueueAddsOnly(BufferOf(s, t), t in s.routes, e);
      OrderHolds(s.wire.log, s.buffered, p, b);
    }
  }

  /** A block put back behind its own head stays separated from every other buffer. */
  lemma HoldBlocks(s: Router, queue: seq<Tagged>)
    requires Inv(s) && queue != [] && Worklist(s, queue) && Classify(s, queue[0]).Hold?
    ensures Blocks(BufferMessage(s, queue[0]), queue[1..])
  {
    hide IndexInv, BuffersInv, RoutesInv, OwnersInv, WellFormed, Enqueue, BufferMessage;
    BufferMessageStores(s, queue[0]);
    var r, rest := BufferMessage(s, queue[0]), queue[1..];
    assert forall i | 0 <= i < |rest| :: rest[i] == queue[i + 1];
    forall i | 0 <= i < |rest| && rest[i].message.thread in r.buffered
      ensures Dead(r.owners, r.routes, rest[i].message.thread)
      ensures forall k | 0 <= k < i :: rest[k].message.thread == rest[i].message.thread
    {
      assert Matches(s.owners, s.routes, queue[0]) && rest[i] == queue[i + 1];
    }
  }

  lemma DropBlocks(s: Router, r: Router, queue: seq<Tagged>)
    requires queue != [] && Worklist(s, queue)
    requires SubMap(r.buffered, s.buffered) && SubMap(r.owners, s.owners) && SubMap(r.routes, s.routes)
    requires forall c | c in s.routes && c !in r.routes :: c !in r.owners
    ensures Blocks(r, queue[1..])
  {
    var rest := queue[1..];
    assert forall i | 0 <= i < |rest| :: rest[i] == queue[i + 1];
  }

  lemma BindChildBlocks(s: Router, queue: seq<Tagged>)
    requires queue != [] && Worklist(s, queue)
    ensures Worklist(BindChild(s, queue[0]), queue)
  {
    hide Contiguous;
    var r := BindChild(s, queue[0]);
    if |queue| > 1 {
      forall i | 0 <= i < |queue| ensures Matches(r.owners, r.routes, queue[i]) {
        assert Matches(s.owners, s.routes, queue[i]);
      }
    }
  }

  lemma DispatchOrders(s: Router, queue: seq<Tagged>, later: seq<Tagged>, env: Env)
    requires Inv(s) && Enumerates(env) && queue != [] && Worklist(s, queue)
    requires EventOk(|s.arrivals|, s.subscriptions, queue[0]) && Classify(s, queue[0]).Send?
    requires OrderInv(s.wire.log, s.buffered, queue + later)
    ensures
      var r := Dispatch(s, queue[0], Classify(s, queue[0]), env);
      && Blocks(r.state, queue[1..] + r.more)
      && OrderInv(r.state.wire.log, r.state.buffered, queue[1..] + r.more + later)
  {
    hide IndexInv, BuffersInv, RoutesInv, OwnersInv, WellFormed, Delivered, RemoveRoute, Classify, OrderInv,
         Worklist, Blocks, Decline, Contiguous, OneTurnEach;
    var f, e, p := Classify(s, queue[0]), queue[0], queue + later;
    assert p[0] == e && p[1..] == queue[1..] + later;
    SendIsLive(s, e);
    var sent := TrySend(s.wire, f.tx, e, env);
    if sent.accepted {
      SendMeansTidy(s, queue);
      SendSkipsNothing(s, e);
      OrderSends(s.wire.log, s.buffered, p, Delivery(f.tx, e));
      var out := s.(wire := sent.wire);
      DeliveredOrders(out, e, f, queue[1..], later);
      TidyIsBlocks(Delivered(out, e, f).state, queue[1..] + Delivered(out, e, f).more);
    } else {
      var declined := s.(wire := sent.wire, out := Decline(s.out, e, Undeliverable));
      RemoveRouteKeeps(declined, f.root, f.tx, env);
      var r := RemoveRoute(declined, f.root, f.tx, env);
      OrderDrops(s.wire.log, s.buffered, p, r.buffered);
      DropBlocks(s, r, queue);
      assert queue[1..] + [] == queue[1..];
    }
  }

  /** One step keeps the order of every stream and the shape of the work list. */
  lemma StepOrders(s: Router, queue: seq<Tagged>, later: seq<Tagged>, env: Env)
    requires Inv(s) && Enumerates(env) && queue != [] && Worklist(s, queue)
    requires EventOk(|s.arrivals|, s.subscriptions, queue[0])
    requires OrderInv(s.wire.log, s.buffered, queue + later)
    ensures
      var r := Step(s, queue[0], env);
      && Blocks(r.state, queue[1..] + r.more)
      && OrderInv(r.state.wire.log, r.state.buffered, queue[1..] + r.more + later)
  {
    hide IndexInv, BuffersInv, RoutesInv, OwnersInv, WellFormed, BindChild, Classify, Dispatch, BufferMessage,
         OrderInv, Worklist, Blocks, Decline, Drop;
    var e, p := queue[0], queue + later;
    assert p[0] == e && p[1..] == queue[1..] + later && queue[1..] + [] == queue[1..];
    BindChildKeeps(s, e);
    BindChildBlocks(s, queue);
    var bound := BindChild(s, e);
    OrderDrops(s.wire.log, s.buffered, p, s.buffered);
    match Classify(bound, e)
    case Ignore =>
      DropBlocks(s, s.(out := Drop(s.out, e, Unaddressed)), queue);
    case Refuse =>
      DropBlocks(bound, bound.(out := Decline(bound.out, e, NotEntitled)), queue);
    case Hold =>
      HeldMayWait(bound, e);
      HoldOrders(bound, queue, later);
      HoldBlocks(bound, queue);
    case Send(_, _, _, _, _) =>
      DispatchOrders(bound, queue, later, env);
  }
}
