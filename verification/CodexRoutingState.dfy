/**
 The Codex event router as the program runs it: an object whose methods update
 maps, sets and queues in place, with loops over buffers and a work list. Each
 method is proved to do what the corresponding function on `Router` says.
 */
module CodexRoutingState {
  import opened CodexIds
  import opened Options
  import opened Tombstones
  import opened CodexRouting
  import opened CodexConservation
  import opened CodexOperations
  import opened CodexInvariantSteps

  /** Lay a tombstone, dropping a stale queue entry of the same id first. */
  method LayTombstone<K(==)>(t: Tombstones<K>, k: K) returns (r: Tombstones<K>)
    ensures r == Bury(t, k)
  {
    r := t;
    if k in t.live {
      return;
    }
    r := Tombstones(t.live + {k}, Without(t.order, k) + [k]);
    while |r.order| > ROUTE_TOMBSTONE_BUDGET
      invariant k !in t.live ==> Trim(r) == Bury(t, k)
      decreases |r.order|
    {
      var expired := r.order[0];
      r := Tombstones(r.live - {expired}, r.order[1..]);
    }
  }

  /** The index of the first event that may be displaced, or the length. */
  method FindEvictable(events: seq<Tagged>, subscribed: bool) returns (i: nat)
    ensures i == FirstEvictable(events, subscribed)
  {
    i := 0;
    while i < |events| && !Evictable(events[i], subscribed)
      invariant i <= |events|
      invariant FirstEvictable(events, subscribed) == i + FirstEvictable(events[i..], subscribed)
    {
      assert events[i..][1..] == events[i + 1..];
      i := i + 1;
    }
  }

  /** Put an event in a bounded buffer; requests and announcements displace plain transcript. */
  method EnqueueEvent(route: Buffer, rootBuffer: bool, event: Tagged) returns (r: Buffer, lost: Option<Tagged>)
    ensures Enqueued(r, lost) == Enqueue(route, rootBuffer, event)
  {
    hide FirstEvictable, RecordLoss;
    r, lost := route, None;
    if |route.messages| < ROUTE_EVENT_BUDGET {
      r := route.(messages := route.messages + [event]);
      return;
    }
    var index := |route.messages|;
    if Important(event, rootBuffer) {
      index := FindEvictable(route.messages, rootBuffer);
    }
    if index < |route.messages| {
      lost := Some(route.messages[index]);
      r := RecordLoss(route, route.messages[index], rootBuffer);
      r := r.(messages := route.messages[..index] + route.messages[index + 1..] + [event]);
    } else {
      r := RecordLoss(route, event, rootBuffer);
      lost := Some(event);
    }
  }

  /** Counting the distinct turns decides ambiguity exactly as comparing with the first one does. */
  lemma CandidatesDecide(events: seq<Tagged>)
    ensures |CandidateTurns(events)| > 1 <==> Ambiguous(events)
    ensures |CandidateTurns(events)| == 0 <==> FirstTurn(events).None?
    ensures !Ambiguous(events) && FirstTurn(events).Some? ==> CandidateTurns(events) == {FirstTurn(events).value}
  {
    var turns := CandidateTurns(events);
    FirstTurnIsNamed(events);
    assert forall i | 0 <= i < |events| && events[i].message.turn.Some? :: events[i] in events;
    if FirstTurn(events).Some? {
      var first := FirstTurn(events).value;
      assert first in turns;
      if Ambiguous(events) {
        var i :| 0 <= i < |events| && events[i].message.turn.Some? && events[i].message.turn != FirstTurn(events);
        var other := events[i].message.turn.value;
        assert other in turns && {first, other} <= turns;
        assert turns == {first, other} + (turns - {first, other});
      } else {
        assert turns == {first};
      }
    } else {
      assert turns == {};
    }
  }

  lemma DeclineFirst(out: Outbox, event: Tagged, events: seq<Tagged>, why: Reason)
    requires !why.Overflow?
    ensures DeclineAll(out, [event] + events, why) == DeclineAll(Decline(out, event, why), events, why)
  {
    assert ([event] + events)[1..] == events;
  }

  lemma ClaimFirst(s: Router, child: Id, events: seq<Tagged>, unresolved: bool, generation: nat)
    requires events != []
    ensures
      var others := StaleEvents(s, child, events[1..], unresolved, generation);
      var eligible := EligibleEvents(s, child, events[1..], unresolved, generation);
      if Stale(s, child, events[0], unresolved, generation) then
        && StaleEvents(s, child, events, unresolved, generation) == [events[0]] + others
        && EligibleEvents(s, child, events, unresolved, generation) == eligible
      else
        && StaleEvents(s, child, events, unresolved, generation) == others
        && EligibleEvents(s, child, events, unresolved, generation) == [events[0]] + eligible
  {
    assert [] + StaleEvents(s, child, events[1..], unresolved, generation)
           == StaleEvents(s, child, events[1..], unresolved, generation);
  }

  lemma {:induction false} SameClaim(s: Router, r: Router, child: Id, events: seq<Tagged>, unresolved: bool,
                                     generation: nat)
    requires s.retiredTurns == r.retiredTurns
    ensures StaleEvents(s, child, events, unresolved, generation)
            == StaleEvents(r, child, events, unresolved, generation)
    ensures EligibleEvents(s, child, events, unresolved, generation)
            == EligibleEvents(r, child, events, unresolved, generation)
    decreases |events|
  {
    if events != [] {
      SameClaim(s, r, child, events[1..], unresolved, generation);
    }
  }

  lemma IgnoredIsUnbound(s: Router, event: Tagged)
    ensures Classify(BindChild(s, event), event).Ignore? ==> BindChild(s, event) == s
  {}

  class RoutingState {
    var nextGeneration: nat
    var routes: map<Id, Route>
    var owners: map<Id, Owner>
    var buffered: map<Id, Buffer>
    var unknownBuffered: set<Id>
    var unknownBufferOrder: seq<Id>
    var failed: Tombstones<Id>
    var retiredChildren: Tombstones<ChildTurn>
    var retiredUnboundChildren: Tombstones<Id>
    var retiredResponses: seq<Response>
    var retiredResponseOverloaded: bool
    // the channels, as the router sees them
    var overloaded: set<nat>
    var attempts: nat
    // history; `received` numbers the arrivals
    var received: nat
    ghost var log: seq<Delivery>
    ghost var out: Outbox
    ghost var arrivals: seq<Tagged>
    ghost var subscriptions: seq<Subscription>
    ghost var adoptions: seq<Adoption>

    ghost predicate Valid()
      reads this
    {
      && out.responses == retiredResponses && out.overloaded == retiredResponseOverloaded
      && nextGeneration == |subscriptions|
      && received == |arrivals|
    }

    /** The abstract router this object implements. */
    ghost function State(): (s: Router)
      reads this
      requires Valid()
    {
      Router(nextGeneration, routes, owners, buffered, unknownBuffered, unknownBufferOrder,
             failed, retiredChildren, retiredUnboundChildren,
             out, Wire(overloaded, log, attempts), arrivals, subscriptions, adoptions)
    }

    constructor ()
      ensures Valid() && State() == Fresh()
    {
      nextGeneration, routes, owners, buffered := 0, map[], map[], map[];
      unknownBuffered, unknownBufferOrder := {}, [];
      failed, retiredChildren, retiredUnboundChildren := Empty(), Empty(), Empty();
      retiredResponses, retiredResponseOverloaded := [], false;
      overloaded, attempts, received := {}, 0, 0;
      log, out, arrivals, subscriptions, adoptions := [], NO_DECLINES, [], [], [];
    }

    /** Answer a request with a decline; nothing is done about another event but to note why it is gone. */
    method RejectRetiredRequest(event: Tagged, ghost why: Reason)
      requires Valid() && Justified(event, why)
      modifies this`retiredResponses, this`retiredResponseOverloaded, this`out
      ensures Valid() && State() == old(State()).(out := Decline(old(State()).out, event, why))
    {
      hide Accountable, Justified;
      out := Decline(out, event, why);
      if event.message.kind.Request? {
        if |retiredResponses| < ROUTE_EVENT_BUDGET {
          retiredResponses := retiredResponses + [DeclineResponse(event)];
        } else {
          retiredResponseOverloaded := true;
        }
      }
    }

    /** Leave an event alone that names no thread. */
    ghost method Skip(event: Tagged)
      requires Valid() && event.message.thread == NO_THREAD
      modifies this`out
      ensures Valid() && State() == old(State()).(out := Drop(old(State()).out, event, Unaddressed))
    {
      out := Drop(out, event, Unaddressed);
    }

    method TakeRetiredResponses() returns (responses: seq<Response>, responseOverloaded: bool)
      requires Valid()
      modifies this`retiredResponses, this`retiredResponseOverloaded, this`out
      ensures Valid() && State() == TakeResponses(old(State()))
      ensures responses == old(retiredResponses) && responseOverloaded == old(retiredResponseOverloaded)
    {
      hide Accountable;
      out := Flush(out);
      responses, responseOverloaded := retiredResponses, retiredResponseOverloaded;
      retiredResponses, retiredResponseOverloaded := [], false;
    }

    method RejectAll(events: seq<Tagged>, ghost why: Reason)
      requires Valid() && !why.Overflow?
      modifies this`retiredResponses, this`retiredResponseOverloaded, this`out
      ensures Valid() && State() == old(State()).(out := DeclineAll(old(State()).out, events, why))
    {
      hide Accountable;
      var i := 0;
      while i < |events|
        invariant i <= |events| && Valid()
        invariant State() == old(State()).(out := State().out)
        invariant DeclineAll(State().out, events[i..], why) == DeclineAll(old(State()).out, events, why)
      {
        assert events[i..][1..] == events[i + 1..];
        RejectRetiredRequest(events[i], why);
        i := i + 1;
      }
    }

    method AdoptUnknownBuffer(thread: Id)
      requires Valid()
      modifies this`unknownBuffered, this`unknownBufferOrder
      ensures Valid() && State() == AdoptUnknown(old(State()), thread)
    {
      hide Accountable;
      if thread in unknownBuffered {
        unknownBuffered := unknownBuffered - {thread};
        unknownBufferOrder := Without(unknownBufferOrder, thread);
      }
    }

    method TakeBuffered(thread: Id) returns (buffer: Option<Buffer>)
      requires Valid()
      modifies this`unknownBuffered, this`unknownBufferOrder, this`buffered
      ensures Valid() && State() == Discard(old(State()), thread)
      ensures buffer == if thread in old(buffered) then Some(old(buffered)[thread]) else None
    {
      hide Accountable;
      AdoptUnknownBuffer(thread);
      buffer := if thread in buffered then Some(buffered[thread]) else None;
      buffered := buffered - {thread};
    }

    method RejectBufferedFor(thread: Id)
      requires Valid()
      modifies this`unknownBuffered, this`unknownBufferOrder, this`buffered,
               this`retiredResponses, this`retiredResponseOverloaded, this`out
      ensures Valid() && State() == RejectBuffered(old(State()), thread)
    {
      hide Accountable;
      var buffer := TakeBuffered(thread);
      if buffer.Some? {
        RejectAll(buffer.value.messages, Cleared);
      }
    }

    /** Forget the oldest unknown thread and decline what was buffered for it. */
    method ExpireOldestUnknown()
      requires Valid() && |unknownBuffered| > UNKNOWN_BUFFER_BUDGET && unknownBufferOrder != []
      modifies this`unknownBuffered, this`unknownBufferOrder, this`buffered,
               this`retiredResponses, this`retiredResponseOverloaded, this`out
      ensures Valid() && EvictUnknown(State()) == EvictUnknown(old(State()))
      ensures unknownBufferOrder == old(unknownBufferOrder)[1..]
    {
      hide DeclineAll, Accountable;
      var expired := unknownBufferOrder[0];
      var known := expired in unknownBuffered;
      unknownBufferOrder := unknownBufferOrder[1..];
      unknownBuffered := unknownBuffered - {expired};
      if known && expired in buffered {
        var messages := buffered[expired].messages;
        buffered := buffered - {expired};
        RejectAll(messages, Expired);
      }
    }

    method TrackUnknownBuffer(thread: Id)
      requires Valid()
      modifies this`unknownBuffered, this`unknownBufferOrder, this`buffered,
               this`retiredResponses, this`retiredResponseOverloaded, this`out
      ensures Valid() && State() == TrackUnknown(old(State()), thread)
    {
      hide Accountable;
      if thread in unknownBuffered {
        return;
      }
      unknownBuffered := unknownBuffered + {thread};
      unknownBufferOrder := unknownBufferOrder + [thread];
      assert TrackUnknown(old(State()), thread) == EvictUnknown(State());
      while |unknownBuffered| > UNKNOWN_BUFFER_BUDGET && unknownBufferOrder != []
        invariant Valid()
        invariant EvictUnknown(State()) == TrackUnknown(old(State()), thread)
        decreases |unknownBufferOrder|
      {
        hide EvictUnknown, TrackUnknown;
        ExpireOldestUnknown();
      }
    }

    /** Keep an event until its owner is known. */
    method HoldMessage(event: Tagged)
      requires Valid()
      modifies this`unknownBuffered, this`unknownBufferOrder, this`buffered,
               this`retiredResponses, this`retiredResponseOverloaded, this`out
      ensures Valid() && State() == BufferMessage(old(State()), event)
    {
      hide Accountable, TrackUnknown, Store, Decline;
      var thread := event.message.thread;
      if thread == NO_THREAD || thread in failed.live {
        RejectRetiredRequest(event, FailedThread);
        return;
      }
      if thread !in routes && thread !in buffered {
        TrackUnknownBuffer(thread);
      }
      StoreEvent(event);
    }

    /** Put an event in the buffer of its thread, declining a request for which there is no room. */
    method StoreEvent(event: Tagged)
      requires Valid()
      modifies this`buffered, this`retiredResponses, this`retiredResponseOverloaded, this`out
      ensures Valid() && State() == Store(old(State()), event)
    {
      hide Accountable, Enqueue, Decline;
      var thread := event.message.thread;
      var route := if thread in buffered then buffered[thread] else EMPTY_BUFFER;
      var grown, lost := EnqueueEvent(route, thread in routes, event);
      buffered := buffered[thread := grown];
      if lost.Some? {
        RejectRetiredRequest(lost.value, Overflow(route.messages, thread in routes));
      }
    }

    method RetireOwnerOf(thread: Id)
      requires Valid()
      modifies this`owners, this`retiredChildren, this`retiredUnboundChildren
      ensures Valid() && State() == RetireOwner(old(State()), thread)
    {
      hide Accountable;
      if thread in owners {
        var owner := owners[thread];
        owners := owners - {thread};
        if owner.childTurn.Some? {
          retiredChildren := LayTombstone(retiredChildren, ChildTurn(thread, owner.childTurn.value));
        } else {
          retiredUnboundChildren := LayTombstone(retiredUnboundChildren, thread);
        }
      }
    }

    method ClearDescendantsOf(root: Id, env: Env)
      requires Valid()
      modifies this`owners, this`retiredChildren, this`retiredUnboundChildren,
               this`unknownBuffered, this`unknownBufferOrder, this`buffered,
               this`retiredResponses, this`retiredResponseOverloaded, this`out
      ensures Valid() && State() == ClearDescendants(old(State()), root, env)
    {
      hide RetireOwner, RejectBuffered, Accountable;
      var descendants := env.enumerate(set child | child in owners && owners[child].root == root);
      var i := 0;
      while i < |descendants|
        invariant i <= |descendants| && Valid()
        invariant ClearEach(State(), descendants[i..]) == ClearDescendants(old(State()), root, env)
      {
        assert descendants[i..][1..] == descendants[i + 1..];
        RetireOwnerOf(descendants[i]);
        RejectBufferedFor(descendants[i]);
        i := i + 1;
      }
    }

    method RemoveRouteIfSame(root: Id, expected: nat, env: Env) returns (removed: bool)
      requires Valid()
      modifies this`routes, this`failed, this`owners, this`retiredChildren, this`retiredUnboundChildren,
               this`unknownBuffered, this`unknownBufferOrder, this`buffered,
               this`retiredResponses, this`retiredResponseOverloaded, this`out
      ensures Valid() && State() == RemoveRoute(old(State()), root, expected, env)
      ensures removed == (root in old(routes) && old(routes)[root].tx == expected)
    {
      hide RetireOwner, RejectBuffered, Accountable, ClearDescendants, Bury;
      if root !in routes || routes[root].tx != expected {
        return false;
      }
      routes := routes - {root};
      ClearDescendantsOf(root, env);
      RetireOwnerOf(root);
      RejectBufferedFor(root);
      failed := LayTombstone(failed, root);
      removed := true;
    }

    /** One `try_send` on a channel; its consumer decides through `env`. */
    method Offer(tx: nat, event: Tagged, env: Env) returns (accepted: bool)
      requires Valid()
      modifies this`overloaded, this`attempts, this`log
      ensures Valid()
      ensures
        var sent := TrySend(old(State()).wire, tx, event, env);
        accepted == sent.accepted && State() == old(State()).(wire := sent.wire)
    {
      hide Accountable;
      accepted := false;
      if tx !in overloaded {
        match env.outcome(attempts) {
          case Accepts =>
            log := log + [Delivery(tx, event)];
            accepted := true;
          case ReceiverClosed =>
          case QueueFull =>
            overloaded := overloaded + {tx};
        }
      }
      attempts := attempts + 1;
    }

    /** Split a claimed buffer, declining what the announcement must not claim. */
    method ClaimEligible(child: Id, messages: seq<Tagged>, unresolved: bool, generation: nat)
      returns (eligible: seq<Tagged>)
      requires Valid()
      modifies this`retiredResponses, this`retiredResponseOverloaded, this`out
      ensures Valid()
      ensures State() == old(State()).(
        out := DeclineAll(old(State()).out, StaleEvents(old(State()), child, messages, unresolved, generation),
                          StaleClaim))
      ensures eligible == EligibleEvents(old(State()), child, messages, unresolved, generation)
    {
      hide Accountable;
      ghost var s := State();
      eligible := [];
      var i := 0;
      while i < |messages|
        invariant i <= |messages| && Valid() && State() == s.(out := State().out)
        invariant eligible + EligibleEvents(s, child, messages[i..], unresolved, generation)
                  == EligibleEvents(s, child, messages, unresolved, generation)
        invariant DeclineAll(State().out, StaleEvents(s, child, messages[i..], unresolved, generation), StaleClaim)
                  == DeclineAll(s.out, StaleEvents(s, child, messages, unresolved, generation), StaleClaim)
      {
        ClaimFirst(s, child, messages[i..], unresolved, generation);
        assert messages[i..][1..] == messages[i + 1..];
        ghost var others := StaleEvents(s, child, messages[i + 1..], unresolved, generation);
        DeclineFirst(State().out, messages[i], others, StaleClaim);
        var event := messages[i];
        var turn := event.message.turn;
        var retired := turn.Some? && ChildTurn(child, turn.value) in retiredChildren.live;
        var stale := unresolved || retired || (event.generation.Some? && event.generation.value != generation);
        assert stale == Stale(s, child, event, unresolved, generation);
        hide DeclineAll, Decline, Stale, StaleEvents, EligibleEvents;
        if stale {
          RejectRetiredRequest(event, StaleClaim);
        } else {
          eligible := eligible + [event];
        }
        i := i + 1;
      }
    }

    /** Bind `child` to the claim unless the same claim already owns a compatible turn of it. */
    method OwnChild(child: Id, claim: Claim, childTurn: Option<Id>)
      requires Valid()
      modifies this`owners, this`retiredChildren, this`retiredUnboundChildren
      ensures Valid() && State() == Own(old(State()), child, claim, childTurn)
    {
      hide Accountable, Bury;
      var preserve :=
        && child in owners
        && owners[child].root == claim.root
        && owners[child].rootTurn == claim.rootTurn
        && owners[child].generation == claim.generation
        && (childTurn.None? || owners[child].childTurn == childTurn);
      if !preserve {
        RetireOwnerOf(child);
        owners := owners[child := Owner(claim.root, claim.rootTurn, claim.generation, childTurn)];
      }
    }

    /** The turn the claimed events agree on, if they do. */
    method AgreedTurn(eligible: seq<Tagged>) returns (ambiguous: bool, childTurn: Option<Id>)
      ensures ambiguous == Ambiguous(eligible) && childTurn == ChildTurnOf(eligible)
    {
      var candidates := set event | event in eligible && event.message.turn.Some? :: event.message.turn.value;
      assert candidates == CandidateTurns(eligible);
      CandidatesDecide(eligible);
      ambiguous, childTurn := |candidates| > 1, None;
      if |candidates| == 1 {
        var turn :| turn in candidates;
        childTurn := Some(turn);
      }
    }

    /** Claim one announced child with everything buffered for it. */
    method ClaimChild(child: Id, claim: Claim) returns (more: seq<Tagged>, marks: seq<nat>)
      requires Valid()
      modifies this`owners, this`retiredChildren, this`retiredUnboundChildren,
               this`unknownBuffered, this`unknownBufferOrder, this`buffered,
               this`retiredResponses, this`retiredResponseOverloaded, this`out, this`adoptions
      ensures Valid() && Routed(State(), more, marks) == Announce(old(State()), child, claim)
    {
      hide Accountable, EligibleEvents, StaleEvents, DeclineAll, Ambiguous, ChildTurnOf, Own, Discard;
      more, marks := [], [];
      if child == claim.root {
        return;
      }
      var unresolved := child in retiredUnboundChildren.live;
      retiredUnboundChildren := Exhume(retiredUnboundChildren, child);
      var buffer := TakeBuffered(child);
      if buffer.None? {
        OwnChild(child, claim, None);
        return;
      }
      SameClaim(State(), old(State()), child, buffer.value.messages, unresolved, claim.generation);
      more, marks := ClaimBuffer(child, claim, buffer.value, unresolved);
    }

    /** Claim what was buffered for a child: its stale events are declined, and all of it if it is ambiguous. */
    method ClaimBuffer(child: Id, claim: Claim, buffer: Buffer, unresolved: bool)
      returns (more: seq<Tagged>, marks: seq<nat>)
      requires Valid()
      modifies this`owners, this`retiredChildren, this`retiredUnboundChildren,
               this`retiredResponses, this`retiredResponseOverloaded, this`out, this`adoptions
      ensures Valid()
      ensures
        var s := old(State());
        var eligible := EligibleEvents(s, child, buffer.messages, unresolved, claim.generation);
        var stale := StaleEvents(s, child, buffer.messages, unresolved, claim.generation);
        var taken := s.(out := DeclineAll(s.out, stale, StaleClaim),
                        adoptions := s.adoptions + [Adoption(claim.tx, buffer)]);
        var owned := Own(taken, child, claim, ChildTurnOf(eligible));
        Routed(State(), more, marks) ==
          if Ambiguous(eligible)
          then Routed(owned.(out := DeclineAll(owned.out, eligible, AmbiguousClaim)), [], [claim.tx])
          else Routed(owned, eligible, if Overflowed(buffer) then [claim.tx] else [])
    {
      hide Accountable, EligibleEvents, StaleEvents, DeclineAll, Ambiguous, ChildTurnOf, Own;
      more, marks := [], [];
      var eligible := ClaimEligible(child, buffer.messages, unresolved, claim.generation);
      adoptions := adoptions + [Adoption(claim.tx, buffer)];
      var ambiguous, childTurn := AgreedTurn(eligible);
      OwnChild(child, claim, childTurn);
      if ambiguous {
        RejectAll(eligible, AmbiguousClaim);
        marks := [claim.tx];
        return;
      }
      more := eligible;
      if buffer.requestOverloaded || buffer.announcementOverloaded || buffer.notificationOverloaded {
        marks := [claim.tx];
      }
    }

    method ClaimChildren(children: seq<Id>, claim: Claim) returns (more: seq<Tagged>, marks: seq<nat>)
      requires Valid()
      modifies this`owners, this`retiredChildren, this`retiredUnboundChildren,
               this`unknownBuffered, this`unknownBufferOrder, this`buffered,
               this`retiredResponses, this`retiredResponseOverloaded, this`out, this`adoptions
      ensures Valid() && Routed(State(), more, marks) == AnnounceAll(old(State()), children, claim)
    {
      hide Accountable, Announce;
      more, marks := [], [];
      var i := 0;
      while i < |children|
        invariant i <= |children| && Valid()
        invariant
          var rest := AnnounceAll(State(), children[i..], claim);
          Routed(rest.state, more + rest.more, marks + rest.marks) == AnnounceAll(old(State()), children, claim)
      {
        assert children[i..][1..] == children[i + 1..];
        var released, failing := ClaimChild(children[i], claim);
        more, marks := more + released, marks + failing;
        i := i + 1;
      }
    }

    /** The channel took the event: lift tombstones, end a completed child turn, claim announced children. */
    method AfterDelivery(event: Tagged, fate: Fate) returns (more: seq<Tagged>, marks: seq<nat>)
      requires Valid() && fate.Send?
      modifies this`failed, this`owners, this`retiredChildren, this`retiredUnboundChildren,
               this`unknownBuffered, this`unknownBufferOrder, this`buffered,
               this`retiredResponses, this`retiredResponseOverloaded, this`out, this`adoptions
      ensures Valid() && Routed(State(), more, marks) == Delivered(old(State()), event, fate)
    {
      hide Accountable, AnnounceAll, RetireOwner;
      var thread := event.message.thread;
      failed := Exhume(failed, thread);
      failed := Exhume(failed, fate.root);
      if fate.child && event.message.kind.Notification? && event.message.kind.turnCompleted {
        RetireOwnerOf(thread);
      }
      more, marks := ClaimChildren(event.message.children, Claim(fate.root, fate.rootTurn, fate.generation, fate.tx));
    }

    /** Who the event is for, binding an owner that has seen no turn yet. */
    method Resolve(event: Tagged) returns (fate: Fate)
      requires Valid()
      modifies this`owners
      ensures Valid() && State() == BindChild(old(State()), event)
      ensures fate == Classify(State(), event)
      ensures fate.Ignore? ==> event.message.thread == NO_THREAD
    {
      hide Accountable;
      var thread, turn := event.message.thread, event.message.turn;
      if thread == NO_THREAD {
        return Ignore;
      }
      if thread in routes {
        var route := routes[thread];
        if route.turn.None? {
          return Hold;
        }
        if turn.None? && event.generation != Some(route.generation) {
          return Refuse;
        }
        if turn.Some? && turn != route.turn {
          return Refuse;
        }
        return Send(thread, route.turn.value, route.generation, route.tx, false);
      }
      if thread !in owners {
        return Hold;
      }
      var owner := owners[thread];
      if turn.None? {
        return Refuse;
      }
      var retired := ChildTurn(thread, turn.value) in retiredChildren.live;
      if owner.childTurn.Some? && owner.childTurn != turn {
        return if retired then Refuse else Hold;
      }
      if owner.childTurn.None? {
        if retired {
          return Refuse;
        }
        owners := owners[thread := owner.(childTurn := turn)];
      }
      if owner.root !in routes {
        return Refuse;
      }
      var route := routes[owner.root];
      if route.turn != Some(owner.rootTurn) || route.generation != owner.generation {
        return Refuse;
      }
      return Send(owner.root, owner.rootTurn, owner.generation, route.tx, true);
    }

    /** Route the event at the head of the work list. */
    method RouteNext(event: Tagged, env: Env) returns (more: seq<Tagged>, marks: seq<nat>)
      requires Valid()
      modifies this
      ensures Valid() && Routed(State(), more, marks) == Step(old(State()), event, env)
      ensures nextGeneration == old(nextGeneration)
    {
      hide Accountable, BufferMessage, BindChild, Classify, Delivered, RemoveRoute, TrySend, Decline, Drop;
      more, marks := [], [];
      var fate := Resolve(event);
      IgnoredIsUnbound(old(State()), event);
      match fate {
        case Ignore => Skip(event);
        case Hold => HoldMessage(event);
        case Refuse => RejectRetiredRequest(event, NotEntitled);
        case Send(root, rootTurn, generation, tx, child) =>
          var accepted := Offer(tx, event, env);
          if accepted {
            more, marks := AfterDelivery(event, fate);
          } else {
            RejectRetiredRequest(event, Undeliverable);
            var removed := RemoveRouteIfSame(root, tx, env);
          }
      }
    }

    /** Route an event and everything its delivery releases, then fail lossy channels closed. */
    method RouteBufferedMessage(first: Tagged, env: Env)
      requires Valid()
      modifies this
      ensures Valid() && State() == RouteBuffered(old(State()), first, env)
    {
      hide Accountable, Step;
      var queue, overloadAfterDrain := [first], [];
      while queue != []
        invariant Valid()
        invariant Drain(State(), queue, overloadAfterDrain, env) == Drain(old(State()), [first], [], env)
        decreases Unresolved(State(), queue), |queue|
      {
        StepMakesProgress(State(), queue, env);
        hide Unresolved;
        var event := queue[0];
        var more, marks := RouteNext(event, env);
        queue, overloadAfterDrain := queue[1..] + more, overloadAfterDrain + marks;
      }
      FailClosed(overloadAfterDrain);
    }

    method FailClosed(lossy: seq<nat>)
      requires Valid()
      modifies this`overloaded
      ensures Valid() && State() == MarkOverloaded(old(State()), lossy)
    {
      hide Accountable;
      overloaded := overloaded + (set tx | tx in lossy);
    }

    /** A message arrived from the app-server. */
    method RouteArrival(message: Message, env: Env)
      requires Valid()
      modifies this
      ensures Valid() && State() == RouteMessage(old(State()), message, env)
    {
      hide Accountable, Drain, Decline;
      var thread, turn := message.thread, message.turn;
      var generation :=
        if thread in routes then Some(routes[thread].generation)
        else if thread in owners then Some(owners[thread].generation)
        else None;
      var event := Tagged(message.(stamp := received), generation);
      received := received + 1;
      arrivals := arrivals + [event];
      if turn.Some? && ChildTurn(thread, turn.value) in retiredChildren.live && thread !in routes {
        RejectRetiredRequest(event, RetiredTurn);
        return;
      }
      RouteBufferedMessage(event, env);
    }

    /** Drop what an earlier subscription or owner of `thread` left behind. */
    method VacateThread(thread: Id, env: Env)
      requires Valid()
      modifies this`owners, this`retiredChildren, this`retiredUnboundChildren,
               this`unknownBuffered, this`unknownBufferOrder, this`buffered,
               this`retiredResponses, this`retiredResponseOverloaded, this`out
      ensures Valid() && State() == Vacate(old(State()), thread, env)
    {
      hide Accountable, ClearDescendants, RetireOwner;
      ClearDescendantsOf(thread, env);
      RetireOwnerOf(thread);
    }

    /** Make a channel for `thread`; `tx` names it. */
    method SubscribeTo(thread: Id, env: Env) returns (tx: nat)
      requires Valid()
      modifies this
      ensures Valid() && State() == Subscribe(old(State()), thread, env)
      ensures tx == |old(subscriptions)|
    {
      hide Accountable, Vacate, AdoptUnknown;
      VacateThread(thread, env);
      failed := Exhume(failed, thread);
      AdoptUnknownBuffer(thread);
      ghost var adopted := State();
      tx := nextGeneration;
      nextGeneration := nextGeneration + 1;
      routes := routes[thread := Route(tx, nextGeneration, None)];
      subscriptions := subscriptions + [Subscription(thread, received, None)];
      assert State() == adopted.(
          generation := adopted.generation + 1,
          routes := adopted.routes[thread := Route(|adopted.subscriptions|, adopted.generation + 1, None)],
          subscriptions := adopted.subscriptions + [Subscription(thread, |adopted.arrivals|, None)]);
    }

    method BindRoute(thread: Id, turn: Id)
      requires Valid() && thread in routes
      modifies this`routes, this`subscriptions
      ensures Valid() && State() == Bind(old(State()), thread, turn)
    {
      hide Accountable;
      var tx := routes[thread].tx;
      routes := routes[thread := routes[thread].(turn := Some(turn))];
      if tx < |subscriptions| {
        subscriptions := subscriptions[tx := subscriptions[tx].(turn := Some(turn))];
      }
    }

    method RouteAll(messages: seq<Tagged>, env: Env)
      requires Valid()
      modifies this
      ensures Valid() && State() == RouteEach(old(State()), messages, env)
    {
      hide Accountable, RouteBuffered;
      var i := 0;
      while i < |messages|
        invariant i <= |messages| && Valid()
        invariant RouteEach(State(), messages[i..], env) == RouteEach(old(State()), messages, env)
      {
        assert messages[i..][1..] == messages[i + 1..];
        RouteBufferedMessage(messages[i], env);
        i := i + 1;
      }
    }

    /** `turn/start` returned: bind the route to the turn and route what was buffered for it. */
    method ActivateRoute(thread: Id, turn: Id, expected: nat, env: Env) returns (activated: bool)
      requires Valid()
      modifies this
      ensures Valid() && State() == Activate(old(State()), thread, turn, expected, env)
      ensures activated == (thread in old(routes) && old(routes)[thread].tx == expected)
    {
      hide Accountable, Discard, RouteEach, Bind, MarkOverloaded;
      if thread !in routes || routes[thread].tx != expected {
        return false;
      }
      BindRoute(thread, turn);
      var buffer := TakeBuffered(thread);
      activated := true;
      if buffer.Some? {
        RouteAll(buffer.value.messages, env);
        if buffer.value.requestOverloaded || buffer.value.announcementOverloaded
           || None in buffer.value.rootOverflowedTurns || Some(turn) in buffer.value.rootOverflowedTurns
        {
          FailClosed([expected]);
        }
      }
    }
  }
}
