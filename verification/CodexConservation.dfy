/**
 Where every event is: held in a buffer, put on a channel, declined, or
 dropped for a reason.

 Each router operation moves events between these places without losing or
 copying one, and never holds more than it was given. The first fact is the
 conservation of events; the second makes the work list of one routing call
 empty itself.
 */
module CodexConservation {
  import opened CodexIds
  import opened Tombstones
  import opened CodexRouting

  ghost function Pick(b: map<Id, Buffer>): (k: Id)
    requires b != map[]
    ensures k in b
  {
    var k :| k in b;
    k
  }

  /** Every buffered event, with multiplicity. */
  ghost function Held(b: map<Id, Buffer>): multiset<Tagged>
    decreases |b|
  {
    if b == map[] then multiset{}
    else var k := Pick(b); multiset(b[k].messages) + Held(b - {k})
  }

  /** Every event put on a channel, with multiplicity. */
  ghost function SentOn(log: seq<Delivery>): multiset<Tagged> {
    if log == [] then multiset{}
    else SentOn(log[..|log| - 1]) + multiset{log[|log| - 1].event}
  }

  /** Every event that was dropped, with multiplicity. */
  ghost function GivenUp(dropped: seq<Dropped>): multiset<Tagged> {
    if dropped == [] then multiset{}
    else GivenUp(dropped[..|dropped| - 1]) + multiset{dropped[|dropped| - 1].event}
  }

  /** How often `x` was declined or dropped. */
  ghost function Refused(out: Outbox, x: Tagged): nat {
    multiset(out.declined)[x] + GivenUp(out.dropped)[x]
  }

  /** How often `x` is held, sent, declined or dropped. */
  ghost function Account(s: Router, x: Tagged): nat {
    Held(s.buffered)[x] + SentOn(s.wire.log)[x] + Refused(s.out, x)
  }

  lemma {:induction false} HeldWithout(b: map<Id, Buffer>, k: Id)
    requires k in b
    ensures Held(b) == multiset(b[k].messages) + Held(b - {k})
    decreases |b|
  {
    var p := Pick(b);
    if p != k {
      HeldWithout(b - {p}, k);
      HeldWithout(b - {k}, p);
      assert (b - {p}) - {k} == (b - {k}) - {p};
      var others := Held(b - {p} - {k});
      assert Held(b) == multiset(b[p].messages) + (multiset(b[k].messages) + others);
      assert Held(b - {k}) == multiset(b[p].messages) + others;
    }
  }

  lemma HeldWith(b: map<Id, Buffer>, k: Id, buffer: Buffer)
    ensures Held(b[k := buffer]) == multiset(buffer.messages) + Held(b - {k})
    ensures k !in b ==> Held(b - {k}) == Held(b)
  {
    HeldWithout(b[k := buffer], k);
    assert b[k := buffer] - {k} == b - {k};
    assert k !in b ==> b - {k} == b;
  }

  lemma GivenUpAppends(dropped: seq<Dropped>, d: Dropped)
    ensures GivenUp(dropped + [d]) == GivenUp(dropped) + multiset{d.event}
  {
    assert (dropped + [d])[..|dropped|] == dropped;
  }

  lemma DeclineCounts(out: Outbox, event: Tagged, why: Reason, x: Tagged)
    requires Justified(event, why)
    ensures Refused(Decline(out, event, why), x) == Refused(out, x) + multiset{event}[x]
    ensures !Owed(event) ==> Refused(Drop(out, event, why), x) == Refused(out, x) + multiset{event}[x]
  {
    hide Accountable, GivenUp;
    GivenUpAppends(out.dropped, Dropped(event, why));
  }

  lemma {:induction false} DeclineAllCounts(out: Outbox, events: seq<Tagged>, why: Reason, x: Tagged)
    requires !why.Overflow?
    ensures Refused(DeclineAll(out, events, why), x) == Refused(out, x) + multiset(events)[x]
    decreases |events|
  {
    hide Refused, Decline;
    if events != [] {
      assert events == [events[0]] + events[1..];
      DeclineCounts(out, events[0], why, x);
      DeclineAllCounts(Decline(out, events[0], why), events[1..], why, x);
    }
  }

  lemma DiscardMoves(s: Router, thread: Id)
    ensures Held(s.buffered) == multiset(BufferOf(s, thread).messages) + Held(Discard(s, thread).buffered)
  {
    if thread in s.buffered {
      HeldWithout(s.buffered, thread);
    } else {
      assert s.buffered - {thread} == s.buffered;
    }
  }

  lemma RejectBufferedConserves(s: Router, thread: Id, x: Tagged)
    ensures Held(RejectBuffered(s, thread).buffered)[x] <= Held(s.buffered)[x]
    ensures Account(RejectBuffered(s, thread), x) == Account(s, x)
  {
    DiscardMoves(s, thread);
    DeclineAllCounts(s.out, BufferOf(s, thread).messages, Cleared, x);
  }

  lemma {:induction false} EvictUnknownConserves(s: Router, x: Tagged)
    ensures Held(EvictUnknown(s).buffered)[x] <= Held(s.buffered)[x]
    ensures Account(EvictUnknown(s), x) == Account(s, x)
    decreases |s.unknownOrder|
  {
    if |s.unknown| > UNKNOWN_BUFFER_BUDGET && s.unknownOrder != [] {
      var expired := s.unknownOrder[0];
      var popped := s.(unknownOrder := s.unknownOrder[1..], unknown := s.unknown - {expired});
      if expired in s.unknown && expired in s.buffered {
        HeldWithout(s.buffered, expired);
        DeclineAllCounts(s.out, s.buffered[expired].messages, Expired, x);
        EvictUnknownConserves(popped.(buffered := s.buffered - {expired},
                                      out := DeclineAll(s.out, s.buffered[expired].messages, Expired)), x);
      } else {
        EvictUnknownConserves(popped, x);
      }
    }
  }

  lemma Displace(events: seq<Tagged>, i: nat, event: Tagged, x: Tagged)
    requires i < |events|
    ensures multiset(events[..i] + events[i + 1..] + [event])[x] + multiset{events[i]}[x]
            == multiset(events)[x] + multiset{event}[x]
  {
    assert events == events[..i] + [events[i]] + events[i + 1..];
  }

  lemma EnqueueConserves(buffer: Buffer, subscribed: bool, event: Tagged, x: Tagged)
    ensures
      var e := Enqueue(buffer, subscribed, event);
      && multiset(e.buffer.messages)[x] <= multiset(buffer.messages)[x] + multiset{event}[x]
      && multiset(e.buffer.messages)[x] + (if e.lost.Some? then multiset{e.lost.value}[x] else 0)
         == multiset(buffer.messages)[x] + multiset{event}[x]
      && (e.lost.Some? && e.lost.value.message.kind.Request? ==> e.lost.value == event)
  {
    hide RecordLoss, FirstEvictable, Justified;
    var i := FirstEvictable(buffer.messages, subscribed);
    if |buffer.messages| < ROUTE_EVENT_BUDGET {
      assert multiset(buffer.messages + [event]) == multiset(buffer.messages) + multiset{event};
    } else if Important(event, subscribed) && i < |buffer.messages| {
      Displace(buffer.messages, i, event, x);
    }
  }

  lemma StoreConserves(s: Router, event: Tagged, x: Tagged)
    ensures Held(Store(s, event).buffered)[x] <= Held(s.buffered)[x] + multiset{event}[x]
    ensures Account(Store(s, event), x) == Account(s, x) + multiset{event}[x]
  {
    hide Held, SentOn, Enqueue, Refused, Decline;
    var thread := event.message.thread;
    var e := Enqueue(BufferOf(s, thread), thread in s.routes, event);
    if e.lost.Some? {
      DeclineCounts(s.out, e.lost.value, Overflow(BufferOf(s, thread).messages, thread in s.routes), x);
    }
    EnqueueConserves(BufferOf(s, thread), thread in s.routes, event, x);
    DiscardMoves(s, thread);
    HeldWith(s.buffered, thread, e.buffer);
  }

  lemma BufferMessageConserves(s: Router, event: Tagged, x: Tagged)
    ensures Held(BufferMessage(s, event).buffered)[x] <= Held(s.buffered)[x] + multiset{event}[x]
    ensures Account(BufferMessage(s, event), x) == Account(s, x) + multiset{event}[x]
  {
    hide Held, SentOn, Store, EvictUnknown, Refused, Decline;
    var thread := event.message.thread;
    DeclineCounts(s.out, event, FailedThread, x);
    EvictUnknownConserves(s.(unknown := s.unknown + {thread}, unknownOrder := s.unknownOrder + [thread]), x);
    StoreConserves(s, event, x);
    StoreConserves(TrackUnknown(s, thread), event, x);
  }

  lemma {:induction false} ClearEachConserves(s: Router, children: seq<Id>, x: Tagged)
    ensures Held(ClearEach(s, children).buffered)[x] <= Held(s.buffered)[x]
    ensures Account(ClearEach(s, children), x) == Account(s, x)
    decreases |children|
  {
    if children != [] {
      var retired := RetireOwner(s, children[0]);
      RejectBufferedConserves(retired, children[0], x);
      ClearEachConserves(RejectBuffered(retired, children[0]), children[1..], x);
    }
  }

  lemma RemoveRouteConserves(s: Router, root: Id, tx: nat, env: Env, x: Tagged)
    ensures Held(RemoveRoute(s, root, tx, env).buffered)[x] <= Held(s.buffered)[x]
    ensures Account(RemoveRoute(s, root, tx, env), x) == Account(s, x)
  {
    hide Held, SentOn, ClearEach, RejectBuffered, Bury;
    if root in s.routes && s.routes[root].tx == tx {
      var detached := s.(routes := s.routes - {root});
      ClearEachConserves(detached, env.enumerate(Descendants(detached, root)), x);
      RejectBufferedConserves(RetireOwner(ClearDescendants(detached, root, env), root), root, x);
    }
  }

  lemma FirstCounts(first: Tagged, rest: seq<Tagged>)
    ensures multiset([first] + rest) == multiset{first} + multiset(rest)
  {
  }

  lemma {:induction false} ClaimSplits(s: Router, child: Id, events: seq<Tagged>, unresolved: bool, generation: nat)
    ensures multiset(StaleEvents(s, child, events, unresolved, generation))
            + multiset(EligibleEvents(s, child, events, unresolved, generation)) == multiset(events)
    decreases |events|
  {
    hide Stale;
    if events != [] {
      var first, rest := events[0], events[1..];
      var stale, eligible := StaleEvents(s, child, rest, unresolved, generation),
                             EligibleEvents(s, child, rest, unresolved, generation);
      ClaimSplits(s, child, rest, unresolved, generation);
      FirstCounts(first, rest);
      assert events == [first] + rest;
      if Stale(s, child, first, unresolved, generation) {
        assert EligibleEvents(s, child, events, unresolved, generation) == [] + eligible == eligible;
        FirstCounts(first, stale);
      } else {
        assert StaleEvents(s, child, events, unresolved, generation) == [] + stale == stale;
        FirstCounts(first, eligible);
      }
    }
  }

  lemma AnnounceConserves(s: Router, child: Id, claim: Claim, x: Tagged)
    ensures
      var r := Announce(s, child, claim);
      && Held(r.state.buffered)[x] + multiset(r.more)[x] <= Held(s.buffered)[x]
      && Account(r.state, x) + multiset(r.more)[x] == Account(s, x)
  {
    hide Held, SentOn, StaleEvents, EligibleEvents, DeclineAll, Ambiguous, ChildTurnOf, Without, Own;
    DiscardMoves(s, child);
    if child != claim.root && child in s.buffered {
      var messages := s.buffered[child].messages;
      var unresolved := child in s.retiredUnbound.live;
      var stale := StaleEvents(s, child, messages, unresolved, claim.generation);
      var eligible := EligibleEvents(s, child, messages, unresolved, claim.generation);
      ClaimSplits(s, child, messages, unresolved, claim.generation);
      DeclineAllCounts(s.out, stale, StaleClaim, x);
      DeclineAllCounts(DeclineAll(s.out, stale, StaleClaim), eligible, AmbiguousClaim, x);
      var r := Announce(s, child, claim);
      assert r.state.buffered == Discard(s, child).buffered && r.state.wire == s.wire;
      if Ambiguous(eligible) {
        assert r.state.out == DeclineAll(DeclineAll(s.out, stale, StaleClaim), eligible, AmbiguousClaim);
        assert r.more == [];
      } else {
        assert r.state.out == DeclineAll(s.out, stale, StaleClaim) && r.more == eligible;
      }
      hide Announce;
      assert multiset(messages)[x] == multiset(stale)[x] + multiset(eligible)[x];
    }
  }

  lemma {:induction false} AnnounceAllConserves(s: Router, children: seq<Id>, claim: Claim, x: Tagged)
    ensures
      var r := AnnounceAll(s, children, claim);
      && Held(r.state.buffered)[x] + multiset(r.more)[x] <= Held(s.buffered)[x]
      && Account(r.state, x) + multiset(r.more)[x] == Account(s, x)
    decreases |children|
  {
    if children != [] {
      AnnounceConserves(s, children[0], claim, x);
      AnnounceAllConserves(Announce(s, children[0], claim).state, children[1..], claim, x);
    }
  }

  lemma SentOnAppends(log: seq<Delivery>, d: Delivery)
    ensures SentOn(log + [d]) == SentOn(log) + multiset{d.event}
  {
    assert (log + [d])[..|log|] == log;
  }

  lemma DispatchConserves(s: Router, event: Tagged, fate: Fate, env: Env, x: Tagged)
    requires fate.Send?
    ensures
      var r := Dispatch(s, event, fate, env);
      && Held(r.state.buffered)[x] + multiset(r.more)[x] <= Held(s.buffered)[x]
      && Account(r.state, x) + multiset(r.more)[x] == Account(s, x) + multiset{event}[x]
  {
    hide Held, SentOn, AnnounceAll, RemoveRoute, Refused, Decline;
    var sent := TrySend(s.wire, fate.tx, event, env);
    if sent.accepted {
      SentOnAppends(s.wire.log, Delivery(fate.tx, event));
      var out := s.(wire := sent.wire);
      var cleared := out.(failed := Exhume(Exhume(out.failed, event.message.thread), fate.root));
      var ended :=
        if fate.child && event.message.kind.Notification? && event.message.kind.turnCompleted
        then RetireOwner(cleared, event.message.thread) else cleared;
      assert Account(ended, x) == Account(s, x) + multiset{event}[x];
      AnnounceAllConserves(ended, event.message.children,
                           Claim(fate.root, fate.rootTurn, fate.generation, fate.tx), x);
    } else {
      var declined := s.(wire := sent.wire, out := Decline(s.out, event, Undeliverable));
      DeclineCounts(s.out, event, Undeliverable, x);
      RemoveRouteConserves(declined, fate.root, fate.tx, env, x);
    }
  }

  /** One step copies no event and loses none, and only a delivery can refill the work list. */
  lemma StepConserves(s: Router, event: Tagged, env: Env, x: Tagged)
    ensures
      var r := Step(s, event, env);
      && Held(r.state.buffered)[x] + multiset(r.more)[x] <= Held(s.buffered)[x] + multiset{event}[x]
      && (r.more != [] ==> Held(r.state.buffered)[x] + multiset(r.more)[x] <= Held(s.buffered)[x])
      && Account(r.state, x) + multiset(r.more)[x] == Account(s, x) + multiset{event}[x]
  {
    hide Held, SentOn, BufferMessage, Dispatch, ChildFate, RootFate, Refused, Decline, Drop;
    var bound := BindChild(s, event);
    var fate := Classify(bound, event);
    DeclineCounts(s.out, event, NotEntitled, x);
    DeclineCounts(s.out, event, Unaddressed, x);
    if fate.Hold? {
      BufferMessageConserves(bound, event, x);
    } else if fate.Send? {
      DispatchConserves(bound, event, fate, env, x);
    }
  }

  lemma SubMultisetIsSmaller<T>(a: multiset<T>, b: multiset<T>)
    requires forall x | x in a :: a[x] <= b[x]
    ensures |a| <= |b|
  {
    assert b == a + (b - a);
  }

  /** The measure of a routing call: all unresolved events, then those in the work list. */
  ghost function Unresolved(s: Router, queue: seq<Tagged>): nat {
    |Held(s.buffered)| + |queue|
  }

  lemma StepMakesProgress(s: Router, queue: seq<Tagged>, env: Env)
    requires queue != []
    ensures
      var r := Step(s, queue[0], env);
      var rest := queue[1..] + r.more;
      || Unresolved(r.state, rest) < Unresolved(s, queue)
      || (Unresolved(r.state, rest) == Unresolved(s, queue) && |rest| < |queue|)
  {
    var r := Step(s, queue[0], env);
    forall x ensures
      && Held(r.state.buffered)[x] + multiset(r.more)[x] <= Held(s.buffered)[x] + multiset{queue[0]}[x]
      && (r.more != [] ==> Held(r.state.buffered)[x] + multiset(r.more)[x] <= Held(s.buffered)[x])
    {
      StepConserves(s, queue[0], env, x);
    }
    SubMultisetIsSmaller(Held(r.state.buffered) + multiset(r.more), Held(s.buffered) + multiset{queue[0]});
    if r.more != [] {
      SubMultisetIsSmaller(Held(r.state.buffered) + multiset(r.more), Held(s.buffered));
    }
  }
}
