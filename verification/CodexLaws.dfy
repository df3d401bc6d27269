/**
 What a reader of the router may rely on beyond where the events end up: which
 events a full buffer gives up, which requests are answered, when a channel
 falls silent, and what tombstones keep away.
 */
module CodexLaws {
  import opened CodexIds
  import opened Options
  import opened Tombstones
  import opened CodexRouting
  import opened CodexConservation
  import opened CodexOperations
  import opened CodexInvariants
  import opened CodexInvariantSteps
  import opened CodexAttribution
  import opened CodexPromises
  import opened CodexReplaySteps
  import opened CodexReplay

  // ---- A full buffer --------------------------------------------------------

  /** Plain transcript: a notification, and before there is a subscription one that announces nobody. */
  ghost predicate Plain(event: Tagged, subscribed: bool) {
    event.message.kind.Notification? && (subscribed || event.message.children == [])
  }

  /** A request, or before there is a subscription an announcement. */
  ghost predicate Pressing(event: Tagged, subscribed: bool) {
    event.message.kind.Request? || (!subscribed && event.message.children != [])
  }

  /** The first plain event is at `i`. */
  ghost predicate FirstPlain(events: seq<Tagged>, subscribed: bool, i: int) {
    0 <= i < |events| && Plain(events[i], subscribed) && forall k | 0 <= k < i :: !Plain(events[k], subscribed)
  }

  /**
   An event is refused exactly if the buffer is full and the event is not
   pressing or nothing plain is there. Otherwise it is kept last: behind all
   others while there is room, and else in place of the first plain event.
   */
  lemma EnqueueExactly(b: Buffer, subscribed: bool, event: Tagged)
    ensures
      var r := Enqueue(b, subscribed, event);
      var full := |b.messages| >= ROUTE_EVENT_BUDGET;
      var displaces := full && Pressing(event, subscribed) && exists i :: FirstPlain(b.messages, subscribed, i);
      && (r.buffer.messages == b.messages && r.lost == Some(event) <==> full && !displaces)
      && (!full ==> r.buffer.messages == b.messages + [event] && r.lost == None)
      && (displaces ==> exists i ::
            && FirstPlain(b.messages, subscribed, i) && r.lost == Some(b.messages[i])
            && r.buffer.messages == b.messages[..i] + b.messages[i + 1..] + [event])
  {
    hide Enqueue, FirstPlain, Pressing;
    if |b.messages| < ROUTE_EVENT_BUDGET {
      RoomKeeps(b, subscribed, event);
    } else if Pressing(event, subscribed) && exists i :: FirstPlain(b.messages, subscribed, i) {
      var i := PressingDisplaces(b, subscribed, event);
      assert FirstPlain(b.messages, subscribed, i);
    } else {
      FullRefuses(b, subscribed, event);
    }
  }

  lemma RoomKeeps(b: Buffer, subscribed: bool, event: Tagged)
    requires |b.messages| < ROUTE_EVENT_BUDGET
    ensures Enqueue(b, subscribed, event) == Enqueued(b.(messages := b.messages + [event]), None)
  {
  }

  lemma PressingDisplaces(b: Buffer, subscribed: bool, event: Tagged) returns (i: nat)
    requires |b.messages| >= ROUTE_EVENT_BUDGET && Pressing(event, subscribed)
    requires exists i :: FirstPlain(b.messages, subscribed, i)
    ensures FirstPlain(b.messages, subscribed, i) && event != b.messages[i]
    ensures Enqueue(b, subscribed, event).lost == Some(b.messages[i])
    ensures Enqueue(b, subscribed, event).buffer.messages == b.messages[..i] + b.messages[i + 1..] + [event]
  {
    hide RecordLoss;
    var first :| FirstPlain(b.messages, subscribed, first);
    assert Evictable(b.messages[first], subscribed);
    i := FirstEvictable(b.messages, subscribed);
  }

  lemma FullRefuses(b: Buffer, subscribed: bool, event: Tagged)
    requires |b.messages| >= ROUTE_EVENT_BUDGET
    requires Pressing(event, subscribed) ==> forall i :: !FirstPlain(b.messages, subscribed, i)
    ensures Enqueue(b, subscribed, event).lost == Some(event)
    ensures Enqueue(b, subscribed, event).buffer.messages == b.messages
  {
    hide RecordLoss;
    var i := FirstEvictable(b.messages, subscribed);
    assert i < |b.messages| ==> FirstPlain(b.messages, subscribed, i);
  }

  /** Over every run: a request was declined for want of room only where its buffer was full of pressing events. */
  lemma OverflowIsJustified(ops: seq<Op>, world: World, k: nat)
    requires k < |Run(ops, world).out.declined|
    ensures
      var out := Run(ops, world).out;
      && k < |out.reasons|
      && (out.reasons[k].Overflow? ==>
            && |out.reasons[k].held| >= ROUTE_EVENT_BUDGET
            && forall i | 0 <= i < |out.reasons[k].held| :: Pressing(out.reasons[k].held[i], out.reasons[k].subscribed))
  {
    hide Run;
    var out := Run(ops, world).out;
    assert Accountable(out);
    assert Justified(out.declined[k], out.reasons[k]);
  }

  /** One step: a request that is to wait is held last, or its buffer is full of pressing events. */
  lemma RequestWaitsUnlessFull(s: Router, event: Tagged, env: Env)
    requires Classify(BindChild(s, event), event).Hold? && event.message.kind.Request?
    requires event.message.thread !in s.failed.live
    ensures
      var t, r := event.message.thread, Step(s, event, env).state;
      var held := BufferOf(s, t).messages;
      || (t in r.buffered && |r.buffered[t].messages| > 0
          && r.buffered[t].messages[|r.buffered[t].messages| - 1] == event)
      || (|held| >= ROUTE_EVENT_BUDGET && forall i | 0 <= i < |held| :: Pressing(held[i], t in s.routes))
  {
    hide Enqueue, TrackUnknown, Decline, Classify;
    var t, bound := event.message.thread, BindChild(s, event);
    EnqueueExactly(BufferOf(s, t), t in s.routes, event);
    EnqueueExactly(EMPTY_BUFFER, t in s.routes, event);
    if t !in s.routes && t !in s.buffered {
      EnqueueExactly(BufferOf(TrackUnknown(bound, t), t), t in s.routes, event);
      TrackedIsNew(bound, t);
    } else {
      var held, subscribed := BufferOf(s, t).messages, t in s.routes;
      if !(exists i :: FirstPlain(held, subscribed, i)) { AllPressing(held, subscribed); }
    }
  }

  lemma TrackedIsNew(s: Router, t: Id)
    requires t !in s.buffered
    ensures t !in TrackUnknown(s, t).buffered && TrackUnknown(s, t).routes == s.routes
  {
    EvictShrinks(s.(unknown := s.unknown + {t}, unknownOrder := s.unknownOrder + [t]));
  }

  lemma {:induction false} EvictShrinks(s: Router)
    ensures EvictUnknown(s).buffered.Keys <= s.buffered.Keys
    decreases |s.unknownOrder|
  {
    hide DeclineAll;
    if |s.unknown| > UNKNOWN_BUFFER_BUDGET && s.unknownOrder != [] {
      var expired := s.unknownOrder[0];
      var popped := s.(unknownOrder := s.unknownOrder[1..], unknown := s.unknown - {expired});
      if expired in s.unknown && expired in s.buffered {
        EvictShrinks(popped.(buffered := s.buffered - {expired},
                             out := DeclineAll(s.out, s.buffered[expired].messages, Expired)));
      } else {
        EvictShrinks(popped);
      }
    }
  }

  lemma {:induction false} AllPressing(events: seq<Tagged>, subscribed: bool)
    requires forall i :: !FirstPlain(events, subscribed, i)
    ensures forall i | 0 <= i < |events| :: Pressing(events[i], subscribed)
  {
    var i := FirstEvictable(events, subscribed);
    assert i < |events| ==> FirstPlain(events, subscribed, i);
    assert forall k | 0 <= k < |events| :: !Evictable(events[k], subscribed);
  }

  // ---- Answers --------------------------------------------------------------

  /** Every response there ever was: handed over, or waiting. */
  function AllResponses(out: Declines): seq<Response> {
    out.handed + out.responses
  }

  /** Where in the history the request is that a response answers. */
  ghost function AnswerTo(out: Declines, i: nat): nat
    requires |out.answers| == |out.handed|
  {
    if i < |out.handed| then out.answers[i] else out.flushed + i - |out.handed|
  }

  lemma AnswersAreInOrder(out: Outbox, i: nat, j: nat)
    requires i <= j < |AllResponses(out)|
    ensures |out.answers| == |out.handed|
    ensures AnswerTo(out, i) < |out.declined| && Answers(AllResponses(out)[i], out.declined[AnswerTo(out, i)])
    ensures i < j ==> AnswerTo(out, i) < AnswerTo(out, j)
  {
    assert Accountable(out);
  }

  /** The requests that arrived have ids of their own. */
  ghost predicate DistinctIds(arrivals: seq<Tagged>) {
    forall a, b | 0 <= a < b < |arrivals| && arrivals[a].message.kind.Request? && arrivals[b].message.kind.Request? ::
      arrivals[a].message.kind.id != arrivals[b].message.kind.id
  }

  /** A declined request arrived, and was declined once. */
  lemma DeclinedOnce(ops: seq<Op>, world: World, i: nat, j: nat)
    requires i < j < |Run(ops, world).out.declined|
    ensures Run(ops, world).out.declined[i] != Run(ops, world).out.declined[j]
  {
    hide Run, Held, SentOn, GivenUp;
    var declined := Run(ops, world).out.declined;
    EveryEventOnce(ops, world, declined[i]);
    if declined[i] == declined[j] { TwiceCounts(declined, i, j); }
  }

  lemma TwiceCounts(events: seq<Tagged>, i: nat, j: nat)
    requires i < j < |events| && events[i] == events[j]
    ensures multiset(events)[events[i]] >= 2
  {
    assert events == events[..i] + [events[i]] + events[i + 1..j] + [events[j]] + events[j + 1..];
  }

  lemma DeclinedArrived(ops: seq<Op>, world: World, i: nat)
    requires i < |Run(ops, world).out.declined|
    ensures Run(ops, world).out.declined[i] in Run(ops, world).arrivals
  {
    hide Run, Held, SentOn, GivenUp;
    var declined := Run(ops, world).out.declined;
    assert declined[i] in multiset(declined);
    EveryEventOnce(ops, world, declined[i]);
  }

  /** Over every run: no id is answered that was not asked and, where requests have ids of their own, none twice. */
  lemma NoAnswerTwice(ops: seq<Op>, world: World, i: nat, j: nat)
    requires i <= j < |AllResponses(Run(ops, world).out)|
    ensures
      var s := Run(ops, world);
      var responses := AllResponses(s.out);
      && (exists a | 0 <= a < |s.arrivals| ::
            s.arrivals[a].message.kind.Request? && s.arrivals[a].message.kind.id == responses[i].id)
      && (i < j && DistinctIds(s.arrivals) ==> responses[i].id != responses[j].id)
  {
    hide Run, Accountable;
    var s := Run(ops, world);
    var out := s.out;
    AnswersAreInOrder(out, i, j);
    AnswersAreInOrder(out, j, j);
    var m, n := AnswerTo(out, i), AnswerTo(out, j);
    DeclinedArrived(ops, world, m);
    DeclinedArrived(ops, world, n);
    var a :| 0 <= a < |s.arrivals| && s.arrivals[a] == out.declined[m];
    var b :| 0 <= b < |s.arrivals| && s.arrivals[b] == out.declined[n];
    if i < j {
      DeclinedOnce(ops, world, m, n);
      assert a != b;
    }
  }

  // ---- Channels -------------------------------------------------------------

  /** From `s` to `r` nothing was put on a channel that was overloaded before. */
  ghost predicate Hushed(s: Router, r: Router) {
    && s.wire.log <= r.wire.log && s.wire.overloaded <= r.wire.overloaded
    && (forall k | |s.wire.log| <= k < |r.wire.log| :: r.wire.log[k].tx !in s.wire.overloaded)
  }

  lemma HushedTrans(s: Router, q: Router, r: Router)
    requires Hushed(s, q) && Hushed(q, r)
    ensures Hushed(s, r)
  {
    forall k | |s.wire.log| <= k < |r.wire.log|
      ensures r.wire.log[k].tx !in s.wire.overloaded
    {
      assert k < |q.wire.log| ==> q.wire.log[k] == r.wire.log[k];
    }
  }

  lemma StepHushes(s: Router, event: Tagged, env: Env)
    ensures Hushed(s, Step(s, event, env).state)
  {
    hide Classify, BindChild, BufferMessage, Delivered, RemoveRoute, Decline, Drop;
  }

  lemma {:induction false} DrainHushes(s: Router, queue: seq<Tagged>, marks: seq<nat>, env: Env)
    ensures Hushed(s, Drain(s, queue, marks, env).state)
    decreases Unresolved(s, queue), |queue|
  {
    hide Step, Unresolved, Hushed;
    if queue == [] {
      NothingHushes(s);
    } else {
      StepMakesProgress(s, queue, env);
      StepHushes(s, queue[0], env);
      var r := Step(s, queue[0], env);
      DrainHushes(r.state, queue[1..] + r.more, marks + r.marks, env);
      HushedTrans(s, r.state, Drain(s, queue, marks, env).state);
    }
  }

  lemma NothingHushes(s: Router)
    ensures Hushed(s, s)
  {
  }

  lemma RouteBufferedHushes(s: Router, event: Tagged, env: Env)
    ensures Hushed(s, RouteBuffered(s, event, env))
  {
    hide Drain;
    DrainHushes(s, [event], [], env);
  }

  lemma {:induction false} RouteEachHushes(s: Router, events: seq<Tagged>, env: Env)
    ensures Hushed(s, RouteEach(s, events, env))
    decreases |events|
  {
    hide RouteBuffered, Hushed;
    if events == [] {
      NothingHushes(s);
    } else {
      var next := RouteBuffered(s, events[0], env);
      RouteBufferedHushes(s, events[0], env);
      RouteEachHushes(next, events[1..], env);
      HushedTrans(s, next, RouteEach(s, events, env));
    }
  }

  lemma ApplyHushes(s: Router, op: Op, env: Env)
    ensures Hushed(s, Apply(s, op, env))
  {
    hide RouteBuffered, RouteEach, RelevantOverflow, Discard, Vacate, RemoveRoute, AdoptUnknown, Decline;
    match op
    case Arrive(message) =>
      var event := Received(s, message);
      RouteBufferedHushes(s.(arrivals := s.arrivals + [event]), event, env);
    case Activating(u, turn, tx) =>
      if u in s.routes { RouteEachHushes(Discard(Bind(s, u, turn), u), BufferOf(s, u).messages, env); }
    case _ =>
  }

  /** Over every run: once a channel is overloaded, nothing is put on it any more. */
  lemma {:induction false} OverloadedStaysSilent(ops: seq<Op>, world: World, n: nat)
    requires n <= |ops|
    ensures Hushed(Run(ops[..n], world), Run(ops, world))
    decreases |ops|
  {
    hide Hushed, Apply;
    if n == |ops| {
      assert ops[..n] == ops;
      NothingHushes(Run(ops, world));
    } else {
      var m := |ops| - 1;
      assert ops[..m][..n] == ops[..n];
      OverloadedStaysSilent(ops[..m], world, n);
      ApplyHushes(Run(ops[..m], world), ops[m], world(m));
      HushedTrans(Run(ops[..n], world), Run(ops[..m], world), Run(ops, world));
    }
  }

  /** A channel that does not take an event loses its route, and is overloaded exactly if it was or is full now. */
  lemma RefusedSendEndsRoute(s: Router, event: Tagged, env: Env)
    requires Classify(BindChild(s, event), event).Send?
    ensures
      var fate, r := Classify(BindChild(s, event), event), Step(s, event, env).state;
      var refused := fate.tx in s.wire.overloaded || env.outcome(s.wire.attempts) != Accepts;
      && (refused ==> fate.root !in r.routes && r.wire.log == s.wire.log)
      && (!refused ==> r.routes == s.routes && r.wire.log == s.wire.log + [Delivery(fate.tx, event)])
      && (forall tx :: tx in r.wire.overloaded <==>
            || tx in s.wire.overloaded
            || (tx == fate.tx && env.outcome(s.wire.attempts) == QueueFull))
  {
    hide Delivered, ClearDescendants, RetireOwner, RejectBuffered, Bury, Decline, Drop;
    var bound := BindChild(s, event);
    var fate := Classify(bound, event);
    SendIsLive(bound, event);
    var sent := TrySend(s.wire, fate.tx, event, env);
    var declined := bound.(wire := sent.wire, out := Decline(bound.out, event, Undeliverable));
    ClearDescendantsFrame(declined.(routes := declined.routes - {fate.root}), fate.root, env);
  }

  // ---- Tombstones -----------------------------------------------------------

  /** Over every run: a thread with a tombstone has neither a subscription nor a buffer. */
  lemma FailedThreadsHoldNothing(ops: seq<Op>, world: World, t: Id)
    requires LegalRun(ops, world) && t in Run(ops, world).failed.live
    ensures t !in Run(ops, world).routes && t !in Run(ops, world).buffered
  {
    hide Run, LegalRun;
    RunGrows(ops, world, 0);
  }

  /** An owner that goes leaves the tombstone of the turn it had bound, or of the child if it had bound none. */
  lemma RetiredOwnerIsMarked(s: Router, t: Id)
    requires Buried(s) && t in s.owners
    ensures
      var r := RetireOwner(s, t);
      && t !in r.owners
      && (s.owners[t].childTurn.Some? ==> Retired(r, t, s.owners[t].childTurn))
      && (s.owners[t].childTurn.None? ==> t in r.retiredUnbound.live)
  {
    hide Bury, WellFormed;
    if s.owners[t].childTurn.Some? {
      BuryKeepsBounds(s.retiredTurns, ChildTurn(t, s.owners[t].childTurn.value));
    } else {
      BuryKeepsBounds(s.retiredUnbound, t);
    }
  }

  /** Once the end of a child turn went out, the child has no owner and its turn is retired. */
  lemma CompletionRetires(s: Router, event: Tagged, env: Env)
    requires Inv(s) && EndsTurn(event.message) && event.message.children == []
    requires
      var fate := Classify(BindChild(s, event), event);
      fate.Send? && fate.child && fate.tx !in s.wire.overloaded && env.outcome(s.wire.attempts) == Accepts
    ensures
      var t, r := event.message.thread, Step(s, event, env).state;
      t !in r.owners && Retired(r, t, event.message.turn) && t !in r.failed.live
  {
    hide IndexInv, BuffersInv, RoutesInv, OwnersInv, WellFormed, RetireOwner, BindChild, Classify;
    var bound := BindChild(s, event);
    BindChildKeeps(s, event);
    SendIsLive(bound, event);
    var fate := Classify(bound, event);
    var cleared := bound.(wire := TrySend(bound.wire, fate.tx, event, env).wire,
                          failed := Exhume(Exhume(bound.failed, event.message.thread), fate.root));
    ExhumeKeeps(bound.failed, event.message.thread);
    ExhumeKeeps(Exhume(bound.failed, event.message.thread), fate.root);
    RetiredOwnerIsMarked(cleared, event.message.thread);
  }

  /** Over every run: what arrives for a retired child turn is refused at once and changes nothing else. */
  lemma RetiredTurnIsRefused(ops: seq<Op>, world: World, message: Message)
    requires Retired(Run(ops, world), message.thread, message.turn) && message.thread !in Run(ops, world).routes
    ensures
      var s, r := Run(ops, world), Run(ops + [Arrive(message)], world);
      && r == s.(arrivals := r.arrivals, out := r.out)
      && r.arrivals == s.arrivals + [Received(s, message)]
      && Refused(r.out, Received(s, message)) == Refused(s.out, Received(s, message)) + 1
  {
    hide Run, Refused, Decline, RouteBuffered;
    var s := Run(ops, world);
    RunLonger(ops, Arrive(message), world);
    DeclineCounts(s.out, Received(s, message), RetiredTurn, Received(s, message));
  }

  /** After a child was retired before it had a turn, its next announcement claims nothing that was buffered. */
  lemma UnresolvedClaimsNothing(s: Router, child: Id, claim: Claim)
    requires child in s.retiredUnbound.live && child != claim.root && child in s.buffered
    ensures
      var r := Announce(s, child, claim);
      && r.more == [] && child !in r.state.buffered
      && forall x :: Refused(r.state.out, x) == Refused(s.out, x) + multiset(s.buffered[child].messages)[x]
  {
    hide Refused, DeclineAll, EligibleEvents, StaleEvents, RetireOwner;
    var messages := s.buffered[child].messages;
    AllUnresolved(s, child, messages, claim.generation);
    forall x
      ensures Refused(Announce(s, child, claim).state.out, x) == Refused(s.out, x) + multiset(messages)[x]
    {
      DeclineAllCounts(s.out, messages, StaleClaim, x);
    }
  }

  lemma {:induction false} AllUnresolved(s: Router, child: Id, events: seq<Tagged>, generation: nat)
    ensures EligibleEvents(s, child, events, true, generation) == []
    ensures StaleEvents(s, child, events, true, generation) == events
    decreases |events|
  {
    if events != [] {
      AllUnresolved(s, child, events[1..], generation);
      assert events == [events[0]] + events[1..];
    }
  }

  /** What a child says while it is owned carries its owner's generation, and no other root can claim it. */
  lemma OwnedEventsAreKept(s: Router, message: Message, child: Id, claim: Claim)
    requires message.thread == child && child !in s.routes && child in s.owners
    requires child in s.buffered && claim.generation != s.owners[child].generation
    ensures
      var e := Received(s, message);
      e !in EligibleEvents(s, child, s.buffered[child].messages, child in s.retiredUnbound.live, claim.generation)
  {
    EligibleAreFresh(s, child, s.buffered[child].messages, child in s.retiredUnbound.live, claim.generation);
    hide EligibleEvents;
  }

  // ---- Unknown threads ------------------------------------------------------

  /** A new unknown thread makes the oldest one expire if and only if there are 64 already, and no other. */
  lemma OldestUnknownExpires(s: Router, t: Id)
    requires Indexed(s) && t !in s.routes && t !in s.buffered
    ensures
      var r := TrackUnknown(s, t);
      var full := |s.unknownOrder| >= UNKNOWN_BUFFER_BUDGET;
      && (!full ==> r.unknownOrder == s.unknownOrder + [t] && r.buffered == s.buffered && r.out == s.out)
      && (full ==> (|s.unknownOrder| > 0 &&
            var oldest := s.unknownOrder[0];
            && r.unknownOrder == s.unknownOrder[1..] + [t] && r.buffered == s.buffered - {oldest}
            && oldest in s.buffered && r.out == DeclineAll(s.out, s.buffered[oldest].messages, Expired)))
  {
    hide DeclineAll, EvictUnknown;
    DistinctCounts(s.unknownOrder, s.unknown);
    assert t !in s.unknown;
    var next := s.(unknown := s.unknown + {t}, unknownOrder := s.unknownOrder + [t]);
    if |s.unknownOrder| >= UNKNOWN_BUFFER_BUDGET {
      assert s.unknownOrder[0] in s.unknown;
      EvictPops(next);
      assert next.unknownOrder[1..] == s.unknownOrder[1..] + [t];
    } else {
      EvictStops(next);
    }
  }

  lemma EvictStops(s: Router)
    requires |s.unknown| <= UNKNOWN_BUFFER_BUDGET
    ensures EvictUnknown(s) == s
  {
  }

  lemma EvictPops(s: Router)
    requires |s.unknown| == UNKNOWN_BUFFER_BUDGET + 1 && s.unknownOrder != []
    requires s.unknownOrder[0] in s.unknown && s.unknownOrder[0] in s.buffered
    ensures
      var oldest := s.unknownOrder[0];
      EvictUnknown(s) == s.(unknown := s.unknown - {oldest}, unknownOrder := s.unknownOrder[1..],
                            buffered := s.buffered - {oldest},
                            out := DeclineAll(s.out, s.buffered[oldest].messages, Expired))
  {
    hide DeclineAll;
    var oldest := s.unknownOrder[0];
    EvictStops(s.(unknown := s.unknown - {oldest}, unknownOrder := s.unknownOrder[1..],
                  buffered := s.buffered - {oldest},
                  out := DeclineAll(s.out, s.buffered[oldest].messages, Expired)));
  }

  lemma {:induction false} DistinctCounts(order: seq<Id>, ids: set<Id>)
    requires Distinct(order) && forall x :: x in ids <==> x in order
    ensures |ids| == |order|
    decreases |order|
  {
    if order != [] {
      var rest := order[1..];
      assert order == [order[0]] + rest;
      assert order[0] !in rest;
      DistinctCounts(rest, ids - {order[0]});
    } else {
      assert ids == {};
    }
  }

  // ---- Claims ---------------------------------------------------------------

  /** The events that name a turn name this one, and some do. */
  ghost predicate NameOnly(events: seq<Tagged>, turn: Option<Id>) {
    && turn.Some?
    && (exists i :: 0 <= i < |events| && events[i].message.turn == turn)
    && (forall i | 0 <= i < |events| :: events[i].message.turn.None? || events[i].message.turn == turn)
  }

  lemma {:induction false} FirstTurnIsNamed(events: seq<Tagged>)
    ensures FirstTurn(events).Some? ==> exists i :: 0 <= i < |events| && events[i].message.turn == FirstTurn(events)
    ensures FirstTurn(events).None? ==> forall i | 0 <= i < |events| :: events[i].message.turn.None?
    decreases |events|
  {
    if events != [] {
      FirstTurnIsNamed(events[1..]);
      assert events == [events[0]] + events[1..];
    }
  }

  lemma OnlyTurnIsTaken(events: seq<Tagged>, turn: Option<Id>)
    ensures NameOnly(events, turn) <==> ChildTurnOf(events).Some? && turn == ChildTurnOf(events)
  {
    FirstTurnIsNamed(events);
    hide FirstTurn;
  }

  /** The claim is the one that the owner was made for. */
  predicate SameClaim(o: Owner, claim: Claim) {
    o.root == claim.root && o.rootTurn == claim.rootTurn && o.generation == claim.generation
  }

  /** What an announcement may claim of the child's buffer. */
  function Claimable(s: Router, child: Id, claim: Claim): seq<Tagged> {
    if child !in s.buffered then []
    else EligibleEvents(s, child, s.buffered[child].messages, child in s.retiredUnbound.live, claim.generation)
  }

  /** Binding a child to a claim: a turn that is given is taken, and otherwise what the same claim had bound stays. */
  lemma OwnDecides(s: Router, child: Id, claim: Claim, turn: Option<Id>)
    requires Buried(s)
    ensures
      var r := Own(s, child, claim, turn);
      var mine := child in s.owners && SameClaim(s.owners[child], claim);
      && child in r.owners && SameClaim(r.owners[child], claim)
      && r.owners[child].childTurn == (if turn.None? && mine then s.owners[child].childTurn else turn)
      && (child in s.owners && r.owners[child] != s.owners[child] ==> Buries(r, child, s.owners[child].childTurn))
      && r.owners - {child} == s.owners - {child}
  {
    hide Bury, WellFormed;
    if child in s.owners { RetiredOwnerIsMarked(s, child); }
  }

  /** The tombstone of this turn of the child, or of the child if it had none. */
  ghost predicate Buries(s: Router, child: Id, turn: Option<Id>) {
    if turn.Some? then Retired(s, child, turn) else child in s.retiredUnbound.live
  }

  /**
   An announced child is owned by the claim. Its turn is the only one that the
   claimed events name; where they name none, or several, it is still the one
   that the same claim had bound, if any. An owner that this replaces leaves
   its tombstone, and nobody else's owner changes.
   */
  lemma AnnouncementOwns(s: Router, child: Id, claim: Claim, turn: Option<Id>)
    requires Buried(s) && child != claim.root
    ensures
      var events, r := Claimable(s, child, claim), Announce(s, child, claim).state;
      var mine := child in s.owners && SameClaim(s.owners[child], claim);
      && child in r.owners && SameClaim(r.owners[child], claim)
      && (NameOnly(events, turn) ==> r.owners[child].childTurn == turn)
      && ((forall u :: !NameOnly(events, u)) ==>
            r.owners[child].childTurn == if mine then s.owners[child].childTurn else None)
      && (child in s.owners && r.owners[child] != s.owners[child] ==> Buries(r, child, s.owners[child].childTurn))
      && r.owners - {child} == s.owners - {child}
  {
    hide EligibleEvents, StaleEvents, DeclineAll, ChildTurnOf, NameOnly, Own, Buried, Discard, SameClaim;
    var events := Claimable(s, child, claim);
    OnlyTurnIsTaken(events, turn);
    OnlyTurnIsTaken(events, ChildTurnOf(events));
    NothingNamed();
    ExhumeKeepsBuried(s, child);
    var lifted := Discard(s.(retiredUnbound := Exhume(s.retiredUnbound, child)), child);
    if child !in s.buffered {
      SameTombstones(s.(retiredUnbound := Exhume(s.retiredUnbound, child)), lifted);
      OwnDecides(lifted, child, claim, None);
    } else {
      var stale := StaleEvents(s, child, s.buffered[child].messages, child in s.retiredUnbound.live, claim.generation);
      var taken := lifted.(out := DeclineAll(s.out, stale, StaleClaim),
                           adoptions := s.adoptions + [Adoption(claim.tx, s.buffered[child])]);
      SameTombstones(s.(retiredUnbound := Exhume(s.retiredUnbound, child)), taken);
      OwnDecides(taken, child, claim, ChildTurnOf(events));
    }
  }

  lemma SameTombstones(s: Router, r: Router)
    requires Buried(s) && s.failed == r.failed
    requires s.retiredTurns == r.retiredTurns && s.retiredUnbound == r.retiredUnbound
    ensures Buried(r)
  {
  }

  lemma NothingNamed()
    ensures ChildTurnOf([]).None?
  {
  }

  lemma ExhumeKeepsBuried(s: Router, child: Id)
    requires Buried(s)
    ensures Buried(s.(retiredUnbound := Exhume(s.retiredUnbound, child)))
  {
  }
}
