/**
 The router's promises over every run of its operations.
 */
module CodexRuns {
  import opened CodexIds
  import opened Tombstones
  import opened CodexRouting
  import opened CodexConservation
  import opened CodexOperations
  import opened CodexInvariants
  import opened CodexInvariantSteps
  import opened CodexAttribution
  import opened CodexOrder

  // ---- Losses ---------------------------------------------------------------

  /** Every adopted buffer that lost something has its channel failed closed, now or at the end of the drain. */
  ghost predicate LossesMarked(s: Router, marks: seq<nat>) {
    forall i | 0 <= i < |s.adoptions| ::
      && LossesRecorded(s.adoptions[i].buffer)
      && (Overflowed(s.adoptions[i].buffer) ==>
            s.adoptions[i].tx in s.wire.overloaded || s.adoptions[i].tx in marks)
  }

  lemma AnnounceMarks(s: Router, child: Id, claim: Claim, marks: seq<nat>)
    requires Inv(s) && LossesMarked(s, marks)
    ensures
      var r := Announce(s, child, claim);
      LossesMarked(r.state, marks + r.marks)
  {
    hide IndexInv, RoutesInv, OwnersInv, WellFormed, LossesRecorded, Overflowed, Own, Discard, EligibleEvents,
         StaleEvents, DeclineAll, Ambiguous;
    if child != claim.root && child in s.buffered {
      assert BufferOk(|s.arrivals|, s.subscriptions, child, s.buffered[child]);
    }
  }

  lemma {:induction false} AnnounceAllMarks(s: Router, children: seq<Id>, claim: Claim, marks: seq<nat>)
    requires Inv(s) && ClaimLive(s, claim) && LossesMarked(s, marks)
    ensures
      var r := AnnounceAll(s, children, claim);
      LossesMarked(r.state, marks + r.marks)
    decreases |children|
  {
    hide Inv, LossesMarked, Announce;
    if children != [] {
      var first := Announce(s, children[0], claim);
      AnnounceKeeps(s, children[0], claim);
      AnnounceMarks(s, children[0], claim, marks);
      AnnounceAllMarks(first.state, children[1..], claim, marks + first.marks);
      var others := AnnounceAll(first.state, children[1..], claim);
      assert marks + (first.marks + others.marks) == (marks + first.marks) + others.marks;
    } else {
      assert marks + [] == marks;
    }
  }

  lemma DispatchMarks(s: Router, event: Tagged, fate: Fate, env: Env, marks: seq<nat>)
    requires Inv(s) && fate.Send? && Live(s.routes, fate.root, fate.rootTurn, fate.generation)
    requires LossesMarked(s, marks)
    ensures
      var r := Dispatch(s, event, fate, env);
      LossesMarked(r.state, marks + r.marks)
  {
    hide IndexInv, BuffersInv, RoutesInv, OwnersInv, WellFormed, AnnounceAll, RetireOwner, RemoveRoute,
         LossesRecorded, Overflowed;
    var sent := TrySend(s.wire, fate.tx, event, env);
    if sent.accepted {
      var t := event.message.thread;
      var out := s.(wire := sent.wire);
      ExhumeKeeps(s.failed, t);
      ExhumeKeeps(Exhume(s.failed, t), fate.root);
      var cleared := out.(failed := Exhume(Exhume(s.failed, t), fate.root));
      RetireOwnerKeeps(cleared, t);
      var ended := if fate.child && EndsTurn(event.message) then RetireOwner(cleared, t) else cleared;
      AnnounceAllMarks(ended, event.message.children,
                       Claim(fate.root, fate.rootTurn, fate.generation, fate.tx), marks);
    }
  }

  lemma StepMarks(s: Router, event: Tagged, env: Env, marks: seq<nat>)
    requires Inv(s) && LossesMarked(s, marks)
    ensures
      var r := Step(s, event, env);
      LossesMarked(r.state, marks + r.marks)
  {
    hide Inv, BindChild, Classify, Dispatch, BufferMessage, LossesRecorded, Overflowed;
    BindChildKeeps(s, event);
    var bound := BindChild(s, event);
    assert marks + [] == marks;
    if Classify(bound, event).Send? {
      SendIsLive(bound, event);
      DispatchMarks(bound, event, Classify(bound, event), env, marks);
    }
  }

  // ---- Draining the work list -----------------------------------------------

  lemma StepFrame(s: Router, event: Tagged, env: Env)
    ensures
      var r := Step(s, event, env).state;
      && r.arrivals == s.arrivals && r.subscriptions == s.subscriptions
      && s.wire.overloaded <= r.wire.overloaded
      && (r.wire.log == s.wire.log || exists tx :: r.wire.log == s.wire.log + [Delivery(tx, event)])
  {
    hide Classify, BindChild, BufferMessage, Delivered, RemoveRoute;
    var bound := BindChild(s, event);
    var f := Classify(bound, event);
    if f.Send? && TrySend(bound.wire, f.tx, event, env).accepted {
      assert Step(s, event, env).state.wire.log == s.wire.log + [Delivery(f.tx, event)];
    }
  }

  ghost predicate LogOk(s: Router) {
    forall i | 0 <= i < |s.wire.log| :: EventOk(|s.arrivals|, s.subscriptions, s.wire.log[i].event)
  }

  /** Everything the router promises, while `queue` is being drained and `later` waits behind it. */
  ghost predicate Sound(s: Router, queue: seq<Tagged>, later: seq<Tagged>, marks: seq<nat>) {
    && Inv(s)
    && AttributionInv(s)
    && EventsOk(|s.arrivals|, s.subscriptions, queue)
    && EventsOk(|s.arrivals|, s.subscriptions, later)
    && LogOk(s)
    && Worklist(s, queue)
    && OrderInv(s.wire.log, s.buffered, queue + later)
    && LossesMarked(s, marks)
  }

  lemma StepSound(s: Router, queue: seq<Tagged>, later: seq<Tagged>, marks: seq<nat>, env: Env)
    requires Sound(s, queue, later, marks) && queue != [] && Enumerates(env)
    ensures
      var r := Step(s, queue[0], env);
      Sound(r.state, queue[1..] + r.more, later, marks + r.marks)
  {
    hide Inv, AttributionInv, EventOk, Worklist, OrderInv, LossesMarked, Step, Blocks;
    StepKeeps(s, queue[0], env);
    StepAttributes(s, queue[0], env);
    StepOrders(s, queue, later, env);
    StepMarks(s, queue[0], env, marks);
    StepFrame(s, queue[0], env);
    BlocksMakeWork(Step(s, queue[0], env).state, queue[1..] + Step(s, queue[0], env).more);
  }

  lemma BlocksMakeWork(s: Router, queue: seq<Tagged>)
    requires Blocks(s, queue)
    ensures Worklist(s, queue)
  {}

  lemma {:induction false} DrainSound(s: Router, queue: seq<Tagged>, later: seq<Tagged>, marks: seq<nat>, env: Env)
    requires Sound(s, queue, later, marks) && Enumerates(env)
    ensures
      var d := Drain(s, queue, marks, env);
      && Sound(d.state, [], later, d.marks)
      && d.state.arrivals == s.arrivals && d.state.subscriptions == s.subscriptions
      && s.wire.overloaded <= d.state.wire.overloaded
    decreases Unresolved(s, queue), |queue|
  {
    hide Sound, Step, Unresolved;
    if queue != [] {
      StepMakesProgress(s, queue, env);
      StepSound(s, queue, later, marks, env);
      StepFrame(s, queue[0], env);
      var r := Step(s, queue[0], env);
      DrainSound(r.state, queue[1..] + r.more, later, marks + r.marks, env);
    }
  }

  lemma {:induction false} DrainConserves(s: Router, queue: seq<Tagged>, marks: seq<nat>, env: Env, x: Tagged)
    ensures Account(Drain(s, queue, marks, env).state, x) == Account(s, x) + multiset(queue)[x]
    decreases Unresolved(s, queue), |queue|
  {
    hide Account, Step, Unresolved;
    if queue != [] {
      StepMakesProgress(s, queue, env);
      StepConserves(s, queue[0], env, x);
      var r := Step(s, queue[0], env);
      DrainConserves(r.state, queue[1..] + r.more, marks + r.marks, env, x);
      assert queue == [queue[0]] + queue[1..];
    }
  }

  lemma RouteBufferedSound(s: Router, event: Tagged, later: seq<Tagged>, env: Env)
    requires Sound(s, [event], later, []) && Enumerates(env)
    ensures Sound(RouteBuffered(s, event, env), [], later, [])
    ensures RouteBuffered(s, event, env).arrivals == s.arrivals
    ensures RouteBuffered(s, event, env).subscriptions == s.subscriptions
    ensures s.wire.overloaded <= RouteBuffered(s, event, env).wire.overloaded
  {
    hide Drain, IndexInv, BuffersInv, RoutesInv, OwnersInv, WellFormed, Attributed, EventOk, OrderInv,
         SinceAnnounced, LossesRecorded, Overflowed;
    DrainSound(s, [event], later, [], env);
  }

  lemma SoundShifts(s: Router, events: seq<Tagged>)
    requires Sound(s, [], events, []) && events != []
    ensures Sound(s, [events[0]], events[1..], [])
  {
    hide Inv, AttributionInv, OrderInv, LossesMarked, EventOk;
    assert [] + events == [events[0]] + events[1..];
  }

  lemma {:induction false} RouteEachSound(s: Router, events: seq<Tagged>, env: Env)
    requires Sound(s, [], events, []) && Enumerates(env)
    ensures Sound(RouteEach(s, events, env), [], [], [])
    ensures RouteEach(s, events, env).arrivals == s.arrivals
    ensures RouteEach(s, events, env).subscriptions == s.subscriptions
    decreases |events|
  {
    hide RouteBuffered, Sound;
    if events != [] {
      SoundShifts(s, events);
      RouteBufferedSound(s, events[0], events[1..], env);
      RouteEachSound(RouteBuffered(s, events[0], env), events[1..], env);
    }
  }

  lemma {:induction false} RouteEachConserves(s: Router, events: seq<Tagged>, env: Env, x: Tagged)
    ensures Account(RouteEach(s, events, env), x) == Account(s, x) + multiset(events)[x]
    decreases |events|
  {
    hide Drain, Held, SentOn, Refused;
    if events != [] {
      DrainConserves(s, [events[0]], [], env, x);
      RouteEachConserves(RouteBuffered(s, events[0], env), events[1..], env, x);
      assert events == [events[0]] + events[1..];
    }
  }
}
