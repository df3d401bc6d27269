/**
 What becomes of the events that a thread receives between its subscription
 and its activation.

 They wait in the buffer of the thread, or are on its record of losses, for
 the activation to replay or report. Two things take buffer and record away:
 the announcement of the thread on another root's channel, and the end of a
 root that announced it before. Nothing else does.
 */
module CodexReplay {
  import opened CodexIds
  import opened Options
  import opened Tombstones
  import opened CodexRouting
  import opened CodexConservation
  import opened CodexOperations
  import opened CodexInvariants
  import opened CodexInvariantSteps
  import opened CodexAttribution
  import opened CodexOrder
  import opened CodexRuns
  import opened CodexTheorems
  import opened CodexPromises
  import opened CodexReplaySteps

  // ---- Runs -----------------------------------------------------------------

  lemma ApplyGrows(s: Router, op: Op, env: Env)
    requires Settled(s) && Enumerates(env) && Enabled(s, op)
    ensures |s.subscriptions| <= |Apply(s, op, env).subscriptions| && |s.arrivals| <= |Apply(s, op, env).arrivals|
    ensures Unfailed(s) ==> Unfailed(Apply(s, op, env))
  {
    hide Sound, RouteMessage, Subscribe, RouteEach, RelevantOverflow, Discard, RemoveRoute, Emptied;
    ApplyArrives(s, op, env);
    match op
    case Arrive(message) =>
      ArriveShrinks(s, message, env);
      ArriveSubscriptions(s, message, env);
    case Subscribing(u) =>
      SoundInv(s, [], [], []);
      SubscribeSpares(s, u, env);
    case Activating(u, turn, tx) =>
      if u in s.routes && s.routes[u].tx == tx {
        BoundSound(s, u, turn);
        RouteEachSound(Discard(Bind(s, u, turn), u), BufferOf(s, u).messages, env);
        ActivateShrinks(s, u, turn, tx, env);
      }
    case Unsubscribing(u, tx) =>
      SoundInv(s, [], [], []);
      RemoveRouteShrinks(s, u, tx, env);
      RemoveRouteIs(s, u, tx, env);
    case Flushing =>
  }

  lemma ArriveSubscriptions(s: Router, message: Message, env: Env)
    requires Settled(s) && Enumerates(env)
    ensures RouteMessage(s, message, env).subscriptions == s.subscriptions
  {
    hide Sound, RouteBuffered, Decline;
    var event := Received(s, message);
    ArrivalSound(s, event);
    RouteBufferedSound(s.(arrivals := s.arrivals + [event]), event, [], env);
  }

  lemma SubscribeSpares(s: Router, u: Id, env: Env)
    requires Inv(s) && Enumerates(env)
    ensures |s.subscriptions| <= |Subscribe(s, u, env).subscriptions|
    ensures Unfailed(s) ==> Unfailed(Subscribe(s, u, env))
  {
    hide Inv, Vacate, AdoptUnknown;
    VacateKeeps(s, u, env);
  }

  /** A run after its first `n` operations, and its last operation. */
  lemma RunLast(ops: seq<Op>, world: World)
    requires LegalRun(ops, world) && ops != []
    ensures
      var m := |ops| - 1;
      && LegalRun(ops[..m], world) && Settled(Run(ops[..m], world))
      && Enumerates(world(m)) && Enabled(Run(ops[..m], world), ops[m])
      && Run(ops, world) == Apply(Run(ops[..m], world), ops[m], world(m))
  {
    hide Settled, Apply, Enumerates, Enabled;
    LegalPrefix(ops, world, |ops| - 1);
    RunSound(ops[..|ops| - 1], world);
  }

  lemma {:induction false} RunGrows(ops: seq<Op>, world: World, n: nat)
    requires LegalRun(ops, world) && n <= |ops|
    ensures |Run(ops[..n], world).subscriptions| <= |Run(ops, world).subscriptions|
    ensures |Run(ops[..n], world).arrivals| <= |Run(ops, world).arrivals|
    ensures Unfailed(Run(ops, world))
    decreases |ops|
  {
    hide Run, LegalRun, Settled, Apply, Enumerates, Enabled, Unfailed;
    if ops == [] {
      FreshIsUnfailed(world);
      assert ops[..n] == ops;
    } else {
      var m := |ops| - 1;
      RunLast(ops, world);
      ApplyGrows(Run(ops[..m], world), ops[m], world(m));
      if n == |ops| {
        assert ops[..n] == ops;
        RunGrows(ops[..m], world, m);
      } else {
        assert ops[..m][..n] == ops[..n];
        RunGrows(ops[..m], world, n);
      }
    }
  }

  lemma FreshIsUnfailed(world: World)
    ensures Unfailed(Run([], world))
  {
  }

  lemma {:induction false} RunFollows(ops: seq<Op>, world: World, n: nat, t: Id, e: Tagged)
    requires LegalRun(ops, world) && n <= |ops|
    requires
      var s := Run(ops[..n], world);
      && OwnEvent(s, t, e) && s.routes[t].tx < |s.subscriptions|
      && (e.message.stamp < |s.arrivals| || e.message.stamp > |Run(ops, world).arrivals|)
      && Awaits(Run(ops, world), t, s.routes[t])
    ensures Follows(Run(ops[..n], world), Run(ops, world), t, e)
    decreases |ops|
  {
    hide Run, LegalRun, Settled, Apply, Enumerates, Enabled, Follows;
    var s := Run(ops[..n], world);
    if n == |ops| {
      assert ops[..n] == ops;
      SameFollows(s, s, t, e);
    } else {
      var m := |ops| - 1;
      RunLast(ops, world);
      var q := Run(ops[..m], world);
      assert ops[..m][..n] == ops[..n];
      RunGrows(ops[..m], world, n);
      ApplyArrives(q, ops[m], world(m));
      ApplyAwaitsBack(q, ops[m], world(m), t, s.routes[t]);
      RunFollows(ops[..m], world, n, t, e);
      ApplyFollows(q, ops[m], world(m), t, e);
      FollowsTrans(s, q, Run(ops, world), t, e);
    }
  }

  // ---- Stored until the activation ------------------------------------------

  /** A message as the router tags it. */
  function Received(s: Router, message: Message): Tagged {
    Tagged(message.(stamp := |s.arrivals|), ReceivedUnder(s, message.thread))
  }

  lemma HeldArrival(s: Router, message: Message, env: Env)
    requires message.thread in s.routes && message.thread != NO_THREAD && message.thread !in s.failed.live
    requires s.routes[message.thread].turn.None?
    ensures
      var event := Received(s, message);
      RouteMessage(s, message, env) == Store(s.(arrivals := s.arrivals + [event]), event)
  {
    var event := Received(s, message);
    var arrived := s.(arrivals := s.arrivals + [event]);
    hide Store, Enqueue;
    assert Step(arrived, event, env) == Routed(Store(arrived, event), [], []);
    var none: seq<Tagged> := [];
    assert [event][1..] + none == none;
    var unmarked: seq<nat> := [];
    assert unmarked + unmarked == unmarked;
    assert Drain(arrived, [event], [], env) == Drain(Store(arrived, event), none, [], env);
  }

  /** Since `s`, a delivery announced the thread, or the root that owned it then has ended. */
  ghost predicate Interfered(s: Router, r: Router, t: Id) {
    || Announced(r.wire.log, |s.wire.log|, t)
    || (t in s.owners && Ended(r, s.owners[t].root, s.owners[t].generation))
  }

  lemma InterferedIsDisturbed(s: Router, r: Router, t: Id, e: Tagged)
    requires Inv(s) && Inv(r) && Follows(s, r, t, e)
    ensures Disturbed(s, r, t) <==> Interfered(s, r, t)
  {
    hide IndexInv, BuffersInv, WellFormed, Stored, Ages, NoneOfTurn;
    if !Announced(r.wire.log, |s.wire.log|, t) && t in s.owners {
      OwnersInvAt(s, t);
      RoutesInvAt(s, s.owners[t].root);
      if t in r.owners { OwnersInvAt(r, t); }
    }
  }

  /** The event whose arrival is operation `k`, received by a thread that awaits its activation. */
  ghost predicate ReceivedAwaiting(ops: seq<Op>, world: World, k: nat, e: Tagged) {
    && LegalRun(ops, world) && k < |ops| && ops[k].Arrive?
    && var s, t := Run(ops[..k], world), ops[k].message.thread;
       && e == Received(s, ops[k].message)
       && t != NO_THREAD && t in s.routes && s.routes[t].turn.None?
       && Awaits(Run(ops, world), t, s.routes[t])
  }

  lemma ArrivalStored(ops: seq<Op>, world: World, k: nat, e: Tagged)
    requires ReceivedAwaiting(ops, world, k, e)
    ensures
      var s, t := Run(ops[..k + 1], world), e.message.thread;
      && Stored(s, t, e) && OwnEvent(s, t, e) && e.message.stamp < |s.arrivals|
      && s.routes == Run(ops[..k], world).routes && s.routes[t].tx < |s.subscriptions|
      && (forall i | 0 <= i < |s.wire.log| :: s.wire.log[i].event != e)
      && LegalRun(ops[..k + 1], world)
  {
    hide Run, LegalRun, Settled, Apply, Enumerates, Enabled, Unfailed, Remembers;
    var first, t := ops[..k + 1], e.message.thread;
    LegalPrefix(ops, world, k + 1);
    RunLast(first, world);
    assert first[..k] == ops[..k];
    var s := Run(ops[..k], world);
    RunGrows(ops[..k], world, k);
    ArrivalStoredAt(s, ops[k].message, world(k));
    assert Run(first, world) == RouteMessage(s, ops[k].message, world(k)) by { ApplyArrive(s, ops[k], world(k)); }
  }

  lemma ApplyArrive(s: Router, op: Op, env: Env)
    requires op.Arrive?
    ensures Apply(s, op, env) == RouteMessage(s, op.message, env)
  {
    hide RouteMessage;
  }

  lemma ArrivalStoredAt(s: Router, message: Message, env: Env)
    requires Settled(s) && Unfailed(s)
    requires message.thread in s.routes && message.thread != NO_THREAD && s.routes[message.thread].turn.None?
    ensures
      var r, t, e := RouteMessage(s, message, env), message.thread, Received(s, message);
      && Stored(r, t, e) && OwnEvent(r, t, e) && e.message.stamp < |r.arrivals|
      && r.routes == s.routes && r.routes[t].tx < |r.subscriptions|
      && (forall i | 0 <= i < |r.wire.log| :: r.wire.log[i].event != e)
  {
    hide IndexInv, BuffersInv, OwnersInv, WellFormed, AttributionInv, OrderInv, LossesMarked, Worklist,
         RouteMessage, Enqueue, Remembers;
    HeldArrival(s, message, env);
    EnqueueStores(BufferOf(s, message.thread), Received(s, message));
    RoutesInvAt(s, message.thread);
    forall i | 0 <= i < |s.wire.log|
      ensures s.wire.log[i].event != Received(s, message)
    {
      assert EventOk(|s.arrivals|, s.subscriptions, s.wire.log[i].event);
    }
  }

  /**
   An event received between the subscription and the activation of its thread
   is there for the activation to replay, or recorded as lost, if and only if
   since it arrived no delivery announced the thread and the root that owned
   the thread then, if any, has not ended. Until the activation it is not sent.
   */
  lemma StoredExactly(ops: seq<Op>, world: World, k: nat, e: Tagged)
    requires ReceivedAwaiting(ops, world, k, e)
    ensures
      var r := Run(ops, world);
      && (Stored(r, e.message.thread, e) <==> !Interfered(Run(ops[..k + 1], world), r, e.message.thread))
      && (forall i | 0 <= i < |r.wire.log| :: r.wire.log[i].event != e)
  {
    hide Run, LegalRun, Sound, Stored, Disturbed, Interfered;
    var s, r, t := Run(ops[..k + 1], world), Run(ops, world), e.message.thread;
    ArrivalStored(ops, world, k, e);
    RunFollows(ops, world, k + 1, t, e);
    RunSound(ops, world);
    RunSound(ops[..k + 1], world);
    SoundInv(s, [], [], []);
    SoundInv(r, [], [], []);
    InterferedIsDisturbed(s, r, t, e);
    forall i | 0 <= i < |r.wire.log|
      ensures r.wire.log[i].event != e
    {
      assert i < |s.wire.log| ==> r.wire.log[i] == s.wire.log[i];
    }
  }

  /** A subscription leaves its thread without an owner, and only an announcement gives it one. */
  lemma StaysUnowned(ops: seq<Op>, world: World, j: nat, t: Id)
    requires LegalRun(ops, world) && j < |ops| && ops[j] == Subscribing(t)
    requires
      var s, q := Run(ops[..j + 1], world), Run(ops, world);
      && t in s.routes && Awaits(q, t, s.routes[t])
      && !Announced(q.wire.log, |s.wire.log|, t)
    ensures t !in Run(ops, world).owners && Run(ops[..j + 1], world).wire.log <= Run(ops, world).wire.log
  {
    hide Run, LegalRun, Settled, Apply, Enumerates, Enabled, Stored, Subscribe, Ages;
    var first, before := ops[..j + 1], Run(ops[..j], world);
    LegalPrefix(ops, world, j + 1);
    RunLast(first, world);
    assert first[..j] == ops[..j];
    SubscribeUnowns(before, t, world(j));
    ApplySubscribe(before, ops[j], world(j));
    RunRouteOk(first, world, t);
    var s := Run(first, world);
    var message := Message(|Run(ops, world).arrivals| + 1, Notification(false), t, None, []);
    RunFollows(ops, world, j + 1, t, Tagged(message, Some(s.routes[t].generation)));
  }

  /** Without an announcement since the subscription, everything that it received is stored. */
  lemma UnannouncedIsStored(ops: seq<Op>, world: World, j: nat, k: nat, e: Tagged)
    requires ReceivedAwaiting(ops, world, k, e)
    requires
      var t := e.message.thread;
      && j < k && ops[j] == Subscribing(t)
      && t in Run(ops[..j + 1], world).routes
      && Run(ops[..j + 1], world).routes[t] == Run(ops, world).routes[t]
      && !Announced(Run(ops, world).wire.log, |Run(ops[..j + 1], world).wire.log|, t)
    ensures Stored(Run(ops, world), e.message.thread, e)
  {
    hide Run, LegalRun, Stored, Announced, Ages, OwnerFollows, Disturbed;
    var mid, t := ops[..k + 1], e.message.thread;
    var s, q, r := Run(ops[..j + 1], world), Run(mid, world), Run(ops, world);
    ArrivalStored(ops, world, k, e);
    assert mid[..j + 1] == ops[..j + 1];
    RunFollows(ops, world, k + 1, t, e);
    RunLog(mid, world, j + 1);
    AnnouncedLater(s, q, r, t);
    StaysUnowned(mid, world, j, t);
    StoredExactly(ops, world, k, e);
  }

  lemma {:induction false} RunLog(ops: seq<Op>, world: World, n: nat)
    requires LegalRun(ops, world) && n <= |ops|
    ensures Run(ops[..n], world).wire.log <= Run(ops, world).wire.log
    decreases |ops|
  {
    hide Run, LegalRun, Settled, Apply, Enumerates, Enabled;
    if n == |ops| {
      assert ops[..n] == ops;
    } else {
      var m := |ops| - 1;
      RunLast(ops, world);
      assert ops[..m][..n] == ops[..n];
      RunLog(ops[..m], world, n);
      ApplyLog(Run(ops[..m], world), ops[m], world(m));
    }
  }

  lemma ApplyLog(s: Router, op: Op, env: Env)
    ensures s.wire.log <= Apply(s, op, env).wire.log
  {
    hide Drain, RouteEach, RelevantOverflow, Discard, Vacate, RemoveRoute, AdoptUnknown, Decline;
    match op
    case Arrive(message) =>
      var event := Received(s, message);
      DrainLog(s.(arrivals := s.arrivals + [event]), [event], [], env);
    case Activating(u, turn, tx) =>
      if u in s.routes { RouteEachLog(Discard(Bind(s, u, turn), u), BufferOf(s, u).messages, env); }
    case _ =>
  }

  lemma RunRouteOk(ops: seq<Op>, world: World, t: Id)
    requires LegalRun(ops, world) && t in Run(ops, world).routes
    ensures Run(ops, world).routes[t].tx < |Run(ops, world).subscriptions|
  {
    hide Run, LegalRun, Sound;
    RunSound(ops, world);
    SoundInv(Run(ops, world), [], [], []);
    InvRoutes(Run(ops, world), t);
  }

  lemma InvRoutes(s: Router, t: Id)
    requires Inv(s) && t in s.routes
    ensures s.routes[t].tx < |s.subscriptions|
  {
    RoutesInvAt(s, t);
  }

  lemma ApplySubscribe(s: Router, op: Op, env: Env)
    requires op.Subscribing?
    ensures Apply(s, op, env) == Subscribe(s, op.thread, env)
  {
    hide Subscribe;
  }

  lemma SubscribeUnowns(s: Router, t: Id, env: Env)
    requires Settled(s) && Enumerates(env)
    ensures t !in Subscribe(s, t, env).owners
  {
    hide Inv, Vacate, AdoptUnknown, Sound;
    SoundInv(s, [], [], []);
    VacateKeeps(s, t, env);
  }

  lemma AnnouncedLater(s: Router, q: Router, r: Router, t: Id)
    requires s.wire.log <= q.wire.log <= r.wire.log && !Announced(r.wire.log, |s.wire.log|, t)
    ensures !Announced(q.wire.log, |s.wire.log|, t) && !Announced(r.wire.log, |q.wire.log|, t)
  {
    assert forall k | 0 <= k < |q.wire.log| :: r.wire.log[k] == q.wire.log[k];
  }

  // ---- Replayed by the activation -------------------------------------------

  lemma {:induction false} DrainLog(s: Router, queue: seq<Tagged>, marks: seq<nat>, env: Env)
    ensures s.wire.log <= Drain(s, queue, marks, env).state.wire.log
    decreases Unresolved(s, queue), |queue|
  {
    hide Step, Unresolved;
    if queue != [] {
      StepMakesProgress(s, queue, env);
      StepFrame(s, queue[0], env);
      var r := Step(s, queue[0], env);
      DrainLog(r.state, queue[1..] + r.more, marks + r.marks, env);
    }
  }

  lemma {:induction false} RouteEachLog(s: Router, events: seq<Tagged>, env: Env)
    ensures s.wire.log <= RouteEach(s, events, env).wire.log
    decreases |events|
  {
    hide Drain;
    if events != [] {
      DrainLog(s, [events[0]], [], env);
      RouteEachLog(RouteBuffered(s, events[0], env), events[1..], env);
    }
  }

  /** The event is for the turn that the thread is bound to. */
  ghost predicate Relevant(route: Route, t: Id, e: Tagged) {
    && e.message.thread == t && t != NO_THREAD
    && (e.message.turn == route.turn || (e.message.turn.None? && e.generation == Some(route.generation)))
  }

  /** The event went out on the route's channel, or the channel failed and the route is gone. */
  ghost predicate Replayed(s: Router, t: Id, tx: nat, e: Tagged) {
    Delivery(tx, e) in s.wire.log || t !in s.routes
  }

  lemma StepReplays(s: Router, e: Tagged, env: Env, t: Id)
    requires t in s.routes && s.routes[t].turn.Some? && Relevant(s.routes[t], t, e)
    ensures Replayed(Step(s, e, env).state, t, s.routes[t].tx, e)
  {
    hide Delivered, ClearDescendants, RetireOwner, RejectBuffered, Bury, Decline;
    var route, fate := s.routes[t], Classify(s, e);
    assert BindChild(s, e) == s && fate == Send(t, route.turn.value, route.generation, route.tx, false);
    var sent := TrySend(s.wire, fate.tx, e, env);
    if sent.accepted {
      assert sent.wire.log[|s.wire.log|] == Delivery(fate.tx, e);
    } else {
      var declined := s.(wire := sent.wire, out := Decline(s.out, e, Undeliverable));
      ClearDescendantsFrame(declined.(routes := s.routes - {t}), t, env);
    }
  }

  lemma ReplayedStays(s: Router, r: Router, t: Id, tx: nat, e: Tagged)
    requires Replayed(s, t, tx, e) && s.wire.log <= r.wire.log && SubMap(r.routes, s.routes)
    ensures Replayed(r, t, tx, e)
  {
    if Delivery(tx, e) in s.wire.log {
      var i :| 0 <= i < |s.wire.log| && s.wire.log[i] == Delivery(tx, e);
      assert r.wire.log[i] == Delivery(tx, e);
    }
  }

  lemma RouteBufferedReplays(s: Router, e: Tagged, later: seq<Tagged>, env: Env, t: Id)
    requires Sound(s, [e], later, []) && Enumerates(env)
    requires t in s.routes && s.routes[t].turn.Some? && Relevant(s.routes[t], t, e)
    ensures Replayed(RouteBuffered(s, e, env), t, s.routes[t].tx, e)
  {
    hide Sound, Step, Relevant, Unfailed;
    var r := Step(s, e, env);
    StepReplays(s, e, env, t);
    StepSound(s, [e], later, [], env);
    var rest, marks := [e][1..] + r.more, [] + r.marks;
    var drained := Drain(r.state, rest, marks, env);
    assert Drain(s, [e], [], env) == drained;
    hide Drain;
    DrainLog(r.state, rest, marks, env);
    DrainShrinks(r.state, rest, later, marks, env);
    ReplayedStays(r.state, RouteBuffered(s, e, env), t, s.routes[t].tx, e);
  }

  lemma {:induction false} RouteEachReplays(s: Router, events: seq<Tagged>, env: Env, t: Id, route: Route, i: nat)
    requires Sound(s, [], events, []) && Enumerates(env) && i < |events|
    requires t in s.routes ==> s.routes[t] == route
    requires route.turn.Some? && Relevant(route, t, events[i])
    ensures Replayed(RouteEach(s, events, env), t, route.tx, events[i])
    decreases |events|
  {
    hide Sound, Drain, Relevant, Unfailed;
    var next := RouteBuffered(s, events[0], env);
    SoundShifts(s, events);
    RouteBufferedSound(s, events[0], events[1..], env);
    DrainShrinks(s, [events[0]], events[1..], [], env);
    var r := RouteEach(s, events, env);
    if i > 0 {
      RouteEachReplays(next, events[1..], env, t, route, i - 1);
    } else {
      if t in s.routes {
        RouteBufferedReplays(s, events[0], events[1..], env, t);
      } else {
        DrainLog(s, [events[0]], [], env);
      }
      RouteEachLog(next, events[1..], env);
      RouteEachShrinks(next, events[1..], env);
      ReplayedStays(next, r, t, route.tx, events[0]);
    }
  }

  /** An event that is neither held nor pending is never sent. */
  lemma {:induction false} DrainNeverSends(s: Router, queue: seq<Tagged>, marks: seq<nat>, env: Env, e: Tagged)
    requires e !in Held(s.buffered) && e !in queue
    ensures
      var r := Drain(s, queue, marks, env).state;
      e !in Held(r.buffered) && forall i | |s.wire.log| <= i < |r.wire.log| :: r.wire.log[i].event != e
    decreases Unresolved(s, queue), |queue|
  {
    hide Step, Unresolved, Held;
    if queue != [] {
      StepMakesProgress(s, queue, env);
      StepFrame(s, queue[0], env);
      StepConserves(s, queue[0], env, e);
      var r := Step(s, queue[0], env);
      assert e !in r.more && e !in Held(r.state.buffered);
      DrainNeverSends(r.state, queue[1..] + r.more, marks + r.marks, env, e);
      DrainLog(r.state, queue[1..] + r.more, marks + r.marks, env);
    }
  }

  lemma {:induction false} RouteEachNeverSends(s: Router, events: seq<Tagged>, env: Env, e: Tagged)
    requires e !in Held(s.buffered) && e !in events
    ensures
      var r := RouteEach(s, events, env);
      e !in Held(r.buffered) && forall i | |s.wire.log| <= i < |r.wire.log| :: r.wire.log[i].event != e
    decreases |events|
  {
    hide Drain, Held;
    if events != [] {
      DrainNeverSends(s, [events[0]], [], env, e);
      DrainLog(s, [events[0]], [], env);
      RouteEachNeverSends(RouteBuffered(s, events[0], env), events[1..], env, e);
      RouteEachLog(RouteBuffered(s, events[0], env), events[1..], env);
    }
  }

  lemma {:induction false} HeldHas(b: map<Id, Buffer>, e: Tagged) returns (t: Id)
    requires e in Held(b)
    ensures t in b && e in b[t].messages
    decreases |b|
  {
    t := Pick(b);
    if e !in b[t].messages { t := HeldHas(b - {t}, e); }
  }

  lemma UnstoredIsNotHeld(s: Router, e: Tagged)
    requires Inv(s) && e in Held(s.buffered)
    ensures Stored(s, e.message.thread, e)
  {
    hide IndexInv, RoutesInv, OwnersInv, WellFormed, Held, EventsOk, LossesRecorded;
    var t := HeldHas(s.buffered, e);
    BufferedEventsAre(s, t);
  }

  /** A stored event of the activated turn is replayed, or the channel is marked. */
  lemma ActivateReplays(s: Router, t: Id, turn: Id, env: Env, e: Tagged)
    requires Settled(s) && Enumerates(env) && t != NO_THREAD
    requires OwnEvent(s, t, e) && s.routes[t].turn.None? && Stored(s, t, e)
    requires e.message.turn.None? || e.message.turn == Some(turn)
    ensures
      var tx := s.routes[t].tx;
      var r := Activate(s, t, turn, tx, env);
      Replayed(r, t, tx, e) || tx in r.wire.overloaded
  {
    hide Sound, RouteEach, RelevantOverflow, Discard;
    var tx, b := s.routes[t].tx, s.buffered[t];
    if e in b.messages {
      var i :| 0 <= i < |b.messages| && b.messages[i] == e;
      BoundSound(s, t, turn);
      RouteEachReplays(Discard(Bind(s, t, turn), t), b.messages, env, t, s.routes[t].(turn := Some(turn)), i);
    } else {
      var k :| 0 <= k < |b.losses| && b.losses[k] == Loss(e, true);
      assert MattersTo(b.losses[k], turn);
      ActivationFailsClosed(s, t, turn, tx, env);
    }
  }

  /** An event that is not stored is not sent by the activation. */
  lemma ActivateNeverSends(s: Router, t: Id, turn: Id, tx: nat, env: Env, e: Tagged)
    requires Settled(s) && e.message.thread == t && !Stored(s, t, e)
    requires forall i | 0 <= i < |s.wire.log| :: s.wire.log[i].event != e
    ensures
      var r := Activate(s, t, turn, tx, env);
      forall i | 0 <= i < |r.wire.log| :: r.wire.log[i].event != e
  {
    hide Sound, RouteEach, RelevantOverflow, Held;
    if e in Held(s.buffered) {
      SoundInv(s, [], [], []);
      UnstoredIsNotHeld(s, e);
    }
    if t in s.routes && t in s.buffered {
      var taken, messages := Discard(Bind(s, t, turn), t), s.buffered[t].messages;
      DiscardMoves(Bind(s, t, turn), t);
      RouteEachNeverSends(taken, messages, env, e);
      RouteEachLog(taken, messages, env);
      assert forall i | 0 <= i < |s.wire.log| :: RouteEach(taken, messages, env).wire.log[i] == s.wire.log[i];
    }
  }

  /**
   What an announcement takes. A thread may have a subscription that is not
   activated yet and also be announced as a child of another root. Its buffer
   is gone then, with its record of losses, and none of the events that the
   subscription received is routed again, so its activation marks nothing.
   */
  lemma AnnouncementTakesAll(s: Router, child: Id, claim: Claim, turn: Id, env: Env)
    requires Settled(s) && ClaimLive(s, claim) && child in s.routes && s.routes[child].turn.None?
    ensures
      var r, tx := Announce(s, child, claim), s.routes[child].tx;
      && child !in r.state.buffered
      && (forall e | OwnEvent(s, child, e) :: e !in r.more)
      && Activate(r.state, child, turn, tx, env).wire == s.wire
  {
    hide Sound, Inv, Announce;
    SoundInv(s, [], [], []);
    AnnounceKeeps(s, child, claim);
    forall e | OwnEvent(s, child, e)
      ensures e !in Announce(s, child, claim).more
    {
      AnnounceSkips(s, child, claim, child, e);
    }
  }

  lemma {:induction false} RunLonger(ops: seq<Op>, op: Op, world: World)
    ensures Run(ops + [op], world) == Apply(Run(ops, world), op, world(|ops|))
  {
    hide Apply;
    assert (ops + [op])[..|ops|] == ops;
  }

  lemma {:induction false} LegalLonger(ops: seq<Op>, op: Op, world: World)
    requires LegalRun(ops, world) && Enumerates(world(|ops|)) && Enabled(Run(ops, world), op)
    ensures LegalRun(ops + [op], world)
  {
    hide Run, Enumerates, Enabled;
    var longer := ops + [op];
    forall i | 0 <= i < |longer|
      ensures Enumerates(world(i)) && Enabled(Run(longer[..i], world), longer[i])
    {
      if i < |ops| {
        assert longer[..i] == ops[..i] && longer[i] == ops[i];
      } else {
        assert longer[..i] == ops;
      }
    }
  }

  /**
   What the activation makes of an event received since the subscription. If
   nothing interfered, an event for the activated turn goes out on the channel,
   or the channel is marked overloaded, or it failed and the route is gone. If
   something did, the event reaches no channel at all.
   */
  lemma ReplayedUnlessInterfered(ops: seq<Op>, world: World, k: nat, e: Tagged, turn: Id)
    requires ReceivedAwaiting(ops, world, k, e) && Enumerates(world(|ops|))
    ensures
      var s, q, t := Run(ops[..k + 1], world), Run(ops, world), e.message.thread;
      var tx := q.routes[t].tx;
      var r := Run(ops + [Activating(t, turn, tx)], world);
      && (!Interfered(s, q, t) && (e.message.turn.None? || e.message.turn == Some(turn)) ==>
            Replayed(r, t, tx, e) || tx in r.wire.overloaded)
      && (Interfered(s, q, t) ==> forall i | 0 <= i < |r.wire.log| :: r.wire.log[i].event != e)
  {
    hide Run, LegalRun, Sound, Stored, Interfered, Enumerates, Activate, Replayed;
    var s, q, t := Run(ops[..k + 1], world), Run(ops, world), e.message.thread;
    var tx := q.routes[t].tx;
    RunLonger(ops, Activating(t, turn, tx), world);
    RunSound(ops, world);
    StoredExactly(ops, world, k, e);
    ArrivalStored(ops, world, k, e);
    if Interfered(s, q, t) {
      ActivateNeverSends(q, t, turn, tx, world(|ops|), e);
    } else if e.message.turn.None? || e.message.turn == Some(turn) {
      ActivateReplays(q, t, turn, world(|ops|), e);
    }
  }
}
