/**
 Runs on which a thread with a subscription of its own is announced as a
 child before it is activated. Everything that it had received is gone, one
 event as well as more than fit, and its activation reports nothing.
 */
module CodexForgottenLoss {
  import opened CodexIds
  import opened Options
  import opened Tombstones
  import opened CodexRouting
  import opened CodexConservation
  import opened CodexOperations
  import opened CodexReplaySteps
  import opened CodexReplay

  const ROOT: Id := 1
  const CHILD: Id := 2
  const ROOT_TURN: Id := 5
  const ROOT_TX: nat := 0
  const CHILD_TX: nat := 1

  const TRANSCRIPT := Message(0, Notification(false), CHILD, None, [])
  const ANNOUNCEMENT := Message(0, Notification(false), ROOT, Some(ROOT_TURN), [CHILD])

  /** A root turn starts, the child thread gets a subscription, and `n` events arrive for it. */
  function Script(n: nat): seq<Op>
    decreases n
  {
    if n == 0 then [Subscribing(ROOT), Activating(ROOT, ROOT_TURN, ROOT_TX), Subscribing(CHILD)]
    else Script(n - 1) + [Arrive(TRANSCRIPT)]
  }

  /** The consumers accept everything. */
  ghost predicate Accepting(world: World) {
    forall i: nat :: Enumerates(world(i)) && forall k: nat :: world(i).outcome(k) == Accepts
  }

  function Least(m: nat, n: nat): nat {
    if m < n then m else n
  }

  /** The buffer holds the first events that arrived, up to its limit, and records every other as lost. */
  ghost predicate Waiting(s: Router, n: nat) {
    var b, held := BufferOf(s, CHILD), Least(n, ROUTE_EVENT_BUDGET);
    && s.routes == map[ROOT := Route(ROOT_TX, 1, Some(ROOT_TURN)), CHILD := Route(CHILD_TX, 2, None)]
    && s.failed.live == {} && s.wire.overloaded == {} && s.wire.log == [] && s.owners == map[]
    && s.buffered.Keys == (if n == 0 then {} else {CHILD})
    && |s.arrivals| == n && (forall i | 0 <= i < n :: s.arrivals[i] == Tagged(TRANSCRIPT.(stamp := i), Some(2)))
    && b.messages == s.arrivals[..held]
    && |b.losses| == n - held && (forall i | 0 <= i < n - held :: b.losses[i] == Loss(s.arrivals[held + i], true))
    && !Overflowed(b)
  }

  lemma ArrivalWaits(s: Router, n: nat, env: Env)
    requires Waiting(s, n)
    ensures Waiting(RouteMessage(s, TRANSCRIPT, env), n + 1)
  {
    HeldArrival(s, TRANSCRIPT, env);
    hide FirstEvictable, RouteMessage;
    var b, r := BufferOf(s, CHILD), RouteMessage(s, TRANSCRIPT, env);
    var event := Received(s, TRANSCRIPT);
    assert r.arrivals == s.arrivals + [event];
    assert r.buffered.Keys == {CHILD};
    if n >= ROUTE_EVENT_BUDGET {
      assert BufferOf(r, CHILD).losses == b.losses + [Loss(event, true)];
      assert s.arrivals[..ROUTE_EVENT_BUDGET] == r.arrivals[..ROUTE_EVENT_BUDGET];
    } else {
      assert s.arrivals[..n] == s.arrivals && r.arrivals[..n + 1] == r.arrivals;
    }
  }

  lemma UnownedSubscribe(s: Router, thread: Id, env: Env)
    requires s.owners == map[] && Enumerates(env)
    ensures
      var r := Subscribe(s, thread, env);
      && r.routes == s.routes[thread := Route(|s.subscriptions|, s.generation + 1, None)]
      && r.generation == s.generation + 1 && |r.subscriptions| == |s.subscriptions| + 1
      && r.owners == map[] && r.buffered == s.buffered && r.wire == s.wire && r.failed.live <= s.failed.live
      && r.arrivals == s.arrivals
  {
    var nobody: set<Id> := {};
    assert Descendants(s, thread) == nobody;
    var order := env.enumerate(nobody);
    assert forall x: Id :: x in nobody <==> x in order;
    assert order == [] || order[0] in order;
  }

  lemma RunNothing(world: World)
    ensures LegalRun([], world) && Run([], world) == Fresh()
  {
  }

  lemma {:induction false} ScriptStarts(world: World)
    requires forall i: nat :: Enumerates(world(i))
    ensures Waiting(Run(Script(0), world), 0) && LegalRun(Script(0), world)
  {
    hide Subscribe, Enumerates, Run, LegalRun;
    var none: seq<Op> := [];
    RunNothing(world);
    var a, b, c := Subscribing(ROOT), Activating(ROOT, ROOT_TURN, ROOT_TX), Subscribing(CHILD);
    RunLonger(none, a, world);
    LegalLonger(none, a, world);
    UnownedSubscribe(Fresh(), ROOT, world(0));
    assert none + [a] == [a];
    RunLonger([a], b, world);
    LegalLonger([a], b, world);
    assert [a] + [b] == [a, b];
    RunLonger([a, b], c, world);
    LegalLonger([a, b], c, world);
    UnownedSubscribe(Run([a, b], world), CHILD, world(2));
    assert [a, b] + [c] == [a, b, c] == Script(0);
  }

  /** The run is legal, and its buffer holds the first events and records the loss of the others. */
  lemma {:induction false} LossIsReachable(world: World, n: nat)
    requires forall i: nat :: Enumerates(world(i))
    ensures LegalRun(Script(n), world) && Waiting(Run(Script(n), world), n)
    decreases n
  {
    hide Enumerates, RouteMessage, Waiting, Run, LegalRun;
    if n == 0 {
      ScriptStarts(world);
    } else {
      LossIsReachable(world, n - 1);
      var before := Script(n - 1);
      RunLonger(before, Arrive(TRANSCRIPT), world);
      LegalLonger(before, Arrive(TRANSCRIPT), world);
      ArrivalWaits(Run(before, world), n - 1, world(|before|));
    }
  }

  lemma {:induction false} AllAreStale(s: Router, events: seq<Tagged>, unresolved: bool)
    requires forall i | 0 <= i < |events| :: events[i].generation == Some(2)
    ensures EligibleEvents(s, CHILD, events, unresolved, 1) == []
    decreases |events|
  {
    if events != [] { AllAreStale(s, events[1..], unresolved); }
  }

  /** After the announcement nothing is buffered and nothing is marked. */
  ghost predicate Forgotten(s: Router, n: nat) {
    && s.routes == map[ROOT := Route(ROOT_TX, 1, Some(ROOT_TURN)), CHILD := Route(CHILD_TX, 2, None)]
    && s.wire.overloaded == {} && s.buffered == map[] && |s.wire.log| == 1
    && s.wire.log[0].event.message.thread == ROOT
    && CHILD in s.owners && s.owners[CHILD].root == ROOT && CHILD !in s.failed.live
    && |s.arrivals| == n + 1 && (forall i | 0 <= i < n :: s.arrivals[i] == Tagged(TRANSCRIPT.(stamp := i), Some(2)))
  }

  lemma AnnouncementForgets(s: Router, n: nat, env: Env)
    requires Waiting(s, n) && env.outcome(s.wire.attempts) == Accepts
    ensures Forgotten(RouteMessage(s, ANNOUNCEMENT, env), n)
  {
    hide Announce, Overflowed;
    var event := Received(s, ANNOUNCEMENT);
    var arrived := s.(arrivals := s.arrivals + [event]);
    var claim := Claim(ROOT, ROOT_TURN, 1, ROOT_TX);
    var sent := arrived.(wire := TrySend(s.wire, ROOT_TX, event, env).wire,
                         failed := Exhume(Exhume(s.failed, ROOT), ROOT));
    AnnounceIgnores(s, n, sent, claim);
    var r := Announce(sent, CHILD, claim);
    var none: seq<Id> := [];
    assert [CHILD][1..] == none;
    assert AnnounceAll(sent, [CHILD], claim) == Routed(r.state, [], []);
    assert Step(arrived, event, env) == Routed(r.state, [], []);
    var idle: seq<Tagged> := [];
    var unmarked: seq<nat> := [];
    assert [event][1..] + idle == idle && unmarked + unmarked == unmarked;
    assert Drain(arrived, [event], [], env) == Drain(r.state, idle, unmarked, env);
  }

  lemma AnnounceIgnores(s: Router, n: nat, r: Router, claim: Claim)
    requires Waiting(s, n) && claim == Claim(ROOT, ROOT_TURN, 1, ROOT_TX)
    requires r == s.(arrivals := r.arrivals, wire := r.wire, failed := r.failed)
    ensures
      var a := Announce(r, CHILD, claim);
      && a.more == [] && a.marks == [] && a.state.buffered == map[] && a.state.wire == r.wire
      && a.state.routes == r.routes && a.state.arrivals == r.arrivals && a.state.failed == r.failed
      && CHILD in a.state.owners && a.state.owners[CHILD].root == ROOT
  {
    hide EligibleEvents, StaleEvents, DeclineAll, Without, Bury;
    if n > 0 {
      AllAreStale(r, BufferOf(s, CHILD).messages, CHILD in r.retiredUnbound.live);
    }
  }

  /** The whole run: the events arrive, the announcement is delivered, the child is activated. */
  function Story(n: nat, turn: Id): seq<Op> {
    Script(n) + [Arrive(ANNOUNCEMENT)] + [Activating(CHILD, turn, CHILD_TX)]
  }

  /**
   On every such run the child's events are neither held nor sent in the end,
   and no channel is overloaded: with one event nothing was ever lost to the
   size limit, and beyond the limit its losses are forgotten too.
   */
  lemma {:induction false} LossIsForgotten(world: World, n: nat, turn: Id)
    requires Accepting(world)
    ensures
      var s := Run(Story(n, turn), world);
      && LegalRun(Story(n, turn), world)
      && s.wire.overloaded == {} && CHILD in s.routes && s.routes[CHILD].turn == Some(turn)
      && |s.arrivals| == n + 1
      && (forall i | 0 <= i < n ::
            && s.arrivals[i] == Tagged(TRANSCRIPT.(stamp := i), Some(2))
            && s.arrivals[i] !in SentOn(s.wire.log) && s.arrivals[i] !in Held(s.buffered))
  {
    hide Run, LegalRun, Script, Enumerates, RouteMessage;
    LossIsReachable(world, n);
    var ops := Script(n);
    var s := Run(ops, world);
    RunLonger(ops, Arrive(ANNOUNCEMENT), world);
    LegalLonger(ops, Arrive(ANNOUNCEMENT), world);
    AnnouncementForgets(s, n, world(|ops|));
    var told := ops + [Arrive(ANNOUNCEMENT)];
    var q := Run(told, world);
    assert Forgotten(q, n);
    RunLonger(told, Activating(CHILD, turn, CHILD_TX), world);
    LegalLonger(told, Activating(CHILD, turn, CHILD_TX), world);
    var r := Run(Story(n, turn), world);
    assert r.wire == q.wire && r.buffered == q.buffered - {CHILD} && r.arrivals == q.arrivals;
    assert q.buffered - {CHILD} == q.buffered;
    assert q.wire.log == [] + [q.wire.log[0]];
    SentOnAppends([], q.wire.log[0]);
  }

  // ---- The end of an owner --------------------------------------------------

  /** The child is announced first; then an event arrives for it, and its owner leaves. */
  function Sequel(turn: Id): seq<Op> {
    Script(0) + [Arrive(ANNOUNCEMENT)] + [Arrive(TRANSCRIPT)] + [Unsubscribing(ROOT, ROOT_TX)]
    + [Activating(CHILD, turn, CHILD_TX)]
  }

  /** What the owner of a waiting thread leaves behind when it goes. */
  ghost predicate Deserted(s: Router) {
    && CHILD in s.routes && s.routes[CHILD] == Route(CHILD_TX, 2, None)
    && s.wire.overloaded == {} && s.buffered == map[] && |s.wire.log| == 1
    && s.wire.log[0].event.message.thread == ROOT
    && |s.arrivals| == 2 && s.arrivals[1] == Tagged(TRANSCRIPT.(stamp := 1), Some(2))
  }

  lemma OwnerLeaves(s: Router, env: Env)
    requires Forgotten(s, 0) && Enumerates(env)
    ensures Deserted(RemoveRoute(RouteMessage(s, TRANSCRIPT, env), ROOT, ROOT_TX, env))
  {
    HeldArrival(s, TRANSCRIPT, env);
    hide RouteMessage, Enqueue, ClearEach, RetireOwner, Bury, DeclineAll, Without;
    var q := RouteMessage(s, TRANSCRIPT, env);
    var detached := q.(routes := q.routes - {ROOT});
    assert CHILD in Descendants(detached, ROOT);
    ClearEachAt(detached, env.enumerate(Descendants(detached, ROOT)), CHILD);
    ClearEachShrinks(detached, env.enumerate(Descendants(detached, ROOT)));
    var r := RemoveRoute(q, ROOT, ROOT_TX, env);
    assert r.buffered.Keys <= {CHILD} && CHILD !in r.buffered;
    assert r.buffered == map[];
  }

  /** An event that arrives after the announcement is forgotten when the announcing root ends. */
  lemma {:induction false} OwnerEndForgets(world: World, turn: Id)
    requires Accepting(world)
    ensures
      var s := Run(Sequel(turn), world);
      && LegalRun(Sequel(turn), world)
      && s.wire.overloaded == {} && CHILD in s.routes && s.routes[CHILD].turn == Some(turn)
      && |s.arrivals| == 2 && s.arrivals[1].message.thread == CHILD
      && s.arrivals[1] !in SentOn(s.wire.log) && s.arrivals[1] !in Held(s.buffered)
  {
    hide Run, LegalRun, Script, Enumerates, RouteMessage, RemoveRoute;
    LossIsReachable(world, 0);
    var a := Script(0);
    RunLonger(a, Arrive(ANNOUNCEMENT), world);
    LegalLonger(a, Arrive(ANNOUNCEMENT), world);
    AnnouncementForgets(Run(a, world), 0, world(|a|));
    var b := a + [Arrive(ANNOUNCEMENT)];
    var c := b + [Arrive(TRANSCRIPT)];
    var d := c + [Unsubscribing(ROOT, ROOT_TX)];
    RunLonger(b, Arrive(TRANSCRIPT), world);
    LegalLonger(b, Arrive(TRANSCRIPT), world);
    RunLonger(c, Unsubscribing(ROOT, ROOT_TX), world);
    LegalLonger(c, Unsubscribing(ROOT, ROOT_TX), world);
    ArrivalIgnoresEnv(Run(b, world), world(|b|), world(|c|));
    OwnerLeaves(Run(b, world), world(|c|));
    var q := Run(d, world);
    assert Deserted(q);
    RunLonger(d, Activating(CHILD, turn, CHILD_TX), world);
    LegalLonger(d, Activating(CHILD, turn, CHILD_TX), world);
    var r := Run(Sequel(turn), world);
    assert r.wire == q.wire && r.buffered == q.buffered - {CHILD} && r.arrivals == q.arrivals;
    assert q.buffered - {CHILD} == q.buffered;
    assert q.wire.log == [] + [q.wire.log[0]];
    SentOnAppends([], q.wire.log[0]);
  }

  lemma ArrivalIgnoresEnv(s: Router, env: Env, other: Env)
    requires Forgotten(s, 0)
    ensures RouteMessage(s, TRANSCRIPT, env) == RouteMessage(s, TRANSCRIPT, other)
  {
    hide RouteMessage;
    HeldArrival(s, TRANSCRIPT, env);
    HeldArrival(s, TRANSCRIPT, other);
  }
}
