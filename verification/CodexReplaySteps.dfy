/**
 What each operation does to the events that a subscribed thread has received
 while it awaits its activation: it keeps them, unless the thread is disturbed.
 */
module CodexReplaySteps {
  import opened CodexIds
  import opened Options
  import opened Tombstones
  import opened CodexRouting
  import opened CodexConservation
  import opened CodexOperations
  import opened CodexInvariants
  import opened CodexInvariantSteps
  import opened CodexRuns
  import opened CodexTheorems

  /** The thread has a subscription that is not activated yet. */
  ghost predicate Awaits(s: Router, t: Id, route: Route) {
    t in s.routes && s.routes[t] == route && route.turn.None?
  }

  /** The activation of the thread will find the event, or the record that it was lost. */
  ghost predicate Stored(s: Router, t: Id, e: Tagged) {
    t in s.buffered && Remembers(s.buffered[t], e)
  }

  ghost predicate Remembers(b: Buffer, e: Tagged) {
    e in b.messages || Loss(e, true) in b.losses
  }

  /** Since there were `from` deliveries, one of them announced the thread. */
  ghost predicate Announced(log: seq<Delivery>, from: nat, t: Id) {
    exists k | from <= k < |log| :: t in log[k].event.message.children
  }

  /** From `s` to `r` the thread was announced, or lost the owner that an announcement gave it before. */
  ghost predicate Disturbed(s: Router, r: Router, t: Id) {
    Announced(r.wire.log, |s.wire.log|, t) || (t in s.owners && t !in r.owners)
  }

  /** The subscription of the root is over. */
  ghost predicate Ended(s: Router, root: Id, generation: nat) {
    root !in s.routes || s.routes[root].generation != generation
  }

  /** Routes are kept, removed, or new. */
  ghost predicate Ages(s: Router, r: Router) {
    && s.generation <= r.generation
    && (forall u | u in r.routes :: Ended(s, u, r.routes[u].generation) ==> r.routes[u].generation > s.generation)
  }

  /** From `s` to `r` the thread kept its owner, or the root that owned it ended. */
  ghost predicate OwnerFollows(s: Router, r: Router, t: Id) {
    && (t in r.owners ==> t in s.owners && Claims(r.owners[t], ClaimOf(s.owners[t])))
    && (t in s.owners && t !in r.owners && s.owners[t].generation <= s.generation ==>
          Ended(r, s.owners[t].root, s.owners[t].generation))
  }

  function ClaimOf(o: Owner): Claim {
    Claim(o.root, o.rootTurn, o.generation, 0)
  }

  /** From `s` to `r` the event was not sent, and stayed stored exactly if the thread was not disturbed. */
  ghost predicate Follows(s: Router, r: Router, t: Id, e: Tagged) {
    && s.wire.log <= r.wire.log
    && (forall k | |s.wire.log| <= k < |r.wire.log| :: r.wire.log[k].event != e)
    && (t in s.routes ==> t in r.routes && r.routes[t] == s.routes[t])
    && (Stored(r, t, e) <==> Stored(s, t, e) && !Disturbed(s, r, t))
    && (!Announced(r.wire.log, |s.wire.log|, t) ==> OwnerFollows(s, r, t))
    && Ages(s, r)
  }

  lemma FollowsTrans(s: Router, q: Router, r: Router, t: Id, e: Tagged)
    requires Follows(s, q, t, e) && Follows(q, r, t, e)
    ensures Follows(s, r, t, e)
  {
    hide Stored, Ages, OwnerFollows;
    AgesTrans(s, q, r);
    if !Announced(q.wire.log, |s.wire.log|, t) && !Announced(r.wire.log, |q.wire.log|, t) {
      OwnerFollowsTrans(s, q, r, t);
      assert t in r.owners ==> t in q.owners by { OwnerFollowsKeys(q, r, t); }
      assert t in q.owners ==> t in s.owners by { OwnerFollowsKeys(s, q, t); }
    }
    assert Announced(r.wire.log, |s.wire.log|, t) <==>
           Announced(q.wire.log, |s.wire.log|, t) || Announced(r.wire.log, |q.wire.log|, t) by {
      if k :| |s.wire.log| <= k < |q.wire.log| && t in q.wire.log[k].event.message.children {
        assert r.wire.log[k] == q.wire.log[k];
      }
      if k :| |s.wire.log| <= k < |r.wire.log| && t in r.wire.log[k].event.message.children {
        assert k < |q.wire.log| ==> q.wire.log[k] == r.wire.log[k];
      }
    }
    forall k | |s.wire.log| <= k < |r.wire.log|
      ensures r.wire.log[k].event != e
    {
      assert k < |q.wire.log| ==> q.wire.log[k] == r.wire.log[k];
    }
  }

  lemma AgesTrans(s: Router, q: Router, r: Router)
    requires Ages(s, q) && Ages(q, r)
    ensures Ages(s, r)
  {
  }

  lemma OwnerFollowsKeys(s: Router, r: Router, t: Id)
    requires OwnerFollows(s, r, t)
    ensures t in r.owners ==> t in s.owners
  {
  }

  lemma OwnerFollowsTrans(s: Router, q: Router, r: Router, t: Id)
    requires OwnerFollows(s, q, t) && OwnerFollows(q, r, t) && Ages(s, q) && Ages(q, r)
    ensures OwnerFollows(s, r, t)
  {
  }

  /** Nothing the thread's events depend on changed. */
  ghost predicate SameFor(s: Router, r: Router, t: Id) {
    && r.wire.log == s.wire.log
    && (t in s.routes ==> t in r.routes && r.routes[t] == s.routes[t])
    && (t in r.owners <==> t in s.owners)
    && (t in s.owners ==> r.owners[t] == s.owners[t])
    && Ages(s, r)
    && (t in r.buffered <==> t in s.buffered)
    && (t in s.buffered ==> r.buffered[t] == s.buffered[t])
  }

  lemma SameFollows(s: Router, r: Router, t: Id, e: Tagged)
    requires SameFor(s, r, t)
    ensures Follows(s, r, t, e)
  {
  }

  // ---- Holding an event -----------------------------------------------------

  /** The buffer of a subscribed thread forgets nothing: what it displaces it records. */
  lemma EnqueueRemembers(b: Buffer, event: Tagged, e: Tagged)
    requires e != event
    ensures Remembers(Enqueue(b, true, event).buffer, e) <==> Remembers(b, e)
  {
    hide FirstEvictable;
    var r := Enqueue(b, true, event).buffer;
    var i := FirstEvictable(b.messages, true);
    if i < |b.messages| {
      assert b.messages == b.messages[..i] + [b.messages[i]] + b.messages[i + 1..];
    }
    assert r.losses == b.losses || exists x :: r.losses == b.losses + [Loss(x, true)];
  }

  lemma EnqueueStores(b: Buffer, event: Tagged)
    ensures Remembers(Enqueue(b, true, event).buffer, event)
  {
    hide FirstEvictable;
    var r := Enqueue(b, true, event).buffer;
    assert r.losses == b.losses + [Loss(event, true)] || (r.messages != [] && r.messages[|r.messages| - 1] == event);
  }

  lemma StoreFollows(s: Router, event: Tagged, t: Id, e: Tagged)
    requires t in s.routes && event != e
    ensures Follows(s, Store(s, event), t, e)
  {
    hide Enqueue, Remembers;
    if event.message.thread == t {
      EnqueueRemembers(BufferOf(s, t), event, e);
      assert !Remembers(EMPTY_BUFFER, e) by { NothingInEmpty(e); }
    }
  }

  lemma NothingInEmpty(e: Tagged)
    ensures !Remembers(EMPTY_BUFFER, e)
  {
  }

  /** Expiring an unknown thread leaves subscribed ones alone. */
  lemma TrackUnknownSpares(s: Router, u: Id, t: Id)
    requires Indexed(s) && u !in s.buffered && u !in s.routes && t in s.routes
    ensures SameFor(s, TrackUnknown(s, u), t)
  {
    hide IndexInv, EvictUnknown;
    TrackUnknownKeeps(s, u);
    UnknownHasNoRoute(s, t);
  }

  lemma UnknownHasNoRoute(s: Router, t: Id)
    requires Indexed(s) && t in s.routes
    ensures t !in s.unknown
  {
  }

  lemma BufferMessageFollows(s: Router, event: Tagged, t: Id, e: Tagged)
    requires Indexed(s) && t in s.routes && event != e
    ensures Follows(s, BufferMessage(s, event), t, e)
  {
    hide IndexInv, Follows, Store, TrackUnknown, Decline;
    var u := event.message.thread;
    if u == NO_THREAD || u in s.failed.live {
      SameFollows(s, BufferMessage(s, event), t, e);
    } else if u in s.routes || u in s.buffered {
      StoreFollows(s, event, t, e);
    } else {
      var tracked := TrackUnknown(s, u);
      TrackUnknownSpares(s, u, t);
      SameFollows(s, tracked, t, e);
      StoreFollows(tracked, event, t, e);
      FollowsTrans(s, tracked, Store(tracked, event), t, e);
    }
  }

  // ---- Announcements --------------------------------------------------------

  /** Two roots never share a generation. */
  lemma GenerationsDiffer(s: Router, t: Id, u: Id)
    requires Routes(s) && t in s.routes && u in s.routes && t != u
    ensures s.routes[t].generation != s.routes[u].generation
  {
    RoutesInvAt(s, t);
    RoutesInvAt(s, u);
  }

  ghost predicate OwnEvent(s: Router, t: Id, e: Tagged) {
    t in s.routes && e.message.thread == t && e.generation == Some(s.routes[t].generation)
  }

  /** An announcement releases no event that another subscription received. */
  lemma AnnounceSkips(s: Router, child: Id, claim: Claim, t: Id, e: Tagged)
    requires Inv(s) && ClaimLive(s, claim) && OwnEvent(s, t, e) && s.routes[t].turn.None?
    ensures e !in Announce(s, child, claim).more
  {
    hide IndexInv, RoutesInv, OwnersInv, WellFormed, EligibleEvents, StaleEvents, Ambiguous, DeclineAll, Own, Discard;
    GenerationsDiffer(s, t, claim.root);
    if child != claim.root && child in s.buffered {
      var messages := s.buffered[child].messages;
      BufferedEventsAre(s, child);
      EligibleAreFresh(s, child, messages, child in s.retiredUnbound.live, claim.generation);
    }
  }

  /** Announcing children takes away exactly what is buffered for them. */
  lemma {:induction false} AnnounceAllAt(s: Router, children: seq<Id>, claim: Claim, t: Id, e: Tagged)
    requires Inv(s) && ClaimLive(s, claim) && OwnEvent(s, t, e) && s.routes[t].turn.None?
    ensures
      var r := AnnounceAll(s, children, claim);
      && e !in r.more
      && (t in children ==> t !in r.state.buffered)
      && (t !in children ==> SameFor(s, r.state, t))
    decreases |children|
  {
    hide Inv, Announce;
    if children != [] {
      AnnounceKeeps(s, children[0], claim);
      AnnounceSkips(s, children[0], claim, t, e);
      var first := Announce(s, children[0], claim).state;
      AnnounceAllAt(first, children[1..], claim, t, e);
      AnnounceAllKeeps(first, children[1..], claim);
      assert children == [children[0]] + children[1..];
    }
  }

  // ---- Removing a route -----------------------------------------------------

  lemma {:induction false} ClearEachAt(s: Router, children: seq<Id>, t: Id)
    ensures
      var r := ClearEach(s, children);
      if t in children then t !in r.owners && t !in r.buffered else SameFor(s, r, t)
    decreases |children|
  {
    hide RetireOwner, RejectBuffered;
    if children != [] {
      var retired := RetireOwner(s, children[0]);
      RetiredOwnerIs(s, children[0]);
      ClearEachAt(RejectBuffered(retired, children[0]), children[1..], t);
      assert children == [children[0]] + children[1..];
      ClearEachShrinks(RejectBuffered(retired, children[0]), children[1..]);
    }
  }

  lemma RetiredOwnerIs(s: Router, t: Id)
    ensures RetireOwner(s, t).owners == s.owners - {t}
  {
    hide Bury;
  }

  lemma {:induction false} ClearEachShrinks(s: Router, children: seq<Id>)
    ensures ClearEach(s, children).owners.Keys <= s.owners.Keys
    ensures ClearEach(s, children).buffered.Keys <= s.buffered.Keys
    decreases |children|
  {
    hide RetireOwner, RejectBuffered;
    if children != [] {
      RetiredOwnerIs(s, children[0]);
      ClearEachShrinks(RejectBuffered(RetireOwner(s, children[0]), children[0]), children[1..]);
    }
  }

  /** Clearing the descendants of a root disturbs exactly the threads it owns. */
  lemma ClearDescendantsAt(s: Router, root: Id, env: Env, t: Id, e: Tagged)
    requires Enumerates(env) && root !in s.routes
    ensures Follows(s, ClearDescendants(s, root, env), t, e)
  {
    hide ClearEach, Follows;
    var children := env.enumerate(Descendants(s, root));
    ClearEachAt(s, children, t);
    var r := ClearDescendants(s, root, env);
    if t in children {
      assert t in Descendants(s, root);
      GoneFollows(s, r, t, e);
    } else {
      SameFollows(s, r, t, e);
    }
  }

  lemma GoneFollows(s: Router, r: Router, t: Id, e: Tagged)
    requires r.wire == s.wire && Ages(s, r) && (t in s.routes ==> t in r.routes && r.routes[t] == s.routes[t])
    requires t in s.owners && t !in r.owners && t !in r.buffered
    requires Ended(r, s.owners[t].root, s.owners[t].generation)
    ensures Follows(s, r, t, e)
  {
  }

  lemma RemoveRouteFollows(s: Router, root: Id, tx: nat, env: Env, t: Id, e: Tagged)
    requires Enumerates(env) && t != root
    ensures Follows(s, RemoveRoute(s, root, tx, env), t, e)
  {
    hide Follows, ClearDescendants, RetireOwner, RejectBuffered, Bury;
    if root in s.routes && s.routes[root].tx == tx {
      var detached := s.(routes := s.routes - {root});
      SameFollows(s, detached, t, e);
      ClearDescendantsAt(detached, root, env, t, e);
      var cleared := ClearDescendants(detached, root, env);
      FollowsTrans(s, detached, cleared, t, e);
      RetiredOwnerIs(cleared, root);
      var r := RemoveRoute(s, root, tx, env);
      assert SameFor(cleared, r, t) by { ClearDescendantsFrame(detached, root, env); }
      SameFollows(cleared, r, t, e);
      FollowsTrans(s, cleared, r, t, e);
    } else {
      SameFollows(s, s, t, e);
    }
  }

  lemma ClearDescendantsFrame(s: Router, root: Id, env: Env)
    ensures ClearDescendants(s, root, env).routes == s.routes && ClearDescendants(s, root, env).wire == s.wire
  {
  }

  // ---- One step of the work list --------------------------------------------

  lemma SentFollows(s: Router, r: Router, d: Delivery, t: Id, e: Tagged)
    requires r.wire.log == s.wire.log + [d] && d.event != e && Ages(s, r)
    requires t in s.routes ==> t in r.routes && r.routes[t] == s.routes[t]
    requires t in d.event.message.children ==> t !in r.buffered
    requires t !in d.event.message.children ==> SameFor(s.(wire := r.wire), r, t)
    ensures Follows(s, r, t, e)
  {
    assert r.wire.log[|s.wire.log|] == d;
  }

  lemma DeliveredFollows(s: Router, event: Tagged, fate: Fate, env: Env, t: Id, e: Tagged)
    requires Inv(s) && fate.Send? && Live(s.routes, fate.root, fate.rootTurn, fate.generation)
    requires fate.child ==> event.message.thread !in s.routes
    requires OwnEvent(s, t, e) && s.routes[t].turn.None? && event != e
    requires TrySend(s.wire, fate.tx, event, env).accepted
    ensures
      var r := Delivered(s.(wire := TrySend(s.wire, fate.tx, event, env).wire), event, fate);
      Follows(s, r.state, t, e) && e !in r.more
  {
    hide IndexInv, BuffersInv, RoutesInv, OwnersInv, WellFormed, RetireOwner, AnnounceAll, Follows;
    var u := event.message.thread;
    var out := s.(wire := TrySend(s.wire, fate.tx, event, env).wire);
    ExhumeKeeps(s.failed, u);
    ExhumeKeeps(Exhume(s.failed, u), fate.root);
    var cleared := out.(failed := Exhume(Exhume(s.failed, u), fate.root));
    RetireOwnerKeeps(cleared, u);
    var ended :=
      if fate.child && event.message.kind.Notification? && event.message.kind.turnCompleted
      then RetireOwner(cleared, u) else cleared;
    AnnounceAllAt(ended, event.message.children, Claim(fate.root, fate.rootTurn, fate.generation, fate.tx), t, e);
    SentFollows(s, Delivered(out, event, fate).state, Delivery(fate.tx, event), t, e);
  }

  lemma DispatchFollows(s: Router, event: Tagged, fate: Fate, env: Env, t: Id, e: Tagged)
    requires Inv(s) && Enumerates(env) && fate.Send? && Live(s.routes, fate.root, fate.rootTurn, fate.generation)
    requires fate.child ==> event.message.thread !in s.routes
    requires OwnEvent(s, t, e) && s.routes[t].turn.None? && event != e
    ensures
      var r := Dispatch(s, event, fate, env);
      Follows(s, r.state, t, e) && e !in r.more
  {
    hide Inv, Delivered, RemoveRoute, Decline, Follows;
    var sent := TrySend(s.wire, fate.tx, event, env);
    if sent.accepted {
      DeliveredFollows(s, event, fate, env, t, e);
    } else {
      var declined := s.(wire := sent.wire, out := Decline(s.out, event, Undeliverable));
      SameFollows(s, declined, t, e);
      RemoveRouteFollows(declined, fate.root, fate.tx, env, t, e);
      FollowsTrans(s, declined, RemoveRoute(declined, fate.root, fate.tx, env), t, e);
    }
  }

  lemma StepFollows(s: Router, event: Tagged, env: Env, t: Id, e: Tagged)
    requires Inv(s) && Enumerates(env)
    requires OwnEvent(s, t, e) && s.routes[t].turn.None? && event != e
    ensures
      var r := Step(s, event, env);
      Follows(s, r.state, t, e) && e !in r.more
  {
    hide Inv, Classify, Dispatch, BufferMessage, Decline, Drop, Follows, Live;
    BindChildKeeps(s, event);
    var bound := BindChild(s, event);
    SameFollows(s, bound, t, e);
    match Classify(bound, event)
    case Ignore => SameFollows(s, Step(s, event, env).state, t, e);
    case Refuse => SameFollows(s, Step(s, event, env).state, t, e);
    case Hold =>
      assert Indexed(bound) by { InvIndexed(bound); }
      BufferMessageFollows(bound, event, t, e);
      FollowsTrans(s, bound, BufferMessage(bound, event), t, e);
    case Send(_, _, _, _, _) =>
      SendIsLive(bound, event);
      DispatchFollows(bound, event, Classify(bound, event), env, t, e);
      FollowsTrans(s, bound, Step(s, event, env).state, t, e);
  }

  lemma InvIndexed(s: Router)
    requires Inv(s)
    ensures Indexed(s)
  {
  }

  // ---- Routing calls --------------------------------------------------------

  lemma {:induction false} DrainFollows(s: Router, queue: seq<Tagged>, later: seq<Tagged>, marks: seq<nat>, env: Env,
                                        t: Id, e: Tagged)
    requires Sound(s, queue, later, marks) && Enumerates(env)
    requires OwnEvent(s, t, e) && s.routes[t].turn.None? && e !in queue
    ensures Follows(s, Drain(s, queue, marks, env).state, t, e)
    decreases Unresolved(s, queue), |queue|
  {
    hide Sound, Step, Unresolved, Follows;
    if queue == [] {
      SameFollows(s, s, t, e);
    } else {
      StepMakesProgress(s, queue, env);
      StepSound(s, queue, later, marks, env);
      SoundInv(s, queue, later, marks);
      StepFollows(s, queue[0], env, t, e);
      var r := Step(s, queue[0], env);
      FollowsKeepsRoute(s, r.state, t, e);
      DrainFollows(r.state, queue[1..] + r.more, later, marks + r.marks, env, t, e);
      FollowsTrans(s, r.state, Drain(s, queue, marks, env).state, t, e);
    }
  }

  lemma SoundInv(s: Router, queue: seq<Tagged>, later: seq<Tagged>, marks: seq<nat>)
    requires Sound(s, queue, later, marks)
    ensures Inv(s)
  {
  }

  lemma FollowsKeepsRoute(s: Router, r: Router, t: Id, e: Tagged)
    requires Follows(s, r, t, e) && t in s.routes
    ensures t in r.routes && r.routes[t] == s.routes[t]
  {
  }

  lemma RouteBufferedFollows(s: Router, event: Tagged, later: seq<Tagged>, env: Env, t: Id, e: Tagged)
    requires Sound(s, [event], later, []) && Enumerates(env)
    requires OwnEvent(s, t, e) && s.routes[t].turn.None? && e != event
    ensures Follows(s, RouteBuffered(s, event, env), t, e)
  {
    hide Sound, Drain, Follows;
    DrainFollows(s, [event], later, [], env, t, e);
    var drained := Drain(s, [event], [], env);
    SameFollows(drained.state, RouteBuffered(s, event, env), t, e);
    FollowsTrans(s, drained.state, RouteBuffered(s, event, env), t, e);
  }

  lemma {:induction false} RouteEachFollows(s: Router, events: seq<Tagged>, env: Env, t: Id, e: Tagged)
    requires Sound(s, [], events, []) && Enumerates(env)
    requires OwnEvent(s, t, e) && s.routes[t].turn.None? && e !in events
    ensures Follows(s, RouteEach(s, events, env), t, e)
    decreases |events|
  {
    hide Sound, RouteBuffered, Follows;
    if events == [] {
      SameFollows(s, s, t, e);
    } else {
      SoundShifts(s, events);
      RouteBufferedSound(s, events[0], events[1..], env);
      RouteBufferedFollows(s, events[0], events[1..], env, t, e);
      var next := RouteBuffered(s, events[0], env);
      FollowsKeepsRoute(s, next, t, e);
      RouteEachFollows(next, events[1..], env, t, e);
      FollowsTrans(s, next, RouteEach(s, events, env), t, e);
    }
  }

  // ---- Routes come and go ---------------------------------------------------

  /** A thread with a tombstone has neither a subscription nor a buffer. */
  ghost predicate Unfailed(s: Router) {
    forall t | t in s.failed.live :: t !in s.routes && t !in s.buffered
  }

  /** Routes are only removed, and only those get a tombstone. */
  ghost predicate Shrinks(s: Router, r: Router) {
    SubMap(r.routes, s.routes) && (Unfailed(s) ==> Unfailed(r))
  }

  lemma RemoveRouteShrinks(s: Router, root: Id, tx: nat, env: Env)
    requires Inv(s) && Enumerates(env)
    ensures Shrinks(s, RemoveRoute(s, root, tx, env))
  {
    hide Inv, RemoveRoute, Emptied, Bury, WellFormed;
    RemoveRouteKeeps(s, root, tx, env);
    RemoveRouteIs(s, root, tx, env);
    assert WellFormed(s.failed) by { InvBuried(s); }
    BuryKeepsBounds(s.failed, root);
  }

  lemma InvBuried(s: Router)
    requires Inv(s)
    ensures Buried(s)
  {
  }

  lemma {:induction false} AnnounceAllShrinks(s: Router, children: seq<Id>, claim: Claim)
    ensures AnnounceAll(s, children, claim).state.buffered.Keys <= s.buffered.Keys
    decreases |children|
  {
    hide Own, EligibleEvents, StaleEvents, DeclineAll, Ambiguous;
    if children != [] { AnnounceAllShrinks(Announce(s, children[0], claim).state, children[1..], claim); }
  }

  /** Nothing is buffered for a thread with a tombstone. */
  lemma BufferMessageSpares(s: Router, event: Tagged)
    requires Indexed(s) && Unfailed(s)
    ensures Unfailed(BufferMessage(s, event))
  {
    hide IndexInv, TrackUnknown, Enqueue, Decline;
    var t := event.message.thread;
    if t !in s.routes && t !in s.buffered { TrackUnknownKeeps(s, t); }
  }

  lemma StepShrinks(s: Router, event: Tagged, env: Env)
    requires Inv(s) && Enumerates(env)
    ensures Shrinks(s, Step(s, event, env).state)
  {
    hide Inv, BindChild, Classify, BufferMessage, Delivered, RemoveRoute, Decline, Drop;
    BindChildKeeps(s, event);
    var bound := BindChild(s, event);
    var fate := Classify(bound, event);
    if fate.Hold? && Unfailed(s) {
      InvIndexed(bound);
      BufferMessageSpares(bound, event);
    } else if fate.Send? {
      DeliveredShrinks(bound.(wire := TrySend(bound.wire, fate.tx, event, env).wire), event, fate);
      var sent := TrySend(bound.wire, fate.tx, event, env);
      var declined := bound.(wire := sent.wire, out := Decline(bound.out, event, Undeliverable));
      assert Inv(declined) by { InvIgnoresWire(bound, declined); }
      RemoveRouteShrinks(declined, fate.root, fate.tx, env);
    }
  }

  lemma DeliveredShrinks(s: Router, event: Tagged, fate: Fate)
    requires fate.Send?
    ensures
      var r := Delivered(s, event, fate).state;
      r.buffered.Keys <= s.buffered.Keys && r.failed.live <= s.failed.live && r.routes == s.routes
  {
    hide AnnounceAll, RetireOwner;
    var cleared := s.(failed := Exhume(Exhume(s.failed, event.message.thread), fate.root));
    var claim := Claim(fate.root, fate.rootTurn, fate.generation, fate.tx);
    AnnounceAllShrinks(cleared, event.message.children, claim);
    AnnounceAllShrinks(RetireOwner(cleared, event.message.thread), event.message.children, claim);
  }

  lemma InvIgnoresWire(s: Router, r: Router)
    requires Inv(s) && r == s.(wire := r.wire, out := r.out)
    ensures Inv(r)
  {
  }

  lemma {:induction false} DrainShrinks(s: Router, queue: seq<Tagged>, later: seq<Tagged>, marks: seq<nat>, env: Env)
    requires Sound(s, queue, later, marks) && Enumerates(env)
    ensures Shrinks(s, Drain(s, queue, marks, env).state)
    decreases Unresolved(s, queue), |queue|
  {
    hide Sound, Step, Unresolved, Unfailed;
    if queue != [] {
      StepMakesProgress(s, queue, env);
      StepSound(s, queue, later, marks, env);
      SoundInv(s, queue, later, marks);
      StepShrinks(s, queue[0], env);
      var r := Step(s, queue[0], env);
      DrainShrinks(r.state, queue[1..] + r.more, later, marks + r.marks, env);
    }
  }

  lemma {:induction false} RouteEachShrinks(s: Router, events: seq<Tagged>, env: Env)
    requires Sound(s, [], events, []) && Enumerates(env)
    ensures Shrinks(s, RouteEach(s, events, env))
    decreases |events|
  {
    hide Sound, Drain;
    if events != [] {
      SoundShifts(s, events);
      DrainShrinks(s, [events[0]], events[1..], [], env);
      RouteBufferedSound(s, events[0], events[1..], env);
      RouteEachShrinks(RouteBuffered(s, events[0], env), events[1..], env);
    }
  }

  // ---- Operations -----------------------------------------------------------

  lemma ArriveFollows(s: Router, message: Message, env: Env, t: Id, e: Tagged)
    requires Settled(s) && Enumerates(env)
    requires OwnEvent(s, t, e) && s.routes[t].turn.None? && e.message.stamp != |s.arrivals|
    ensures Follows(s, RouteMessage(s, message, env), t, e)
  {
    hide Sound, Drain, Follows, Decline;
    var event := Tagged(message.(stamp := |s.arrivals|), ReceivedUnder(s, message.thread));
    var arrived := s.(arrivals := s.arrivals + [event]);
    SameFollows(s, arrived, t, e);
    ArrivalSound(s, event);
    var r := RouteMessage(s, message, env);
    if Retired(s, message.thread, message.turn) && message.thread !in s.routes {
      SameFollows(arrived, r, t, e);
    } else {
      RouteBufferedFollows(arrived, event, [], env, t, e);
    }
    FollowsTrans(s, arrived, r, t, e);
  }

  lemma SubscribeFollows(s: Router, u: Id, env: Env, t: Id, e: Tagged)
    requires Enumerates(env) && t != u
    ensures Follows(s, Subscribe(s, u, env), t, e)
  {
    hide Follows, ClearEach, RetireOwner, AdoptUnknown;
    var detached := s.(routes := s.routes - {u});
    SameFollows(s, detached, t, e);
    ClearDescendantsAt(detached, u, env, t, e);
    ClearEachIgnoresRoutes(s, detached.routes, env.enumerate(Descendants(s, u)));
    assert Descendants(detached, u) == Descendants(s, u);
    var cleared, r := ClearDescendants(detached, u, env), Subscribe(s, u, env);
    FollowsTrans(s, detached, cleared, t, e);
    assert cleared == ClearDescendants(s, u, env).(routes := detached.routes);
    RetiredOwnerIs(ClearDescendants(s, u, env), u);
    assert r.owners == cleared.owners - {u} && r.buffered == cleared.buffered;
    SameFollows(cleared, r, t, e);
    FollowsTrans(s, cleared, r, t, e);
  }

  lemma ActivateFollows(s: Router, u: Id, turn: Id, tx: nat, env: Env, t: Id, e: Tagged)
    requires Settled(s) && Enumerates(env) && Enabled(s, Activating(u, turn, tx)) && t != u
    requires OwnEvent(s, t, e) && s.routes[t].turn.None?
    ensures Follows(s, Activate(s, u, turn, tx, env), t, e)
  {
    hide Sound, RouteEach, RelevantOverflow, Follows, Discard;
    if u !in s.routes || s.routes[u].tx != tx || u !in s.buffered {
      SameFollows(s, Activate(s, u, turn, tx, env), t, e);
    } else {
      var taken, messages := Discard(Bind(s, u, turn), u), BufferOf(s, u).messages;
      SameFollows(s, taken, t, e);
      BoundSound(s, u, turn);
      assert e !in messages by { SoundInv(s, [], [], []); OtherThreads(s, u, e); }
      RouteEachFollows(taken, messages, env, t, e);
      var routed, r := RouteEach(taken, messages, env), Activate(s, u, turn, tx, env);
      FollowsTrans(s, taken, routed, t, e);
      SameFollows(routed, r, t, e);
      FollowsTrans(s, routed, r, t, e);
    }
  }

  lemma OtherThreads(s: Router, u: Id, e: Tagged)
    requires Inv(s) && e.message.thread != u
    ensures e !in BufferOf(s, u).messages
  {
    hide IndexInv, RoutesInv, OwnersInv, WellFormed, EventsOk, LossesRecorded;
    if u in s.buffered { BufferedEventsAre(s, u); }
  }

  lemma ActivateShrinks(s: Router, u: Id, turn: Id, tx: nat, env: Env)
    requires Settled(s) && Enumerates(env) && Enabled(s, Activating(u, turn, tx))
    requires u in s.routes && s.routes[u].tx == tx
    ensures Shrinks(Bind(s, u, turn), Activate(s, u, turn, tx, env))
  {
    hide Sound, RouteEach, RelevantOverflow, Discard;
    if u in s.buffered {
      BoundSound(s, u, turn);
      RouteEachShrinks(Discard(Bind(s, u, turn), u), BufferOf(s, u).messages, env);
    }
  }

  lemma ArriveShrinks(s: Router, message: Message, env: Env)
    requires Settled(s) && Enumerates(env)
    ensures Shrinks(s, RouteMessage(s, message, env))
  {
    hide Sound, Drain, Decline;
    var event := Tagged(message.(stamp := |s.arrivals|), ReceivedUnder(s, message.thread));
    ArrivalSound(s, event);
    DrainShrinks(s.(arrivals := s.arrivals + [event]), [event], [], [], env);
  }

  /** An operation after which the thread still awaits its activation found it awaiting, and was not about it. */
  lemma ApplyAwaitsBack(s: Router, op: Op, env: Env, t: Id, route: Route)
    requires Settled(s) && Enumerates(env) && Enabled(s, op)
    requires Awaits(Apply(s, op, env), t, route) && route.tx < |s.subscriptions|
    ensures Awaits(s, t, route)
    ensures op.Subscribing? || op.Activating? || op.Unsubscribing? ==>
              op.thread != t || Apply(s, op, env) == s
  {
    hide Sound, RouteMessage, RouteEach, RelevantOverflow, Discard, Vacate, RemoveRoute, AdoptUnknown,
         Unfailed, Emptied;
    match op
    case Arrive(message) => ArriveShrinks(s, message, env);
    case Subscribing(u) =>
    case Activating(u, turn, tx) =>
      if u in s.routes && s.routes[u].tx == tx { ActivateShrinks(s, u, turn, tx, env); }
    case Unsubscribing(u, tx) => RemoveRouteIs(s, u, tx, env);
    case Flushing =>
  }

  lemma ApplyFollows(s: Router, op: Op, env: Env, t: Id, e: Tagged)
    requires Settled(s) && Enumerates(env) && Enabled(s, op)
    requires OwnEvent(s, t, e) && e.message.stamp != |s.arrivals| && s.routes[t].tx < |s.subscriptions|
    requires Awaits(Apply(s, op, env), t, s.routes[t])
    ensures Follows(s, Apply(s, op, env), t, e)
  {
    hide Sound, RouteMessage, Subscribe, Activate, RemoveRoute, Follows;
    ApplyAwaitsBack(s, op, env, t, s.routes[t]);
    SameFollows(s, s, t, e);
    match op
    case Arrive(message) => ArriveFollows(s, message, env, t, e);
    case Subscribing(u) => if u != t { SubscribeFollows(s, u, env, t, e); }
    case Activating(u, turn, tx) => if u != t { ActivateFollows(s, u, turn, tx, env, t, e); }
    case Unsubscribing(u, tx) => if u != t { RemoveRouteFollows(s, u, tx, env, t, e); }
    case Flushing => SameFollows(s, TakeResponses(s), t, e);
  }
}
