/**
 The router keeps its promises: each operation keeps them, so every run does.
 */
module CodexTheorems {
  import opened CodexIds
  import opened Tombstones
  import opened CodexRouting
  import opened CodexConservation
  import opened CodexOperations
  import opened CodexInvariants
  import opened CodexInvariantSteps
  import opened CodexAttribution
  import opened CodexOrder
  import opened CodexRuns

  /** Between operations the work list is empty. */
  ghost predicate Settled(s: Router) {
    Sound(s, [], [], [])
  }

  // ---- History only grows ---------------------------------------------------

  ghost predicate HistoryGrows(s: Router, r: Router) {
    && |s.arrivals| <= |r.arrivals|
    && |s.subscriptions| <= |r.subscriptions|
    && (forall i | 0 <= i < |s.subscriptions| ::
          && r.subscriptions[i].root == s.subscriptions[i].root
          && r.subscriptions[i].since == s.subscriptions[i].since)
  }

  lemma EventsGrow(s: Router, r: Router, events: seq<Tagged>)
    requires HistoryGrows(s, r) && EventsOk(|s.arrivals|, s.subscriptions, events)
    ensures EventsOk(|r.arrivals|, r.subscriptions, events)
  {
    forall i | 0 <= i < |events| ensures EventOk(|r.arrivals|, r.subscriptions, events[i]) {
      assert EventOk(|s.arrivals|, s.subscriptions, events[i]);
    }
  }

  lemma BuffersGrow(s: Router, r: Router)
    requires HistoryGrows(s, r) && Buffers(s) && SubMap(r.buffered, s.buffered)
    ensures Buffers(r)
  {
    forall t | t in r.buffered ensures BufferOk(|r.arrivals|, r.subscriptions, t, r.buffered[t]) {
      hide HistoryGrows, EventsOk, LossesRecorded;
      assert BufferOk(|s.arrivals|, s.subscriptions, t, s.buffered[t]);
      EventsGrow(s, r, s.buffered[t].messages);
    }
  }

  lemma LogGrows(s: Router, r: Router)
    requires HistoryGrows(s, r) && LogOk(s) && r.wire.log == s.wire.log
    ensures LogOk(r)
  {
    forall i | 0 <= i < |r.wire.log| ensures EventOk(|r.arrivals|, r.subscriptions, r.wire.log[i].event) {
      EventsGrow(s, r, [s.wire.log[i].event]);
      assert EventOk(|r.arrivals|, r.subscriptions, [s.wire.log[i].event][0]);
    }
  }

  // ---- A message arrives ----------------------------------------------------

  lemma ArrivalSound(s: Router, event: Tagged)
    requires Settled(s)
    requires event.message.stamp == |s.arrivals|
    requires event.generation == ReceivedUnder(s, event.message.thread)
    ensures Sound(s.(arrivals := s.arrivals + [event]), [event], [], [])
  {
    hide IndexInv, BuffersInv, RoutesInv, OwnersInv, WellFormed, AttributionInv, LossesRecorded, Overflowed, EventOk,
         OrderInv;
    var r := s.(arrivals := s.arrivals + [event]);
    assert Inv(r) by { BuffersGrow(s, r); RoutesGrow(s, r); }
    SameAttribution(s, r);
    LogGrows(s, r);
    ReceivedOk(s, event);
    var none: seq<Tagged> := [];
    assert none + none == none && [event] + none == [event];
    NewestIsLast(s, event);
  }

  lemma RoutesGrow(s: Router, r: Router)
    requires Routes(s) && HistoryGrows(s, r)
    requires r == s.(arrivals := r.arrivals)
    ensures Routes(r)
  {}

  /** The tag of a new event is honest. */
  lemma ReceivedOk(s: Router, event: Tagged)
    requires Inv(s) && event.message.stamp == |s.arrivals|
    requires event.generation == ReceivedUnder(s, event.message.thread)
    ensures EventOk(|s.arrivals| + 1, s.subscriptions, event)
  {
    hide IndexInv, BuffersInv, OwnersInv, WellFormed;
    if event.message.thread !in s.routes && event.message.thread in s.owners {
      OwnersInvAt(s, event.message.thread);
    }
  }

  lemma NewestIsLast(s: Router, event: Tagged)
    requires OrderInv(s.wire.log, s.buffered, []) && LogOk(s) && Buffers(s)
    requires event.message.stamp == |s.arrivals|
    ensures OrderInv(s.wire.log, s.buffered, [event])
  {
    forall t, k | t in s.buffered && 0 <= k < |s.buffered[t].messages|
      ensures Before(s.buffered[t].messages[k], event)
    {
      BufferedEventsAre(s, t);
    }
  }

  lemma SameAttribution(s: Router, r: Router)
    requires AttributionInv(s) && r == s.(arrivals := r.arrivals)
    ensures AttributionInv(r)
  {
    hide Attributed, SinceAnnounced;
  }


  lemma RouteMessageSound(s: Router, message: Message, env: Env)
    requires Settled(s) && Enumerates(env)
    ensures Settled(RouteMessage(s, message, env))
  {
    hide RouteBuffered, Sound;
    var event := Tagged(message.(stamp := |s.arrivals|), ReceivedUnder(s, message.thread));
    var arrived := s.(arrivals := s.arrivals + [event]);
    ArrivalSound(s, event);
    RouteBufferedSound(arrived, event, [], env);
    DroppedSound(arrived, event);
  }

  lemma DroppedSound(s: Router, event: Tagged)
    requires Sound(s, [event], [], [])
    ensures Settled(s.(out := Decline(s.out, event, RetiredTurn)))
  {
    hide IndexInv, BuffersInv, RoutesInv, OwnersInv, WellFormed, Attributed, SinceAnnounced, LossesRecorded,
         Overflowed, EventOk, OrderInv, Decline;
    var none: seq<Tagged> := [];
    assert none + none == none && [event] + none == [event] && [event][1..] == none;
    OrderDrops(s.wire.log, s.buffered, [event], s.buffered);
  }

  // ---- A turn subscribes ----------------------------------------------------

  lemma VacateKeeps(s: Router, thread: Id, env: Env)
    requires Inv(s) && Enumerates(env)
    ensures
      var r := Vacate(s, thread, env);
      && Inv(r) && SubMap(r.owners, s.owners) && SubMap(r.buffered, s.buffered)
      && thread !in r.owners
      && forall c | c in r.owners :: r.owners[c].root != thread
  {
    hide Inv, ClearDescendants, RetireOwner;
    ClearDescendantsKeeps(s, thread, env);
    var cleared := ClearDescendants(s, thread, env);
    RetireOwnerKeeps(cleared, thread);
    assert forall c | c in cleared.owners :: c in Descendants(cleared, thread) <==> cleared.owners[c].root == thread;
  }

  lemma AdoptUnknownIndexes(s: Router, t: Id)
    requires Indexed(s)
    ensures
      var r := AdoptUnknown(s, t);
      IndexInv(r.unknown, r.unknownOrder, s.buffered.Keys, s.routes.Keys + {t})
  {
    hide Without, IndexInv;
    if t in s.unknown {
      IndexWithout(s.unknown, s.unknownOrder, s.buffered.Keys, s.routes.Keys, t);
    } else {
      IndexBeside(s.unknown, s.unknownOrder, s.buffered.Keys, s.routes.Keys, t);
    }
  }

  lemma SubscribeKeeps(s: Router, thread: Id, env: Env)
    requires Inv(s) && Linked(s) && Enumerates(env)
    ensures Inv(Subscribe(s, thread, env)) && Linked(Subscribe(s, thread, env))
    ensures HistoryGrows(s, Subscribe(s, thread, env)) && SubMap(Subscribe(s, thread, env).buffered, s.buffered)
  {
    hide IndexInv, BuffersInv, OwnersInv, WellFormed, Vacate, AdoptUnknown, SinceAnnounced, RetireOwner,
         ClearDescendants;
    var v, r := Vacate(s, thread, env), Subscribe(s, thread, env);
    VacateKeeps(s, thread, env);
    LinkedShrinks(s, v);
    ExhumeKeeps(v.failed, thread);
    assert Indexed(r) by {
      AdoptUnknownIndexes(v.(failed := Exhume(v.failed, thread)), thread);
      assert r.routes.Keys == v.routes.Keys + {thread};
    }
    BuffersGrow(v, r);
    assert Owners(r) by { OwnersBesideRoute(v, r, thread); }
  }

  lemma OwnersBesideRoute(s: Router, r: Router, t: Id)
    requires Owners(s) && r.owners == s.owners && r.buffered == s.buffered && r.retiredTurns == s.retiredTurns
    requires t in r.routes && r.routes == s.routes[t := r.routes[t]]
    requires forall c | c in s.owners :: s.owners[c].root != t
    ensures Owners(r)
  {
    forall c | c in r.owners ensures OwnerOk(r.routes, r.buffered, r.retiredTurns.live, c, r.owners[c]) {
      assert OwnerOk(s.routes, s.buffered, s.retiredTurns.live, c, s.owners[c]);
    }
  }

  lemma SubscribeSound(s: Router, thread: Id, env: Env)
    requires Settled(s) && Enumerates(env)
    ensures Settled(Subscribe(s, thread, env))
  {
    hide Inv, Legal, SinceAnnounced, LossesRecorded, Overflowed, EventOk, OrderInv, Linked, Vacate;
    var none: seq<Tagged> := [];
    assert none + none == none;
    var r := Subscribe(s, thread, env);
    SubscribeKeeps(s, thread, env);
    AttributedAgrees(s.wire.log, s.subscriptions, r.subscriptions);
    LogGrows(s, r);
    OrderShrinks(s.wire.log, s.buffered, [], r.buffered);
  }

  // ---- A turn is bound to its route -----------------------------------------

  /** The route as it is once bound, with its buffer taken out. */
  lemma BindKeeps(s: Router, t: Id, turn: Id)
    requires Inv(s) && t in s.routes && s.routes[t].turn.None?
    ensures Inv(Discard(Bind(s, t, turn), t))
    ensures HistoryGrows(s, Bind(s, t, turn))
  {
    hide IndexInv, BuffersInv, OwnersInv, WellFormed, Discard, EventOk;
    DiscardKeeps(s, t);
    var d, r := Discard(s, t), Discard(Bind(s, t, turn), t);
    assert r == Bind(d, t, turn) by { DiscardCommutes(s, t, turn); }
    assert r.routes.Keys == d.routes.Keys;
    BuffersGrow(d, r);
    assert RouteOk(|s.arrivals|, s.subscriptions, s.buffered.Keys, t, s.routes[t]);
    assert Owners(r) by {
      forall c | c in d.owners ensures d.owners[c].root != t { OwnersInvAt(d, c); }
      OwnersBesideRoute(d, r, t);
    }
  }

  lemma DiscardCommutes(s: Router, t: Id, turn: Id)
    requires t in s.routes
    ensures Discard(Bind(s, t, turn), t) == Bind(Discard(s, t), t, turn)
  {
    hide Without;
  }

  /** Once bound, the released messages are all that is pending, in order. */
  lemma BoundSound(s: Router, t: Id, turn: Id)
    requires Settled(s) && t in s.routes && s.routes[t].turn.None?
    ensures Sound(Discard(Bind(s, t, turn), t), [], BufferOf(s, t).messages, [])
  {
    hide IndexInv, RoutesInv, OwnersInv, WellFormed, LossesRecorded, Overflowed, EventOk, Legal, SinceAnnounced,
         Discard, After, Before, LogOrdered;
    var r, messages := Discard(Bind(s, t, turn), t), BufferOf(s, t).messages;
    var none: seq<Tagged> := [];
    assert none + none == none && none + messages == messages;
    BindKeeps(s, t, turn);
    assert RouteOk(|s.arrivals|, s.subscriptions, s.buffered.Keys, t, s.routes[t]) by { RoutesInvAt(s, t); }
    AttributedAgrees(s.wire.log, s.subscriptions, r.subscriptions);
    LogGrows(s, r);
    if t in s.buffered {
      BufferedEventsAre(s, t);
    }
    EventsGrow(s, r, messages);
  }

  lemma RoutesInvAt(s: Router, t: Id)
    requires Routes(s) && t in s.routes
    ensures RouteOk(|s.arrivals|, s.subscriptions, s.buffered.Keys, t, s.routes[t])
  {}

  lemma ActivateSound(s: Router, thread: Id, turn: Id, tx: nat, env: Env)
    requires Settled(s) && Enumerates(env) && Enabled(s, Activating(thread, turn, tx))
    ensures Settled(Activate(s, thread, turn, tx, env))
  {
    hide Sound, RouteEach, RelevantOverflow, Discard, Bind;
    if thread in s.routes && s.routes[thread].tx == tx {
      BoundSound(s, thread, turn);
      var taken, messages := Discard(Bind(s, thread, turn), thread), BufferOf(s, thread).messages;
      RouteEachSound(taken, messages, env);
      MarkedSound(RouteEach(taken, messages, env), [tx]);
    }
  }

  lemma MarkedSound(s: Router, marks: seq<nat>)
    requires Settled(s)
    ensures Settled(MarkOverloaded(s, marks))
  {
    hide IndexInv, BuffersInv, RoutesInv, OwnersInv, WellFormed, Attributed, SinceAnnounced, LossesRecorded,
         Overflowed, EventOk, OrderInv;
  }

  lemma UnsubscribeSound(s: Router, thread: Id, tx: nat, env: Env)
    requires Settled(s) && Enumerates(env)
    ensures Settled(RemoveRoute(s, thread, tx, env))
  {
    hide Inv, Attributed, SinceAnnounced, LossesRecorded, Overflowed, EventOk, OrderInv, RemoveRoute, Linked;
    var none: seq<Tagged> := [];
    assert none + none == none;
    RemoveRouteKeeps(s, thread, tx, env);
    var r := RemoveRoute(s, thread, tx, env);
    LinkedShrinks(s, r);
    OrderShrinks(s.wire.log, s.buffered, [], r.buffered);
  }

  // ---- Every operation, every run -------------------------------------------

  lemma ApplySound(s: Router, op: Op, env: Env)
    requires Settled(s) && Enumerates(env) && Enabled(s, op)
    ensures Settled(Apply(s, op, env))
  {
    hide Sound, RouteMessage, Subscribe, Activate, RemoveRoute;
    match op
    case Arrive(message) => RouteMessageSound(s, message, env);
    case Subscribing(thread) => SubscribeSound(s, thread, env);
    case Activating(thread, turn, tx) => ActivateSound(s, thread, turn, tx, env);
    case Unsubscribing(thread, tx) => UnsubscribeSound(s, thread, tx, env);
    case Flushing => FlushSound(s);
  }

  lemma FlushSound(s: Router)
    requires Settled(s)
    ensures Settled(TakeResponses(s))
  {
    hide IndexInv, BuffersInv, RoutesInv, OwnersInv, WellFormed, Attributed, SinceAnnounced, LossesRecorded,
         Overflowed, EventOk, OrderInv, Flush;
  }

  lemma FreshSound()
    ensures Settled(Fresh())
  {}

  lemma LegalPrefix(ops: seq<Op>, world: World, n: nat)
    requires LegalRun(ops, world) && n <= |ops|
    ensures LegalRun(ops[..n], world)
  {
    assert forall i | 0 <= i <= n :: ops[..n][..i] == ops[..i];
  }

  /** Every legal run leaves the router sound. */
  lemma {:induction false} RunSound(ops: seq<Op>, world: World)
    requires LegalRun(ops, world)
    ensures Settled(Run(ops, world))
    decreases |ops|
  {
    hide Settled, Apply, Enabled, Enumerates;
    if ops == [] {
      FreshSound();
    } else {
      var n := |ops| - 1;
      LegalPrefix(ops, world, n);
      assert Enumerates(world(n)) && Enabled(Run(ops[..n], world), ops[n]);
      hide LegalRun;
      RunSound(ops[..n], world);
      ApplySound(Run(ops[..n], world), ops[n], world(n));
    }
  }

  // ---- Conservation over runs -----------------------------------------------

  lemma BindIgnoresAccount(s: Router, thread: Id, turn: Id, x: Tagged)
    requires thread in s.routes
    ensures Account(Discard(Bind(s, thread, turn), thread), x) + multiset(BufferOf(s, thread).messages)[x]
            == Account(s, x)
  {
    hide Held, SentOn, Discard, Refused;
    DiscardMoves(Bind(s, thread, turn), thread);
  }

  lemma SubscribeConserves(s: Router, thread: Id, env: Env, x: Tagged)
    ensures Account(Subscribe(s, thread, env), x) == Account(s, x)
  {
    hide Held, SentOn, ClearEach, RetireOwner, AdoptUnknown, Refused;
    ClearEachConserves(s, env.enumerate(Descendants(s, thread)), x);
  }

  lemma ActivateConserves(s: Router, thread: Id, turn: Id, tx: nat, env: Env, x: Tagged)
    ensures Account(Activate(s, thread, turn, tx, env), x) == Account(s, x)
  {
    hide Held, SentOn, RouteEach, Discard, Bind, RelevantOverflow, Refused;
    if thread in s.routes && s.routes[thread].tx == tx {
      BindIgnoresAccount(s, thread, turn, x);
      RouteEachConserves(Discard(Bind(s, thread, turn), thread), BufferOf(s, thread).messages, env, x);
    }
  }

  lemma RouteMessageConserves(s: Router, message: Message, env: Env, x: Tagged)
    ensures
      var event := Tagged(message.(stamp := |s.arrivals|), ReceivedUnder(s, message.thread));
      && Account(RouteMessage(s, message, env), x) == Account(s, x) + multiset{event}[x]
  {
    hide Held, SentOn, Drain, Refused, Decline;
    var event := Tagged(message.(stamp := |s.arrivals|), ReceivedUnder(s, message.thread));
    DeclineCounts(s.out, event, RetiredTurn, x);
    DrainConserves(s.(arrivals := s.arrivals + [event]), [event], [], env, x);
  }

  lemma ApplyConserves(s: Router, op: Op, env: Env, x: Tagged)
    requires Account(s, x) == multiset(s.arrivals)[x]
    ensures Account(Apply(s, op, env), x) == multiset(Apply(s, op, env).arrivals)[x]
  {
    hide Account, RouteMessage, Subscribe, Activate, RemoveRoute;
    ApplyArrives(s, op, env);
    match op
    case Arrive(message) => RouteMessageConserves(s, message, env, x);
    case Subscribing(thread) => SubscribeConserves(s, thread, env, x);
    case Activating(thread, turn, tx) => ActivateConserves(s, thread, turn, tx, env, x);
    case Unsubscribing(thread, tx) => UnsubscribeConserves(s, thread, tx, env, x);
    case Flushing => FlushIgnoresAccount(s, x);
  }

  lemma UnsubscribeConserves(s: Router, thread: Id, tx: nat, env: Env, x: Tagged)
    ensures Account(RemoveRoute(s, thread, tx, env), x) == Account(s, x)
  {
    hide Held, SentOn, RemoveRoute, Refused;
    RemoveRouteConserves(s, thread, tx, env, x);
  }

  lemma FlushIgnoresAccount(s: Router, x: Tagged)
    ensures Account(TakeResponses(s), x) == Account(s, x)
  {
    hide Held, SentOn;
  }

  lemma {:induction false} DrainFrame(s: Router, queue: seq<Tagged>, marks: seq<nat>, env: Env)
    ensures Drain(s, queue, marks, env).state.arrivals == s.arrivals
    decreases Unresolved(s, queue), |queue|
  {
    hide Step, Unresolved;
    if queue != [] {
      StepMakesProgress(s, queue, env);
      StepFrame(s, queue[0], env);
      var r := Step(s, queue[0], env);
      DrainFrame(r.state, queue[1..] + r.more, marks + r.marks, env);
    }
  }

  lemma {:induction false} RouteEachFrame(s: Router, events: seq<Tagged>, env: Env)
    ensures RouteEach(s, events, env).arrivals == s.arrivals
    decreases |events|
  {
    hide Drain;
    if events != [] {
      DrainFrame(s, [events[0]], [], env);
      RouteEachFrame(RouteBuffered(s, events[0], env), events[1..], env);
    }
  }

  /** Only an arrival adds to the arrivals, and it is stamped with its position. */
  lemma ApplyArrives(s: Router, op: Op, env: Env)
    ensures Apply(s, op, env).arrivals ==
            if op.Arrive?
            then s.arrivals + [Tagged(op.message.(stamp := |s.arrivals|), ReceivedUnder(s, op.message.thread))]
            else s.arrivals
  {
    hide Drain, RouteEach, Discard, Vacate, AdoptUnknown, RemoveRoute, RelevantOverflow;
    match op
    case Arrive(message) =>
      var event := Tagged(message.(stamp := |s.arrivals|), ReceivedUnder(s, message.thread));
      DrainFrame(s.(arrivals := s.arrivals + [event]), [event], [], env);
    case Activating(thread, turn, tx) =>
      if thread in s.routes {
        RouteEachFrame(Discard(Bind(s, thread, turn), thread), BufferOf(s, thread).messages, env);
      }
    case Subscribing(_) =>
    case Unsubscribing(_, _) =>
    case Flushing =>
  }

  lemma {:induction false} RunConserves(ops: seq<Op>, world: World, x: Tagged)
    ensures Account(Run(ops, world), x) == multiset(Run(ops, world).arrivals)[x]
    decreases |ops|
  {
    hide Apply;
    if ops != [] {
      var n := |ops| - 1;
      RunConserves(ops[..n], world, x);
      ApplyConserves(Run(ops[..n], world), ops[n], world(n), x);
    }
  }

  lemma {:induction false} RunStamps(ops: seq<Op>, world: World)
    ensures forall i | 0 <= i < |Run(ops, world).arrivals| :: Run(ops, world).arrivals[i].message.stamp == i
    decreases |ops|
  {
    hide Apply;
    if ops != [] {
      var n := |ops| - 1;
      RunStamps(ops[..n], world);
      ApplyArrives(Run(ops[..n], world), ops[n], world(n));
    }
  }
}
