/**
 What the Codex event router promises its callers, over every run of arrivals,
 subscriptions, activations, removals and response hand-overs, whatever the
 consumers of the channels do.
 */
module CodexPromises {
  import opened CodexIds
  import opened Options
  import opened Tombstones
  import opened CodexRouting
  import opened CodexConservation
  import opened CodexOperations
  import opened CodexInvariants
  import opened CodexInvariantSteps
  import opened CodexAttribution
  import opened CodexOrder
  import opened CodexRuns
  import opened CodexTheorems

  /**
   Conservation: at every moment an event that arrived is in exactly one place,
   once: on a channel, in a buffer, declined, or dropped for a reason that the
   history names. What did not arrive is nowhere.
   */
  lemma EveryEventOnce(ops: seq<Op>, world: World, x: Tagged)
    ensures
      var s := Run(ops, world);
      && SentOn(s.wire.log)[x] + Held(s.buffered)[x] + multiset(s.out.declined)[x] + GivenUp(s.out.dropped)[x]
         == if x in s.arrivals then 1 else 0
  {
    hide Run, Held, SentOn, GivenUp;
    var s := Run(ops, world);
    RunConserves(ops, world, x);
    RunStamps(ops, world);
    if x in s.arrivals {
      var i :| 0 <= i < |s.arrivals| && s.arrivals[i] == x;
      OnceOnly(s.arrivals, i);
    }
  }

  lemma {:induction false} OnceOnly(events: seq<Tagged>, i: nat)
    requires i < |events| && forall k | 0 <= k < |events| :: events[k].message.stamp == k
    ensures multiset(events)[events[i]] == 1
  {
    var a, b := events[..i], events[i + 1..];
    assert events == a + [events[i]] + b;
    assert events[i] !in a && events[i] !in b;
  }

  lemma {:induction false} GivenUpHas(dropped: seq<Dropped>, x: Tagged) returns (k: nat)
    requires x in GivenUp(dropped)
    ensures k < |dropped| && dropped[k].event == x
    decreases |dropped|
  {
    k := |dropped| - 1;
    if dropped[k].event != x { k := GivenUpHas(dropped[..k], x); }
  }

  /**
   Request conservation: a request that names a thread is never dropped, so it
   is on a channel, in a buffer or declined. The declines wait in order in the
   response queue, and the overload flag is up exactly when some did not fit
   since the last hand-over.
   */
  lemma RequestConservation(ops: seq<Op>, world: World, i: nat)
    requires i < |Run(ops, world).arrivals| && Owed(Run(ops, world).arrivals[i])
    ensures
      var s := Run(ops, world);
      var x := s.arrivals[i];
      && SentOn(s.wire.log)[x] + Held(s.buffered)[x] + multiset(s.out.declined)[x] == 1
      && Answered(s.out)
  {
    hide Run, Held, SentOn, GivenUp, Accountable, Answered;
    var s := Run(ops, world);
    assert s.arrivals[i] in s.arrivals;
    EveryEventOnce(ops, world, s.arrivals[i]);
    QueueAccounts(s.out);
    OwedIsNotDropped(s.out, s.arrivals[i]);
  }

  /** The declines since the last hand-over have their responses in order, as far as the queue goes: each with
      the id of its request, and the elicitation form exactly for an elicitation. The flag says whether that is
      not far enough. */
  ghost predicate Answered(out: Outbox) {
    && (out.overloaded <==> |out.declined| - out.flushed > ROUTE_EVENT_BUDGET)
    && (forall k | out.flushed <= k < |out.declined| && k < out.flushed + ROUTE_EVENT_BUDGET ::
          && k - out.flushed < |out.responses|
          && out.declined[k].message.kind.Request?
          && out.responses[k - out.flushed].id == out.declined[k].message.kind.id
          && (out.responses[k - out.flushed].ActionDeclined? <==> out.declined[k].message.kind.elicitation))
  }

  lemma QueueAccounts(out: Outbox)
    ensures Answered(out)
  {
    assert Accountable(out);
  }

  lemma OwedIsNotDropped(out: Outbox, x: Tagged)
    requires Owed(x)
    ensures GivenUp(out.dropped)[x] == 0
  {
    hide GivenUp;
    assert Accountable(out);
    if x in GivenUp(out.dropped) {
      var k := GivenUpHas(out.dropped, x);
      assert false;
    }
  }

  /** Attribution safety: every event on every channel belongs to the turn the channel is bound to. */
  lemma AttributionSafety(ops: seq<Op>, world: World)
    requires LegalRun(ops, world)
    ensures Attributed(Run(ops, world).wire.log, Run(ops, world).subscriptions)
  {
    hide Run, LegalRun, Attributed;
    RunSound(ops, world);
  }

  /** Order preservation: deliveries of one thread and turn are in arrival order. */
  lemma OrderPreservation(ops: seq<Op>, world: World)
    requires LegalRun(ops, world)
    ensures
      var log := Run(ops, world).wire.log;
      forall i, j | 0 <= i < j < |log| && SameStream(log[i].event, log[j].event) ::
        log[i].event.message.stamp < log[j].event.message.stamp
  {
    hide Run, LegalRun;
    RunSound(ops, world);
  }

  /**
   Ownership: every owner entry refers to a live route activated for its turn
   and generation; a child without a route of its own is never bound to a turn
   whose tombstone is live, and nothing of its bound turn is buffered.
   */
  lemma OwnershipInvariant(ops: seq<Op>, world: World)
    requires LegalRun(ops, world)
    ensures
      var s := Run(ops, world);
      forall c | c in s.owners :: OwnerOk(s.routes, s.buffered, s.retiredTurns.live, c, s.owners[c])
  {
    hide Run, LegalRun;
    RunSound(ops, world);
  }

  /** Bounded memory: the indexes agree and every queue, buffer and tombstone set is within its budget. */
  lemma BoundedMemory(ops: seq<Op>, world: World)
    requires LegalRun(ops, world)
    ensures
      var s := Run(ops, world);
      && Distinct(s.unknownOrder) && (forall t :: t in s.unknownOrder <==> t in s.unknown)
      && s.unknown == s.buffered.Keys - s.routes.Keys && |s.unknown| <= UNKNOWN_BUFFER_BUDGET
      && (forall t | t in s.buffered :: |s.buffered[t].messages| <= ROUTE_EVENT_BUDGET)
      && WellFormed(s.failed) && WellFormed(s.retiredTurns) && WellFormed(s.retiredUnbound)
  {
    hide Run, LegalRun, RoutesInv, OwnersInv, WellFormed;
    RunSound(ops, world);
  }

  ghost predicate LostUnowned(b: Buffer) {
    exists k | 0 <= k < |b.losses| :: !b.losses[k].subscribed
  }

  /** Loss fails closed: if a buffer ever lost an event while unowned, the channel that adopted it is overloaded. */
  lemma LossFailsClosed(ops: seq<Op>, world: World)
    requires LegalRun(ops, world)
    ensures
      var s := Run(ops, world);
      forall i | 0 <= i < |s.adoptions| && LostUnowned(s.adoptions[i].buffer) :: s.adoptions[i].tx in s.wire.overloaded
  {
    hide Run, LegalRun;
    RunSound(ops, world);
    var s := Run(ops, world);
    forall i | 0 <= i < |s.adoptions| && LostUnowned(s.adoptions[i].buffer)
      ensures s.adoptions[i].tx in s.wire.overloaded
    {
      LostUnownedShows(s.adoptions[i].buffer);
    }
  }

  lemma LostUnownedShows(b: Buffer)
    requires LossesRecorded(b) && LostUnowned(b)
    ensures Overflowed(b)
  {
    var k :| 0 <= k < |b.losses| && !b.losses[k].subscribed;
    var e := b.losses[k].event;
    assert Lost(b, false, e.message.kind.Request?, !e.message.kind.Request? && Announces(e));
  }

  /**
   An adoption fails its channel closed exactly when the buffer lost an event
   while its thread had no subscription, or its traffic names several turns.
   What it lost while its thread was subscribed does not fail the adopter.
   */
  lemma AdoptionMarksExactly(s: Router, child: Id, claim: Claim)
    requires Inv(s) && child in s.buffered && child != claim.root
    ensures
      var unresolved := child in s.retiredUnbound.live;
      claim.tx in Announce(s, child, claim).marks <==>
        || LostUnowned(s.buffered[child])
        || Ambiguous(EligibleEvents(s, child, s.buffered[child].messages, unresolved, claim.generation))
  {
    hide IndexInv, RoutesInv, OwnersInv, WellFormed, EligibleEvents, StaleEvents, Ambiguous, DeclineAll, Own, Discard;
    var b := s.buffered[child];
    assert BufferOk(|s.arrivals|, s.subscriptions, child, b);
    if LostUnowned(b) { LostUnownedShows(b); }
    if Overflowed(b) { OverflowMeansLoss(b); }
  }

  lemma OverflowMeansLoss(b: Buffer)
    requires LossesRecorded(b) && Overflowed(b)
    ensures LostUnowned(b)
  {
    assert Lost(b, false, true, false) || Lost(b, false, false, true) || Lost(b, false, false, false);
  }

  /** A loss an activation for `turn` must not hide. */
  ghost predicate MattersTo(loss: Loss, turn: Id) {
    if loss.subscribed then loss.event.message.turn == None || loss.event.message.turn == Some(turn)
    else loss.event.message.kind.Request? || Announces(loss.event)
  }

  ghost predicate LostForTurn(b: Buffer, turn: Id) {
    exists k | 0 <= k < |b.losses| :: MattersTo(b.losses[k], turn)
  }

  /**
   Activation fails closed: activating a route for `turn` reports an overflow
   exactly when its buffer lost an event of that turn or of no turn while
   subscribed, or a request or announcement before, and then the channel is
   overloaded.
   */
  lemma ActivationFailsClosed(s: Router, thread: Id, turn: Id, tx: nat, env: Env)
    requires Settled(s) && thread in s.routes && s.routes[thread].tx == tx && thread in s.buffered
    ensures RelevantOverflow(s.buffered[thread], turn) <==> LostForTurn(s.buffered[thread], turn)
    ensures LostForTurn(s.buffered[thread], turn) ==> tx in Activate(s, thread, turn, tx, env).wire.overloaded
  {
    hide RouteEach, Discard, Bind, IndexInv, RoutesInv, OwnersInv, WellFormed, AttributionInv, OrderInv, LossesMarked;
    var b := s.buffered[thread];
    assert BufferOk(|s.arrivals|, s.subscriptions, thread, b);
    if k :| 0 <= k < |b.losses| && MattersTo(b.losses[k], turn) {
      var e := b.losses[k].event;
      if b.losses[k].subscribed {
        assert LostTurn(b, e.message.turn);
      } else {
        assert Lost(b, false, e.message.kind.Request?, !e.message.kind.Request? && Announces(e));
      }
    }
  }

  // ---- Exactly who gets an event --------------------------------------------

  /** `root` is entitled to the event: it is its own, or that of a child it owns. */
  ghost predicate Entitled(s: Router, event: Tagged, root: Id) {
    var t, turn := event.message.thread, event.message.turn;
    && t != NO_THREAD
    && root in s.routes && s.routes[root].turn.Some?
    && if t in s.routes
       then
         && t == root
         && (turn == s.routes[root].turn || (turn.None? && event.generation == Some(s.routes[root].generation)))
       else
         && t in s.owners && s.owners[t].root == root && turn.Some?
         && (s.owners[t].childTurn == turn || (s.owners[t].childTurn.None? && !Retired(s, t, turn)))
  }

  /** Somebody may still come to be entitled to the event. */
  ghost predicate Undecided(s: Router, event: Tagged) {
    var t, turn := event.message.thread, event.message.turn;
    && t != NO_THREAD
    && if t in s.routes then s.routes[t].turn.None?
       else t in s.owners ==>
         && s.owners[t].childTurn.Some? && turn.Some? && turn != s.owners[t].childTurn && !Retired(s, t, turn)
  }

  /**
   An event is offered to a channel exactly when a route is entitled to it,
   and to that route's channel; it waits exactly when that is still undecided.
   The rejections of an owner whose route is missing or has moved on are dead code.
   */
  lemma StepDeliversExactly(s: Router, event: Tagged, env: Env)
    requires Inv(s)
    ensures
      var bound := BindChild(s, event);
      var fate := Classify(bound, event);
      && (fate.Send? <==> exists root :: Entitled(s, event, root))
      && (fate.Send? ==> Entitled(s, event, fate.root) && fate.tx == s.routes[fate.root].tx)
      && (fate.Hold? <==> Undecided(s, event))
      && (Step(s, event, env).state.wire.log ==
            if fate.Send? && fate.tx !in s.wire.overloaded && env.outcome(s.wire.attempts) == Accepts
            then s.wire.log + [Delivery(fate.tx, event)] else s.wire.log)
  {
    hide IndexInv, BuffersInv, RoutesInv, WellFormed, Delivered, RemoveRoute, BufferMessage;
    var t := event.message.thread;
    if t in s.owners { OwnersInvAt(s, t); }
    var bound := BindChild(s, event);
    var fate := Classify(bound, event);
    if fate.Send? {
      assert Entitled(s, event, fate.root);
    }
    if root :| Entitled(s, event, root) {
      assert fate.Send?;
    }
  }
}
