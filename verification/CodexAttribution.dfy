/**
 Whose events end up on a turn's channel.

 The promise is stated on the delivery log alone. An event on a channel is
 either for the channel's own root thread and carries the bound turn (or names
 no turn but arrived after the subscription), or it is for a child that a
 message on the same channel was the last to announce, and since then that
 child has spoken with one turn only and has not completed it.
 */
module CodexAttribution {
  import opened CodexIds
  import opened Options
  import opened Tombstones
  import opened CodexRouting
  import opened CodexInvariants
  import opened CodexInvariantSteps

  /** The last delivery that announced `child`, or -1. */
  ghost function LastAnnouncement(log: seq<Delivery>, child: Id): (j: int)
    ensures -1 <= j < |log|
    ensures 0 <= j ==> child in log[j].event.message.children
  {
    if log == [] then -1
    else if child in log[|log| - 1].event.message.children then |log| - 1
    else LastAnnouncement(log[..|log| - 1], child)
  }

  predicate EndsTurn(message: Message) {
    message.kind.Notification? && message.kind.turnCompleted
  }

  /** What `child` may have said since it was last announced. */
  ghost predicate Spoke(d: Delivery, tx: nat, turn: Option<Id>) {
    d.tx == tx && turn.Some? && d.event.message.turn == turn && !EndsTurn(d.event.message)
  }

  /** The channel was the last to announce `child`, which since then spoke only with `turn`. */
  ghost predicate SinceAnnounced(log: seq<Delivery>, child: Id, tx: nat, turn: Option<Id>) {
    var j := LastAnnouncement(log, child);
    && 0 <= j
    && log[j].tx == tx
    && (forall k | j < k < |log| && log[k].event.message.thread == child :: Spoke(log[k], tx, turn))
  }

  ghost predicate Legal(log: seq<Delivery>, subs: seq<Subscription>, d: Delivery) {
    var m := d.event.message;
    && d.tx < |subs|
    && subs[d.tx].turn.Some?
    && if m.thread == subs[d.tx].root
       then m.turn == subs[d.tx].turn || (m.turn.None? && subs[d.tx].since <= m.stamp)
       else m.turn.Some? && SinceAnnounced(log, m.thread, d.tx, m.turn)
  }

  ghost predicate Attributed(log: seq<Delivery>, subs: seq<Subscription>) {
    forall i | 0 <= i < |log| :: Legal(log[..i], subs, log[i])
  }

  /** Ownership entries agree with the log. */
  ghost predicate Linked(s: Router) {
    forall c | c in s.owners && c !in s.routes && s.owners[c].root in s.routes ::
      SinceAnnounced(s.wire.log, c, s.routes[s.owners[c].root].tx, s.owners[c].childTurn)
  }

  ghost predicate AttributionInv(s: Router) {
    Attributed(s.wire.log, s.subscriptions) && Linked(s)
  }

  lemma AttributedGrows(log: seq<Delivery>, subs: seq<Subscription>, d: Delivery)
    requires Attributed(log, subs) && Legal(log, subs, d)
    ensures Attributed(log + [d], subs)
  {
    hide Legal;
    var grown := log + [d];
    forall i | 0 <= i < |grown| ensures Legal(grown[..i], subs, grown[i]) {
      assert grown[..i] == if i < |log| then log[..i] else log;
      if i < |log| { assert Legal(log[..i], subs, log[i]); }
    }
  }

  /** Binding a turn to a channel that carried nothing changes no attribution. */
  lemma AttributedAgrees(log: seq<Delivery>, subs: seq<Subscription>, subs': seq<Subscription>)
    requires Attributed(log, subs)
    requires forall i | 0 <= i < |subs| && subs[i].turn.Some? :: i < |subs'| && subs'[i] == subs[i]
    ensures Attributed(log, subs')
  {
    hide SinceAnnounced;
    forall i | 0 <= i < |log| ensures Legal(log[..i], subs', log[i]) {
      assert Legal(log[..i], subs, log[i]);
    }
  }

  /** Another delivery about other threads leaves what is known of `child` alone. */
  lemma SinceAnnouncedGrows(log: seq<Delivery>, child: Id, tx: nat, turn: Option<Id>, d: Delivery)
    requires child in d.event.message.children ==> d.tx == tx
    requires child !in d.event.message.children ==> SinceAnnounced(log, child, tx, turn)
    requires child !in d.event.message.children && d.event.message.thread == child ==> Spoke(d, tx, turn)
    ensures SinceAnnounced(log + [d], child, tx, turn)
  {
    var grown := log + [d];
    assert grown[..|log|] == log;
    forall k | LastAnnouncement(grown, child) < k < |grown| && grown[k].event.message.thread == child
      ensures Spoke(grown[k], tx, turn)
    {
      assert k < |log| ==> grown[k] == log[k];
    }
  }

  lemma SendIsLegal(s: Router, event: Tagged)
    requires Inv(s) && Linked(s) && EventOk(|s.arrivals|, s.subscriptions, event)
    requires Classify(s, event).Send?
    ensures Legal(s.wire.log, s.subscriptions, Delivery(Classify(s, event).tx, event))
  {
    hide IndexInv, BuffersInv, OwnersInv, WellFormed, SinceAnnounced;
    SendIsLive(s, event);
    var f := Classify(s, event);
    assert RouteOk(|s.arrivals|, s.subscriptions, s.buffered.Keys, f.root, s.routes[f.root]);
    if f.child { OwnersInvAt(s, event.message.thread); }
  }

  lemma LinkedShrinks(s: Router, r: Router)
    requires Linked(s) && r.wire.log == s.wire.log
    requires SubMap(r.owners, s.owners) && SubMap(r.routes, s.routes)
    requires forall c | c in r.owners && c in s.routes :: c in r.routes
    ensures Linked(r)
  {
    hide SinceAnnounced;
    forall c | c in r.owners && c !in r.routes && r.owners[c].root in r.routes
      ensures SinceAnnounced(r.wire.log, c, r.routes[r.owners[c].root].tx, r.owners[c].childTurn)
    {
      assert s.owners[c].root in s.routes;
    }
  }

  /** A delivery extends what the log says of its own child, and re-announces those it names. */
  lemma DeliveredLinks(s: Router, event: Tagged, wire: Wire)
    requires Inv(s) && Linked(s) && Classify(s, event).Send?
    requires wire.log == s.wire.log + [Delivery(Classify(s, event).tx, event)]
    ensures Linked(Delivered(s.(wire := wire), event, Classify(s, event)).state)
  {
    hide IndexInv, BuffersInv, RoutesInv, OwnersInv, WellFormed, AnnounceAll, SinceAnnounced, Classify, RetireOwner;
    var f, t := Classify(s, event), event.message.thread;
    SendIsLive(s, event);
    var out := s.(wire := wire);
    var cleared := out.(failed := Exhume(Exhume(out.failed, t), f.root));
    ExhumeKeeps(out.failed, t);
    ExhumeKeeps(Exhume(out.failed, t), f.root);
    RetireOwnerKeeps(cleared, t);
    var ended := if f.child && EndsTurn(event.message) then RetireOwner(cleared, t) else cleared;
    var claim := Claim(f.root, f.rootTurn, f.generation, f.tx);
    AnnounceAllKeeps(ended, event.message.children, claim);
    var r := Delivered(out, event, f).state;
    assert r == AnnounceAll(ended, event.message.children, claim).state;
    hide Delivered;
    forall c | c in r.owners && c !in r.routes && r.owners[c].root in r.routes
      ensures SinceAnnounced(r.wire.log, c, r.routes[r.owners[c].root].tx, r.owners[c].childTurn)
    {
      if c !in event.message.children { assert c in ended.owners && r.owners[c] == s.owners[c]; }
      SinceAnnouncedGrows(s.wire.log, c, r.routes[r.owners[c].root].tx, r.owners[c].childTurn, Delivery(f.tx, event));
    }
  }

  lemma BindChildLinks(s: Router, event: Tagged)
    requires Inv(s) && Linked(s)
    ensures Linked(BindChild(s, event))
  {
    hide Inv;
    var t, r := event.message.thread, BindChild(s, event);
    if r != s && s.owners[t].root in s.routes {
      assert SinceAnnounced(s.wire.log, t, s.routes[s.owners[t].root].tx, None);
    }
  }

  lemma DispatchAttributes(s: Router, event: Tagged, env: Env)
    requires Inv(s) && AttributionInv(s) && Enumerates(env)
    requires EventOk(|s.arrivals|, s.subscriptions, event) && Classify(s, event).Send?
    ensures AttributionInv(Dispatch(s, event, Classify(s, event), env).state)
  {
    hide IndexInv, BuffersInv, RoutesInv, OwnersInv, WellFormed, Delivered, RemoveRoute, Legal, Classify,
         SinceAnnounced;
    var f := Classify(s, event);
    var sent := TrySend(s.wire, f.tx, event, env);
    if sent.accepted {
      SendIsLegal(s, event);
      AttributedGrows(s.wire.log, s.subscriptions, Delivery(f.tx, event));
      DeliveredLinks(s, event, sent.wire);
    } else {
      var declined := s.(wire := sent.wire, out := Decline(s.out, event, Undeliverable));
      RemoveRouteKeeps(declined, f.root, f.tx, env);
      LinkedShrinks(s, RemoveRoute(declined, f.root, f.tx, env));
    }
  }

  /** Routing one event keeps every channel's attribution. */
  lemma StepAttributes(s: Router, event: Tagged, env: Env)
    requires Inv(s) && AttributionInv(s) && Enumerates(env)
    requires EventOk(|s.arrivals|, s.subscriptions, event)
    ensures AttributionInv(Step(s, event, env).state)
  {
    hide IndexInv, BuffersInv, RoutesInv, OwnersInv, WellFormed, BindChild, Classify, Dispatch, BufferMessage,
         Legal, SinceAnnounced;
    BindChildKeeps(s, event);
    BindChildLinks(s, event);
    var bound := BindChild(s, event);
    if Classify(bound, event).Send? {
      DispatchAttributes(bound, event, env);
    }
  }
}
