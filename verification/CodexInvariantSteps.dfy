/** Buffering, announcing and routing keep the router's invariant. */
module CodexInvariantSteps {
  import opened CodexIds
  import opened Options
  import opened Tombstones
  import opened CodexRouting
  import opened CodexInvariants

  // ---- Buffering ------------------------------------------------------------

  lemma RecordLossRecords(b: Buffer, lost: Tagged, subscribed: bool)
    requires LossesRecorded(b)
    ensures LossesRecorded(RecordLoss(b, lost, subscribed))
  {
    var r := RecordLoss(b, lost, subscribed);
    assert r.losses[|b.losses|] == Loss(lost, subscribed);
    assert forall i | 0 <= i < |b.losses| :: r.losses[i] == b.losses[i];
    forall su, re, an ensures Lost(r, su, re, an) <==>
      (Lost(b, su, re, an) || (su == subscribed && re == lost.message.kind.Request? && (re || an == Announces(lost))))
    {}
    forall turn ensures LostTurn(r, turn) <==> LostTurn(b, turn) || (subscribed && turn == lost.message.turn) {}
  }

  /** A buffer keeps its bound, its thread and honest flags whatever is put in it. */
  lemma EnqueueKeeps(arrived: nat, subs: seq<Subscription>, t: Id, b: Buffer, subscribed: bool, event: Tagged)
    requires b == EMPTY_BUFFER || BufferOk(arrived, subs, t, b)
    requires event.message.thread == t != NO_THREAD && EventOk(arrived, subs, event)
    ensures BufferOk(arrived, subs, t, Enqueue(b, subscribed, event).buffer)
    ensures forall e | e in Enqueue(b, subscribed, event).buffer.messages :: e in b.messages || e == event
  {
    hide LossesRecorded, EventOk, Enqueue;
    assert LossesRecorded(b) by { EmptyIsHonest(); }
    EnqueueRecords(b, subscribed, event);
    EnqueueAddsOnly(b, subscribed, event);
    var after := Enqueue(b, subscribed, event).buffer.messages;
    assert forall i | 0 <= i < |after| :: after[i] in after;
  }

  lemma EnqueueRecords(b: Buffer, subscribed: bool, event: Tagged)
    requires LossesRecorded(b)
    ensures LossesRecorded(Enqueue(b, subscribed, event).buffer)
  {
    hide LossesRecorded, RecordLoss, FirstEvictable;
    var i := FirstEvictable(b.messages, subscribed);
    if i < |b.messages| { RecordLossRecords(b, b.messages[i], subscribed); }
    RecordLossRecords(b, event, subscribed);
    var r := Enqueue(b, subscribed, event).buffer;
    SameFlags(r, r.(messages := b.messages));
  }

  lemma EnqueueAddsOnly(b: Buffer, subscribed: bool, event: Tagged)
    ensures |b.messages| <= ROUTE_EVENT_BUDGET ==>
              0 < |Enqueue(b, subscribed, event).buffer.messages| <= ROUTE_EVENT_BUDGET
    ensures forall e | e in Enqueue(b, subscribed, event).buffer.messages :: e in b.messages || e == event
  {
    hide RecordLoss, FirstEvictable;
  }

  lemma EmptyIsHonest()
    ensures LossesRecorded(EMPTY_BUFFER)
  {}

  lemma SameFlags(b: Buffer, c: Buffer)
    requires b == c.(messages := b.messages)
    ensures LossesRecorded(b) <==> LossesRecorded(c)
  {}

  lemma IndexWith(unknown: set<Id>, order: seq<Id>, buffers: set<Id>, routes: set<Id>, t: Id)
    requires IndexInv(unknown, order, buffers, routes) && t !in buffers && t !in routes
    ensures t !in unknown
    ensures |unknown + {t}| <= UNKNOWN_BUFFER_BUDGET ==>
              IndexInv(unknown + {t}, order + [t], buffers + {t}, routes)
    ensures |unknown + {t}| > UNKNOWN_BUFFER_BUDGET ==>
              && order != [] && order[0] in unknown && order[0] in buffers && order[0] != t
              && |unknown + {t} - {order[0]}| <= UNKNOWN_BUFFER_BUDGET
              && IndexInv(unknown + {t} - {order[0]}, (order + [t])[1..], buffers + {t} - {order[0]}, routes)
  {
    var wider := unknown + {t};
    assert t !in unknown && |wider| == |unknown| + 1;
    assert wider == (buffers + {t}) - routes;
    if |wider| > UNKNOWN_BUFFER_BUDGET {
      assert order == [] ==> unknown == {};
      assert order[0] in order;
      var x := order[0];
      var u := wider - {x};
      assert |u| == |unknown|;
      assert u == buffers + {t} - {x} - routes;
      assert order + [t] == [x] + (order + [t])[1..];
      forall k ensures k in (order + [t])[1..] <==> k in u {
        assert k in order + [t] <==> k == x || k in (order + [t])[1..];
      }
    }
  }

  lemma EvictOnce(s: Router)
    requires |s.unknown| > UNKNOWN_BUFFER_BUDGET && s.unknownOrder != []
    requires s.unknownOrder[0] in s.unknown && s.unknownOrder[0] in s.buffered
    requires |s.unknown - {s.unknownOrder[0]}| <= UNKNOWN_BUFFER_BUDGET
    ensures EvictUnknown(s) == s.(
      unknown := s.unknown - {s.unknownOrder[0]},
      unknownOrder := s.unknownOrder[1..],
      buffered := s.buffered - {s.unknownOrder[0]},
      out := DeclineAll(s.out, s.buffered[s.unknownOrder[0]].messages, Expired))
  {
    hide DeclineAll;
  }

  lemma EvictNone(s: Router)
    requires |s.unknown| <= UNKNOWN_BUFFER_BUDGET
    ensures EvictUnknown(s) == s
  {}

  lemma KeysWithoutWith(m: map<Id, Buffer>, x: Id, t: Id)
    requires x != t
    ensures (m - {x}).Keys + {t} == m.Keys + {t} - {x}
  {}

  /** Tracking one more unknown thread expires at most the oldest. */
  lemma TrackUnknownKeeps(s: Router, t: Id)
    requires Indexed(s) && t !in s.buffered && t !in s.routes
    ensures
      var r := TrackUnknown(s, t);
      && IndexInv(r.unknown, r.unknownOrder, r.buffered.Keys + {t}, r.routes.Keys)
      && t !in r.buffered && SubMap(r.buffered, s.buffered)
      && (forall k | k in s.buffered && k !in r.buffered :: k in s.unknown)
  {
    hide IndexInv, DeclineAll, EvictUnknown;
    IndexWith(s.unknown, s.unknownOrder, s.buffered.Keys, s.routes.Keys, t);
    var wider := s.(unknown := s.unknown + {t}, unknownOrder := s.unknownOrder + [t]);
    assert TrackUnknown(s, t) == EvictUnknown(wider);
    hide TrackUnknown;
    if |wider.unknown| > UNKNOWN_BUFFER_BUDGET {
      var x := wider.unknownOrder[0];
      EvictOnce(wider);
      KeysWithoutWith(s.buffered, x, t);
    } else {
      EvictNone(wider);
    }
  }

  /** An event may wait in a buffer only while no route or owner has a use for it. */
  ghost predicate MayWait(s: Router, event: Tagged) {
    var t := event.message.thread;
    && (t in s.routes ==> s.routes[t].turn.None?)
    && (t !in s.routes && t in s.owners ==>
          s.owners[t].childTurn.Some? && event.message.turn != s.owners[t].childTurn)
  }

  lemma StoreKeepsOwners(s: Router, event: Tagged)
    requires Owners(s) && MayWait(s, event)
    requires forall e | e in Store(s, event).buffered[event.message.thread].messages ::
               e in BufferOf(s, event.message.thread).messages || e == event
    ensures Owners(Store(s, event))
  {
    hide Enqueue;
    var r, t := Store(s, event), event.message.thread;
    forall c | c in r.owners ensures OwnerOk(r.routes, r.buffered, r.retiredTurns.live, c, r.owners[c]) {
      assert OwnerOk(s.routes, s.buffered, s.retiredTurns.live, c, s.owners[c]);
      if c == t && c !in s.routes {
        forall i | 0 <= i < |r.buffered[t].messages|
          ensures r.buffered[t].messages[i].message.turn != s.owners[t].childTurn
        {
          assert r.buffered[t].messages[i] in r.buffered[t].messages;
        }
      }
    }
  }

  lemma StoreKeeps(s: Router, event: Tagged)
    requires Buffers(s) && Routes(s) && Owners(s) && Buried(s) && MayWait(s, event)
    requires event.message.thread != NO_THREAD && EventOk(|s.arrivals|, s.subscriptions, event)
    requires IndexInv(s.unknown, s.unknownOrder, s.buffered.Keys + {event.message.thread}, s.routes.Keys)
    ensures Inv(Store(s, event))
  {
    hide IndexInv, OwnersInv, WellFormed, BufferOk, EventOk, Enqueue;
    var r, t := Store(s, event), event.message.thread;
    EnqueueKeeps(|s.arrivals|, s.subscriptions, t, BufferOf(s, t), t in s.routes, event);
    assert r.buffered.Keys == s.buffered.Keys + {t};
    StoreKeepsOwners(s, event);
  }

  lemma BufferMessageKeeps(s: Router, event: Tagged)
    requires Inv(s) && MayWait(s, event) && EventOk(|s.arrivals|, s.subscriptions, event)
    ensures Inv(BufferMessage(s, event))
  {
    hide IndexInv, BuffersInv, RoutesInv, OwnersInv, WellFormed, EventOk, Store;
    var t := event.message.thread;
    if t != NO_THREAD && t !in s.failed.live {
      if t in s.routes || t in s.buffered {
        assert IndexInv(s.unknown, s.unknownOrder, s.buffered.Keys + {t}, s.routes.Keys) by {
          IndexWaiting(s.unknown, s.unknownOrder, s.buffered.Keys, s.routes.Keys, t);
        }
        StoreKeeps(s, event);
      } else {
        TrackUnknownKeeps(s, t);
        var r := TrackUnknown(s, t);
        assert r == s.(unknown := r.unknown, unknownOrder := r.unknownOrder, buffered := r.buffered, out := r.out);
        hide TrackUnknown, EvictUnknown;
        OwnersShrink(s, r);
        BuffersShrink(s, r);
        StoreKeeps(r, event);
      }
    }
  }

  lemma IndexWaiting(unknown: set<Id>, order: seq<Id>, buffers: set<Id>, routes: set<Id>, t: Id)
    requires IndexInv(unknown, order, buffers, routes) && (t in routes || t in buffers)
    ensures IndexInv(unknown, order, buffers + {t}, routes)
  {
    assert unknown == (buffers + {t}) - routes;
  }

  lemma BuffersShrink(s: Router, r: Router)
    requires Buffers(s) && Routes(s) && SubMap(r.buffered, s.buffered)
    requires r.routes == s.routes && r.arrivals == s.arrivals && r.subscriptions == s.subscriptions
    requires r.generation == s.generation
    ensures Buffers(r) && Routes(r)
  {
    hide BufferOk;
  }


  // ---- Announcing -----------------------------------------------------------

  ghost predicate ClaimLive(s: Router, claim: Claim) {
    Live(s.routes, claim.root, claim.rootTurn, claim.generation)
  }

  ghost predicate Claims(o: Owner, claim: Claim) {
    o.root == claim.root && o.rootTurn == claim.rootTurn && o.generation == claim.generation
  }

  lemma {:induction false} EligibleAreFresh(s: Router, child: Id, events: seq<Tagged>, unresolved: bool,
                                            generation: nat)
    ensures forall e | e in EligibleEvents(s, child, events, unresolved, generation) ::
              e in events && !Stale(s, child, e, unresolved, generation)
    decreases |events|
  {
    if events != [] {
      EligibleAreFresh(s, child, events[1..], unresolved, generation);
    }
  }

  lemma {:induction false} FirstTurnIsNamed(events: seq<Tagged>)
    ensures FirstTurn(events).Some? ==> exists i | 0 <= i < |events| :: events[i].message.turn == FirstTurn(events)
    ensures FirstTurn(events).None? ==> forall i | 0 <= i < |events| :: events[i].message.turn.None?
    decreases |events|
  {
    if events != [] && events[0].message.turn.None? {
      FirstTurnIsNamed(events[1..]);
      assert forall i | 0 < i < |events| :: events[i] == events[1..][i - 1];
      if FirstTurn(events).Some? {
        var i :| 0 <= i < |events[1..]| && events[1..][i].message.turn == FirstTurn(events[1..]);
        assert events[i + 1].message.turn == FirstTurn(events);
      }
    }
  }

  /** After the claim the child answers to it; no other ownership changes. */
  lemma OwnClaims(s: Router, child: Id, claim: Claim, childTurn: Option<Id>)
    ensures
      var r := Own(s, child, claim, childTurn);
      && child in r.owners && Claims(r.owners[child], claim)
      && (r.owners[child].childTurn == childTurn
          || (childTurn.None? && child in s.owners && r.owners[child] == s.owners[child]))
      && r.owners.Keys == s.owners.Keys + {child}
      && (forall c | c in s.owners && c != child :: r.owners[c] == s.owners[c])
  {
    hide Bury;
  }

  lemma OwnersWith(s: Router, child: Id, o: Owner)
    requires Owners(s) && OwnerOk(s.routes, s.buffered, s.retiredTurns.live, child, o)
    ensures Owners(s.(owners := s.owners[child := o]))
  {}

  lemma RetireOwnerBuries(s: Router, t: Id)
    requires WellFormed(s.retiredTurns)
    ensures forall k | k in RetireOwner(s, t).retiredTurns.live ::
              k in s.retiredTurns.live || (t in s.owners && s.owners[t].childTurn == Some(k.turn) && k.thread == t)
  {
    hide Bury, WellFormed;
    if t in s.owners && s.owners[t].childTurn.Some? {
      BuryKeepsBounds(s.retiredTurns, ChildTurn(t, s.owners[t].childTurn.value));
    }
  }

  lemma OwnKeeps(s: Router, child: Id, claim: Claim, childTurn: Option<Id>)
    requires Inv(s) && ClaimLive(s, claim) && child != claim.root && child !in s.buffered
    requires child !in s.routes ==> !Retired(s, child, childTurn)
    requires child !in s.routes && child in s.owners && childTurn.Some? ==> s.owners[child].childTurn != childTurn
    ensures Inv(Own(s, child, claim, childTurn))
  {
    hide Bury, IndexInv, BuffersInv, RoutesInv, OwnersInv, WellFormed;
    RetireOwnerKeeps(s, child);
    RetireOwnerBuries(s, child);
    var retired := RetireOwner(s, child);
    var o := Owner(claim.root, claim.rootTurn, claim.generation, childTurn);
    hide RetireOwner;
    if Own(s, child, claim, childTurn) != s {
      OwnersWith(retired, child, o);
    }
  }

  lemma BufferedEventsAre(s: Router, child: Id)
    requires Buffers(s) && child in s.buffered
    ensures OfThread(child, s.buffered[child].messages)
    ensures EventsOk(|s.arrivals|, s.subscriptions, s.buffered[child].messages)
  {}

  /** Claimed traffic never belongs to the turn a previous owner of the child had bound. */
  lemma ClaimedTurnIsNew(s: Router, child: Id, unresolved: bool, generation: nat)
    requires Owners(s) && child in s.buffered && child !in s.routes
    ensures
      var turn := ChildTurnOf(EligibleEvents(s, child, s.buffered[child].messages, unresolved, generation));
      && !Retired(s, child, turn)
      && (turn.Some? && child in s.owners ==> s.owners[child].childTurn != turn)
  {
    var messages := s.buffered[child].messages;
    var eligible := EligibleEvents(s, child, messages, unresolved, generation);
    EligibleAreFresh(s, child, messages, unresolved, generation);
    FirstTurnIsNamed(eligible);
    hide EligibleEvents, FirstTurn;
    if ChildTurnOf(eligible).Some? {
      var i :| 0 <= i < |eligible| && eligible[i].message.turn == FirstTurn(eligible);
      assert eligible[i] in eligible;
      if child in s.owners {
        assert OwnerOk(s.routes, s.buffered, s.retiredTurns.live, child, s.owners[child]);
      }
    }
  }

  lemma AnnounceKeeps(s: Router, child: Id, claim: Claim)
    requires Inv(s) && ClaimLive(s, claim)
    ensures
      var r := Announce(s, child, claim);
      && Inv(r.state) && EventsOk(|s.arrivals|, s.subscriptions, r.more)
      && (child == claim.root ==> r == Routed(s, [], []))
      && (child != claim.root ==>
            && r.state.buffered == s.buffered - {child}
            && child in r.state.owners && Claims(r.state.owners[child], claim)
            && r.state.owners.Keys == s.owners.Keys + {child}
            && (forall c | c in s.owners && c != child :: r.state.owners[c] == s.owners[c]))
  {
    hide IndexInv, BuffersInv, RoutesInv, OwnersInv, WellFormed, DeclineAll, Own, Discard,
         EligibleEvents, StaleEvents, Ambiguous, ChildTurnOf, EventOk;
    if child != claim.root {
      var unresolved := child in s.retiredUnbound.live;
      var lifted := s.(retiredUnbound := Exhume(s.retiredUnbound, child));
      assert Inv(lifted) by { ExhumeKeeps(s.retiredUnbound, child); }
      DiscardKeeps(lifted, child);
      var base := Discard(lifted, child);
      if child in s.buffered {
        var messages := s.buffered[child].messages;
        var eligible := EligibleEvents(s, child, messages, unresolved, claim.generation);
        var stale := StaleEvents(s, child, messages, unresolved, claim.generation);
        var taken := base.(out := DeclineAll(s.out, stale, StaleClaim),
                           adoptions := s.adoptions + [Adoption(claim.tx, s.buffered[child])]);
        if child !in s.routes { ClaimedTurnIsNew(s, child, unresolved, claim.generation); }
        OwnKeeps(taken, child, claim, ChildTurnOf(eligible));
        OwnClaims(taken, child, claim, ChildTurnOf(eligible));
        BufferedEventsAre(s, child);
        EligibleAreFresh(s, child, messages, unresolved, claim.generation);
        forall i | 0 <= i < |eligible| ensures EventOk(|s.arrivals|, s.subscriptions, eligible[i]) {
          assert eligible[i] in eligible;
        }
        assert Announce(s, child, claim).state.owners == Own(taken, child, claim, ChildTurnOf(eligible)).owners;
      } else {
        OwnKeeps(base, child, claim, None);
        OwnClaims(base, child, claim, None);
      }
    }
  }

  lemma ExhumeKeeps(t: Tombstones<Id>, k: Id)
    requires WellFormed(t)
    ensures WellFormed(Exhume(t, k))
  {}

  lemma {:induction false} AnnounceAllKeeps(s: Router, children: seq<Id>, claim: Claim)
    requires Inv(s) && ClaimLive(s, claim)
    ensures
      var r := AnnounceAll(s, children, claim);
      && Inv(r.state) && EventsOk(|s.arrivals|, s.subscriptions, r.more)
      && (forall c | c in children && c != claim.root ::
            c in r.state.owners && Claims(r.state.owners[c], claim))
      && s.owners.Keys <= r.state.owners.Keys
      && (forall c | c in r.state.owners && (c !in children || c == claim.root) ::
            c in s.owners && r.state.owners[c] == s.owners[c])
      && SubMap(r.state.buffered, s.buffered)
    decreases |children|
  {
    hide Inv, Announce, EventOk;
    if children != [] {
      AnnounceKeeps(s, children[0], claim);
      AnnounceAllKeeps(Announce(s, children[0], claim).state, children[1..], claim);
      assert children == [children[0]] + children[1..];
    }
  }

  // ---- One step -------------------------------------------------------------

  lemma BindChildKeeps(s: Router, event: Tagged)
    requires Inv(s)
    ensures Inv(BindChild(s, event))
  {
    hide IndexInv, BuffersInv, RoutesInv, OwnersInv, WellFormed;
    var t := event.message.thread;
    if BindChild(s, event) != s {
      assert OwnerOk(s.routes, s.buffered, s.retiredTurns.live, t, s.owners[t]) by { OwnersInvAt(s, t); }
      OwnersWith(s, t, s.owners[t].(childTurn := event.message.turn));
    }
  }

  lemma OwnersInvAt(s: Router, t: Id)
    requires Owners(s) && t in s.owners
    ensures OwnerOk(s.routes, s.buffered, s.retiredTurns.live, t, s.owners[t])
  {}

  /** An event is held only where no route or owner has a use for it. */
  lemma HeldMayWait(s: Router, event: Tagged)
    requires Classify(s, event).Hold?
    ensures MayWait(s, event)
  {}

  /** A delivery goes to a live route, and to its own channel. */
  lemma SendIsLive(s: Router, event: Tagged)
    requires Classify(s, event).Send?
    ensures
      var f := Classify(s, event);
      && Live(s.routes, f.root, f.rootTurn, f.generation) && s.routes[f.root].tx == f.tx
      && (f.child <==> event.message.thread !in s.routes)
      && (f.child ==>
            && event.message.thread in s.owners
            && s.owners[event.message.thread].root == f.root
            && s.owners[event.message.thread].childTurn == event.message.turn
            && event.message.turn.Some?)
      && (!f.child ==> f.root == event.message.thread)
  {}

  lemma DeliveredKeeps(s: Router, event: Tagged, fate: Fate)
    requires Inv(s) && fate.Send? && Live(s.routes, fate.root, fate.rootTurn, fate.generation)
    ensures Inv(Delivered(s, event, fate).state)
    ensures EventsOk(|s.arrivals|, s.subscriptions, Delivered(s, event, fate).more)
  {
    hide IndexInv, BuffersInv, RoutesInv, OwnersInv, WellFormed, RetireOwner, AnnounceAll, EventOk;
    ExhumeKeeps(s.failed, event.message.thread);
    ExhumeKeeps(Exhume(s.failed, event.message.thread), fate.root);
    var cleared := s.(failed := Exhume(Exhume(s.failed, event.message.thread), fate.root));
    RetireOwnerKeeps(cleared, event.message.thread);
    var claim := Claim(fate.root, fate.rootTurn, fate.generation, fate.tx);
    AnnounceAllKeeps(cleared, event.message.children, claim);
    AnnounceAllKeeps(RetireOwner(cleared, event.message.thread), event.message.children, claim);
  }

  lemma DispatchKeeps(s: Router, event: Tagged, fate: Fate, env: Env)
    requires Inv(s) && Enumerates(env)
    requires fate.Send? && Live(s.routes, fate.root, fate.rootTurn, fate.generation)
    ensures Inv(Dispatch(s, event, fate, env).state)
    ensures EventsOk(|s.arrivals|, s.subscriptions, Dispatch(s, event, fate, env).more)
  {
    hide IndexInv, BuffersInv, RoutesInv, OwnersInv, WellFormed, Delivered, RemoveRoute, EventOk, Decline;
    var sent := TrySend(s.wire, fate.tx, event, env);
    DeliveredKeeps(s.(wire := sent.wire), event, fate);
    RemoveRouteKeeps(s.(wire := sent.wire, out := Decline(s.out, event, Undeliverable)), fate.root, fate.tx, env);
  }

  /** Routing one event keeps the invariant. */
  lemma StepKeeps(s: Router, event: Tagged, env: Env)
    requires Inv(s) && Enumerates(env) && EventOk(|s.arrivals|, s.subscriptions, event)
    ensures Inv(Step(s, event, env).state)
    ensures EventsOk(|s.arrivals|, s.subscriptions, Step(s, event, env).more)
  {
    hide IndexInv, BuffersInv, RoutesInv, OwnersInv, WellFormed, BindChild, Classify, Dispatch, BufferMessage,
         EventOk, Decline, MayWait, Live;
    BindChildKeeps(s, event);
    var bound := BindChild(s, event);
    match Classify(bound, event)
    case Ignore =>
    case Refuse =>
    case Hold =>
      HeldMayWait(bound, event);
      BufferMessageKeeps(bound, event);
    case Send(_, _, _, _, _) =>
      SendIsLive(bound, event);
      DispatchKeeps(bound, event, Classify(bound, event), env);
  }
}
