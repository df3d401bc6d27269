/**
 What every router operation keeps: the indexes agree and are bounded, the
 flags of a buffer say what it lost, and every ownership entry refers
 to a live, activated route.
 */
module CodexInvariants {
  import opened CodexIds
  import opened Options
  import opened Tombstones
  import opened CodexRouting

  /** The unknown set and its queue agree, are bounded, and index exactly the unowned buffers. */
  ghost predicate IndexInv(unknown: set<Id>, order: seq<Id>, buffers: set<Id>, routes: set<Id>) {
    && Distinct(order)
    && (forall t :: t in order <==> t in unknown)
    && |unknown| <= UNKNOWN_BUFFER_BUDGET
    && unknown == buffers - routes
  }

  /** A generation tag names a real subscription, and its own root only after that subscription. */
  ghost predicate EventOk(arrived: nat, subs: seq<Subscription>, e: Tagged) {
    && e.message.stamp < arrived
    && (e.generation.Some? ==>
          && 1 <= e.generation.value <= |subs|
          && (subs[e.generation.value - 1].root == e.message.thread ==>
                subs[e.generation.value - 1].since <= e.message.stamp))
  }

  ghost predicate EventsOk(arrived: nat, subs: seq<Subscription>, events: seq<Tagged>) {
    forall i | 0 <= i < |events| :: EventOk(arrived, subs, events[i])
  }

  ghost predicate Lost(b: Buffer, subscribed: bool, request: bool, announces: bool) {
    exists i | 0 <= i < |b.losses| ::
      && b.losses[i].subscribed == subscribed
      && b.losses[i].event.message.kind.Request? == request
      && (request || Announces(b.losses[i].event) == announces)
  }

  ghost predicate LostTurn(b: Buffer, turn: Option<Id>) {
    exists i | 0 <= i < |b.losses| :: b.losses[i].subscribed && b.losses[i].event.message.turn == turn
  }

  /** The flags of a buffer say exactly what the size limit took from it. */
  ghost predicate LossesRecorded(b: Buffer) {
    && (b.requestOverloaded <==> Lost(b, false, true, false))
    && (b.announcementOverloaded <==> Lost(b, false, false, true))
    && (b.notificationOverloaded <==> Lost(b, false, false, false))
    && (forall turn :: turn in b.rootOverflowedTurns <==> LostTurn(b, turn))
  }

  ghost predicate OfThread(thread: Id, events: seq<Tagged>) {
    forall i | 0 <= i < |events| :: events[i].message.thread == thread
  }

  ghost predicate BufferOk(arrived: nat, subs: seq<Subscription>, thread: Id, b: Buffer) {
    && thread != NO_THREAD
    && 0 < |b.messages| <= ROUTE_EVENT_BUDGET
    && OfThread(thread, b.messages)
    && EventsOk(arrived, subs, b.messages)
    && LossesRecorded(b)
  }

  ghost predicate BuffersInv(arrived: nat, subs: seq<Subscription>, buffered: map<Id, Buffer>) {
    forall t | t in buffered :: BufferOk(arrived, subs, t, buffered[t])
  }

  ghost predicate RouteOk(arrived: nat, subs: seq<Subscription>, buffers: set<Id>, t: Id, r: Route) {
    && r.tx < |subs|
    && r.generation == r.tx + 1
    && subs[r.tx].root == t
    && subs[r.tx].turn == r.turn
    && subs[r.tx].since <= arrived
    && (r.turn.Some? ==> t !in buffers)
  }

  /** Each route owns its channel, and an activated one has nothing left to release. */
  ghost predicate RoutesInv(arrived: nat, subs: seq<Subscription>, buffers: set<Id>, routes: map<Id, Route>) {
    forall t | t in routes :: RouteOk(arrived, subs, buffers, t, routes[t])
  }

  /** The claim's route is there, activated for the claimed turn under the claimed generation. */
  ghost predicate Live(routes: map<Id, Route>, root: Id, rootTurn: Id, generation: nat) {
    && root in routes
    && routes[root].turn == Some(rootTurn)
    && routes[root].generation == generation
  }

  /** No buffered event of an owned child belongs to the turn its owner has bound. */
  ghost predicate NoneOfTurn(b: Buffer, turn: Option<Id>) {
    turn.Some? && forall i | 0 <= i < |b.messages| :: b.messages[i].message.turn != turn
  }

  ghost predicate OwnerOk(routes: map<Id, Route>, buffered: map<Id, Buffer>, retired: set<ChildTurn>,
                          child: Id, o: Owner)
  {
    && child != o.root
    && Live(routes, o.root, o.rootTurn, o.generation)
    && (child !in routes ==>
          && (o.childTurn.Some? ==> ChildTurn(child, o.childTurn.value) !in retired)
          && (child in buffered ==> NoneOfTurn(buffered[child], o.childTurn)))
  }

  ghost predicate OwnersInv(owners: map<Id, Owner>, routes: map<Id, Route>, buffered: map<Id, Buffer>,
                            retired: set<ChildTurn>)
  {
    forall c | c in owners :: OwnerOk(routes, buffered, retired, c, owners[c])
  }

  ghost predicate Indexed(s: Router) {
    IndexInv(s.unknown, s.unknownOrder, s.buffered.Keys, s.routes.Keys)
  }

  ghost predicate Buffers(s: Router) {
    BuffersInv(|s.arrivals|, s.subscriptions, s.buffered)
  }

  ghost predicate Routes(s: Router) {
    && s.generation == |s.subscriptions|
    && RoutesInv(|s.arrivals|, s.subscriptions, s.buffered.Keys, s.routes)
  }

  ghost predicate Owners(s: Router) {
    OwnersInv(s.owners, s.routes, s.buffered, s.retiredTurns.live)
  }

  ghost predicate Buried(s: Router) {
    WellFormed(s.failed) && WellFormed(s.retiredTurns) && WellFormed(s.retiredUnbound)
  }

  ghost predicate Inv(s: Router) {
    Indexed(s) && Buffers(s) && Routes(s) && Owners(s) && Buried(s)
  }

  // ---- Retiring and discarding ----------------------------------------------

  ghost predicate SubMap<K, V>(m: map<K, V>, n: map<K, V>) {
    forall k | k in m :: k in n && m[k] == n[k]
  }

  lemma OwnersShrink(s: Router, r: Router)
    requires Owners(s)
    requires r.routes == s.routes && SubMap(r.owners, s.owners) && SubMap(r.buffered, s.buffered)
    requires forall k | k in r.retiredTurns.live :: k in s.retiredTurns.live || k.thread !in r.owners
    ensures Owners(r)
  {
    forall c | c in r.owners ensures OwnerOk(r.routes, r.buffered, r.retiredTurns.live, c, r.owners[c]) {
      assert OwnerOk(s.routes, s.buffered, s.retiredTurns.live, c, s.owners[c]);
    }
  }

  lemma RetireOwnerKeeps(s: Router, t: Id)
    requires Inv(s)
    ensures Inv(RetireOwner(s, t))
    ensures RetireOwner(s, t).owners == s.owners - {t}
  {
    hide Bury, IndexInv, BuffersInv, RoutesInv, OwnersInv;
    var r := RetireOwner(s, t);
    assert r.owners == s.owners - {t};
    if t in s.owners {
      match s.owners[t].childTurn
      case Some(turn) =>
        BuryKeepsBounds(s.retiredTurns, ChildTurn(t, turn));
      case None =>
        BuryKeepsBounds(s.retiredUnbound, t);
    }
    OwnersShrink(s, r);
  }

  lemma IndexWithout(unknown: set<Id>, order: seq<Id>, buffers: set<Id>, routes: set<Id>, t: Id)
    requires IndexInv(unknown, order, buffers, routes)
    requires t in unknown
    ensures IndexInv(unknown - {t}, Without(order, t), buffers - {t}, routes)
    ensures IndexInv(unknown - {t}, Without(order, t), buffers, routes + {t})
  {
    hide Without;
    WithoutKeepsTheOthers(order, t);
    assert unknown == (unknown - {t}) + {t};
  }

  lemma IndexBeside(unknown: set<Id>, order: seq<Id>, buffers: set<Id>, routes: set<Id>, t: Id)
    requires IndexInv(unknown, order, buffers, routes)
    requires t !in unknown
    ensures IndexInv(unknown, order, buffers - {t}, routes)
    ensures IndexInv(unknown, order, buffers, routes + {t})
  {
    assert unknown == (buffers - {t}) - routes;
    assert unknown == buffers - (routes + {t});
  }

  lemma IndexAfterRoute(unknown: set<Id>, order: seq<Id>, buffers: set<Id>, routes: set<Id>, t: Id)
    requires IndexInv(unknown, order, buffers, routes)
    requires t !in buffers
    ensures IndexInv(unknown, order, buffers, routes - {t})
  {
    assert unknown == buffers - (routes - {t});
  }

  lemma DiscardKeepsIndex(s: Router, t: Id)
    requires Indexed(s)
    ensures Indexed(Discard(s, t))
  {
    hide Without, IndexInv;
    assert Discard(s, t).buffered.Keys == s.buffered.Keys - {t};
    if t in s.unknown {
      IndexWithout(s.unknown, s.unknownOrder, s.buffered.Keys, s.routes.Keys, t);
    } else {
      IndexBeside(s.unknown, s.unknownOrder, s.buffered.Keys, s.routes.Keys, t);
    }
  }

  lemma DiscardKeeps(s: Router, t: Id)
    requires Inv(s)
    ensures Inv(Discard(s, t))
  {
    hide BufferOk, IndexInv, OwnersInv, WellFormed;
    DiscardKeepsIndex(s, t);
    OwnersShrink(s, Discard(s, t));
  }

  lemma RejectBufferedKeeps(s: Router, t: Id)
    requires Inv(s)
    ensures Inv(RejectBuffered(s, t))
  {
    hide Discard, IndexInv, BuffersInv, RoutesInv, OwnersInv, WellFormed, DeclineAll;
    DiscardKeeps(s, t);
  }

  lemma {:induction false} ClearEachKeeps(s: Router, children: seq<Id>)
    requires Inv(s)
    ensures Inv(ClearEach(s, children))
    ensures SubMap(ClearEach(s, children).owners, s.owners)
    ensures SubMap(ClearEach(s, children).buffered, s.buffered)
    ensures forall c | c in children :: c !in ClearEach(s, children).owners
    decreases |children|
  {
    hide Inv, RetireOwner, RejectBuffered;
    if children != [] {
      RetireOwnerKeeps(s, children[0]);
      RejectBufferedKeeps(RetireOwner(s, children[0]), children[0]);
      ClearEachKeeps(RejectBuffered(RetireOwner(s, children[0]), children[0]), children[1..]);
      assert children == [children[0]] + children[1..];
    }
  }

  // ---- Removing a route -----------------------------------------------------

  lemma RejectIgnoresRoutes(s: Router, routes: map<Id, Route>, t: Id)
    ensures RejectBuffered(RetireOwner(s.(routes := routes), t), t)
            == RejectBuffered(RetireOwner(s, t), t).(routes := routes)
  {
    hide Bury, Without, DeclineAll;
  }

  lemma {:induction false} ClearEachIgnoresRoutes(s: Router, routes: map<Id, Route>, children: seq<Id>)
    ensures ClearEach(s.(routes := routes), children) == ClearEach(s, children).(routes := routes)
    decreases |children|
  {
    hide RetireOwner, RejectBuffered;
    if children != [] {
      var next := RejectBuffered(RetireOwner(s, children[0]), children[0]);
      RejectIgnoresRoutes(s, routes, children[0]);
      ClearEachIgnoresRoutes(next, routes, children[1..]);
    }
  }

  lemma ClearDescendantsKeeps(s: Router, root: Id, env: Env)
    requires Inv(s) && Enumerates(env)
    ensures Inv(ClearDescendants(s, root, env))
    ensures SubMap(ClearDescendants(s, root, env).owners, s.owners)
    ensures SubMap(ClearDescendants(s, root, env).buffered, s.buffered)
    ensures Descendants(ClearDescendants(s, root, env), root) == {}
  {
    hide Inv, ClearEach;
    ClearEachKeeps(s, env.enumerate(Descendants(s, root)));
    var r := ClearDescendants(s, root, env);
    forall c | c in r.owners ensures r.owners[c].root != root {
      assert c !in env.enumerate(Descendants(s, root));
      assert c !in Descendants(s, root);
    }
  }

  /** Everything that belongs to `root` is gone before its route is. */
  ghost function Emptied(s: Router, root: Id, env: Env): (r: Router)
    ensures r == s.(owners := r.owners, retiredTurns := r.retiredTurns, retiredUnbound := r.retiredUnbound,
                    buffered := r.buffered, unknown := r.unknown, unknownOrder := r.unknownOrder, out := r.out)
    ensures root !in r.buffered
  {
    RejectBuffered(RetireOwner(ClearDescendants(s, root, env), root), root)
  }

  lemma EmptiedKeeps(s: Router, root: Id, env: Env)
    requires Inv(s) && Enumerates(env)
    ensures Inv(Emptied(s, root, env))
    ensures SubMap(Emptied(s, root, env).owners, s.owners) && SubMap(Emptied(s, root, env).buffered, s.buffered)
    ensures root !in Emptied(s, root, env).owners && Descendants(Emptied(s, root, env), root) == {}
  {
    hide Inv, ClearDescendants, RetireOwner, RejectBuffered;
    ClearDescendantsKeeps(s, root, env);
    var cleared := ClearDescendants(s, root, env);
    RetireOwnerKeeps(cleared, root);
    RejectBufferedKeeps(RetireOwner(cleared, root), root);
    var r := Emptied(s, root, env);
    forall c | c in r.owners ensures r.owners[c].root != root {
      assert c !in Descendants(cleared, root);
    }
  }

  lemma RemoveRouteIs(s: Router, root: Id, tx: nat, env: Env)
    ensures RemoveRoute(s, root, tx, env) ==
            if root in s.routes && s.routes[root].tx == tx
            then Emptied(s, root, env).(routes := s.routes - {root}, failed := Bury(s.failed, root))
            else s
  {
    hide Bury, RetireOwner, RejectBuffered, ClearEach;
    var routes := s.routes - {root};
    assert Descendants(s.(routes := routes), root) == Descendants(s, root);
    ClearEachIgnoresRoutes(s, routes, env.enumerate(Descendants(s, root)));
    RejectIgnoresRoutes(ClearDescendants(s, root, env), routes, root);
  }

  lemma OwnersAfterRoute(owners: map<Id, Owner>, routes: map<Id, Route>, buffered: map<Id, Buffer>,
                         retired: set<ChildTurn>, root: Id)
    requires OwnersInv(owners, routes, buffered, retired)
    requires root !in owners && forall c | c in owners :: owners[c].root != root
    ensures OwnersInv(owners, routes - {root}, buffered, retired)
  {
    forall c | c in owners ensures OwnerOk(routes - {root}, buffered, retired, c, owners[c]) {
      assert OwnerOk(routes, buffered, retired, c, owners[c]);
    }
  }

  lemma RemoveRouteKeeps(s: Router, root: Id, tx: nat, env: Env)
    requires Inv(s) && Enumerates(env)
    ensures Inv(RemoveRoute(s, root, tx, env))
    ensures SubMap(RemoveRoute(s, root, tx, env).owners, s.owners)
    ensures SubMap(RemoveRoute(s, root, tx, env).buffered, s.buffered)
    ensures SubMap(RemoveRoute(s, root, tx, env).routes, s.routes)
    ensures forall c | c in RemoveRoute(s, root, tx, env).owners ::
              c in s.routes ==> c in RemoveRoute(s, root, tx, env).routes
  {
    hide RemoveRoute, Emptied, Bury, IndexInv, BuffersInv, OwnersInv, RouteOk, WellFormed;
    RemoveRouteIs(s, root, tx, env);
    if root in s.routes && s.routes[root].tx == tx {
      var e, r := Emptied(s, root, env), RemoveRoute(s, root, tx, env);
      EmptiedKeeps(s, root, env);
      assert Buried(r) by { BuryKeepsBounds(s.failed, root); }
      assert Indexed(r) by {
        IndexAfterRoute(e.unknown, e.unknownOrder, e.buffered.Keys, s.routes.Keys, root);
        assert r.routes.Keys == s.routes.Keys - {root};
      }
      assert Owners(r) by {
        assert forall c | c in e.owners :: c in Descendants(e, root) <==> e.owners[c].root == root;
        OwnersAfterRoute(e.owners, e.routes, e.buffered, e.retiredTurns.live, root);
      }
    }
  }
}
