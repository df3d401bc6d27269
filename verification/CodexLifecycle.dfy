/**
 The per-thread lifecycle lock of the Codex backend.

 A registry maps a thread to a weak reference to its mutex. Acquirers upgrade
 the entry or replace a dead one, wait for the mutex, and on release remove
 the entry if nobody else holds a reference. The steps below are the ones that
 are atomic in the program; any number of clients interleave them.
 */
module CodexLifecycle {
  import opened CodexIds

  /** Where one acquirer is. Every stage holds a strong reference to its mutex. */
  datatype Client =
    | Waiting(thread: Id, mutex: nat)
    | Holding(thread: Id, mutex: nat)
    | Unlocked(thread: Id, mutex: nat)
    | Pruned(thread: Id, mutex: nat)

  datatype Registry = Registry(
    entries: map<Id, nat>,
    clients: map<Id, Client>,
    locked: map<nat, Id>,
    nextMutex: nat)

  datatype Action =
    | Lookup(client: Id, thread: Id)
    | TakeMutex(client: Id)
    | Abandon(client: Id)
    | Unlock(client: Id)
    | Prune(client: Id)
    | Forget(client: Id)

  /** A weak entry can be upgraded while some client holds its mutex. */
  ghost predicate Referenced(r: Registry, mutex: nat) {
    exists c :: c in r.clients && r.clients[c].mutex == mutex
  }

  /** The strong count seen by `client` is one. */
  ghost predicate SoleReference(r: Registry, client: Id, mutex: nat) {
    forall c | c in r.clients && c != client :: r.clients[c].mutex != mutex
  }

  ghost predicate Enabled(r: Registry, a: Action) {
    match a
    case Lookup(c, _) => c !in r.clients
    case TakeMutex(c) => c in r.clients && r.clients[c].Waiting? && r.clients[c].mutex !in r.locked
    case Abandon(c) => c in r.clients && r.clients[c].Waiting?
    case Unlock(c) => c in r.clients && r.clients[c].Holding?
    case Prune(c) => c in r.clients && r.clients[c].Unlocked?
    case Forget(c) => c in r.clients && r.clients[c].Pruned?
  }

  ghost function Apply(r: Registry, a: Action): Registry
    requires Enabled(r, a)
  {
    match a
    case Lookup(c, t) =>
      if t in r.entries && Referenced(r, r.entries[t])
      then r.(clients := r.clients[c := Waiting(t, r.entries[t])])
      else r.(entries := r.entries[t := r.nextMutex],
              clients := r.clients[c := Waiting(t, r.nextMutex)],
              nextMutex := r.nextMutex + 1)
    case TakeMutex(c) =>
      var m := r.clients[c].mutex;
      r.(clients := r.clients[c := Holding(r.clients[c].thread, m)], locked := r.locked[m := c])
    case Abandon(c) => r.(clients := r.clients - {c})
    case Unlock(c) =>
      var m := r.clients[c].mutex;
      r.(clients := r.clients[c := Unlocked(r.clients[c].thread, m)], locked := r.locked - {m})
    case Prune(c) =>
      var t, m := r.clients[c].thread, r.clients[c].mutex;
      var pruned := r.(clients := r.clients[c := Pruned(t, m)]);
      if t in r.entries && r.entries[t] == m && SoleReference(r, c, m)
      then pruned.(entries := r.entries - {t}) else pruned
    case Forget(c) => r.(clients := r.clients - {c})
  }

  ghost predicate Fresh(r: Registry) {
    && (forall c | c in r.clients :: r.clients[c].mutex < r.nextMutex)
    && (forall t | t in r.entries :: r.entries[t] < r.nextMutex)
  }

  ghost predicate Interested(client: Client) {
    client.Waiting? || client.Holding?
  }

  /** Waiters and holders share the registered mutex of their thread. */
  ghost predicate Shared(entries: map<Id, nat>, clients: map<Id, Client>) {
    forall c | c in clients && Interested(clients[c]) ::
      clients[c].thread in entries && entries[clients[c].thread] == clients[c].mutex
  }

  /** A mutex serves one thread. */
  ghost predicate OneThread(entries: map<Id, nat>, clients: map<Id, Client>) {
    && (forall c, t | c in clients && t in entries && entries[t] == clients[c].mutex :: clients[c].thread == t)
    && (forall t, u | t in entries && u in entries && entries[t] == entries[u] :: t == u)
  }

  ghost predicate LockedBy(clients: map<Id, Client>, locked: map<nat, Id>) {
    && (forall m | m in locked ::
          locked[m] in clients && clients[locked[m]].Holding? && clients[locked[m]].mutex == m)
    && (forall c | c in clients && clients[c].Holding? :: clients[c].mutex in locked && locked[clients[c].mutex] == c)
  }

  ghost predicate Inv(r: Registry) {
    && Fresh(r)
    && Shared(r.entries, r.clients)
    && OneThread(r.entries, r.clients)
    && LockedBy(r.clients, r.locked)
  }

  lemma KeepsFresh(r: Registry, a: Action)
    requires Fresh(r) && Enabled(r, a)
    ensures Fresh(Apply(r, a))
  {
  }

  lemma KeepsLockedBy(r: Registry, a: Action)
    requires LockedBy(r.clients, r.locked) && Enabled(r, a)
    ensures LockedBy(Apply(r, a).clients, Apply(r, a).locked)
  {
    hide SoleReference, Referenced;
  }

  lemma LookupKeepsShared(r: Registry, a: Action)
    requires Shared(r.entries, r.clients) && Enabled(r, a) && a.Lookup?
    ensures Shared(Apply(r, a).entries, Apply(r, a).clients)
  {
    var t := a.thread;
    if !(t in r.entries && Referenced(r, r.entries[t])) {
      assert forall d | d in r.clients && Interested(r.clients[d]) && r.clients[d].thread == t ::
          Referenced(r, r.entries[t]);
    }
  }

  lemma PruneKeepsShared(r: Registry, a: Action)
    requires Shared(r.entries, r.clients) && Enabled(r, a) && a.Prune?
    ensures Shared(Apply(r, a).entries, Apply(r, a).clients)
  {
  }

  lemma OthersKeepShared(r: Registry, a: Action)
    requires Shared(r.entries, r.clients) && Enabled(r, a) && !a.Lookup? && !a.Prune?
    ensures Shared(Apply(r, a).entries, Apply(r, a).clients)
  {
  }

  lemma LookupKeepsOneThread(r: Registry, a: Action)
    requires Fresh(r) && OneThread(r.entries, r.clients) && Enabled(r, a) && a.Lookup?
    ensures OneThread(Apply(r, a).entries, Apply(r, a).clients)
  {
    hide Referenced;
  }

  lemma OthersKeepOneThread(r: Registry, a: Action)
    requires OneThread(r.entries, r.clients) && Enabled(r, a) && !a.Lookup?
    ensures OneThread(Apply(r, a).entries, Apply(r, a).clients)
  {
    hide SoleReference;
  }

  lemma ApplyKeeps(r: Registry, a: Action)
    requires Inv(r) && Enabled(r, a)
    ensures Inv(Apply(r, a))
  {
    hide Apply, Enabled, Fresh, Shared, OneThread, LockedBy;
    KeepsFresh(r, a);
    KeepsLockedBy(r, a);
    match a
    case Lookup(_, _) => LookupKeepsShared(r, a); LookupKeepsOneThread(r, a);
    case Prune(_) => PruneKeepsShared(r, a); OthersKeepOneThread(r, a);
    case _ => OthersKeepShared(r, a); OthersKeepOneThread(r, a);
  }

  // ---- Runs -----------------------------------------------------------------

  ghost predicate Reaches(actions: seq<Action>, states: seq<Registry>) {
    && |states| == |actions| + 1
    && states[0] == Registry(map[], map[], map[], 0)
    && forall i | 0 <= i < |actions| :: Enabled(states[i], actions[i]) && states[i + 1] == Apply(states[i], actions[i])
  }

  lemma NothingInv()
    ensures Inv(Registry(map[], map[], map[], 0))
  {
  }

  lemma {:induction false} ReachableInv(actions: seq<Action>, states: seq<Registry>, n: nat)
    requires Reaches(actions, states) && n < |states|
    ensures Inv(states[n])
    decreases n
  {
    hide Apply, Enabled, Inv;
    if n == 0 {
      NothingInv();
    } else {
      ReachableInv(actions, states, n - 1);
      ApplyKeeps(states[n - 1], actions[n - 1]);
    }
  }

  /** The abstract lock: who holds the lifecycle of each thread. */
  ghost predicate Holds(r: Registry, c: Id, thread: Id) {
    c in r.clients && r.clients[c].Holding? && r.clients[c].thread == thread
  }

  /** Mutual exclusion despite pruning: one guard per thread, at every moment of every run. */
  lemma MutualExclusion(actions: seq<Action>, states: seq<Registry>, n: nat, c: Id, d: Id, thread: Id)
    requires Reaches(actions, states) && n < |states|
    requires Holds(states[n], c, thread) && Holds(states[n], d, thread)
    ensures c == d
  {
    hide Reaches;
    ReachableInv(actions, states, n);
  }

  /** Pruning never separates a thread from a mutex that is held or waited on. */
  lemma PruningKeepsTheMutex(actions: seq<Action>, states: seq<Registry>, n: nat, c: Id)
    requires Reaches(actions, states) && n < |states| && c in states[n].clients
    requires states[n].clients[c].Waiting? || states[n].clients[c].Holding?
    ensures
      var t := states[n].clients[c].thread;
      t in states[n].entries && states[n].entries[t] == states[n].clients[c].mutex
  {
    hide Reaches;
    ReachableInv(actions, states, n);
  }

  /** Seen from outside, every step acquires a free lifecycle, releases a held one, or changes nobody's hold. */
  lemma RefinesLock(r: Registry, a: Action)
    requires Inv(r) && Enabled(r, a)
    ensures a.TakeMutex? ==>
              && (forall c :: !Holds(r, c, r.clients[a.client].thread))
              && (forall c, u :: Holds(Apply(r, a), c, u) <==>
                    Holds(r, c, u) || (c == a.client && u == r.clients[a.client].thread))
    ensures a.Unlock? ==>
              && Holds(r, a.client, r.clients[a.client].thread)
              && (forall c, u :: Holds(Apply(r, a), c, u) <==> Holds(r, c, u) && c != a.client)
    ensures !a.TakeMutex? && !a.Unlock? ==> forall c, u :: Holds(Apply(r, a), c, u) <==> Holds(r, c, u)
  {
    hide Fresh, OneThread;
    var r' := Apply(r, a);
    if a.TakeMutex? || a.Unlock? {
      var t := r.clients[a.client].thread;
      assert a.TakeMutex? ==> forall c :: !Holds(r, c, t);
      hide Shared, LockedBy;
      forall c, u ensures Holds(r', c, u) <==>
        if a.TakeMutex? then Holds(r, c, u) || (c == a.client && u == t) else Holds(r, c, u) && c != a.client
      {}
    } else {
      hide Shared, LockedBy;
      forall c, u ensures Holds(r', c, u) <==> Holds(r, c, u) {}
    }
  }

  // ---- What stays in the registry -------------------------------------------

  /** A new client joins the mutex that others of the thread refer to by the registry, or gets one never used before. */
  lemma LookupJoinsExactly(r: Registry, c: Id, t: Id)
    requires Inv(r) && Enabled(r, Lookup(c, t))
    ensures
      var r' := Apply(r, Lookup(c, t));
      && r'.clients == r.clients[c := Waiting(t, r'.entries[t])] && r'.entries - {t} == r.entries - {t}
      && (forall d | d in r.clients && t in r.entries && r.clients[d].mutex == r.entries[t] ::
            r'.entries[t] == r.entries[t])
      && ((forall d | d in r.clients && t in r.entries :: r.clients[d].mutex != r.entries[t]) ==>
            (forall d | d in r.clients :: r.clients[d].mutex != r'.entries[t]))
  {
  }

  /** Releasing a registered mutex removes its entry if and only if nobody else refers to it. */
  lemma PrunedExactly(r: Registry, c: Id)
    requires Inv(r) && Enabled(r, Prune(c))
    ensures
      var t, m, r' := r.clients[c].thread, r.clients[c].mutex, Apply(r, Prune(c));
      && (t in r'.entries <==>
            t in r.entries && (r.entries[t] != m || exists d :: d in r.clients && d != c && r.clients[d].mutex == m))
      && (t in r'.entries ==> r'.entries[t] == r.entries[t])
      && r'.entries - {t} == r.entries - {t}
  {
  }

  /** No two clients of a thread at a time. */
  ghost predicate Alone(r: Registry) {
    forall c, d | c in r.clients && d in r.clients && r.clients[c].thread == r.clients[d].thread :: c == d
  }

  /** The client has the registered mutex of the thread and did not prune yet. */
  ghost predicate Uses(r: Registry, c: Id, t: Id) {
    && c in r.clients && r.clients[c].thread == t && !r.clients[c].Pruned?
    && t in r.entries && r.entries[t] == r.clients[c].mutex
  }

  ghost predicate Exact(r: Registry) {
    && (forall t | t in r.entries :: exists c :: Uses(r, c, t))
    && (forall c | c in r.clients && !r.clients[c].Pruned? :: Uses(r, c, r.clients[c].thread))
  }

  lemma LookupStaysExact(r: Registry, a: Action)
    requires Inv(r) && Enabled(r, a) && Exact(r) && Alone(Apply(r, a)) && a.Lookup?
    ensures Exact(Apply(r, a))
  {
    hide Fresh, Shared, LockedBy, OneThread, Referenced;
    var r' := Apply(r, a);
    forall d
      ensures !Uses(r, d, a.thread)
    {
      assert r'.clients[a.client].thread == a.thread;
      assert d in r.clients ==> d != a.client && d in r'.clients && r'.clients[d] == r.clients[d];
    }
    forall t | t in r'.entries
      ensures exists c :: Uses(r', c, t)
    {
      if t == a.thread {
        assert Uses(r', a.client, t);
      } else {
        var c :| Uses(r, c, t);
        assert Uses(r', c, t);
      }
    }
  }

  lemma OthersStayExact(r: Registry, a: Action)
    requires Inv(r) && Enabled(r, a) && Exact(r) && Alone(r) && !a.Abandon? && !a.Lookup?
    ensures Exact(Apply(r, a))
  {
    hide Fresh, Shared, LockedBy;
    var r' := Apply(r, a);
    forall t | t in r'.entries
      ensures exists c :: Uses(r', c, t)
    {
      var c :| Uses(r, c, t);
      assert Uses(r', c, t);
    }
  }

  /** Over every run without abandoned waits, in which the clients of a thread follow each other, a thread is
      registered if and only if it has a client that did not release it yet: nothing is left behind. */
  lemma {:induction false} SoleClientsLeaveNothing(actions: seq<Action>, states: seq<Registry>, n: nat)
    requires Reaches(actions, states) && n < |states|
    requires forall i | 0 <= i < |states| :: Alone(states[i])
    requires forall i | 0 <= i < |actions| :: !actions[i].Abandon?
    ensures Exact(states[n])
    ensures forall t :: t in states[n].entries <==> exists c :: Uses(states[n], c, t)
    decreases n
  {
    hide Apply, Enabled, Inv, Alone, Uses;
    if n > 0 {
      SoleClientsLeaveNothing(actions, states, n - 1);
      ReachableInv(actions, states, n - 1);
      assert Alone(states[n - 1]) && Alone(states[n]) && states[n - 1 + 1] == Apply(states[n - 1], actions[n - 1]);
      if actions[n - 1].Lookup? {
        LookupStaysExact(states[n - 1], actions[n - 1]);
      } else {
        OthersStayExact(states[n - 1], actions[n - 1]);
      }
    }
    assert Exact(states[n]);
    UsedIsRegistered(states[n]);
  }

  lemma UsedIsRegistered(r: Registry)
    ensures forall c, t | Uses(r, c, t) :: t in r.entries
  {
  }

  const OVERLAPPING: seq<Action> := [
    Lookup(1, 1), Lookup(2, 1), TakeMutex(1), Unlock(1), TakeMutex(2), Unlock(2), Prune(1), Prune(2),
    Forget(1), Forget(2)]

  const SHARED: map<Id, nat> := map[1 := 0]

  const OVERLAP: seq<Registry> := [
    Registry(map[], map[], map[], 0),
    Registry(SHARED, map[1 := Waiting(1, 0)], map[], 1),
    Registry(SHARED, map[1 := Waiting(1, 0), 2 := Waiting(1, 0)], map[], 1),
    Registry(SHARED, map[1 := Holding(1, 0), 2 := Waiting(1, 0)], map[0 := 1], 1),
    Registry(SHARED, map[1 := Unlocked(1, 0), 2 := Waiting(1, 0)], map[], 1),
    Registry(SHARED, map[1 := Unlocked(1, 0), 2 := Holding(1, 0)], map[0 := 2], 1),
    Registry(SHARED, map[1 := Unlocked(1, 0), 2 := Unlocked(1, 0)], map[], 1),
    Registry(SHARED, map[1 := Pruned(1, 0), 2 := Unlocked(1, 0)], map[], 1),
    Registry(SHARED, map[1 := Pruned(1, 0), 2 := Pruned(1, 0)], map[], 1),
    Registry(SHARED, map[2 := Pruned(1, 0)], map[], 1),
    Registry(SHARED, map[], map[], 1)]

  lemma OverlapBegins()
    ensures forall i | 0 <= i < 5 ::
              Enabled(OVERLAP[i], OVERLAPPING[i]) && OVERLAP[i + 1] == Apply(OVERLAP[i], OVERLAPPING[i])
  {
    assert Referenced(OVERLAP[1], 0) by { assert OVERLAP[1].clients[1].mutex == 0; }
  }

  lemma OverlapEnds()
    ensures forall i | 5 <= i < 10 ::
              Enabled(OVERLAP[i], OVERLAPPING[i]) && OVERLAP[i + 1] == Apply(OVERLAP[i], OVERLAPPING[i])
  {
    assert !SoleReference(OVERLAP[6], 1, 0) by { assert OVERLAP[6].clients[2].mutex == 0; }
    assert !SoleReference(OVERLAP[7], 2, 0) by { assert OVERLAP[7].clients[1].mutex == 0; }
  }

  /** Without that an entry can stay with nobody left: each of two clients sees the reference of the other. */
  lemma OverlapLeavesAnEntry()
    ensures Reaches(OVERLAPPING, OVERLAP) && forall a | a in OVERLAPPING :: !a.Abandon?
    ensures OVERLAP[|OVERLAPPING|].clients == map[] && 1 in OVERLAP[|OVERLAPPING|].entries
  {
    hide Apply, Enabled;
    OverlapBegins();
    OverlapEnds();
  }
}
