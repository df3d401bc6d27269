/**
 The pool of persistent Claude processes, one per thread. A process is
 quarantined before it is terminated, and its key is freed only once its
 whole process tree is known to have exited. Every method below is one
 critical section of the pool; terminating can fail, or be abandoned after
 the tree exited.
 */
module ClaudePool {
  import opened Options

  const POOL_CAP: nat := 3

  type Thread = nat
  type Proc = nat

  datatype Request =
    | Use(thread: Thread, cancelled: bool, alive: bool, matches: bool, idle: set<Proc>, now: nat)
    | Drop(thread: Thread, proc: Proc)
    | Reap(idle: set<Proc>, expired: set<Proc>)
    | Touch(proc: Proc, time: nat)

  /** Nothing is reclaimed but what its entry names; entries are never replaced. */
  ghost predicate Shrinks(before: map<Thread, Proc>, after: map<Thread, Proc>) {
    forall t | t in after :: t in before && after[t] == before[t]
  }

  lemma {:induction false} NewProcess(known: set<Proc>)
    ensures exists p: Proc :: p !in known
  {
    var p := ProcessBeyond(known);
    assert p !in known;
  }

  lemma {:induction false} ProcessBeyond(known: set<Proc>) returns (p: Proc)
    ensures forall q | q in known :: q < p
  {
    p := 0;
    if known != {} {
      var q :| q in known;
      p := ProcessBeyond(known - {q});
      if p <= q { p := q + 1; }
      assert known == (known - {q}) + {q};
    }
  }

  class Pool {
    var procs: map<Thread, Proc>
    var reusable: set<Proc>            // processes that were not quarantined
    var lastUsed: map<Proc, nat>
    var spawned: map<Proc, Thread>     // every process ever started, and for whom
    ghost var unreaped: set<Proc>      // processes whose tree may still be running
    ghost var mishaps: nat             // how often a cleanup or start failed, or a turn was cancelled in between

    ghost predicate Valid()
      reads this
    {
      && (forall t | t in procs :: procs[t] in spawned && spawned[procs[t]] == t)
      && (forall p | p in unreaped :: p in spawned && spawned[p] in procs && procs[spawned[p]] == p)
      && reusable <= unreaped
      && lastUsed.Keys == spawned.Keys
    }

    /** No overlapping trees: a thread has at most one, and it is under the thread's key. */
    lemma OneTreePerThread(p: Proc, q: Proc)
      requires Valid() && p in unreaped && q in unreaped && spawned[p] == spawned[q]
      ensures p == q && spawned[p] in procs && procs[spawned[p]] == p
    {
    }

    lemma Known()
      requires Valid()
      ensures forall u | u in procs :: procs[u] in spawned
      ensures forall u, v | u in procs && v in procs && procs[u] == procs[v] :: u == v
      ensures reusable <= unreaped && unreaped <= spawned.Keys
      ensures lastUsed.Keys == spawned.Keys
    {
    }

    constructor ()
      ensures Valid() && procs == map[] && unreaped == {}
    {
      procs, reusable, lastUsed, spawned, unreaped, mishaps := map[], {}, map[], map[], {}, 0;
    }

    /** Something that may not work out. */
    method Try() returns (ok: bool)
      requires Valid()
      modifies this`mishaps
      ensures Valid() && mishaps == old(mishaps) + if ok then 0 else 1
    {
      ok := *;
      if !ok { mishaps := mishaps + 1; }
    }

    /** Quarantine, then try to end the tree; a failure may come after the tree exited. */
    method Terminate(p: Proc) returns (ok: bool)
      requires Valid()
      modifies this`reusable, this`unreaped, this`mishaps
      ensures Valid() && reusable == old(reusable) - {p}
      ensures unreaped == old(unreaped) - {p} || (unreaped == old(unreaped) && !ok)
      ensures mishaps == old(mishaps) + if ok then 0 else 1
    {
      reusable := reusable - {p};
      ok := Try();
      var exited: bool := *;
      if ok || exited { unreaped := unreaped - {p}; }
    }

    method TerminateAndRemove(t: Thread, p: Proc) returns (ok: bool)
      requires Valid()
      modifies this`procs, this`reusable, this`unreaped, this`mishaps
      ensures mishaps == old(mishaps) + if ok then 0 else 1
      ensures Valid() && reusable == old(reusable) - {p}
      ensures unreaped == old(unreaped) - {p} || (unreaped == old(unreaped) && !ok)
      ensures procs == if ok && t in old(procs) && old(procs)[t] == p then old(procs) - {t} else old(procs)
    {
      ok := Terminate(p);
      if ok && t in procs && procs[t] == p { procs := procs - {t}; }
    }

    /** End processes that nobody uses and that were idle for too long. */
    method ReapIdle(idle: set<Proc>, expired: set<Proc>)
      requires Valid()
      modifies this`procs, this`reusable, this`unreaped, this`mishaps
      ensures Valid() && Shrinks(old(procs), procs) && old(mishaps) <= mishaps
      ensures reusable <= old(reusable) && unreaped <= old(unreaped)
      ensures forall p | p in old(reusable) && p !in reusable :: p in idle && p in expired
      ensures forall t | t in old(procs) && old(procs)[t] in idle && old(procs)[t] in expired ::
                old(procs)[t] !in reusable && (t !in procs || mishaps > old(mishaps))
      ensures forall t | t in old(procs) && t !in procs ::
                old(procs)[t] in idle && old(procs)[t] in expired && old(procs)[t] !in unreaped
    {
      var dead: set<Thread> := set t | t in procs && procs[t] in idle && procs[t] in expired;
      while dead != {}
        invariant Valid() && Shrinks(old(procs), procs)
        invariant forall t | t in dead :: t in procs && procs[t] in idle && procs[t] in expired
        invariant old(mishaps) <= mishaps
        invariant forall t | t in old(procs) && old(procs)[t] in idle && old(procs)[t] in expired && t !in dead ::
                    old(procs)[t] !in reusable && (t !in procs || mishaps > old(mishaps))
        invariant reusable <= old(reusable) && unreaped <= old(unreaped)
        invariant forall p | p in old(reusable) && p !in reusable :: p in idle && p in expired
        invariant forall t | t in old(procs) && t !in procs ::
                    old(procs)[t] in idle && old(procs)[t] in expired && old(procs)[t] !in unreaped
        decreases |dead|
      {
        var t :| t in dead;
        dead := dead - {t};
        var _ := TerminateAndRemove(t, procs[t]);
      }
    }

    /** The process may be evicted: nobody uses it, and it was not given up on before. */
    predicate Evictable(t: Thread, idle: set<Proc>)
      reads this
    {
      t in procs && procs[t] in reusable && procs[t] in idle
    }

    /** The evictable process that was used least recently, if there is one. */
    method LeastRecentlyUsed(idle: set<Proc>) returns (lru: Option<Thread>)
      requires Valid()
      ensures lru.None? ==> forall t :: !Evictable(t, idle)
      ensures lru.Some? ==> Evictable(lru.value, idle)
      ensures lru.Some? ==> forall t | Evictable(t, idle) :: lastUsed[procs[lru.value]] <= lastUsed[procs[t]]
    {
      lru := None;
      var todo := procs.Keys;
      while todo != {}
        invariant todo <= procs.Keys
        invariant lru.Some? ==> Evictable(lru.value, idle)
        invariant forall t | Evictable(t, idle) && t !in todo ::
                    lru.Some? && lastUsed[procs[lru.value]] <= lastUsed[procs[t]]
        decreases |todo|
      {
        var t :| t in todo;
        todo := todo - {t};
        if Evictable(t, idle) && (lru.None? || lastUsed[procs[t]] < lastUsed[procs[lru.value]]) {
          lru := Some(t);
        }
      }
    }

    /** Evict while at capacity, until there is room, nobody left to evict, or a cleanup that failed. */
    method EnforceCap(idle: set<Proc>) returns (failed: bool)
      requires Valid()
      modifies this`procs, this`reusable, this`unreaped, this`mishaps
      ensures Valid() && Shrinks(old(procs), procs) && old(mishaps) <= mishaps
      ensures reusable <= old(reusable) && unreaped <= old(unreaped)
      ensures failed <==> mishaps > old(mishaps)
      ensures procs == old(procs) || |procs| >= POOL_CAP - 1
      ensures forall p | p in old(reusable) && p !in reusable :: p in idle
      ensures |procs| < POOL_CAP || failed || forall t :: !Evictable(t, idle)
      ensures |old(procs)| < POOL_CAP ==>
                procs == old(procs) && reusable == old(reusable) && unreaped == old(unreaped)
      ensures forall p, q | p in old(reusable) && p !in reusable && q in reusable && q in idle ::
                lastUsed[p] <= lastUsed[q]
    {
      failed := false;
      while |procs| >= POOL_CAP && !failed
        invariant Valid() && Shrinks(old(procs), procs)
        invariant old(mishaps) <= mishaps && (failed <==> mishaps > old(mishaps))
        invariant procs == old(procs) || |procs| >= POOL_CAP - 1
        invariant forall p | p in old(reusable) && p !in reusable :: p in idle
        invariant reusable <= old(reusable) && unreaped <= old(unreaped)
        invariant |old(procs)| < POOL_CAP ==>
                    procs == old(procs) && reusable == old(reusable) && unreaped == old(unreaped)
        invariant forall p, q | p in old(reusable) && p !in reusable && q in reusable && q in idle ::
                    lastUsed[p] <= lastUsed[q]
        decreases |procs|, !failed
      {
        var lru := LeastRecentlyUsed(idle);
        if lru.None? { break; }
        forall q | q in reusable && q in idle
          ensures Evictable(spawned[q], idle)
        {
        }
        var removed := TerminateAndRemove(lru.value, procs[lru.value]);
        failed := !removed;
      }
    }

    /** Start a process for the thread, if it starts at all. */
    method Spawn(t: Thread, now: nat) returns (started: Option<Proc>)
      requires Valid() && t !in procs
      modifies this
      ensures Valid()
      ensures mishaps == old(mishaps) + if started.Some? then 0 else 1
      ensures started.None? ==>
        && procs == old(procs) && reusable == old(reusable) && spawned == old(spawned) && unreaped == old(unreaped)
        && lastUsed == old(lastUsed)
      ensures started.Some? ==>
        && started.value !in old(spawned) && spawned == old(spawned)[started.value := t]
        && lastUsed == old(lastUsed)[started.value := now]
        && procs == old(procs)[t := started.value]
        && reusable == old(reusable) + {started.value} && unreaped == old(unreaped) + {started.value}
    {
      var starts := Try();
      if !starts { return None; }
      NewProcess(spawned.Keys);
      var p: Proc :| p !in spawned;
      spawned := spawned[p := t];
      lastUsed := lastUsed[p := now];
      reusable := reusable + {p};
      unreaped := unreaped + {p};
      procs := procs[t := p];
      started := Some(p);
    }

    /** A process of another thread could be evicted. */
    ghost predicate Crowded(t: Thread, idle: set<Proc>)
      reads this
    {
      exists u :: u != t && Evictable(u, idle)
    }

    /** Make room and start a process for a thread whose key is free. */
    method Replace(t: Thread, idle: set<Proc>, now: nat) returns (found: Option<Proc>)
      requires Valid() && t !in procs
      modifies this
      ensures Valid()
      ensures old(mishaps) <= mishaps && (found.None? ==> mishaps > old(mishaps))
      ensures found.Some? ==>
                && found.value !in old(spawned) && t in procs && procs[t] == found.value
                && found.value in reusable && found.value in unreaped
      ensures forall p | p in old(reusable) && p !in reusable :: p in idle
      ensures forall p | p in reusable && p in old(spawned) :: p in old(reusable)
      ensures unreaped - old(unreaped) <= (if found.Some? then {found.value} else {})
      ensures forall u | u in procs && u != t :: u in old(procs) && procs[u] == old(procs)[u]
      ensures forall p | p in old(spawned) :: p in spawned && spawned[p] == old(spawned)[p]
      ensures found.Some? ==> lastUsed == old(lastUsed)[found.value := now]
      ensures |old(procs)| < POOL_CAP ==> procs - {t} == old(procs) && old(reusable) <= reusable
      ensures found.Some? && |procs| > POOL_CAP && mishaps == old(mishaps) ==> !Crowded(t, idle)
    {
      hide Valid;
      var failed := EnforceCap(idle);
      Known();
      label A: found := Spawn(t, now);
      if found.Some? {
        assert procs == old@A(procs)[t := found.value] && |procs| == |old@A(procs)| + 1;
        assert forall u | u != t :: Evictable(u, idle) <==> old@A(Evictable(u, idle));
      }
    }

    /** End the process of the thread that cannot be reused; the turn may be cancelled meanwhile. */
    method FreeKey(t: Thread) returns (ok: bool)
      requires Valid() && t in procs
      modifies this`procs, this`reusable, this`unreaped, this`mishaps
      ensures Valid() && reusable == old(reusable) - {old(procs)[t]} && unreaped <= old(unreaped)
      ensures procs == old(procs) - {t} || (procs == old(procs) && !ok)
      ensures old(mishaps) <= mishaps && (ok <==> mishaps == old(mishaps))
    {
      hide Valid;
      ok := TerminateAndRemove(t, procs[t]);
      if ok { ok := Try(); }
    }

    /** The process that serves the thread's next turn: the pooled one if it can be reused, else a new one,
        but never before the old tree is known to have exited. */
    method ProcFor(t: Thread, cancelled: bool, alive: bool, matches: bool, idle: set<Proc>, now: nat)
      returns (found: Option<Proc>)
      requires Valid()
      modifies this
      ensures Valid()
      ensures found.Some? ==>
                t in procs && procs[t] == found.value && found.value in reusable && found.value in unreaped
      ensures old(mishaps) <= mishaps && (found.None? ==> cancelled || mishaps > old(mishaps))
      ensures !cancelled && t in old(procs) && old(procs)[t] in old(reusable) && alive && matches ==>
                && found == Some(old(procs)[t]) && procs == old(procs) && reusable == old(reusable)
                && unreaped == old(unreaped) && spawned == old(spawned)
      ensures cancelled ==> procs == old(procs) && reusable == old(reusable) && unreaped == old(unreaped)
      ensures t in old(procs) && old(procs)[t] in old(reusable) && old(procs)[t] !in reusable ==> !alive || !matches
      ensures forall u | u in old(procs) && u != t && old(procs)[u] in old(reusable) && old(procs)[u] !in reusable ::
                old(procs)[u] in idle
      ensures found.Some? && found.value in old(spawned) ==>
                found.value in old(reusable) && alive && matches && t in old(procs) && old(procs)[t] == found.value
      ensures unreaped - old(unreaped) <= (if found.Some? then {found.value} else {})
      ensures forall u | u in procs && u != t :: u in old(procs) && procs[u] == old(procs)[u]
      ensures forall p | p in old(spawned) && p !in old(reusable) :: p !in reusable
      ensures forall p | p in old(spawned) :: p in spawned && spawned[p] == old(spawned)[p]
      ensures |old(procs) - {t}| < POOL_CAP && (found.Some? || t !in old(procs)) ==>
                && procs - {t} == old(procs) - {t}
                && forall p | p in old(reusable) && p !in reusable :: t in old(procs) && p == old(procs)[t]
      ensures found.Some? && found.value !in old(spawned) ==> lastUsed == old(lastUsed)[found.value := now]
      ensures found.Some? && found.value !in old(spawned) && |procs| > POOL_CAP && mishaps == old(mishaps) ==>
                !Crowded(t, idle)
    {
      hide Valid;
      Known();
      if cancelled { return None; }
      if t in procs {
        var p := procs[t];
        if p in reusable && alive && matches { return Some(p); }
        var freed := FreeKey(t);
        if !freed { return None; }
      }
      found := Replace(t, idle, now);
    }

    /** One request: a turn gets its process unless something failed, a dropped process is quarantined and its key
        freed, every idle expired process is quarantined, and a use is remembered. */
    method Handle(request: Request)
      requires Valid()
      modifies this
      ensures Valid() && old(mishaps) <= mishaps
      ensures forall p | p in old(spawned) :: p in spawned
      ensures forall p | p in old(spawned) && p !in old(reusable) :: p !in reusable
      ensures request.Use? && !request.cancelled && mishaps == old(mishaps) ==>
                request.thread in procs && procs[request.thread] in reusable
      ensures request.Drop? ==>
                && request.proc !in reusable
                && (mishaps == old(mishaps) ==> request.thread !in procs || procs[request.thread] != request.proc)
      ensures request.Reap? ==>
                forall t | t in old(procs) && old(procs)[t] in request.idle && old(procs)[t] in request.expired ::
                  old(procs)[t] !in reusable && (mishaps == old(mishaps) ==> t !in procs)
      ensures request.Touch? ==>
                && procs == old(procs) && reusable == old(reusable) && unreaped == old(unreaped)
                && lastUsed == if request.proc in old(lastUsed) then old(lastUsed)[request.proc := request.time]
                               else old(lastUsed)
    {
      match request
      case Use(t, cancelled, alive, matches, idle, now) =>
        var _ := ProcFor(t, cancelled, alive, matches, idle, now);
      case Drop(t, p) => var _ := TerminateAndRemove(t, p);
      case Reap(idle, expired) => ReapIdle(idle, expired);
      case Touch(p, time) => if p in lastUsed { lastUsed := lastUsed[p := time]; }
    }

    /** Any number of turns, cancellations, reaps and evictions, with cleanups that fail: quarantine is for ever. */
    method Serve(requests: seq<Request>)
      requires Valid()
      modifies this
      ensures Valid()
      ensures forall p | p in old(spawned) && p !in old(reusable) :: p !in reusable
    {
      for i := 0 to |requests|
        invariant Valid()
        invariant forall p | p in old(spawned) :: p in spawned
        invariant forall p | p in old(spawned) && p !in old(reusable) :: p !in reusable
      {
        Handle(requests[i]);
      }
    }
  }
}
