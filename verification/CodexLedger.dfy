/**
 Which vendor turn is active on each Codex thread, and which recent turns are
 known to have completed. A late `turn/start` response must not bring a
 completed turn back, and a stale completion must not clear a replacement.
 */
module CodexLedger {
  import opened CodexIds
  import opened Tombstones

  datatype TurnKey = TurnKey(thread: Id, turn: Id)

  /** The bounded first-in-first-out set of completed turns, and the active markers. */
  datatype Ledger = Ledger(completed: Tombstones<TurnKey>, active: map<Id, Id>)

  datatype Registration = Registered | Completed | OwnedByReplacement

  function EmptyLedger(): Ledger {
    Ledger(Empty(), map[])
  }

  function Remember(t: Tombstones<TurnKey>, k: TurnKey): Tombstones<TurnKey> {
    if k in t.live then Trim(t) else Trim(Tombstones(t.live + {k}, t.order + [k]))
  }

  /** Clear the marker of exactly this turn. */
  function Clear(l: Ledger, thread: Id, turn: Id): Ledger {
    if thread in l.active && l.active[thread] == turn then l.(active := l.active - {thread}) else l
  }

  function RecordCompleted(l: Ledger, thread: Id, turn: Id): Ledger {
    Clear(l.(completed := Remember(l.completed, TurnKey(thread, turn))), thread, turn)
  }

  function Outcome(l: Ledger, thread: Id, turn: Id, onlyIfVacant: bool): Registration {
    if TurnKey(thread, turn) in l.completed.live then Completed
    else if onlyIfVacant && thread in l.active && l.active[thread] != turn then OwnedByReplacement
    else Registered
  }

  function Register(l: Ledger, thread: Id, turn: Id, onlyIfVacant: bool): Ledger {
    if Outcome(l, thread, turn, onlyIfVacant) == Registered
    then l.(active := l.active[thread := turn]) else l
  }

  /** No marker names a turn known to have completed, and the completed set is bounded. */
  ghost predicate LedgerInv(l: Ledger) {
    && WellFormed(l.completed)
    && (forall k | k in l.completed.order :: k in l.completed.live)
    && (forall t | t in l.active :: TurnKey(t, l.active[t]) !in l.completed.live)
  }

  lemma {:induction false} TrimKeepsQueueLive(t: Tombstones<TurnKey>)
    requires Distinct(t.order) && (forall k :: k in t.live <==> k in t.order)
    ensures forall k :: k in Trim(t).live <==> k in Trim(t).order
    decreases |t.order|
  {
    if |t.order| > ROUTE_TOMBSTONE_BUDGET {
      var u := Tombstones(t.live - {t.order[0]}, t.order[1..]);
      assert t.order == [t.order[0]] + u.order;
      TrimKeepsQueueLive(u);
    }
  }

  lemma RememberKeeps(t: Tombstones<TurnKey>, k: TurnKey)
    requires WellFormed(t) && forall x | x in t.order :: x in t.live
    ensures WellFormed(Remember(t, k)) && forall x | x in Remember(t, k).order :: x in Remember(t, k).live
    ensures k in Remember(t, k).live && Remember(t, k).live <= t.live + {k}
  {
    if k !in t.live {
      var u := Tombstones(t.live + {k}, t.order + [k]);
      TrimKeepsBounds(u);
      TrimKeepsQueueLive(u);
    }
  }

  /** Everything that is done to the ledger. */
  datatype LedgerOp =
    | Recording(thread: Id, turn: Id)
    | Registering(thread: Id, turn: Id, onlyIfVacant: bool)
    | Clearing(thread: Id, turn: Id)

  function ApplyOp(l: Ledger, op: LedgerOp): Ledger {
    match op
    case Recording(thread, turn) => RecordCompleted(l, thread, turn)
    case Registering(thread, turn, onlyIfVacant) => Register(l, thread, turn, onlyIfVacant)
    case Clearing(thread, turn) => Clear(l, thread, turn)
  }

  function RunLedger(ops: seq<LedgerOp>): Ledger {
    if ops == [] then EmptyLedger() else ApplyOp(RunLedger(ops[..|ops| - 1]), ops[|ops| - 1])
  }

  /** One operation touches only its own thread's marker, and removes or replaces only what it names. */
  lemma OpKeeps(l: Ledger, op: LedgerOp)
    requires LedgerInv(l)
    ensures LedgerInv(ApplyOp(l, op))
    ensures forall t | t != op.thread :: t in ApplyOp(l, op).active <==> t in l.active
    ensures forall t | t in l.active && t != op.thread :: ApplyOp(l, op).active[t] == l.active[t]
    ensures !op.Registering? && op.thread in l.active && l.active[op.thread] != op.turn ==>
              op.thread in ApplyOp(l, op).active && ApplyOp(l, op).active[op.thread] == l.active[op.thread]
    ensures op.Registering? && op.onlyIfVacant && op.thread in l.active ==>
              op.thread in ApplyOp(l, op).active && ApplyOp(l, op).active[op.thread] == l.active[op.thread]
    ensures !op.Registering? ==> op.thread !in ApplyOp(l, op).active || ApplyOp(l, op).active[op.thread] != op.turn
    ensures op.Registering? ==>
              (op.thread in ApplyOp(l, op).active && ApplyOp(l, op).active[op.thread] == op.turn <==>
                 && TurnKey(op.thread, op.turn) !in l.completed.live
                 && (!op.onlyIfVacant || op.thread !in l.active || l.active[op.thread] == op.turn))
    ensures op.Recording? ==> TurnKey(op.thread, op.turn) in ApplyOp(l, op).completed.live
    ensures !op.Recording? ==> ApplyOp(l, op).completed == l.completed
  {
    hide Remember, WellFormed;
    RememberKeeps(l.completed, TurnKey(op.thread, op.turn));
  }

  /** No resurrection: however completions, registrations, clears and expiry interleave. */
  lemma {:induction false} NoResurrection(ops: seq<LedgerOp>)
    ensures LedgerInv(RunLedger(ops))
    decreases |ops|
  {
    hide ApplyOp;
    if ops != [] {
      NoResurrection(ops[..|ops| - 1]);
      OpKeeps(RunLedger(ops[..|ops| - 1]), ops[|ops| - 1]);
    }
  }

  // ---- How long a completion is remembered ----------------------------------

  /** The key is among the last `d` that were recorded. */
  ghost predicate Recent(t: Tombstones<TurnKey>, k: TurnKey, d: nat) {
    exists p :: 0 <= p < |t.order| && t.order[p] == k && |t.order| - p <= d
  }

  lemma RememberAges(t: Tombstones<TurnKey>, k: TurnKey, x: TurnKey, d: nat)
    requires WellFormed(t) && Recent(t, k, d) && d < ROUTE_TOMBSTONE_BUDGET
    ensures Recent(Remember(t, x), k, d + 1)
  {
    hide Trim;
    TrimExpiresTheOldest(t);
    if x !in t.live {
      var u := Tombstones(t.live + {x}, t.order + [x]);
      TrimExpiresTheOldest(u);
      var p :| 0 <= p < |t.order| && t.order[p] == k && |t.order| - p <= d;
      assert u.order[Excess(u)..][p - Excess(u)] == k;
    }
  }

  lemma NewIsRecent(t: Tombstones<TurnKey>, k: TurnKey)
    requires WellFormed(t) && k !in t.live
    ensures Recent(Remember(t, k), k, 1)
  {
    hide Trim;
    var u := Tombstones(t.live + {k}, t.order + [k]);
    TrimExpiresTheOldest(u);
    assert u.order[Excess(u)..][|t.order| - Excess(u)] == k;
  }

  function Recordings(ops: seq<LedgerOp>): nat {
    if ops == [] then 0 else Recordings(ops[..|ops| - 1]) + if ops[|ops| - 1].Recording? then 1 else 0
  }

  /** After the first record of a completion, as long as fewer than 4096 others follow, the turn is known to have
      completed, and no registration makes it active. */
  lemma {:induction false} CompletedStaysOut(ops: seq<LedgerOp>, thread: Id, turn: Id, more: seq<LedgerOp>)
    requires TurnKey(thread, turn) !in RunLedger(ops).completed.live && Recordings(more) < ROUTE_TOMBSTONE_BUDGET
    ensures
      var l := RunLedger(ops + [Recording(thread, turn)] + more);
      && Recent(l.completed, TurnKey(thread, turn), 1 + Recordings(more))
      && TurnKey(thread, turn) in l.completed.live
      && (thread in l.active ==> l.active[thread] != turn)
    decreases |more|
  {
    hide ApplyOp, Remember, Recent;
    var key, all := TurnKey(thread, turn), ops + [Recording(thread, turn)] + more;
    NoResurrection(all);
    var before, last := all[..|all| - 1], all[|all| - 1];
    NoResurrection(before);
    if more == [] {
      assert before == ops;
      RecordingRemembers(RunLedger(ops), last);
      NewIsRecent(RunLedger(ops).completed, key);
    } else {
      assert before == ops + [Recording(thread, turn)] + more[..|more| - 1];
      CompletedStaysOut(ops, thread, turn, more[..|more| - 1]);
      RecordingRemembers(RunLedger(before), last);
      if last.Recording? {
        RememberAges(RunLedger(before).completed, key, TurnKey(last.thread, last.turn), Recordings(more));
      }
    }
    RecentIsLive(RunLedger(all), key, 1 + Recordings(more));
  }

  lemma RecordingRemembers(l: Ledger, op: LedgerOp)
    ensures ApplyOp(l, op).completed ==
            if op.Recording? then Remember(l.completed, TurnKey(op.thread, op.turn)) else l.completed
  {
  }

  lemma RecentIsLive(l: Ledger, k: TurnKey, d: nat)
    requires LedgerInv(l) && Recent(l.completed, k, d)
    ensures k in l.completed.live
  {
  }

  /** The two lock-protected tables as the program updates them. */
  class TurnLedger {
    var completed: Tombstones<TurnKey>
    var active: map<Id, Id>

    ghost function State(): Ledger
      reads this
    {
      Ledger(completed, active)
    }

    constructor ()
      ensures State() == EmptyLedger() && LedgerInv(State())
    {
      completed, active := Empty(), map[];
    }

    method Record(thread: Id, turn: Id)
      modifies this`completed
      ensures State() == old(State()).(completed := Remember(old(completed), TurnKey(thread, turn)))
    {
      var key := TurnKey(thread, turn);
      if key !in completed.live {
        completed := Tombstones(completed.live + {key}, completed.order + [key]);
      }
      while |completed.order| > ROUTE_TOMBSTONE_BUDGET
        invariant Trim(completed) == Remember(old(completed), key)
        decreases |completed.order|
      {
        completed := Tombstones(completed.live - {completed.order[0]}, completed.order[1..]);
      }
    }

    method ClearActiveTurn(thread: Id, expected: Id)
      modifies this`active
      ensures State() == Clear(old(State()), thread, expected)
    {
      if thread in active && active[thread] == expected {
        active := active - {thread};
      }
    }

    method RecordCompletedTurn(thread: Id, turn: Id)
      requires LedgerInv(State())
      modifies this
      ensures State() == RecordCompleted(old(State()), thread, turn)
      ensures LedgerInv(State())
    {
      OpKeeps(State(), Recording(thread, turn));
      Record(thread, turn);
      ClearActiveTurn(thread, turn);
    }

    method RegisterActiveTurn(thread: Id, turn: Id, onlyIfVacant: bool) returns (registration: Registration)
      requires LedgerInv(State())
      modifies this`active
      ensures State() == Register(old(State()), thread, turn, onlyIfVacant)
      ensures registration == Outcome(old(State()), thread, turn, onlyIfVacant)
      ensures LedgerInv(State())
    {
      OpKeeps(State(), Registering(thread, turn, onlyIfVacant));
      if TurnKey(thread, turn) in completed.live {
        return Completed;
      }
      if onlyIfVacant && thread in active && active[thread] != turn {
        return OwnedByReplacement;
      }
      active := active[thread := turn];
      registration := Registered;
    }
  }
}
