/**
 What becomes of the turns that attempts start. A turn that still runs at the
 vendor has an attempt that is due to stop it, unless that attempt gave up
 while it was interrupting; a cancelled attempt never streams; and nobody keeps
 a lifecycle that no longer needs it.
 */
module CodexTurnOutcomes {
  import opened CodexIds
  import opened CodexLedger
  import opened CodexTurnProtocol

  // ---- Invariants -----------------------------------------------------------

  /** The turn that an attempt is with, once it has one of its own. */
  predicate HasTurn(p: Attempt) {
    p.Answered? || p.Bound? || p.Streaming? || p.Ending? || (p.Interrupting? && !p.replacing)
  }

  /** An attempt is with the turn that the vendor started for it. */
  ghost predicate Own(s: Server) {
    forall k | k in s.attempts && HasTurn(s.attempts[k]) ::
      k in s.replies && s.replies[k] == Started(s.attempts[k].turn)
  }

  /** Only an attempt at a stage that needs the lifecycle has it. */
  ghost predicate Released(s: Server) {
    forall t | t in s.lifecycle ::
      var k := s.lifecycle[t];
      k in s.attempts && s.attempts[k].thread == t && HoldsLifecycle(s.attempts[k])
  }

  /** The vendor started every turn once, and it runs or is over. */
  ghost predicate Unique(s: Server) {
    && (forall k | k in s.replies && s.replies[k].Started? ::
          k in s.attempts && TurnKey(s.attempts[k].thread, s.replies[k].turn) in s.live + s.over)
    && (forall j, k | j in s.replies && k in s.replies && s.replies[j].Started? && s.replies[j] == s.replies[k]
                      && j in s.attempts && k in s.attempts && s.attempts[j].thread == s.attempts[k].thread :: j == k)
  }

  ghost predicate Tidy(s: Server) {
    Own(s) && Released(s) && Unique(s) && LedgerInv(s.ledger)
  }

  lemma LocalKeepsOwn(s: Server, a: Action)
    requires Own(s) && Local(a) && Enabled(s, a)
    ensures Own(Apply(s, a))
  {
    hide Apply, AttemptMay;
    LocalFrame(s, a);
    if Early(s.attempts[a.attempt]) { EarlyHasNoTurn(s, a); } else { LateKeepsItsTurn(s, a); }
    var r := Apply(s, a);
    forall k | k in r.attempts && HasTurn(r.attempts[k])
      ensures k in r.replies && r.replies[k] == Started(r.attempts[k].turn)
    {
      if k != a.attempt { OthersStay(s, a, k); }
    }
  }

  lemma EarlyHasNoTurn(s: Server, a: Action)
    requires Local(a) && Enabled(s, a) && Early(s.attempts[a.attempt])
    ensures a.attempt in Apply(s, a).attempts && !HasTurn(Apply(s, a).attempts[a.attempt])
  {
    hide Register, Clear, Outcome;
  }

  /** An attempt keeps the turn it has, and gets the one that it is told of. */
  lemma LateKeepsItsTurn(s: Server, a: Action)
    requires Local(a) && Enabled(s, a) && !Early(s.attempts[a.attempt])
    ensures
      var r, k := Apply(s, a), a.attempt;
      && k in r.attempts
      && (HasTurn(r.attempts[k]) ==>
            || (HasTurn(s.attempts[k]) && r.attempts[k].turn == s.attempts[k].turn)
            || (k in s.replies && s.replies[k] == Started(r.attempts[k].turn)))
  {
    hide Register, Clear, Outcome;
  }

  lemma LocalKeepsReleased(s: Server, a: Action)
    requires Released(s) && Locked(s) && Local(a) && Enabled(s, a)
    ensures Released(Apply(s, a))
  {
    hide Apply, AttemptMay, Locked, SameAt;
    var r, k, t := Apply(s, a), a.attempt, s.attempts[a.attempt].thread;
    LocalKeepsThread(s, a);
    if Early(s.attempts[k]) { EarlyLifecycle(s, a); } else { LateLifecycle(s, a); }
    forall u | u in r.lifecycle
      ensures r.lifecycle[u] in r.attempts && r.attempts[r.lifecycle[u]].thread == u
      ensures HoldsLifecycle(r.attempts[r.lifecycle[u]])
    {
      if u != t { OtherLifecyclesStay(s, a, u); SameMeans(r.lifecycle, s.lifecycle, u); }
      if r.lifecycle[u] != k {
        OthersStay(s, a, r.lifecycle[u]);
        SameMeans(r.attempts, s.attempts, r.lifecycle[u]);
      }
    }
  }

  lemma SameMeans<T>(m: map<Id, T>, n: map<Id, T>, k: Id)
    requires SameAt(m, n, k)
    ensures (k in m <==> k in n) && (k in m ==> m[k] == n[k])
  {
  }

  /** On its own thread, an attempt has the lifecycle after its step only at a stage that needs it. */
  lemma EarlyLifecycle(s: Server, a: Action)
    requires Locked(s) && Local(a) && Enabled(s, a) && Early(s.attempts[a.attempt])
    ensures
      var r, k, t := Apply(s, a), a.attempt, s.attempts[a.attempt].thread;
      t in r.lifecycle ==>
        if r.lifecycle[t] == k then k in r.attempts && HoldsLifecycle(r.attempts[k])
        else t in s.lifecycle && r.lifecycle[t] == s.lifecycle[t]
  {
    hide Register, Clear, Outcome;
  }

  lemma LateLifecycle(s: Server, a: Action)
    requires Locked(s) && Local(a) && Enabled(s, a) && !Early(s.attempts[a.attempt])
    ensures
      var r, k, t := Apply(s, a), a.attempt, s.attempts[a.attempt].thread;
      t in r.lifecycle ==>
        if r.lifecycle[t] == k then k in r.attempts && HoldsLifecycle(r.attempts[k])
        else t in s.lifecycle && r.lifecycle[t] == s.lifecycle[t]
  {
    hide Register, Clear, Outcome;
  }

  lemma LocalKeepsThread(s: Server, a: Action)
    requires Local(a) && Enabled(s, a)
    ensures a.attempt in Apply(s, a).attempts && Apply(s, a).attempts[a.attempt].thread == s.attempts[a.attempt].thread
  {
    hide Register, Clear, Outcome;
  }

  lemma LocalKeepsTurns(s: Server, a: Action)
    requires Local(a) && Enabled(s, a)
    ensures Apply(s, a).live <= s.live && s.live + s.over <= Apply(s, a).live + Apply(s, a).over
  {
    hide Register, Clear, Outcome;
  }

  lemma LocalKeepsUnique(s: Server, a: Action)
    requires Unique(s) && Local(a) && Enabled(s, a)
    ensures Unique(Apply(s, a))
  {
    hide Apply, AttemptMay;
    LocalFrame(s, a);
    LocalKeepsThread(s, a);
    LocalKeepsTurns(s, a);
    var r := Apply(s, a);
    forall j | j in s.attempts
      ensures j in r.attempts && r.attempts[j].thread == s.attempts[j].thread
    {
      if j != a.attempt { OthersStay(s, a, j); }
    }
  }

  lemma EnvironmentKeepsOwn(s: Server, a: Action)
    requires Own(s) && Released(s) && Asked(s) && Enabled(s, a) && !Local(a)
    ensures Own(Apply(s, a)) && Released(Apply(s, a))
  {
    hide RecordCompleted;
  }

  lemma VendorStartKeepsUnique(s: Server, a: Action)
    requires Unique(s) && Asked(s) && Enabled(s, a) && a.VendorStarts?
    ensures Unique(Apply(s, a))
  {
  }

  lemma EnvironmentKeepsUnique(s: Server, a: Action)
    requires Unique(s) && Asked(s) && Enabled(s, a) && !Local(a) && !a.VendorStarts?
    ensures Unique(Apply(s, a))
  {
    hide RecordCompleted;
  }

  /** The ledger of every step is one of the ledger's own operations, none, or without markers. */
  lemma EnvironmentLedger(s: Server, a: Action)
    requires Enabled(s, a) && !Local(a)
    ensures Apply(s, a).ledger in {s.ledger, s.ledger.(active := map[])}
            || (a.ReadCompletion? && Apply(s, a).ledger == RecordCompleted(s.ledger, a.thread, a.turn))
  {
    hide RecordCompleted;
  }

  lemma EarlyLedger(s: Server, a: Action)
    requires Enabled(s, a) && Local(a) && Early(s.attempts[a.attempt])
    ensures
      var p := s.attempts[a.attempt];
      || Apply(s, a).ledger in {s.ledger, s.ledger.(active := map[])}
      || (p.Interrupting? && Apply(s, a).ledger == Clear(s.ledger, p.thread, p.turn))
  {
    hide Clear, Register, Outcome;
  }

  lemma LateLedger(s: Server, a: Action)
    requires Enabled(s, a) && Local(a) && !Early(s.attempts[a.attempt])
    ensures
      var p := s.attempts[a.attempt];
      || Apply(s, a).ledger in {s.ledger, s.ledger.(active := map[])}
      || (HasTurn(p) && Apply(s, a).ledger in {Clear(s.ledger, p.thread, p.turn),
                                               Register(s.ledger, p.thread, p.turn, false),
                                               Register(s.ledger, p.thread, p.turn, true)})
  {
    hide Clear, Register, Outcome;
  }

  lemma StepKeepsLedger(s: Server, a: Action)
    requires LedgerInv(s.ledger) && Enabled(s, a)
    ensures LedgerInv(Apply(s, a).ledger)
  {
    hide LedgerInv, Apply, AttemptMay, Clear, Register, RecordCompleted;
    EmptyMarkers(s.ledger);
    if !Local(a) {
      EnvironmentLedger(s, a);
      if a.ReadCompletion? { OpKeeps(s.ledger, Recording(a.thread, a.turn)); }
    } else {
      var p := s.attempts[a.attempt];
      if Early(p) { EarlyLedger(s, a); } else { LateLedger(s, a); }
      if HasTurn(p) || p.Interrupting? {
        OpKeeps(s.ledger, Clearing(p.thread, p.turn));
        OpKeeps(s.ledger, Registering(p.thread, p.turn, false));
        OpKeeps(s.ledger, Registering(p.thread, p.turn, true));
      }
    }
  }

  lemma EmptyMarkers(l: Ledger)
    requires LedgerInv(l)
    ensures LedgerInv(l.(active := map[]))
  {
  }

  lemma StepKeepsTidy(s: Server, a: Action)
    requires Inv(s) && Tidy(s) && Enabled(s, a)
    ensures Tidy(Apply(s, a))
  {
    hide Apply, Enabled, Own, Released, Unique, Locked, Asked, Markers, Honest, AllAccounted, LedgerInv;
    StepKeepsLedger(s, a);
    if Local(a) {
      LocalKeepsOwn(s, a);
      LocalKeepsReleased(s, a);
      LocalKeepsUnique(s, a);
    } else {
      EnvironmentKeepsOwn(s, a);
      if a.VendorStarts? { VendorStartKeepsUnique(s, a); } else { EnvironmentKeepsUnique(s, a); }
    }
  }

  lemma {:induction false} ReachableTidy(steps: seq<Action>, s: Server)
    requires Reaches(steps, s)
    ensures Tidy(s)
    decreases |steps|
  {
    if steps != [] {
      var n := |steps| - 1;
      var before :| Reaches(steps[..n], before) && Enabled(before, steps[n]) && s == Apply(before, steps[n]);
      hide Apply, Enabled, Tidy, Inv;
      ReachableTidy(steps[..n], before);
      ReachableInv(steps[..n], before);
      StepKeepsTidy(before, steps[n]);
    }
  }

  // ---- Laws over runs -------------------------------------------------------

  /** A lifecycle is held exactly by the attempt of its thread that is at a stage that needs it. */
  lemma LifecycleExactly(steps: seq<Action>, s: Server, t: Id, k: Id)
    requires Reaches(steps, s)
    ensures t in s.lifecycle && s.lifecycle[t] == k <==>
            k in s.attempts && s.attempts[k].thread == t && HoldsLifecycle(s.attempts[k])
  {
    hide Reaches;
    ReachableInv(steps, s);
    ReachableTidy(steps, s);
  }

  /** Recovering a cancelled start whose turn still runs goes on to interrupt that turn, with the lifecycle held. */
  lemma RecoveryInterrupts(steps: seq<Action>, s: Server, k: Id)
    requires Reaches(steps, s) && !s.closed && Enabled(s, Recover(k))
    requires TurnKey(s.attempts[k].thread, s.attempts[k].turn) in s.live
    ensures
      var r, t := Apply(s, Recover(k)), s.attempts[k].thread;
      && r.attempts[k] == Interrupting(t, s.attempts[k].turn, false)
      && t in r.lifecycle && r.lifecycle[t] == k
  {
    hide Reaches;
    ReachableInv(steps, s);
    ReplacementUnreachable(steps, s, k);
  }

  /** A stream that ends while its turn still runs goes on to interrupt that turn, with the lifecycle held. */
  lemma CleanupInterrupts(steps: seq<Action>, s: Server, k: Id)
    requires Reaches(steps, s) && !s.closed && Enabled(s, EndCleanup(k))
    requires TurnKey(s.attempts[k].thread, s.attempts[k].turn) in s.live
    ensures
      var r, t := Apply(s, EndCleanup(k)), s.attempts[k].thread;
      && r.attempts[k] == Interrupting(t, s.attempts[k].turn, false)
      && t in r.lifecycle && r.lifecycle[t] == k
  {
    hide Reaches;
    ReachableInv(steps, s);
    assert Accounted(s, TurnKey(s.attempts[k].thread, s.attempts[k].turn));
  }

  /** The turn of the attempt runs at the vendor, or is still marked active. */
  ghost predicate Lingers(s: Server, k: Id, u: Id) {
    && k in s.attempts && k in s.replies && s.replies[k] == Started(u)
    && var t := s.attempts[k].thread;
       TurnKey(t, u) in s.live || (t in s.ledger.active && s.ledger.active[t] == u)
  }

  /** Among the steps is one in which the attempt gave up while it was interrupting its own turn. */
  ghost predicate GaveUp(steps: seq<Action>, k: Id, u: Id) {
    exists n: nat, q: Server ::
      && n < |steps| && steps[n] == GiveUp(k) && Reaches(steps[..n], q)
      && k in q.attempts && q.attempts[k].Interrupting? && !q.attempts[k].replacing && q.attempts[k].turn == u
  }

  lemma GaveUpStays(steps: seq<Action>, n: nat, k: Id, u: Id)
    requires n <= |steps| && GaveUp(steps[..n], k, u)
    ensures GaveUp(steps, k, u)
  {
    hide Reaches;
    var m: nat, q: Server :|
      && m < n && steps[..n][m] == GiveUp(k) && Reaches(steps[..n][..m], q)
      && k in q.attempts && q.attempts[k].Interrupting? && !q.attempts[k].replacing && q.attempts[k].turn == u;
    assert steps[..n][..m] == steps[..m];
  }

  /** A finished attempt stays finished, and nothing brings its turn back. */
  lemma FinishedStays(s: Server, a: Action, k: Id, u: Id)
    requires Inv(s) && Tidy(s) && Enabled(s, a) && k in s.attempts && s.attempts[k].Finished?
    requires !Apply(s, a).closed && Lingers(Apply(s, a), k, u)
    ensures Lingers(s, k, u)
  {
    hide Apply, AttemptMay, Inv, Lingers, Own, Released, Unique, LedgerInv;
    if !Local(a) {
      FinishedStaysAside(s, a, k, u);
    } else {
      FinishedStaysBehind(s, a, k, u);
    }
  }

  lemma FinishedStaysAside(s: Server, a: Action, k: Id, u: Id)
    requires Inv(s) && Unique(s) && Enabled(s, a) && k in s.attempts && s.attempts[k].Finished? && !Local(a)
    requires !Apply(s, a).closed && Lingers(Apply(s, a), k, u)
    ensures Lingers(s, k, u)
  {
    hide Locked, Markers, AllAccounted, Honest, Remember;
  }

  /** The attempt that takes the step is another one, and a marker that it leaves was there, or is of its own turn. */
  lemma MarkerOrigin(s: Server, a: Action, t: Id)
    requires Enabled(s, a) && Local(a) && t in Apply(s, a).ledger.active
    ensures
      var p := s.attempts[a.attempt];
      || (t in s.ledger.active && s.ledger.active[t] == Apply(s, a).ledger.active[t])
      || (HasTurn(p) && t == p.thread && Apply(s, a).ledger.active[t] == p.turn)
  {
    hide Apply, AttemptMay;
    if Early(s.attempts[a.attempt]) { EarlyLedger(s, a); } else { LateLedger(s, a); }
  }

  lemma FinishedActsNoMore(s: Server, a: Action, k: Id)
    requires Enabled(s, a) && Local(a) && k in s.attempts && s.attempts[k].Finished?
    ensures a.attempt != k
  {
  }

  lemma FinishedStaysBehind(s: Server, a: Action, k: Id, u: Id)
    requires Inv(s) && Tidy(s) && Enabled(s, a) && k in s.attempts && s.attempts[k].Finished? && Local(a)
    requires !Apply(s, a).closed && Lingers(Apply(s, a), k, u)
    ensures Lingers(s, k, u)
  {
    hide Apply, AttemptMay, Inv, Released, LedgerInv;
    FinishedActsNoMore(s, a, k);
    OthersStay(s, a, k);
    LocalFrame(s, a);
    LocalKeepsTurns(s, a);
    var t := s.attempts[k].thread;
    if t in Apply(s, a).ledger.active { MarkerOrigin(s, a, t); }
  }

  /** Only its own step ends an attempt. */
  lemma OwnStepFinishes(s: Server, a: Action, k: Id)
    requires Enabled(s, a) && k in s.attempts && !s.attempts[k].Finished?
    requires k in Apply(s, a).attempts && Apply(s, a).attempts[k].Finished?
    ensures Local(a) && a.attempt == k
  {
    hide Apply, AttemptMay;
    if Local(a) {
      if a.attempt != k { OthersStay(s, a, k); }
    } else {
      EnvironmentSparesAttempts(s, a, k);
    }
  }

  lemma EnvironmentSparesAttempts(s: Server, a: Action, k: Id)
    requires Enabled(s, a) && !Local(a)
    ensures k in s.attempts ==> k in Apply(s, a).attempts && Apply(s, a).attempts[k] == s.attempts[k]
    ensures k in Apply(s, a).attempts && k !in s.attempts ==> Apply(s, a).attempts[k].Queued?
  {
    hide RecordCompleted;
  }

  /** An attempt that finishes leaves nothing behind, unless it gives up while interrupting. */
  lemma FinishingSettles(s: Server, a: Action, k: Id, u: Id)
    requires Inv(s) && Tidy(s) && Enabled(s, a) && k in s.attempts && !s.attempts[k].Finished?
    requires
      var r := Apply(s, a);
      !r.closed && k in r.attempts && r.attempts[k].Finished? && Lingers(r, k, u)
    ensures a == GiveUp(k) && s.attempts[k].Interrupting? && !s.attempts[k].replacing && s.attempts[k].turn == u
  {
    hide Apply, AttemptMay, Lingers, Locked, Markers, AllAccounted, Honest, Released, Unique, LedgerInv;
    OwnStepFinishes(s, a, k);
    LocalFrame(s, a);
    assert k in s.replies && s.replies[k] == Started(u) by { StartedBefore(s, a, k, u); }
    assert !Early(s.attempts[k]);
    FinishingSettlesLate(s, a, k, u);
  }

  lemma StartedBefore(s: Server, a: Action, k: Id, u: Id)
    requires Enabled(s, a) && Local(a) && Lingers(Apply(s, a), k, u)
    ensures k in s.replies && s.replies[k] == Started(u)
  {
    hide Apply, AttemptMay;
    LocalFrame(s, a);
  }

  lemma FinishingSettlesLate(s: Server, a: Action, k: Id, u: Id)
    requires Inv(s) && Tidy(s) && Enabled(s, a) && Local(a) && a.attempt == k && !Early(s.attempts[k])
    requires k in s.replies && s.replies[k] == Started(u)
    requires
      var r := Apply(s, a);
      !r.closed && k in r.attempts && r.attempts[k].Finished? && Lingers(r, k, u)
    ensures a == GiveUp(k) && s.attempts[k].Interrupting? && !s.attempts[k].replacing && s.attempts[k].turn == u
  {
    hide Apply, AttemptMay, Lingers, Inv, Released, Unique, LedgerInv;
    LocalFrame(s, a);
    LateFinishes(s, a);
    if s.attempts[k].Interrupting? {
      AcknowledgedIsGone(s, k);
    } else if a.Recover? {
      RecoveredIsGone(s, k, u);
    } else {
      EndedIsGone(s, a, u);
    }
  }

  /** How an attempt of a started turn can end on an open transport. */
  lemma LateFinishes(s: Server, a: Action)
    requires Enabled(s, a) && Local(a) && !Early(s.attempts[a.attempt]) && !Apply(s, a).closed
    requires a.attempt in s.replies && s.replies[a.attempt].Started?
    requires a.attempt in Apply(s, a).attempts && Apply(s, a).attempts[a.attempt].Finished?
    ensures
      var p := s.attempts[a.attempt];
      || (p.Interrupting? && !p.replacing && (a.GiveUp? || a.InterruptAcknowledged?))
      || (!p.Interrupting? && (a.Recover? || a.EndCompleted? || a.EndCleanup?))
  {
    hide Register, Clear, Outcome;
  }

  lemma AcknowledgedIsGone(s: Server, k: Id)
    requires k in s.attempts && s.attempts[k].Interrupting?
    ensures Enabled(s, InterruptAcknowledged(k)) && !Lingers(Apply(s, InterruptAcknowledged(k)), k, s.attempts[k].turn)
  {
    hide Register, Outcome;
  }

  lemma RecoveredIsGone(s: Server, k: Id, u: Id)
    requires Inv(s) && Tidy(s) && Enabled(s, Recover(k)) && k in s.replies && s.replies[k] == Started(u) && !s.closed
    requires Apply(s, Recover(k)).attempts[k].Finished?
    ensures !Lingers(Apply(s, Recover(k)), k, u)
  {
    hide Released, Unique, Asked, Locked, AllAccounted;
    assert s.attempts[k].turn == u;
  }

  lemma EndedIsGone(s: Server, a: Action, u: Id)
    requires Inv(s) && Tidy(s) && Enabled(s, a) && (a.EndCompleted? || a.EndCleanup?) && !s.closed
    requires a.attempt in s.replies && s.replies[a.attempt] == Started(u)
    requires Apply(s, a).attempts[a.attempt].Finished?
    ensures !Lingers(Apply(s, a), a.attempt, u)
  {
    hide Released, Unique, Asked, Register, Outcome;
    var key := TurnKey(s.attempts[a.attempt].thread, u);
    assert key in s.live ==> Accounted(s, key);
  }

  /**
   Over every run on an open transport: an attempt that is finished while the
   turn it started still runs, or is still marked active, gave up while it was
   interrupting that turn.
   */
  lemma {:induction false} NobodyLeavesATurn(steps: seq<Action>, s: Server, k: Id, u: Id)
    requires Reaches(steps, s) && !s.closed
    requires k in s.attempts && s.attempts[k].Finished? && Lingers(s, k, u)
    ensures GaveUp(steps, k, u)
    decreases |steps|
  {
    var n := |steps| - 1;
    var before :| Reaches(steps[..n], before) && Enabled(before, steps[n]) && s == Apply(before, steps[n]);
    hide Apply, Enabled, Inv, Tidy, Lingers, Reaches;
    ReachableInv(steps[..n], before);
    ReachableTidy(steps[..n], before);
    FinishedWasThere(before, steps[n], k);
    if before.attempts[k].Finished? {
      FinishedStays(before, steps[n], k, u);
      OpenBefore(before, steps[n]);
      NobodyLeavesATurn(steps[..n], before, k, u);
      GaveUpStays(steps, n, k, u);
    } else {
      FinishingSettles(before, steps[n], k, u);
    }
  }

  lemma FinishedWasThere(s: Server, a: Action, k: Id)
    requires Enabled(s, a) && k in Apply(s, a).attempts && Apply(s, a).attempts[k].Finished?
    ensures k in s.attempts
  {
    hide Apply, AttemptMay;
    if Local(a) {
      if a.attempt != k { OthersStay(s, a, k); }
    } else {
      EnvironmentSparesAttempts(s, a, k);
    }
  }

  lemma OpenBefore(s: Server, a: Action)
    requires Enabled(s, a) && !Apply(s, a).closed
    ensures !s.closed
  {
    hide Apply, AttemptMay;
    if Local(a) { LocalFrame(s, a); } else { EnvironmentStaysClosed(s, a); }
  }

  lemma EnvironmentStaysClosed(s: Server, a: Action)
    requires Enabled(s, a) && !Local(a)
    ensures s.closed ==> Apply(s, a).closed
    ensures !s.closed && Apply(s, a).closed ==> a.TransportCloses?
  {
    hide RecordCompleted;
  }

  /** A stage that a cancelled attempt can be at. */
  predicate Doomed(p: Attempt) {
    match p
    case Written(_, cancelled) => cancelled
    case Answered(_, _, cancelled) => cancelled
    case Interrupting(_, _, replacing) => !replacing
    case Streaming(_, _) => true
    case Ending(_, _) => true
    case Finished(_) => true
    case _ => false
  }

  lemma DoomedStays(s: Server, a: Action, k: Id)
    requires Enabled(s, a) && k in s.attempts && (Doomed(s.attempts[k]) || a == Cancel(k))
    ensures k in Apply(s, a).attempts && Doomed(Apply(s, a).attempts[k])
  {
    hide Apply, AttemptMay, Doomed;
    if !Local(a) {
      EnvironmentSparesAttempts(s, a, k);
    } else if a.attempt != k {
      OthersStay(s, a, k);
    } else {
      DoomedGoesOn(s, a);
    }
  }

  lemma DoomedGoesOn(s: Server, a: Action)
    requires Enabled(s, a) && Local(a) && (Doomed(s.attempts[a.attempt]) || a.Cancel?)
    ensures a.attempt in Apply(s, a).attempts && Doomed(Apply(s, a).attempts[a.attempt])
  {
    hide Register, Clear, Outcome;
  }

  /** Over every run: a start that was cancelled never gets as far as binding its route. */
  lemma {:induction false} CancelledNeverBinds(steps: seq<Action>, s: Server, n: nat, k: Id)
    requires Reaches(steps, s) && n < |steps| && steps[n] == Cancel(k)
    ensures k in s.attempts && Doomed(s.attempts[k])
    decreases |steps|
  {
    var m := |steps| - 1;
    var before :| Reaches(steps[..m], before) && Enabled(before, steps[m]) && s == Apply(before, steps[m]);
    hide Reaches, Apply, Doomed;
    if n < m { CancelledNeverBinds(steps[..m], before, n, k); }
    DoomedStays(before, steps[m], k);
  }

  // ---- Where attempts can get to --------------------------------------------

  /** Closing the transport drops every marker. */
  lemma ClosingDropsMarkers(s: Server, a: Action)
    requires Enabled(s, a) && !s.closed && Apply(s, a).closed
    ensures Apply(s, a).ledger.active == map[]
  {
    hide Apply, AttemptMay;
    if !Local(a) {
      EnvironmentStaysClosed(s, a);
      CloseDropsMarkers(s);
    } else if Early(s.attempts[a.attempt]) {
      EarlyCloseDropsMarkers(s, a);
    } else {
      LateCloseDropsMarkers(s, a);
    }
  }

  lemma CloseDropsMarkers(s: Server)
    ensures Apply(s, TransportCloses).ledger.active == map[]
  {
  }

  lemma EarlyCloseDropsMarkers(s: Server, a: Action)
    requires Enabled(s, a) && Local(a) && Early(s.attempts[a.attempt]) && !s.closed && Apply(s, a).closed
    ensures Apply(s, a).ledger.active == map[]
  {
    hide Register, Clear, Outcome;
  }

  lemma LateCloseDropsMarkers(s: Server, a: Action)
    requires Enabled(s, a) && Local(a) && !Early(s.attempts[a.attempt]) && !s.closed && Apply(s, a).closed
    ensures Apply(s, a).ledger.active == map[]
  {
    hide Register, Clear, Outcome;
  }

  lemma Extends(steps: seq<Action>, s: Server, a: Action) returns (more: seq<Action>, r: Server)
    requires Reaches(steps, s) && Enabled(s, a)
    ensures Reaches(more, r) && more == steps + [a] && r == Apply(s, a)
  {
    more, r := steps + [a], Apply(s, a);
    assert more[..|steps|] == steps;
  }

  lemma Acquires(s: Server, k: Id, t: Id)
    requires k !in s.attempts && t !in s.lifecycle
    ensures Enabled(s, Begin(k, t)) && Enabled(Apply(s, Begin(k, t)), AcquireStart(k))
    ensures Apply(Apply(s, Begin(k, t)), AcquireStart(k))
            == s.(attempts := s.attempts[k := Replacing(t)], lifecycle := s.lifecycle[t := k])
  {
    assert s.attempts[k := Queued(t)][k := Replacing(t)] == s.attempts[k := Replacing(t)];
  }

  /** The attempt finds out whether there is a predecessor, and stops it. */
  lemma Replaces(s: Server, k: Id, t: Id)
    requires k in s.attempts && s.attempts[k] == Replacing(t)
    ensures Enabled(s, ReadMarker(k))
    ensures
      var r := Apply(s, ReadMarker(k));
      if t !in s.ledger.active then r == Move(s, k, Ready(t))
      else
        && Enabled(r, InterruptAcknowledged(k))
        && Apply(r, InterruptAcknowledged(k))
           == Stopped(Move(s, k, Ready(t)), t, s.ledger.active[t]).(
                ledger := s.ledger.(active := s.ledger.active - {t}))
  {
    hide Register, Outcome, RecordCompleted;
    if t in s.ledger.active {
      assert s.attempts[k := Interrupting(t, s.ledger.active[t], true)][k := Ready(t)] == s.attempts[k := Ready(t)];
    }
  }

  lemma Starts(s: Server, k: Id, t: Id, u: Id)
    requires k in s.attempts && s.attempts[k] == Ready(t) && !s.closed && TurnKey(t, u) !in s.live + s.over
    ensures Enabled(s, Write(k)) && Enabled(Apply(s, Write(k)), VendorStarts(k, u))
    ensures
      var r := Apply(Apply(s, Write(k)), VendorStarts(k, u));
      r == Move(s, k, Written(t, false)).(asked := r.asked, replies := s.replies[k := Started(u)],
                                          live := s.live + {TurnKey(t, u)})
  {
  }

  lemma Learns(s: Server, k: Id, t: Id, u: Id)
    requires k in s.attempts && s.attempts[k] == Written(t, false) && k in s.replies && s.replies[k] == Started(u)
    requires TurnKey(t, u) !in s.ledger.completed.live
    ensures Enabled(s, TakeReply(k)) && Enabled(Apply(s, TakeReply(k)), RegisterStarted(k))
    ensures Apply(Apply(s, TakeReply(k)), RegisterStarted(k))
            == Move(s, k, Bound(t, u)).(ledger := s.ledger.(active := s.ledger.active[t := u]))
  {
    hide Clear, RecordCompleted;
    assert s.attempts[k := Answered(t, u, false)][k := Bound(t, u)] == s.attempts[k := Bound(t, u)];
  }

  lemma Streams(s: Server, k: Id, t: Id, u: Id)
    requires k in s.attempts && s.attempts[k] == Bound(t, u) && t in s.lifecycle && s.lifecycle[t] == k
    ensures Enabled(s, StartStream(k))
    ensures Apply(s, StartStream(k)) == Move(s, k, Streaming(t, u)).(lifecycle := s.lifecycle - {t})
  {
  }

  /** A new attempt on a free thread gets as far as the write, with the turn that was marked active stopped. */
  lemma UndisturbedIsReady(steps: seq<Action>, s: Server, k: Id, t: Id) returns (more: seq<Action>, r: Server)
    requires Reaches(steps, s) && k !in s.attempts && t !in s.lifecycle
    ensures
      more == steps + [Begin(k, t)] + [AcquireStart(k)] + [ReadMarker(k)]
              + if t in s.ledger.active then [InterruptAcknowledged(k)] else []
    ensures Reaches(more, r)
    ensures
      var ready := s.(attempts := s.attempts[k := Ready(t)], lifecycle := s.lifecycle[t := k]);
      r == if t !in s.ledger.active then ready
           else Stopped(ready, t, s.ledger.active[t]).(ledger := s.ledger.(active := s.ledger.active - {t}))
  {
    hide Reaches, Apply, Enabled;
    Acquires(s, k, t);
    more, r := Extends(steps, s, Begin(k, t));
    more, r := Extends(more, r, AcquireStart(k));
    assert r.attempts[k := Ready(t)] == s.attempts[k := Ready(t)];
    Replaces(r, k, t);
    more, r := Extends(more, r, ReadMarker(k));
    if t in s.ledger.active {
      more, r := Extends(more, r, InterruptAcknowledged(k));
    }
  }

  lemma ExtendsTwice(steps: seq<Action>, s: Server, a: Action, b: Action) returns (more: seq<Action>, r: Server)
    requires Reaches(steps, s) && Enabled(s, a) && Enabled(Apply(s, a), b)
    ensures Reaches(more, r) && more == steps + [a] + [b] && r == Apply(Apply(s, a), b)
  {
    hide Reaches, Apply, Enabled;
    more, r := Extends(steps, s, a);
    more, r := Extends(more, r, b);
  }

  /** From the write on. */
  lemma ReadyStreams(steps: seq<Action>, s: Server, k: Id, t: Id, u: Id) returns (more: seq<Action>, r: Server)
    requires Reaches(steps, s) && k in s.attempts && s.attempts[k] == Ready(t) && !s.closed
    requires t in s.lifecycle && s.lifecycle[t] == k
    requires TurnKey(t, u) !in s.live + s.over + s.ledger.completed.live
    ensures more == steps + [Write(k)] + [VendorStarts(k, u)] + [TakeReply(k)] + [RegisterStarted(k)] + [StartStream(k)]
    ensures Reaches(more, r) && r.attempts == s.attempts[k := Streaming(t, u)] && r.lifecycle == s.lifecycle - {t}
    ensures r.ledger.active == s.ledger.active[t := u] && TurnKey(t, u) in r.live && r.over == s.over && !r.closed
  {
    hide Reaches, Apply, Enabled;
    Starts(s, k, t, u);
    more, r := ExtendsTwice(steps, s, Write(k), VendorStarts(k, u));
    Learns(r, k, t, u);
    more, r := ExtendsTwice(more, r, TakeReply(k), RegisterStarted(k));
    Streams(r, k, t, u);
    more, r := Extends(more, r, StartStream(k));
  }

  /**
   From every reachable state on an open transport: an attempt that nobody
   disturbs, on a thread whose lifecycle is free, interrupts the turn that is
   marked active, if there is one, and ends up streaming the turn that the
   vendor starts for it, which is marked active, with the lifecycle free again.
   */
  lemma UndisturbedStartStreams(steps: seq<Action>, s: Server, k: Id, t: Id, u: Id)
    returns (more: seq<Action>, r: Server)
    requires Reaches(steps, s) && !s.closed && k !in s.attempts && t !in s.lifecycle
    requires TurnKey(t, u) !in s.live + s.over && !(t in s.ledger.active && s.ledger.active[t] == u)
    ensures
      more == steps + [Begin(k, t)] + [AcquireStart(k)] + [ReadMarker(k)]
              + (if t in s.ledger.active then [InterruptAcknowledged(k)] else [])
              + [Write(k)] + [VendorStarts(k, u)] + [TakeReply(k)] + [RegisterStarted(k)] + [StartStream(k)]
    ensures Reaches(more, r) && r.attempts == s.attempts[k := Streaming(t, u)] && r.lifecycle == s.lifecycle
    ensures r.ledger.active == s.ledger.active[t := u] && TurnKey(t, u) in r.live && !r.closed
    ensures t in s.ledger.active ==> TurnKey(t, s.ledger.active[t]) in r.over
  {
    hide Reaches, Apply, Enabled, Inv;
    ReachableInv(steps, s);
    NotCompleted(s, TurnKey(t, u));
    more, r := UndisturbedIsReady(steps, s, k, t);
    assert TurnKey(t, u) !in r.live + r.over + r.ledger.completed.live;
    more, r := ReadyStreams(more, r, k, t, u);
  }

  lemma NotCompleted(s: Server, key: TurnKey)
    requires Inv(s) && key !in s.live + s.over
    ensures key !in s.ledger.completed.live
  {
  }

  /** The steps of one attempt alone that end its hold on the lifecycle. */
  function WayOut(p: Attempt, k: Id): seq<Action> {
    match p
    case Written(_, _) => [Cancel(k), ResponseTimeout(k)]
    case Answered(_, _, _) => [Cancel(k), Recover(k)]
    case Bound(_, _) => [StartStream(k)]
    case Ending(_, _) => [EndCleanup(k)]
    case _ => [GiveUp(k)]
  }

  /** Each of these steps is possible, and the attempt is then out, or interrupting its own turn. */
  lemma WayIsOpen(s: Server, k: Id)
    requires k in s.attempts && HoldsLifecycle(s.attempts[k])
    ensures
      var way := WayOut(s.attempts[k], k);
      && Enabled(s, way[0])
      && var r := Apply(s, way[0]);
         var q := if |way| == 1 then r else if Enabled(r, way[1]) then Apply(r, way[1]) else s;
         && (|way| > 1 ==> Enabled(r, way[1]))
         && k in q.attempts && q.attempts[k].thread == s.attempts[k].thread
         && (!HoldsLifecycle(q.attempts[k]) || q.attempts[k].Interrupting?)
  {
    hide Register, Clear, RecordCompleted;
  }

  lemma GivesUp(s: Server, k: Id)
    requires k in s.attempts && s.attempts[k].Interrupting?
    ensures Enabled(s, GiveUp(k)) && Apply(s, GiveUp(k)).attempts == s.attempts[k := Finished(s.attempts[k].thread)]
  {
  }

  /** From every reachable state, whoever holds a lifecycle can let go of it with at most three steps of its own. */
  lemma NobodyIsStuck(steps: seq<Action>, s: Server, k: Id) returns (more: seq<Action>, r: Server)
    requires Reaches(steps, s) && k in s.attempts && HoldsLifecycle(s.attempts[k])
    ensures Reaches(more, r) && steps <= more && |more| <= |steps| + 3
    ensures forall i | |steps| <= i < |more| :: Local(more[i]) && more[i].attempt == k
    ensures k in r.attempts && r.attempts[k].thread == s.attempts[k].thread && !HoldsLifecycle(r.attempts[k])
    ensures s.attempts[k].thread !in r.lifecycle || r.lifecycle[s.attempts[k].thread] != k
  {
    hide Reaches, Apply, Enabled;
    WayIsOpen(s, k);
    var way, t := WayOut(s.attempts[k], k), s.attempts[k].thread;
    more, r := Extends(steps, s, way[0]);
    if |way| > 1 {
      more, r := Extends(more, r, way[1]);
    }
    if r.attempts[k].Interrupting? {
      GivesUp(r, k);
      more, r := Extends(more, r, GiveUp(k));
    }
    LifecycleExactly(more, r, t, k);
  }

  /** An attempt whose request the transport can no longer answer is over as soon as it notices. */
  lemma ClosedSettles(steps: seq<Action>, s: Server, k: Id)
    requires Reaches(steps, s) && Enabled(s, NoticeClosed(k))
    ensures
      var r, t := Apply(s, NoticeClosed(k)), s.attempts[k].thread;
      r == s.(attempts := s.attempts[k := Finished(t)], lifecycle := s.lifecycle - {t})
  {
    hide Reaches, Inv;
    LifecycleExactly(steps, s, s.attempts[k].thread, k);
  }
}
