/**
 Starting, cancelling and replacing vendor turns over one app-server
 transport.

 Every start attempt, its cancellation-safe cleanup, the stream of a started
 turn, the stdout reader and the vendor take atomic steps in any order. The
 lifecycle of a thread is a lock (its implementation is proved to be one in
 `CodexLifecycle`); the active markers are the ledger of `CodexLedger`.

 The vendor is only assumed to run a turn after it was asked to, to report a
 failed start or a completion truthfully, and to have stopped a turn when it
 acknowledges the interruption.
 */
module CodexTurnProtocol {
  import opened CodexIds
  import opened Tombstones
  import opened CodexLedger

  datatype Reply = Started(turn: Id) | Refused

  /** Where one attempt to run a turn on a thread is; `cancelled` marks detached cleanup. */
  datatype Attempt =
    | Queued(thread: Id)                                     // waiting for the lifecycle
    | Replacing(thread: Id)                                  // about to look for a predecessor
    | Interrupting(thread: Id, turn: Id, replacing: bool)    // interrupting a predecessor, or its own turn
    | Ready(thread: Id)                                      // about to write `turn/start`
    | Written(thread: Id, cancelled: bool)                   // waiting for the response
    | Answered(thread: Id, turn: Id, cancelled: bool)        // the turn id is known
    | Bound(thread: Id, turn: Id)                            // marker registered, route being activated
    | Streaming(thread: Id, turn: Id)                        // lifecycle released
    | Ending(thread: Id, turn: Id)                           // stream over, lifecycle held again
    | Finished(thread: Id)

  datatype Server = Server(
    ledger: Ledger,
    lifecycle: map<Id, Id>,       // thread -> attempt that holds it
    attempts: map<Id, Attempt>,
    closed: bool,
    // the vendor
    asked: set<Id>,               // attempts whose bytes it has not acted on
    replies: map<Id, Reply>,      // responses it has sent
    live: set<TurnKey>,           // turns it is running
    over: set<TurnKey>)           // turns it has stopped running

  function Fresh(): Server {
    Server(EmptyLedger(), map[], map[], false, {}, map[], {}, {})
  }

  datatype Action =
    | Begin(attempt: Id, thread: Id)
    | AcquireStart(attempt: Id)
    | GiveUp(attempt: Id)
    | ReadMarker(attempt: Id)
    | InterruptAcknowledged(attempt: Id)
    | InterruptTimeout(attempt: Id)
    | Write(attempt: Id)
    | WriteFails(attempt: Id)
    | Cancel(attempt: Id)
    | ResponseTimeout(attempt: Id)
    | TakeReply(attempt: Id)
    | TakeGarbledReply(attempt: Id)
    | NoticeClosed(attempt: Id)
    | RegisterStarted(attempt: Id)
    | StartStream(attempt: Id)
    | LoseStream(attempt: Id)
    | Recover(attempt: Id)
    | AcquireEnd(attempt: Id)
    | EndCompleted(attempt: Id)
    | EndCleanup(attempt: Id)
    | RestartCleanup(attempt: Id)
    | TransportCloses
    | ReadCompletion(thread: Id, turn: Id)
    | VendorStarts(attempt: Id, turn: Id)
    | VendorRefuses(attempt: Id)
    | VendorStops(thread: Id, turn: Id)

  ghost predicate Enabled(s: Server, a: Action) {
    match a
    case Begin(k, _) => k !in s.attempts
    case TransportCloses => true
    case ReadCompletion(t, u) => TurnKey(t, u) in s.over
    case VendorStarts(k, u) =>
      k in s.asked && k in s.attempts && TurnKey(s.attempts[k].thread, u) !in s.live + s.over
    case VendorRefuses(k) => k in s.asked
    case VendorStops(t, u) => TurnKey(t, u) in s.live
    case _ => a.attempt in s.attempts && AttemptMay(s, s.attempts[a.attempt], a)
  }

  ghost predicate AttemptMay(s: Server, p: Attempt, a: Action) {
    match a
    case AcquireStart(_) => p.Queued? && p.thread !in s.lifecycle
    case GiveUp(_) => p.Queued? || p.Replacing? || p.Ready? || p.Interrupting?
    case ReadMarker(_) => p.Replacing?
    case InterruptAcknowledged(_) => p.Interrupting?
    case InterruptTimeout(_) => p.Interrupting?
    case Write(_) => p.Ready? && !s.closed
    case WriteFails(_) => p.Ready?
    case Cancel(_) => p.Written? || p.Answered?
    case ResponseTimeout(_) => p.Written? && p.cancelled
    case TakeReply(k) => p.Written? && k in s.replies
    case TakeGarbledReply(k) => p.Written? && k in s.replies
    case NoticeClosed(_) => p.Written? && s.closed
    case RegisterStarted(_) => p.Answered? && !p.cancelled
    case StartStream(_) => p.Bound?
    case LoseStream(_) => p.Bound?
    case Recover(_) => p.Answered? && p.cancelled
    case AcquireEnd(_) => p.Streaming? && p.thread !in s.lifecycle
    case EndCompleted(_) => p.Ending? && TurnKey(p.thread, p.turn) in s.over
    case EndCleanup(_) => p.Ending?
    case RestartCleanup(_) => p.Ending? || (p.Interrupting? && !p.replacing)
    case _ => false
  }

  function Move(s: Server, k: Id, to: Attempt): Server {
    s.(attempts := s.attempts[k := to])
  }

  /** Leave a stage that holds the lifecycle and give it back. */
  function Leave(s: Server, k: Id, to: Attempt): Server {
    var t := to.thread;
    Move(s, k, to).(lifecycle := if t in s.lifecycle && s.lifecycle[t] == k then s.lifecycle - {t} else s.lifecycle)
  }

  /** The transport is closed for good and its markers are dropped. */
  function Close(s: Server): Server {
    s.(closed := true, ledger := s.ledger.(active := map[]))
  }

  /** The vendor no longer runs the turn. */
  function Stopped(s: Server, t: Id, u: Id): Server {
    s.(live := s.live - {TurnKey(t, u)}, over := s.over + {TurnKey(t, u)})
  }

  function Apply(s: Server, a: Action): Server
    requires Enabled(s, a)
  {
    match a
    case Begin(k, t) => Move(s, k, Queued(t))
    case TransportCloses => Close(s)
    case ReadCompletion(t, u) => s.(ledger := RecordCompleted(s.ledger, t, u))
    case VendorStarts(k, u) =>
      s.(asked := s.asked - {k}, replies := s.replies[k := Started(u)],
         live := s.live + {TurnKey(s.attempts[k].thread, u)})
    case VendorRefuses(k) => s.(asked := s.asked - {k}, replies := s.replies[k := Refused])
    case VendorStops(t, u) => Stopped(s, t, u)
    case _ => Advance(s, s.attempts[a.attempt], a)
  }

  function Advance(s: Server, p: Attempt, a: Action): Server
    requires AttemptMay(s, p, a)
  {
    var t := p.thread;
    match a
    case AcquireStart(k) => Move(s, k, Replacing(t)).(lifecycle := s.lifecycle[t := k])
    case GiveUp(k) => Leave(s, k, Finished(t))
    case ReadMarker(k) =>
      Move(s, k, if t in s.ledger.active then Interrupting(t, s.ledger.active[t], true) else Ready(t))
    case InterruptAcknowledged(k) =>
      var stopped := Stopped(s, t, p.turn).(ledger := Clear(s.ledger, t, p.turn));
      if p.replacing then Move(stopped, k, Ready(t)) else Leave(stopped, k, Finished(t))
    case InterruptTimeout(k) => Leave(Close(s), k, Finished(t))
    case Write(k) => Move(s, k, Written(t, false)).(asked := s.asked + {k})
    case WriteFails(k) => Leave(Close(s.(asked := s.asked + {k})), k, Finished(t))   // some bytes may be out
    case Cancel(k) => Move(s, k, p.(cancelled := true))
    case ResponseTimeout(k) => Leave(Close(s), k, Finished(t))
    case TakeReply(k) =>
      if s.replies[k].Started? then Move(s, k, Answered(t, s.replies[k].turn, p.cancelled))
      else Leave(s, k, Finished(t))
    case TakeGarbledReply(k) => Leave(Close(s), k, Finished(t))
    case NoticeClosed(k) => Leave(s, k, Finished(t))
    case RegisterStarted(k) =>
      Move(s, k, Bound(t, p.turn)).(ledger := Register(s.ledger, t, p.turn, false))
    case StartStream(k) => Leave(s, k, Streaming(t, p.turn))
    case LoseStream(k) => Move(s, k, Answered(t, p.turn, true))
    case Recover(k) =>
      if Outcome(s.ledger, t, p.turn, true) == Registered
      then Move(s, k, Interrupting(t, p.turn, false)).(ledger := Register(s.ledger, t, p.turn, true))
      else Leave(s, k, Finished(t))
    case AcquireEnd(k) => Move(s, k, Ending(t, p.turn)).(lifecycle := s.lifecycle[t := k])
    case EndCompleted(k) => Leave(s.(ledger := Clear(s.ledger, t, p.turn)), k, Finished(t))
    case EndCleanup(k) =>
      if t in s.ledger.active && s.ledger.active[t] == p.turn then Move(s, k, Interrupting(t, p.turn, false))
      else Leave(s, k, Finished(t))
    case RestartCleanup(k) => Leave(s, k, Streaming(t, p.turn))
    case _ => s
  }

  // ---- What every step keeps ------------------------------------------------

  predicate HoldsLifecycle(p: Attempt) {
    !p.Queued? && !p.Streaming? && !p.Finished?
  }

  /** Nothing was written for the attempt yet. */
  predicate Early(p: Attempt) {
    p.Queued? || p.Replacing? || p.Ready? || (p.Interrupting? && p.replacing)
  }

  ghost predicate Locked(s: Server) {
    forall k | k in s.attempts && HoldsLifecycle(s.attempts[k]) ::
      s.attempts[k].thread in s.lifecycle && s.lifecycle[s.attempts[k].thread] == k
  }

  ghost predicate Asked(s: Server) {
    && (forall k | k in s.asked :: k in s.attempts && !Early(s.attempts[k]) && k !in s.replies)
    && (forall k | k in s.replies :: k in s.attempts && !Early(s.attempts[k]))
    && (!s.closed ==> forall k | k in s.asked :: s.attempts[k].Written?)
  }

  /** What the marker of the thread can be while the attempt is at this stage. */
  ghost predicate MarkerFits(active: map<Id, Id>, p: Attempt) {
    match p
    case Ready(t) => t !in active
    case Written(t, _) => t !in active
    case Answered(t, u, _) => t in active ==> active[t] == u
    case Bound(t, u) => t in active ==> active[t] == u
    case Interrupting(t, u, _) => t in active ==> active[t] == u
    case _ => true
  }

  ghost predicate Markers(s: Server) {
    !s.closed ==> forall k | k in s.attempts :: MarkerFits(s.ledger.active, s.attempts[k])
  }

  ghost predicate Honest(s: Server) {
    && s.live !! s.over
    && s.ledger.completed.live <= s.over
    && WellFormed(s.ledger.completed)
    && (forall x | x in s.ledger.completed.order :: x in s.ledger.completed.live)
  }

  /** The attempt is about to learn, or has learnt, that it started `turn`. */
  ghost predicate Expects(s: Server, k: Id, turn: Id) {
    && k in s.attempts
    && (|| (s.attempts[k].Written? && k in s.replies && s.replies[k] == Started(turn))
        || (s.attempts[k].Answered? && s.attempts[k].turn == turn))
  }

  /** Every turn running at the vendor is marked active, or its starter holds the lifecycle and will find out. */
  ghost predicate Accounted(s: Server, key: TurnKey) {
    || (key.thread in s.ledger.active && s.ledger.active[key.thread] == key.turn)
    || (key.thread in s.lifecycle && Expects(s, s.lifecycle[key.thread], key.turn)
        && s.attempts[s.lifecycle[key.thread]].thread == key.thread)
  }

  ghost predicate AllAccounted(s: Server) {
    !s.closed ==> forall key | key in s.live :: Accounted(s, key)
  }

  ghost predicate Inv(s: Server) {
    Locked(s) && Asked(s) && Markers(s) && Honest(s) && AllAccounted(s)
  }

  /** A step that one attempt takes. */
  predicate Local(a: Action) {
    !(a.VendorStarts? || a.VendorRefuses? || a.VendorStops? || a.ReadCompletion? || a.Begin? || a.TransportCloses?)
  }

  lemma VendorStartKeeps(s: Server, a: Action)
    requires Inv(s) && Enabled(s, a) && a.VendorStarts?
    ensures Inv(Apply(s, a))
  {
    hide WellFormed;
  }

  lemma CompletionKeeps(s: Server, a: Action)
    requires Inv(s) && Enabled(s, a) && a.ReadCompletion?
    ensures Inv(Apply(s, a))
  {
    hide WellFormed, Remember;
    RememberKeeps(s.ledger.completed, TurnKey(a.thread, a.turn));
  }

  lemma EnvironmentAccounts(s: Server, a: Action, key: TurnKey)
    requires Enabled(s, a) && !Local(a) && !a.VendorStarts? && !a.ReadCompletion?
    requires Asked(s) && !Apply(s, a).closed && Accounted(s, key)
    ensures Accounted(Apply(s, a), key)
  {
    hide WellFormed, Remember;
  }

  lemma EnvironmentKeeps(s: Server, a: Action)
    requires Inv(s) && Enabled(s, a) && !Local(a) && !a.VendorStarts? && !a.ReadCompletion?
    ensures Inv(Apply(s, a))
  {
    hide WellFormed, Remember, Accounted;
    var r := Apply(s, a);
    assert Asked(r) by { hide Locked, Markers, Honest, AllAccounted; }
    forall key | !r.closed && key in r.live
      ensures Accounted(r, key)
    {
      EnvironmentAccounts(s, a, key);
    }
  }

  lemma LocalKeepsLocked(s: Server, a: Action)
    requires Locked(s) && Local(a) && Enabled(s, a)
    ensures Locked(Apply(s, a))
  {
    hide Apply, AttemptMay, Locked;
    if Early(s.attempts[a.attempt]) { EarlyKeepsLocked(s, a); } else { LateKeepsLocked(s, a); }
  }

  lemma EarlyKeepsLocked(s: Server, a: Action)
    requires Locked(s) && Local(a) && Enabled(s, a) && Early(s.attempts[a.attempt])
    ensures Locked(Apply(s, a))
  {
    hide Register, Clear, Outcome;
  }

  lemma LateKeepsLocked(s: Server, a: Action)
    requires Locked(s) && Local(a) && Enabled(s, a) && !Early(s.attempts[a.attempt])
    ensures Locked(Apply(s, a))
  {
    hide Register, Clear, Outcome;
  }

  ghost predicate SameAt<T>(m: map<Id, T>, n: map<Id, T>, k: Id) {
    (k in m <==> k in n) && (k in m ==> m[k] == n[k])
  }

  /** Only `Write` reaches the vendor, and a closed transport stays closed. */
  lemma LocalFrame(s: Server, a: Action)
    requires Local(a) && Enabled(s, a)
    ensures var r, k := Apply(s, a), a.attempt;
            && r.replies == s.replies && (s.closed ==> r.closed)
            && r.asked == (if a.Write? || a.WriteFails? then s.asked + {k} else s.asked)
  {
    hide Register, Clear, Outcome;
  }

  /** No other attempt moves. */
  lemma OthersStay(s: Server, a: Action, j: Id)
    requires Local(a) && Enabled(s, a) && j != a.attempt
    ensures SameAt(Apply(s, a).attempts, s.attempts, j)
  {
    hide Register, Clear, Outcome;
  }

  /** While the transport is open, no other thread is touched. */
  lemma OtherThreadsStay(s: Server, a: Action, t: Id)
    requires Local(a) && Enabled(s, a) && t != s.attempts[a.attempt].thread && !Apply(s, a).closed
    ensures SameAt(Apply(s, a).lifecycle, s.lifecycle, t) && SameAt(Apply(s, a).ledger.active, s.ledger.active, t)
  {
    hide Apply, SameAt, AttemptMay;
    OtherLifecyclesStay(s, a, t);
    if Early(s.attempts[a.attempt]) { EarlySparesMarkers(s, a, t); } else { LateSparesMarkers(s, a, t); }
  }

  lemma OtherLifecyclesStay(s: Server, a: Action, t: Id)
    requires Local(a) && Enabled(s, a) && t != s.attempts[a.attempt].thread
    ensures SameAt(Apply(s, a).lifecycle, s.lifecycle, t)
  {
    hide Register, Clear, Outcome;
  }

  lemma EarlySparesMarkers(s: Server, a: Action, t: Id)
    requires Local(a) && Enabled(s, a) && t != s.attempts[a.attempt].thread && !Apply(s, a).closed
    requires Early(s.attempts[a.attempt])
    ensures SameAt(Apply(s, a).ledger.active, s.ledger.active, t)
  {
    hide Register, Outcome;
  }

  lemma LateSparesMarkers(s: Server, a: Action, t: Id)
    requires Local(a) && Enabled(s, a) && t != s.attempts[a.attempt].thread && !Apply(s, a).closed
    requires !Early(s.attempts[a.attempt])
    ensures SameAt(Apply(s, a).ledger.active, s.ledger.active, t)
  {
    hide Outcome;
  }

  /** An attempt never goes back before its write, and stays put until the response arrives. */
  lemma LocalForward(s: Server, a: Action)
    requires Local(a) && Enabled(s, a)
    ensures var r, k := Apply(s, a), a.attempt;
            && k in r.attempts
            && (!Early(s.attempts[k]) || a.Write? || a.WriteFails? ==> !Early(r.attempts[k]))
            && (a.Write? || a.WriteFails? ==> Early(s.attempts[k]))
            && (a.WriteFails? ==> r.closed)
            && (a.Write? || (!r.closed && s.attempts[k].Written? && k !in s.replies) ==> r.attempts[k].Written?)
  {
    hide Register, Clear, Outcome;
  }

  lemma LocalKeepsAsked(s: Server, a: Action)
    requires Asked(s) && Local(a) && Enabled(s, a)
    ensures Asked(Apply(s, a))
  {
    hide Apply, AttemptMay, Early;
    LocalFrame(s, a);
    LocalForward(s, a);
    var r := Apply(s, a);
    forall j | j != a.attempt
      ensures (j in r.attempts <==> j in s.attempts) && (j in s.attempts ==> r.attempts[j] == s.attempts[j])
    {
      OthersStay(s, a, j);
    }
  }

  lemma LocalKeepsMarkers(s: Server, a: Action)
    requires Locked(s) && Markers(s) && Local(a) && Enabled(s, a)
    ensures Markers(Apply(s, a))
  {
    hide Apply, AttemptMay, Locked, Markers;
    if Early(s.attempts[a.attempt]) { EarlyKeepsMarkers(s, a); } else { LateKeepsMarkers(s, a); }
  }

  lemma EarlyKeepsMarkers(s: Server, a: Action)
    requires Locked(s) && Markers(s) && Local(a) && Enabled(s, a) && Early(s.attempts[a.attempt])
    ensures Markers(Apply(s, a))
  {
    hide Register, Outcome;
  }

  lemma LateKeepsMarkers(s: Server, a: Action)
    requires Locked(s) && Markers(s) && Local(a) && Enabled(s, a) && !Early(s.attempts[a.attempt])
    ensures Markers(Apply(s, a))
  {
    hide Apply, AttemptMay, MarkerFits, Early, Locked;
    var r := Apply(s, a);
    LocalFrame(s, a);
    forall j | !r.closed && j in r.attempts
      ensures MarkerFits(r.ledger.active, r.attempts[j])
    {
      if j == a.attempt { LateFits(s, a); } else { OthersStay(s, a, j); OthersFit(s, a, j); }
    }
  }

  lemma LateFits(s: Server, a: Action)
    requires Locked(s) && Local(a) && Enabled(s, a) && !Early(s.attempts[a.attempt])
    requires !Apply(s, a).closed && MarkerFits(s.ledger.active, s.attempts[a.attempt])
    ensures a.attempt in Apply(s, a).attempts
    ensures MarkerFits(Apply(s, a).ledger.active, Apply(s, a).attempts[a.attempt])
  {
    hide Locked;
  }

  /** Another attempt of the thread holds no lifecycle, so no marker is expected of it. */
  lemma OthersFit(s: Server, a: Action, j: Id)
    requires Locked(s) && Local(a) && Enabled(s, a) && !Apply(s, a).closed
    requires j in s.attempts && j != a.attempt && MarkerFits(s.ledger.active, s.attempts[j])
    ensures MarkerFits(Apply(s, a).ledger.active, s.attempts[j])
  {
    var t := s.attempts[a.attempt].thread;
    if s.attempts[j].thread != t {
      OtherThreadsStay(s, a, s.attempts[j].thread);
      hide Apply, AttemptMay, Locked;
    } else if HoldsLifecycle(s.attempts[j]) {
      BystanderKeepsMarker(s, a);
      hide Apply, AttemptMay;
    } else {
      hide Apply, AttemptMay, Locked;
    }
  }

  /** An attempt that does not hold the lifecycle of its thread touches no marker. */
  lemma BystanderKeepsMarker(s: Server, a: Action)
    requires Local(a) && Enabled(s, a) && !Apply(s, a).closed
    ensures HoldsLifecycle(s.attempts[a.attempt]) || Apply(s, a).ledger == s.ledger
  {
    hide Register, Clear, Outcome;
  }

  lemma LocalKeepsHonest(s: Server, a: Action)
    requires Honest(s) && Local(a) && Enabled(s, a)
    ensures Honest(Apply(s, a))
  {
    hide WellFormed;
  }

  /** A stage that gives the lifecycle back expected nothing of the vendor any more. */
  lemma LocalKeepsAccounted(s: Server, a: Action)
    requires Inv(s) && Local(a) && Enabled(s, a)
    ensures AllAccounted(Apply(s, a))
  {
    hide WellFormed, Asked;
    var r := Apply(s, a);
    forall key | !r.closed && key in r.live
      ensures Accounted(r, key)
    {
      if key.thread != s.attempts[a.attempt].thread {
        OthersAccount(s, a, key);
      } else if Early(s.attempts[a.attempt]) {
        EarlyAccounts(s, a, key);
      } else {
        LateAccounts(s, a, key);
      }
    }
  }

  lemma OthersAccount(s: Server, a: Action, key: TurnKey)
    requires Local(a) && Enabled(s, a) && key.thread != s.attempts[a.attempt].thread
    requires !Apply(s, a).closed && Accounted(s, key)
    ensures Accounted(Apply(s, a), key)
  {
    hide Apply, AttemptMay;
    LocalFrame(s, a);
    OtherThreadsStay(s, a, key.thread);
    if key.thread in s.lifecycle && s.lifecycle[key.thread] != a.attempt {
      OthersStay(s, a, s.lifecycle[key.thread]);
    }
  }

  lemma EarlyAccounts(s: Server, a: Action, key: TurnKey)
    requires Locked(s) && Markers(s) && Local(a) && Enabled(s, a) && Early(s.attempts[a.attempt])
    requires key.thread == s.attempts[a.attempt].thread
    requires !Apply(s, a).closed && key in Apply(s, a).live && Accounted(s, key)
    ensures Accounted(Apply(s, a), key)
  {
    hide Register, Outcome;
  }

  lemma LateAccounts(s: Server, a: Action, key: TurnKey)
    requires Locked(s) && Markers(s) && Honest(s) && Local(a) && Enabled(s, a) && !Early(s.attempts[a.attempt])
    requires key.thread == s.attempts[a.attempt].thread
    requires !Apply(s, a).closed && key in Apply(s, a).live && Accounted(s, key)
    ensures Accounted(Apply(s, a), key)
  {
    hide WellFormed;
  }

  lemma StepKeeps(s: Server, a: Action)
    requires Inv(s) && Enabled(s, a)
    ensures Inv(Apply(s, a))
  {
    hide Locked, Asked, Markers, Honest, AllAccounted, Apply, Enabled;
    if a.VendorStarts? {
      VendorStartKeeps(s, a);
    } else if a.ReadCompletion? {
      CompletionKeeps(s, a);
    } else if !Local(a) {
      EnvironmentKeeps(s, a);
    } else {
      LocalKeepsLocked(s, a);
      LocalKeepsAsked(s, a);
      LocalKeepsMarkers(s, a);
      LocalKeepsHonest(s, a);
      LocalKeepsAccounted(s, a);
    }
  }

  // ---- What holds over whole runs -------------------------------------------

  /** The steps are taken one after the other, each when it is possible. */
  ghost predicate Reaches(steps: seq<Action>, s: Server) {
    if steps == [] then s == Fresh()
    else
      var n := |steps| - 1;
      exists before :: Reaches(steps[..n], before) && Enabled(before, steps[n]) && s == Apply(before, steps[n])
  }

  lemma {:induction false} ReachableInv(steps: seq<Action>, s: Server)
    requires Reaches(steps, s)
    ensures Inv(s)
    decreases |steps|
  {
    if steps != [] {
      var n := |steps| - 1;
      var before :| Reaches(steps[..n], before) && Enabled(before, steps[n]) && s == Apply(before, steps[n]);
      hide Apply, Enabled, Inv;
      ReachableInv(steps[..n], before);
      StepKeeps(before, steps[n]);
    }
  }

  /** `turn/start` is never written while an earlier turn of the thread runs at the vendor, or may still come to. */
  lemma {:induction false} WriteIsSafe(steps: seq<Action>, s: Server, k: Id)
    requires Reaches(steps, s) && Enabled(s, Write(k))
    ensures forall key | key in s.live :: key.thread != s.attempts[k].thread
    ensures forall j | j in s.asked :: j in s.attempts && s.attempts[j].thread != s.attempts[k].thread
  {
    ReachableInv(steps, s);
  }

  /** On an open transport the vendor never runs two turns of one thread. */
  lemma {:induction false} OneVendorTurnPerThread(steps: seq<Action>, s: Server, x: TurnKey, y: TurnKey)
    requires Reaches(steps, s) && !s.closed
    requires x in s.live && y in s.live && x.thread == y.thread
    ensures x == y
  {
    ReachableInv(steps, s);
    assert Accounted(s, x) && Accounted(s, y);
  }

  /** Recovering a cancelled start never finds the marker of a replacement. */
  lemma {:induction false} ReplacementUnreachable(steps: seq<Action>, s: Server, k: Id)
    requires Reaches(steps, s) && !s.closed && Enabled(s, Recover(k))
    ensures Outcome(s.ledger, s.attempts[k].thread, s.attempts[k].turn, true) != OwnedByReplacement
  {
    ReachableInv(steps, s);
  }
}
