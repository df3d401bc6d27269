/**
 What lets a prepared install activate: the epoch it was prepared under is
 still the current one, and its staged artifact is on disk. An uninstall
 advances the epoch and removes every stage. A download that is still in
 flight may write its stage again.
 */
module InstallGuards {

  type Install = nat

  /** The text in the runtime's lock file. Advancing it truncates the file first,
      so a failed write leaves the fresh identifier cut short; `Cut(0)` is the empty file. */
  datatype Epoch = Whole(uuid: nat) | Cut(text: nat)

  const INITIAL_EPOCH: Epoch := Cut(0)

  /** How far `set_len`, `write_all` and `sync_all` got. */
  datatype EpochWrite = Untouched | Truncated(text: nat) | Replaced

  /** The epoch an install was prepared under, and whether its download is over. */
  datatype Preparation = Preparation(epoch: Epoch, finished: bool)

  datatype Guards = Guards(
    epoch: Epoch,
    issued: set<nat>,                       // identifiers that were ever drawn
    preparations: map<Install, Preparation>,
    stages: set<Install>,                   // installs whose artifact is on disk
    // history
    prepared: set<Install>,                 // every install there ever was
    outdated: set<Install>,                 // installs that a completed uninstall came after
    rebuilt: set<Install>)                  // outdated ones whose stage was written again since

  const NEW_GUARDS: Guards := Guards(INITIAL_EPOCH, {}, map[], {}, {}, {}, {})

  /** Nothing keeps the install from publishing. */
  predicate Passes(g: Guards, i: Install) {
    && i in g.preparations && g.preparations[i].finished
    && g.preparations[i].epoch == g.epoch
    && i in g.stages
  }

  datatype Event =
    | Prepare(install: Install)      // reads the epoch, under the lock
    | Fill(install: Install)         // the download writes the artifact
    | Finish(install: Install)       // the download is over
    | Forget(install: Install)       // the install is used up, or its process is gone
    | Erase(install: Install)        // uninstall removes one stage
    | Advance(uuid: nat, write: EpochWrite)
    | Complete                       // an uninstall that replaced the epoch and removed everything returns

  ghost predicate Enabled(g: Guards, e: Event) {
    match e
    case Prepare(i) => i !in g.prepared
    case Fill(i) => i in g.preparations && !g.preparations[i].finished
    case Finish(i) => i in g.preparations
    case Forget(i) => true
    case Erase(i) => true
    case Advance(uuid, _) => uuid !in g.issued
    case Complete => g.stages == {} && Current(g)
  }

  /** The epoch is newer than every preparation, as after a successful `Advance`. */
  ghost predicate Current(g: Guards) {
    g.epoch.Whole? && forall i | i in g.preparations :: g.preparations[i].epoch != g.epoch
  }

  function Advanced(e: Epoch, uuid: nat, write: EpochWrite): Epoch {
    match write
    case Untouched => e
    case Truncated(text) => Cut(text)
    case Replaced => Whole(uuid)
  }

  function Apply(g: Guards, e: Event): Guards {
    match e
    case Prepare(i) =>
      g.(preparations := g.preparations[i := Preparation(g.epoch, false)], prepared := g.prepared + {i})
    case Fill(i) =>
      g.(stages := g.stages + {i}, rebuilt := if i in g.outdated then g.rebuilt + {i} else g.rebuilt)
    case Finish(i) =>
      if i in g.preparations
      then g.(preparations := g.preparations[i := g.preparations[i].(finished := true)])
      else g
    case Forget(i) => g.(preparations := g.preparations - {i}, stages := g.stages - {i}, rebuilt := g.rebuilt - {i})
    case Erase(i) => g.(stages := g.stages - {i}, rebuilt := g.rebuilt - {i})
    case Advance(uuid, write) => g.(epoch := Advanced(g.epoch, uuid, write), issued := g.issued + {uuid})
    case Complete => g.(outdated := g.preparations.Keys, rebuilt := {})
  }

  /** An outdated install has a stage only if it was written again, and a whole epoch of its own never returns. */
  predicate Inv(g: Guards) {
    && g.preparations.Keys <= g.prepared && g.outdated <= g.prepared && g.stages <= g.prepared
    && (g.epoch.Whole? ==> g.epoch.uuid in g.issued)
    && (forall i | i in g.preparations && g.preparations[i].epoch.Whole? :: g.preparations[i].epoch.uuid in g.issued)
    && (forall i | i in g.preparations && i in g.outdated ::
          && (i in g.stages <==> i in g.rebuilt)
          && (g.preparations[i].epoch.Whole? ==> g.preparations[i].epoch != g.epoch))
  }

  lemma StepKeeps(g: Guards, e: Event)
    requires Inv(g) && Enabled(g, e)
    ensures Inv(Apply(g, e))
  {
  }

  // ---- Runs -----------------------------------------------------------------

  function After(events: seq<Event>, n: nat): Guards
    requires n <= |events|
  {
    if n == 0 then NEW_GUARDS else Apply(After(events, n - 1), events[n - 1])
  }

  ghost predicate Legal(events: seq<Event>) {
    forall n | 0 <= n < |events| :: Enabled(After(events, n), events[n])
  }

  lemma {:induction false} RunKeeps(events: seq<Event>, n: nat)
    requires Legal(events) && n <= |events|
    ensures Inv(After(events, n))
  {
    hide Apply, Enabled, Inv;
    if n == 0 {
      NewGuardsInv();
    } else {
      RunKeeps(events, n - 1);
      StepKeeps(After(events, n - 1), events[n - 1]);
    }
  }

  lemma NewGuardsInv()
    ensures Inv(NEW_GUARDS)
  {
  }

  /** The install was prepared before the uninstall that completes as step `j`. */
  ghost predicate PreparedBefore(events: seq<Event>, j: nat, i: Install) {
    Legal(events) && j < |events| && events[j].Complete? && i in After(events, j).preparations
  }

  /** What is outdated stays so, under the same epoch, and a download does not start again. */
  lemma StepStaysOutdated(g: Guards, e: Event, i: Install)
    requires Inv(g) && Enabled(g, e) && i in g.prepared
    ensures
      var r := Apply(g, e);
      && i in r.prepared
      && (i in r.preparations ==>
            && i in g.preparations && r.preparations[i].epoch == g.preparations[i].epoch
            && (g.preparations[i].finished ==> r.preparations[i].finished)
            && (i in g.outdated || e.Complete? ==> i in r.outdated)
            && (g.preparations[i].finished && i !in g.stages ==> i !in r.stages))
  {
  }

  lemma {:induction false} StaysOutdated(events: seq<Event>, j: nat, i: Install, k: nat)
    requires PreparedBefore(events, j, i) && j < k <= |events|
    ensures
      var g, was := After(events, k), After(events, j).preparations[i];
      && i in g.prepared
      && (i in g.preparations ==>
            && i in g.outdated && g.preparations[i].epoch == was.epoch
            && (was.finished ==> g.preparations[i].finished && i !in g.stages))
  {
    hide Apply;
    RunKeeps(events, k - 1);
    var g := After(events, k - 1);
    assert Enabled(g, events[k - 1]);
    if k > j + 1 { StaysOutdated(events, j, i, k - 1); }
    StepStaysOutdated(g, events[k - 1], i);
  }

  /**
   The exact condition: an install that was prepared before a completed
   uninstall gets past the guards if and only if its download is over, the text
   of its epoch is current again, and its stage was written again since. Its
   epoch is then no whole identifier.
   */
  lemma OutdatedPassesExactly(events: seq<Event>, j: nat, i: Install, k: nat)
    requires PreparedBefore(events, j, i) && j < k <= |events|
    ensures
      var g := After(events, k);
      && (Passes(g, i) <==>
            && i in g.preparations && g.preparations[i].finished
            && g.preparations[i].epoch == g.epoch && i in g.rebuilt)
      && (Passes(g, i) ==> g.preparations[i].epoch.Cut?)
  {
    RunKeeps(events, k);
    StaysOutdated(events, j, i, k);
  }

  /** A preparation that was over at the uninstall never passes again: nothing writes its stage. */
  lemma FinishedStaysOut(events: seq<Event>, j: nat, i: Install, k: nat)
    requires PreparedBefore(events, j, i) && After(events, j).preparations[i].finished && j < k <= |events|
    ensures !Passes(After(events, k), i)
  {
    StaysOutdated(events, j, i, k);
  }

  lemma StepStaysUsedUp(g: Guards, e: Event, i: Install)
    requires Inv(g) && Enabled(g, e) && i in g.prepared && (i !in g.preparations || e == Forget(i))
    ensures i in Apply(g, e).prepared && i !in Apply(g, e).preparations
  {
  }

  /** An install that was used up, or whose process is gone, never passes again. */
  lemma {:induction false} UsedUpStaysOut(events: seq<Event>, j: nat, i: Install, k: nat)
    requires Legal(events) && j < k <= |events| && events[j] == Forget(i) && i in After(events, j).prepared
    ensures i in After(events, k).prepared && i !in After(events, k).preparations
    ensures !Passes(After(events, k), i)
    decreases k
  {
    hide Apply, Enabled, Inv;
    RunKeeps(events, k - 1);
    if k > j + 1 { UsedUpStaysOut(events, j, i, k - 1); }
    StepStaysUsedUp(After(events, k - 1), events[k - 1], i);
  }

  ghost predicate Happened(events: seq<Event>, j: nat, k: nat, e: Event) {
    exists n :: j <= n < k <= |events| && events[n] == e
  }

  /** The steps of others leave an install alone. */
  lemma StepLeavesAlone(g: Guards, e: Event, i: Install)
    requires Inv(g) && Enabled(g, e) && !e.Advance? && e != Forget(i) && e != Erase(i)
    requires i in g.preparations || e == Prepare(i)
    ensures
      var r, now := Apply(g, e), e != Prepare(i);
      && r.epoch == g.epoch && i in r.preparations
      && r.preparations[i].epoch == (if now then g.preparations[i].epoch else g.epoch)
      && (r.preparations[i].finished <==> now && (g.preparations[i].finished || e == Finish(i)))
      && (i in r.stages <==> now && (i in g.stages || e == Fill(i)))
  {
  }

  /** While no uninstall comes in between and nobody gives the install up, it passes if and only if its download
      wrote the stage and is over. */
  lemma {:induction false} UndisturbedPasses(events: seq<Event>, j: nat, i: Install, k: nat)
    requires Legal(events) && j < k <= |events| && events[j] == Prepare(i)
    requires forall n | j < n < k :: !events[n].Advance? && events[n] != Forget(i) && events[n] != Erase(i)
    ensures
      var g := After(events, k);
      && i in g.preparations && g.preparations[i].epoch == g.epoch
      && (g.preparations[i].finished <==> Happened(events, j, k, Finish(i)))
      && (i in g.stages <==> Happened(events, j, k, Fill(i)))
    ensures Passes(After(events, k), i) <==> Happened(events, j, k, Fill(i)) && Happened(events, j, k, Finish(i))
    decreases k
  {
    hide Apply, Enabled, Inv, Happened;
    RunKeeps(events, k - 1);
    var g, e := After(events, k - 1), events[k - 1];
    if k > j + 1 {
      UndisturbedPasses(events, j, i, k - 1);
      assert e != Prepare(i) by { PreparedOnce(g, i); }
    }
    StepLeavesAlone(g, e, i);
    HappenedUntil(events, j, k, Finish(i));
    HappenedUntil(events, j, k, Fill(i));
  }

  lemma PreparedOnce(g: Guards, i: Install)
    requires Inv(g) && i in g.preparations
    ensures !Enabled(g, Prepare(i))
  {
  }

  lemma HappenedUntil(events: seq<Event>, j: nat, k: nat, e: Event)
    requires j < k <= |events|
    ensures Happened(events, j, k, e) <==> Happened(events, j, k - 1, e) || events[k - 1] == e
    ensures !Happened(events, j, j, e)
  {
  }

  /** Some run lets an install prepared under `e` publish after a completed uninstall. */
  ghost predicate Revivable(e: Epoch) {
    exists events: seq<Event>, j: nat, i: Install, k: nat ::
      && PreparedBefore(events, j, i) && j < k <= |events|
      && After(events, j).preparations[i].epoch == e && Passes(After(events, k), i)
  }

  /** The run: a download is in flight during a completed uninstall, writes its stage again, and a second
      uninstall fails between truncating the epoch and writing it. */
  function Revival(text: nat): seq<Event> {
    [Advance(0, Truncated(text)), Prepare(1), Fill(1), Advance(1, Replaced), Erase(1), Complete,
     Fill(1), Finish(1), Advance(2, Truncated(text))]
  }

  lemma {:induction false} RevivalBegins(text: nat)
    ensures
      var es, running := Revival(text), map[1 := Preparation(Cut(text), false)];
      && (forall n | 0 <= n < 5 :: Enabled(After(es, n), es[n]))
      && After(es, 5) == Guards(Whole(1), {0, 1}, running, {}, {1}, {}, {})
  {
    var es := Revival(text);
    var none: map<Install, Preparation> := map[];
    var running := map[1 := Preparation(Cut(text), false)];
    AfterIs(es, 0, Guards(Cut(text), {0}, none, {}, {}, {}, {}));
    AfterIs(es, 1, Guards(Cut(text), {0}, running, {}, {1}, {}, {}));
    AfterIs(es, 2, Guards(Cut(text), {0}, running, {1}, {1}, {}, {}));
    AfterIs(es, 3, Guards(Whole(1), {0, 1}, running, {1}, {1}, {}, {}));
    AfterIs(es, 4, Guards(Whole(1), {0, 1}, running, {}, {1}, {}, {}));
    assert Enabled(After(es, 0), es[0]) && Enabled(After(es, 1), es[1]) && Enabled(After(es, 2), es[2]);
  }

  lemma {:induction false} RevivalPasses(text: nat)
    ensures PreparedBefore(Revival(text), 5, 1) && Passes(After(Revival(text), 9), 1)
    ensures After(Revival(text), 5).preparations[1].epoch == Cut(text)
  {
    var es, over := Revival(text), map[1 := Preparation(Cut(text), true)];
    RevivalBegins(text);
    hide After;
    var running := After(es, 5).preparations;
    AfterIs(es, 5, Guards(Whole(1), {0, 1}, running, {}, {1}, {1}, {}));
    AfterIs(es, 6, Guards(Whole(1), {0, 1}, running, {1}, {1}, {1}, {1}));
    AfterIs(es, 7, Guards(Whole(1), {0, 1}, over, {1}, {1}, {1}, {1}));
    AfterIs(es, 8, Guards(Cut(text), {0, 1, 2}, over, {1}, {1}, {1}, {1}));
    assert forall n | 5 <= n < |es| :: Enabled(After(es, n), es[n]);
  }

  lemma AfterIs(events: seq<Event>, n: nat, g: Guards)
    requires n < |events| && g == Apply(After(events, n), events[n])
    ensures After(events, n + 1) == g
  {
  }

  /** A completed uninstall stops every install prepared under `e` for good if and only if `e` is a whole identifier. */
  lemma RevivableExactly(e: Epoch)
    ensures Revivable(e) <==> e.Cut?
  {
    if e.Cut? {
      RevivalPasses(e.text);
    } else if Revivable(e) {
      var events: seq<Event>, j: nat, i: Install, k: nat :|
        && PreparedBefore(events, j, i) && j < k <= |events|
        && After(events, j).preparations[i].epoch == e && Passes(After(events, k), i);
      OutdatedPassesExactly(events, j, i, k);
      StaysOutdated(events, j, i, k);
    }
  }
}
