/**
 Managed-runtime activation: publishing an immutable generation through one
 pointer, recovering capacity, pruning, leasing and uninstalling.

 Every method runs under the runtime's activation lock, so the methods of all
 processes are ordered; the leases that backends hold may be released at any
 moment. Flushes, renames and removals fail whenever they like. The trail
 holds the disk after every single filesystem step, so what is said of the
 whole trail holds wherever the program is killed or the machine crashes.
 */
module ManagedRuntime {
  import opened Options
  import Guard = InstallGuards
  import opened RuntimeDisk

  datatype Activation =
    | Durable(generation: Generation)
    | CommittedNotDurable(generation: Generation)
    | Invalidated      // a later uninstall advanced the epoch
    | Unavailable      // the staged artifact is gone
    | Failed

  predicate Published(r: Activation) {
    r.Durable? || r.CommittedNotDurable?
  }

  datatype Request =
    | Preparing(install: Guard.Install)
    | Downloading(install: Guard.Install)
    | Finishing(install: Guard.Install)
    | Abandoning(install: Guard.Install)
    | Activating(install: Guard.Install)
    | Leasing(holder: Holder)
    | Releasing(holder: Holder)
    | Uninstalling(uuid: nat, write: Guard.EpochWrite)
    | Killed(at: nat)              // the process stops after this step of the last request
    | Crashed(at: nat, left: Disk) // the machine does, and restarts with this disk

  ghost predicate Fewer(now: map<Holder, Lease>, before: map<Holder, Lease>) {
    forall h | h in now :: h in before && now[h] == before[h]
  }

  lemma FewerRefl(a: map<Holder, Lease>)
    ensures Fewer(a, a)
  {
  }

  lemma FewerTrans(a: map<Holder, Lease>, b: map<Holder, Lease>, c: map<Holder, Lease>)
    requires Fewer(a, b) && Fewer(b, c)
    ensures Fewer(a, c)
  {
  }

  lemma LeasedBefore(now: Disk, before: Disk, g: Generation)
    requires Fewer(now.leases, before.leases) && Leased(now, g)
    ensures Leased(before, g)
  {
    var h :| h in now.leases && now.leases[h].runtime == g;
    assert before.leases[h].runtime == g;
  }

  /** An install is active and nothing of it was removed. */
  ghost predicate Intact(d: Disk) {
    d.pointer.Some? && d.pointer.value in d.runtimes && d.runtimes[d.pointer.value].complete
  }

  /** The generation was neither removed nor damaged. */
  ghost predicate Spared(now: Disk, before: Disk, g: Generation) {
    g in before.runtimes ==> g in now.runtimes && (before.runtimes[g].complete ==> now.runtimes[g].complete)
  }

  /** What one request achieves if nothing fails; the guards advance in any case. */
  ghost predicate Achieves(before: Disk, r: Request, after: Disk, undisturbed: bool) {
    var g := before.guards;
    match r
    case Preparing(i) => i !in g.prepared ==> after.guards == Guard.Apply(g, Guard.Prepare(i))
    case Downloading(i) =>
      i in g.preparations && !g.preparations[i].finished ==> after.guards == Guard.Apply(g, Guard.Fill(i))
    case Finishing(i) => i in g.preparations ==> after.guards == Guard.Apply(g, Guard.Finish(i))
    case Abandoning(i) => after.guards == Guard.Apply(g, Guard.Forget(i))
    case Activating(i) =>
      i in g.preparations && g.preparations[i].finished ==>
        && after.guards == Guard.Apply(g, Guard.Forget(i))
        && (Guard.Passes(g, i) && undisturbed && |before.runtimes| < MAX_RETAINED_RUNTIME_GENERATIONS ==>
              && after.pointer.Some? && after.pointer.value !in before.used && after.link == after.pointer
              && Solid(after.runtimes, after.pointer.value))
    case Leasing(h) =>
      h !in before.leases && Intact(before) && undisturbed ==>
        h in after.leases && after.leases[h] == Lease(before.pointer.value, true)
    case Releasing(h) => h !in after.leases
    case Uninstalling(uuid, write) =>
      uuid !in g.issued && write.Replaced? && before.leases == map[] && undisturbed ==>
        after.runtimes == map[] && after.pointer == None && after.guards.epoch == Guard.Whole(uuid)
    case _ => true
  }

  lemma SettledSpares(before: Disk, moved: Disk, after: Disk, g: Generation)
    requires g !in before.runtimes && moved.runtimes == before.runtimes[g := Directory(true, false, false)]
    requires forall f | f in moved.runtimes && f != g ::
               f in after.runtimes && after.runtimes[f].complete == moved.runtimes[f].complete
    ensures forall f | f in before.runtimes :: Spared(after, before, f)
    ensures before.runtimes.Keys <= after.runtimes.Keys
  {
  }

  lemma AllSpared(before: Disk, runtimes: map<Generation, Directory>)
    requires runtimes == before.runtimes
    ensures forall after: Disk, f | after.runtimes == runtimes :: Spared(after, before, f)
  {
  }

  lemma {:induction false} NamesNeverRunOut(used: set<Generation>)
    ensures exists g: Generation :: g !in used
  {
    var g := NameBeyond(used);
    assert g !in used;
  }

  lemma {:induction false} NameBeyond(used: set<Generation>) returns (g: Generation)
    ensures forall n | n in used :: n < g
  {
    g := 0;
    if used != {} {
      var n :| n in used;
      g := NameBeyond(used - {n});
      if g <= n { g := n + 1; }
      assert used == (used - {n}) + {n};
    }
  }

  class RuntimeRoot {
    var disk: Disk
    var trail: seq<Disk>
    var begun: nat                 // the trail when the last request began
    const lucky: bool              // nothing fails
    ghost var bound: nat           // how many generations there may be
    ghost var uninstalled: bool    // an uninstall got as far as removing
    ghost var failures: nat        // how often something failed

    ghost predicate Valid()
      reads this
    {
      && begun < |trail| && disk == trail[|trail| - 1]
      && (lucky ==> failures == 0)
      && bound >= MAX_RETAINED_RUNTIME_GENERATIONS
      && forall d | d in trail :: Inv(d) && |d.runtimes| <= bound && (d.scrubbed == {} || uninstalled)
    }

    constructor (lucky: bool)
      ensures Valid() && this.lucky == lucky && disk == BLANK && trail == [BLANK]
      ensures bound == MAX_RETAINED_RUNTIME_GENERATIONS && !uninstalled
    {
      this.lucky := lucky;
      disk, trail, begun, bound, uninstalled := BLANK, [BLANK], 0, MAX_RETAINED_RUNTIME_GENERATIONS, false;
      failures := 0;
    }

    /** Crash safety of every run: whichever step the machine crashes after, the pointer and the link that
        survive name generations with all of their contents, unless an uninstall began to remove them.
        Without a crash, neither ever names a generation that was pruned. */
    lemma SurvivesEveryCrash(i: nat, left: Disk)
      requires Valid() && i < |trail| && CrashOutcome(trail[i], left)
      ensures Inv(left)
      ensures forall g | Some(g) in {trail[i].pointer, trail[i].link} && g !in trail[i].scrubbed ::
                Solid(trail[i].runtimes, g)
      ensures forall g | Some(g) in {left.pointer, left.link} && g !in trail[i].scrubbed :: Solid(left.runtimes, g)
      ensures !uninstalled ==> trail[i].scrubbed == {}
    {
      assert trail[i] in trail;
      CrashSafety(trail[i], left);
    }

    /** A leased generation is there and as whole as when it was leased, after every step. */
    lemma LeasesAreSafe(i: nat, h: Holder)
      requires Valid() && i < |trail| && h in trail[i].leases
      ensures var l := trail[i].leases[h];
              l.runtime in trail[i].runtimes && (l.complete ==> trail[i].runtimes[l.runtime].complete)
      ensures |trail[i].runtimes| <= bound
    {
      assert trail[i] in trail && LeasesHeld(trail[i]);
    }

    /** One filesystem step, after which some backends may let go of their leases. */
    method Put(next: Disk)
      requires Valid() && Inv(next) && |next.runtimes| <= bound && (next.scrubbed == {} || uninstalled)
      modifies this`disk, this`trail
      ensures Valid() && old(trail) <= trail
      ensures disk == next.(leases := disk.leases) && Fewer(disk.leases, next.leases)
    {
      var gone: set<Holder> := *;
      ReleasedKeeps(next, gone);
      disk := Released(next, gone);
      trail := trail + [disk];
    }

    /** Something that may fail, such as the flush of one path. */
    method Try() returns (ok: bool)
      requires Valid()
      modifies this`failures
      ensures Valid() && failures == old(failures) + if ok then 0 else 1
      ensures lucky ==> ok
    {
      ok := *;
      ok := ok || lucky;
      if !ok { failures := failures + 1; }
    }

    /** The active install, if its executable is there; a damaged runtime may have lost it. */
    method Installed() returns (active: Option<Generation>)
      requires Valid()
      ensures active.Some? ==> disk.pointer == active && active.value in disk.runtimes
      ensures active.None? && disk.pointer.Some? && disk.pointer.value in disk.runtimes ==>
                !disk.runtimes[disk.pointer.value].complete
    {
      if disk.pointer.None? || disk.pointer.value !in disk.runtimes { return None; }
      var executable: bool := *;
      active := if disk.runtimes[disk.pointer.value].complete || executable then disk.pointer else None;
    }

    method FlushTree(g: Generation) returns (ok: bool)
      requires Valid() && g in disk.runtimes
      modifies this`disk, this`trail, this`failures
      ensures Valid() && old(trail) <= trail && Fewer(disk.leases, old(disk.leases))
      ensures disk == (if ok then TreeFlushed(old(disk), g) else old(disk)).(leases := disk.leases)
      ensures old(failures) <= failures && (ok <==> failures == old(failures))
      ensures disk.runtimes.Keys == old(disk.runtimes.Keys)
    {
      ok := Try();
      if ok {
        FlushedKeeps(disk, g);
        assert |TreeFlushed(disk, g).runtimes| == |disk.runtimes|;
        Put(TreeFlushed(disk, g));
      }
    }

    method FlushEntries() returns (ok: bool)
      requires Valid()
      modifies this`disk, this`trail, this`failures
      ensures Valid() && old(trail) <= trail && Fewer(disk.leases, old(disk.leases))
      ensures disk == (if ok then EntriesFlushed(old(disk)) else old(disk)).(leases := disk.leases)
      ensures old(failures) <= failures && (ok <==> failures == old(failures))
      ensures disk.runtimes.Keys == old(disk.runtimes.Keys)
    {
      ok := Try();
      if ok {
        EntriesFlushedKeeps(disk);
        assert EntriesFlushed(disk).runtimes.Keys == disk.runtimes.Keys;
        assert |disk.runtimes.Keys| == |disk.runtimes|;
        Put(EntriesFlushed(disk));
      }
    }

    /** Flush the runtime root, the link's directory and their parents, in this order. */
    method SyncPublication() returns (ok: bool)
      requires Valid()
      modifies this`disk, this`trail, this`failures
      ensures Valid() && old(trail) <= trail && Fewer(disk.leases, old(disk.leases))
      ensures disk == old(disk).(leases := disk.leases, pointers := disk.pointers, links := disk.links)
      ensures ok ==> disk.pointers == {disk.pointer} && disk.links == {disk.link}
      ensures disk.pointers == old(disk.pointers) || disk.pointers == {disk.pointer}
      ensures old(failures) <= failures && (ok <==> failures == old(failures))
    {
      ok := Try();
      if !ok { return; }
      DirectoryFlushedKeeps(disk);
      Put(RootFlushed(disk));
      ok := Try();
      if !ok { return; }
      DirectoryFlushedKeeps(disk);
      Put(LinkFlushed(disk));
      ok := Try();
      if !ok { return; }
      ok := Try();
    }

    /** Point the compatibility link at the generation. */
    method PublishLink(g: Generation) returns (ok: bool)
      requires Valid() && (Solid(disk.runtimes, g) || g in disk.scrubbed)
      modifies this`disk, this`trail, this`failures
      ensures Valid() && old(trail) <= trail && Fewer(disk.leases, old(disk.leases))
      ensures disk == (if ok then Relinked(old(disk), Some(g)) else old(disk)).(leases := disk.leases)
      ensures old(failures) <= failures && (ok <==> failures == old(failures))
    {
      ok := Try();
      if ok {
        CommittedKeeps(disk, g);
        Put(Relinked(disk, Some(g)));
      }
    }

    /** Remove a retired generation, unless its lease cannot be taken exclusively; a removal may stop half-way. */
    method Reclaim(g: Generation) returns (removed: bool)
      requires Valid() && g in disk.runtimes && !Named(disk, g)
      modifies this`disk, this`trail, this`failures
      ensures Valid() && old(trail) <= trail && Fewer(disk.leases, old(disk.leases))
      ensures disk == old(disk).(leases := disk.leases, runtimes := disk.runtimes, leaseFiles := disk.leaseFiles)
      ensures removed ==> disk.runtimes == old(disk.runtimes) - {g}
      ensures !removed ==> disk.runtimes.Keys == old(disk.runtimes.Keys)
      ensures forall f | f in disk.runtimes && f != g :: disk.runtimes[f] == old(disk.runtimes[f])
      ensures old(failures) <= failures && (removed || Leased(old(disk), g) || failures > old(failures))
      ensures disk.leaseFiles == old(disk.leaseFiles) || (removed && disk.leaseFiles == old(disk.leaseFiles) - {g})
      ensures removed && failures == old(failures) ==> disk.leaseFiles == old(disk.leaseFiles) - {g}
    {
      if Leased(disk, g) { return false; }
      var locks := Try();
      if !locks { return false; }
      removed := Try();
      RemovableExactly(disk, g);
      assert |disk.runtimes[g := disk.runtimes[g].(complete := false)]| == |disk.runtimes|;
      Put(Removed(disk, g, removed));
      var unlinked := Try();
      if removed && unlinked {
        Put(disk.(leaseFiles := disk.leaseFiles - {g}));
      }
    }

    /** Reclaim every generation but the active and the previous one; the ones that stay are reported as kept. */
    method Prune(active: Generation, previous: Option<Generation>) returns (kept: set<Generation>)
      requires Valid() && disk.pointers == {Some(active)} && disk.links == {Some(active)}
      modifies this`disk, this`trail, this`failures
      ensures Valid() && old(trail) <= trail && Fewer(disk.leases, old(disk.leases))
      ensures disk == old(disk).(leases := disk.leases, runtimes := disk.runtimes, leaseFiles := disk.leaseFiles)
      ensures forall g :: g in disk.runtimes <==>
                g in old(disk.runtimes) && (g == active || Some(g) == previous || g in kept)
      ensures forall g | g in disk.runtimes && (g == active || Some(g) == previous) ::
                disk.runtimes[g] == old(disk.runtimes[g])
      ensures old(failures) <= failures
      ensures failures == old(failures) ==> forall g | g in kept :: Leased(old(disk), g)
    {
      kept := {};
      var todo := disk.runtimes.Keys;
      while todo != {}
        invariant Valid() && old(trail) <= trail && Fewer(disk.leases, old(disk.leases))
        invariant disk == old(disk).(leases := disk.leases, runtimes := disk.runtimes, leaseFiles := disk.leaseFiles)
        invariant todo <= old(disk.runtimes.Keys) && todo !! kept
        invariant forall g :: g in disk.runtimes <==>
                    g in old(disk.runtimes) && (g in todo || g == active || Some(g) == previous || g in kept)
        invariant forall g | g in disk.runtimes && (g == active || Some(g) == previous) ::
                    disk.runtimes[g] == old(disk.runtimes[g])
        invariant old(failures) <= failures
        invariant failures == old(failures) ==> forall g | g in kept :: Leased(old(disk), g)
        decreases |todo|
      {
        hide Inv, Valid;
        var g :| g in todo;
        todo := todo - {g};
        if g != active && Some(g) != previous {
          label A: var removed := Reclaim(g);
          if !removed {
            kept := kept + {g};
            if Leased(old@A(disk), g) { LeasedBefore(old@A(disk), old(disk), g); }
          }
        }
      }
    }

    lemma ActiveRecoverable(g: Generation)
      requires Valid() && disk.pointer == Some(g)
      ensures Solid(disk.runtimes, g) || g in disk.scrubbed
    {
      assert Inv(disk);
    }

    /** Make the active generation, the pointer to it and the link to it durable. */
    method Secure(g: Generation) returns (ok: bool)
      requires Valid() && disk.pointer == Some(g) && g in disk.runtimes
      modifies this`disk, this`trail, this`failures
      ensures Valid() && old(trail) <= trail && Fewer(disk.leases, old(disk.leases))
      ensures disk == old(disk).(leases := disk.leases, runtimes := disk.runtimes,
                                 pointers := disk.pointers, link := disk.link, links := disk.links)
      ensures disk.runtimes.Keys == old(disk.runtimes.Keys)
      ensures disk.runtimes[g].complete == old(disk.runtimes[g].complete)
      ensures disk.pointers == old(disk.pointers) || disk.pointers == {disk.pointer}
      ensures ok ==> disk.pointers == {Some(g)} && disk.links == {Some(g)}
      ensures old(failures) <= failures && (ok <==> failures == old(failures))
    {
      hide Valid, Inv, Fewer, Spared;
      ActiveRecoverable(g);
      assert Fewer(disk.leases, old(disk.leases)) by { FewerRefl(disk.leases); }
      ok := FlushTree(g);
      if !ok { return; }
      label A: ok := FlushEntries();
      FewerTrans(disk.leases, old@A(disk.leases), old(disk.leases));
      if !ok { return; }
      label B: ok := PublishLink(g);
      FewerTrans(disk.leases, old@B(disk.leases), old(disk.leases));
      if !ok { return; }
      label C: ok := SyncPublication();
      FewerTrans(disk.leases, old@C(disk.leases), old(disk.leases));
    }

    /** Room for one more generation: below the limit already, or after making the visible pointer and
        link durable and reclaiming everything else. */
    method EnsureCapacity() returns (ok: bool)
      requires Valid()
      modifies this`disk, this`trail, this`failures
      ensures Valid() && old(trail) <= trail && Fewer(disk.leases, old(disk.leases))
      ensures ok ==> |disk.runtimes| < MAX_RETAINED_RUNTIME_GENERATIONS
      ensures disk.pointer == old(disk.pointer) && disk.guards == old(disk.guards)
      ensures disk.used == old(disk.used) && disk.scrubbed == old(disk.scrubbed)
      ensures disk.pointers == old(disk.pointers) || disk.pointers == {disk.pointer}
      ensures disk.pointer.Some? ==> Spared(disk, old(disk), disk.pointer.value)
      ensures |old(disk.runtimes)| < MAX_RETAINED_RUNTIME_GENERATIONS ==>
                ok && disk == old(disk) && failures == old(failures)
      ensures old(failures) <= failures
      ensures !ok && failures == old(failures) && Intact(old(disk)) ==>
                && |disk.runtimes| >= MAX_RETAINED_RUNTIME_GENERATIONS
                && forall g | g in disk.runtimes :: Some(g) == disk.pointer || Leased(old(disk), g)
    {
      hide Valid, Inv;
      if |disk.runtimes| < MAX_RETAINED_RUNTIME_GENERATIONS { return true; }
      var active := Installed();
      if active.None? { return false; }
      var g := active.value;
      ok := Secure(g);
      if !ok { return; }
      label A: var kept := Prune(g, None);
      forall f | f in kept && Leased(old@A(disk), f)
        ensures Leased(old(disk), f)
      {
        LeasedBefore(old@A(disk), old(disk), f);
      }
      ok := FlushEntries();
      if !ok { return; }
      ok := |disk.runtimes| < MAX_RETAINED_RUNTIME_GENERATIONS;
    }

    /** Best-effort removal of a generation that was not published. */
    method Discard(g: Generation)
      requires Valid() && g in disk.runtimes && !Named(disk, g) && !Leased(disk, g)
      modifies this`disk, this`trail, this`failures
      ensures Valid() && old(trail) <= trail && Fewer(disk.leases, old(disk.leases))
      ensures disk == old(disk).(leases := disk.leases, runtimes := disk.runtimes)
      ensures forall f | f in old(disk.runtimes) && f != g ::
                f in disk.runtimes && disk.runtimes[f] == old(disk.runtimes[f])
      ensures disk.runtimes.Keys <= old(disk.runtimes.Keys)
      ensures old(failures) <= failures && (g !in disk.runtimes <==> failures == old(failures))
    {
      var all := Try();
      RemovableExactly(disk, g);
      assert |disk.runtimes[g := disk.runtimes[g].(complete := false)]| == |disk.runtimes|;
      Put(Removed(disk, g, all));
    }

    /** Any name that was never given out. */
    method NewName() returns (g: Generation)
      ensures g !in disk.used
    {
      NamesNeverRunOut(disk.used);
      g :| g !in disk.used;
    }

    /** Move the prepared runtime to a generation of a new name, after its lease file and the
        pointer candidate were written. */
    method Move() returns (moved: Option<Generation>)
      requires Valid() && |disk.runtimes| < MAX_RETAINED_RUNTIME_GENERATIONS
      modifies this`disk, this`trail, this`failures
      ensures Valid() && old(trail) <= trail && Fewer(disk.leases, old(disk.leases))
      ensures disk == old(disk).(leases := disk.leases, runtimes := disk.runtimes, leaseFiles := disk.leaseFiles,
                                 used := disk.used)
      ensures moved.None? ==> disk.runtimes == old(disk.runtimes)
      ensures moved.Some? ==>
        && moved.value !in old(disk.used) && moved.value !in disk.scrubbed
        && !Named(disk, moved.value) && !Leased(disk, moved.value)
        && moved.value !in old(disk.runtimes)
        && disk.runtimes == old(disk.runtimes)[moved.value := Directory(true, false, false)]
      ensures old(failures) <= failures && (moved.Some? <==> failures == old(failures))
    {
      moved := None;
      assert MAX_RETAINED_RUNTIME_GENERATIONS <= bound;
      var unique := Try();
      if !unique { return; }                 // no unique name was found
      var g := NewName();
      assert !Leased(disk, g) && !Named(disk, g) && g !in disk.runtimes;
      var ok := Try();
      if !ok { return; }                     // the lease file could not be opened
      assert Inv(disk.(leaseFiles := disk.leaseFiles + {g}));
      Put(disk.(leaseFiles := disk.leaseFiles + {g}));
      ok := Try();
      if !ok { return; }                     // the pointer candidate could not be written and flushed
      ok := Try();
      if !ok { return; }                     // the rename failed
      PlacedKeeps(disk, g);
      assert |Placed(disk, g).runtimes| == |disk.runtimes| + 1;
      hide Valid, Inv;
      Put(Placed(disk, g));
      moved := Some(g);
    }

    /** A new generation that is flushed, contents before entry; one that cannot be is discarded. */
    method Place() returns (placed: Option<Generation>)
      requires Valid() && |disk.runtimes| < MAX_RETAINED_RUNTIME_GENERATIONS
      modifies this`disk, this`trail, this`failures
      ensures Valid() && old(trail) <= trail && Fewer(disk.leases, old(disk.leases))
      ensures disk == old(disk).(leases := disk.leases, runtimes := disk.runtimes, leaseFiles := disk.leaseFiles,
                                 used := disk.used)
      ensures placed.Some? ==>
        && placed.value !in old(disk.used) && placed.value !in disk.scrubbed
        && placed.value !in old(disk.runtimes) && Solid(disk.runtimes, placed.value)
        && !Named(disk, placed.value) && !Leased(disk, placed.value)
      ensures old(failures) <= failures && (placed.Some? <==> failures == old(failures))
      ensures forall f | f in old(disk.runtimes) :: Spared(disk, old(disk), f)
      ensures placed.Some? ==> disk.runtimes.Keys == old(disk.runtimes.Keys) + {placed.value}
      ensures placed.None? && failures == old(failures) + 1 ==> disk.runtimes.Keys == old(disk.runtimes.Keys)
    {
      hide Valid, Inv, Spared;
      AllSpared(disk, disk.runtimes);
      placed := Move();
      if placed.None? {
        AllSpared(old(disk), disk.runtimes);
        return;
      }
      var g := placed.value;
      assert disk.runtimes.Keys == old(disk.runtimes.Keys) + {g};
      label A: var ok := Settle(g);
      SettledSpares(old(disk), old@A(disk), disk, g);
      if !ok { placed := None; }
    }

    /** Flush a generation that nothing names yet, contents before entry, or discard it. */
    method Settle(g: Generation) returns (ok: bool)
      requires Valid() && g in disk.runtimes && disk.runtimes[g].complete && !Named(disk, g) && !Leased(disk, g)
      modifies this`disk, this`trail, this`failures
      ensures Valid() && old(trail) <= trail && Fewer(disk.leases, old(disk.leases))
      ensures disk == old(disk).(leases := disk.leases, runtimes := disk.runtimes)
      ensures ok ==> Solid(disk.runtimes, g)
      ensures forall f | f in old(disk.runtimes) && f != g ::
                f in disk.runtimes && disk.runtimes[f].complete == old(disk.runtimes[f].complete)
      ensures old(failures) <= failures && (ok <==> failures == old(failures))
      ensures disk.runtimes.Keys <= old(disk.runtimes.Keys)
      ensures !ok && failures == old(failures) + 1 ==> g !in disk.runtimes
    {
      hide Valid, Inv;
      ok := FlushTree(g);
      if ok { ok := FlushEntries(); }
      if !ok { Discard(g); }
    }

    /** Replace the pointer, unless the install was cancelled or the rename fails. */
    method Commit(g: Generation) returns (ok: bool)
      requires Valid() && Solid(disk.runtimes, g)
      modifies this`disk, this`trail, this`failures
      ensures Valid() && old(trail) <= trail && Fewer(disk.leases, old(disk.leases))
      ensures disk == (if ok then Committed(old(disk), g) else old(disk)).(leases := disk.leases)
      ensures old(failures) <= failures && (ok <==> failures == old(failures))
    {
      ok := Try();                           // the install is not cancelled
      if !ok { return; }
      ok := Try();                           // the rename
      if ok {
        CommittedKeeps(disk, g);
        Put(Committed(disk, g));
      }
    }

    /** Publish a committed generation: the link, then every directory; only then is the past reclaimed. `tried`
        is how often something had failed when that was done. */
    method Publish(g: Generation, previous: Option<Generation>) returns (durable: bool, ghost tried: nat)
      requires Valid() && disk.pointer == Some(g) && Solid(disk.runtimes, g)
      modifies this`disk, this`trail, this`failures
      ensures Valid() && old(trail) <= trail && Fewer(disk.leases, old(disk.leases))
      ensures disk == old(disk).(leases := disk.leases, runtimes := disk.runtimes, leaseFiles := disk.leaseFiles,
                                 pointers := disk.pointers, link := disk.link, links := disk.links)
      ensures Solid(disk.runtimes, g)
      ensures old(failures) <= tried <= failures && (durable <==> tried == old(failures))
      ensures durable ==> disk.pointers == {Some(g)} && disk.links == {Some(g)} && disk.link == Some(g)
      ensures durable && previous.Some? ==> Spared(disk, old(disk), previous.value)
      ensures durable && failures == tried ==>
                forall f | f in disk.runtimes :: f == g || Some(f) == previous || Leased(old(disk), f)
      ensures !durable ==> disk.runtimes == old(disk.runtimes)
    {
      hide Valid, Inv;
      var linked := PublishLink(g);
      var synced := SyncPublication();
      tried := failures;
      durable := linked && synced;
      if durable {
        label A: var kept := Prune(g, previous);
        forall f | f in kept && Leased(old@A(disk), f)
          ensures Leased(old(disk), f)
        {
          LeasedBefore(old@A(disk), old(disk), f);
        }
      }
    }

    /** Place the staged runtime and commit the pointer to it, or discard it; the install before it is reported. */
    method PlaceAndCommit() returns (committed: Option<Generation>, previous: Option<Generation>)
      requires Valid() && |disk.runtimes| < MAX_RETAINED_RUNTIME_GENERATIONS
      modifies this`disk, this`trail, this`failures
      ensures Valid() && old(trail) <= trail && Fewer(disk.leases, old(disk.leases))
      ensures disk.guards == old(disk.guards) && disk.scrubbed == old(disk.scrubbed)
      ensures old(failures) <= failures && (committed.Some? <==> failures == old(failures))
      ensures forall f | f in old(disk.runtimes) :: Spared(disk, old(disk), f)
      ensures committed.None? ==> disk.pointer == old(disk.pointer)
      ensures committed.None? && failures == old(failures) + 1 ==> disk.runtimes.Keys == old(disk.runtimes.Keys)
      ensures committed.Some? ==>
                && disk.pointer == committed && committed.value !in old(disk.used)
                && committed.value !in disk.scrubbed && Solid(disk.runtimes, committed.value)
      ensures committed.Some? && previous.Some? ==> previous == old(disk.pointer)
      ensures committed.Some? && Intact(old(disk)) ==> previous == old(disk.pointer)
    {
      hide Valid, Inv;
      FewerRefl(disk.leases);
      committed := Place();
      previous := None;
      if committed.None? { return; }
      var g := committed.value;
      previous := Installed();
      label A: var ok := Commit(g);
      FewerTrans(disk.leases, old@A(disk.leases), old(disk.leases));
      if !ok {
        Discard(g);
        committed := None;
      }
    }

    /** Publish a staged runtime: make room, place it, commit the pointer to it, make all of it durable. */
    method PublishStaged() returns (r: Activation)
      requires Valid()
      modifies this`disk, this`trail, this`failures
      ensures Valid() && old(trail) <= trail && Fewer(disk.leases, old(disk.leases))
      ensures disk.guards == old(disk.guards) && disk.scrubbed == old(disk.scrubbed)
      ensures Published(r) || (r.Failed? && disk.pointer == old(disk.pointer))
      ensures Published(r) ==>
                && disk.pointer == Some(r.generation) && r.generation !in old(disk.used)
                && r.generation !in disk.scrubbed && Solid(disk.runtimes, r.generation)
      ensures r.Durable? ==> disk.pointers == {Some(r.generation)} && disk.links == {Some(r.generation)}
      ensures Intact(old(disk)) ==> Spared(disk, old(disk), old(disk).pointer.value)
      ensures !r.Durable? && |old(disk.runtimes)| < MAX_RETAINED_RUNTIME_GENERATIONS ==>
                forall f | f in old(disk).runtimes :: Spared(disk, old(disk), f)
      ensures old(failures) <= failures
      ensures r.CommittedNotDurable? ==> failures > old(failures)
      ensures r.Failed? && |old(disk.runtimes)| < MAX_RETAINED_RUNTIME_GENERATIONS ==> failures > old(failures)
      ensures r.Failed? && |old(disk.runtimes)| < MAX_RETAINED_RUNTIME_GENERATIONS && failures == old(failures) + 1 ==>
                disk.runtimes.Keys == old(disk.runtimes.Keys)
      ensures r.Durable? ==> disk.link == Some(r.generation)
      ensures r.Durable? && failures == old(failures) ==>
                forall f | f in disk.runtimes ::
                  f == r.generation || Some(f) == old(disk.pointer) || Leased(old(disk), f)
    {
      hide Valid, Inv;
      FewerRefl(disk.leases);
      var room := EnsureCapacity();
      if !room { return Failed; }
      label A: var committed, previous := PlaceAndCommit();
      FewerTrans(disk.leases, old@A(disk.leases), old(disk.leases));
      if committed.None? { return Failed; }
      var g := committed.value;
      label B: var durable, tried := Publish(g, previous);
      forall f | f in disk.runtimes && Leased(old@B(disk), f)
        ensures Leased(old(disk), f)
      {
        LeasedBefore(old@B(disk), old(disk), f);
      }
      FewerTrans(disk.leases, old@B(disk.leases), old(disk.leases));
      r := if durable then Durable(g) else CommittedNotDurable(g);
    }

    /** One step that only the guards see. */
    method Guarded(e: Guard.Event)
      requires Valid() && Guard.Enabled(disk.guards, e)
      modifies this`disk, this`trail
      ensures Valid() && old(trail) <= trail && Fewer(disk.leases, old(disk.leases))
      ensures disk == old(disk).(guards := Guard.Apply(old(disk.guards), e), leases := disk.leases)
    {
      Guard.StepKeeps(disk.guards, e);
      Put(disk.(guards := Guard.Apply(disk.guards, e)));
    }

    /** Activate a prepared install. It is refused exactly when the guards do not let it pass, and is used up. */
    method Activate(i: Guard.Install) returns (r: Activation)
      requires Valid() && i in disk.guards.preparations && disk.guards.preparations[i].finished
      modifies this`disk, this`trail, this`failures
      ensures Valid() && old(trail) <= trail && Fewer(disk.leases, old(disk.leases))
      ensures disk.guards == Guard.Apply(old(disk.guards), Guard.Forget(i)) && disk.scrubbed == old(disk.scrubbed)
      ensures i !in disk.guards.preparations && i !in disk.guards.stages
      ensures r.Invalidated? <==> old(disk.guards.preparations[i].epoch != disk.guards.epoch)
      ensures r.Invalidated? || r.Unavailable? <==> !Guard.Passes(old(disk.guards), i)
      ensures !Guard.Passes(old(disk.guards), i) ==> disk == old(disk).(guards := disk.guards, leases := disk.leases)
      ensures !Published(r) ==> disk.pointer == old(disk.pointer)
      ensures Published(r) ==>
                && disk.pointer == Some(r.generation) && r.generation !in old(disk.used)
                && r.generation !in disk.scrubbed && Solid(disk.runtimes, r.generation)
      ensures Published(r) && i in old(disk.guards.outdated) ==>
                old(disk.guards.preparations[i]).epoch.Cut? && i in old(disk.guards.rebuilt)
      ensures r.Durable? ==> disk.pointers == {Some(r.generation)} && disk.links == {Some(r.generation)}
      ensures Intact(old(disk)) ==> Spared(disk, old(disk), old(disk).pointer.value)
      ensures !r.Durable? && |old(disk.runtimes)| < MAX_RETAINED_RUNTIME_GENERATIONS ==>
                forall f | f in old(disk).runtimes :: Spared(disk, old(disk), f)
      ensures old(failures) <= failures
      ensures r.CommittedNotDurable? ==> failures > old(failures)
      ensures r.Failed? && |old(disk.runtimes)| < MAX_RETAINED_RUNTIME_GENERATIONS ==> failures > old(failures)
      ensures r.Failed? && |old(disk.runtimes)| < MAX_RETAINED_RUNTIME_GENERATIONS && failures == old(failures) + 1 ==>
                disk.runtimes.Keys == old(disk.runtimes.Keys)
      ensures r.Durable? ==> disk.link == Some(r.generation)
      ensures r.Durable? && failures == old(failures) ==>
                forall f | f in disk.runtimes ::
                  f == r.generation || Some(f) == old(disk.pointer) || Leased(old(disk), f)
    {
      hide Valid, Inv;
      if i in disk.guards.outdated && Guard.Passes(disk.guards, i) { GuardsKnown(i); }
      FewerRefl(disk.leases);
      if disk.guards.preparations[i].epoch != disk.guards.epoch {
        r := Invalidated;
      } else if i !in disk.guards.stages {
        r := Unavailable;
      } else {
        r := PublishStaged();
      }
      label A: Guarded(Guard.Forget(i));
      FewerTrans(disk.leases, old@A(disk.leases), old(disk.leases));
    }

    lemma GuardsKnown(i: Guard.Install)
      requires Valid() && i in disk.guards.preparations && i in disk.guards.outdated && Guard.Passes(disk.guards, i)
      ensures disk.guards.preparations[i].epoch.Cut? && i in disk.guards.rebuilt
    {
      assert Inv(disk);
    }

    /** Resolve the active install and lease it, in one critical section. */
    method InstalledWithLease(h: Holder) returns (active: Option<Generation>)
      requires Valid() && h !in disk.leases
      modifies this`disk, this`trail, this`failures
      ensures Valid() && old(trail) <= trail
      ensures active.None? ==> disk == old(disk)
      ensures old(failures) <= failures && (active.None? && Intact(old(disk)) ==> failures > old(failures))
      ensures active.Some? ==>
        && active == disk.pointer && active.value in disk.runtimes
        && var l := Lease(active.value, disk.runtimes[active.value].complete);
           disk == old(disk).(leaseFiles := old(disk.leaseFiles) + {active.value}, leases := old(disk.leases)[h := l])
    {
      active := Installed();
      var ok := Try();
      if active.None? || !ok { return None; }
      var g := active.value;
      var l := Lease(g, disk.runtimes[g].complete);
      disk := disk.(leaseFiles := disk.leaseFiles + {g}, leases := disk.leases[h := l]);
      trail := trail + [disk];
    }

    method Release(h: Holder)
      requires Valid()
      modifies this`disk, this`trail
      ensures Valid() && old(trail) <= trail && disk == Released(old(disk), {h})
    {
      ReleasedKeeps(disk, {h});
      disk := Released(disk, {h});
      trail := trail + [disk];
    }

    /** Lock every lease exclusively, or find one in use; afterwards nobody holds a lease. */
    method LockAllLeases() returns (ok: bool)
      requires Valid()
      modifies this`disk, this`trail, this`failures
      ensures Valid() && old(trail) <= trail && Fewer(disk.leases, old(disk.leases))
      ensures disk == old(disk).(leases := disk.leases)
      ensures ok ==> disk.leases == map[]
      ensures old(failures) <= failures
      ensures !ok ==> failures > old(failures) || old(disk.leases) != map[]
      ensures old(disk.leases) == map[] ==> (ok <==> failures == old(failures))
    {
      var todo := disk.leaseFiles;
      while todo != {}
        invariant Valid() && old(trail) <= trail && Fewer(disk.leases, old(disk.leases))
        invariant disk == old(disk).(leases := disk.leases)
        invariant todo <= disk.leaseFiles
        invariant forall g | g in disk.leaseFiles && g !in todo :: !Leased(disk, g)
        invariant failures == old(failures)
        decreases |todo|
      {
        var g :| g in todo;
        var opens := Try();
        if Leased(disk, g) || !opens { return false; }
        todo := todo - {g};
        Put(disk);
      }
      assert LeasesHeld(disk);
      assert forall h | h in disk.leases :: Leased(disk, disk.leases[h].runtime);
      ok := true;
    }

    /** Truncate the lock file, write a new epoch and flush it; any of these can fail. */
    method InvalidatePreparedInstalls(uuid: nat, write: Guard.EpochWrite) returns (ok: bool)
      requires Valid() && uuid !in disk.guards.issued
      modifies this`disk, this`trail, this`failures
      ensures Valid() && old(trail) <= trail && Fewer(disk.leases, old(disk.leases))
      ensures disk == old(disk).(leases := disk.leases,
                                 guards := Guard.Apply(old(disk.guards), Guard.Advance(uuid, write)))
      ensures ok ==> write.Replaced? && Guard.Current(disk.guards)
      ensures old(failures) <= failures && (write.Replaced? ==> (ok <==> failures == old(failures)))
    {
      assert Inv(disk);
      Guarded(Guard.Advance(uuid, write));
      ok := Try();
      ok := ok && write.Replaced?;
    }

    method Unlink() returns (ok: bool)
      requires Valid()
      modifies this`disk, this`trail, this`failures
      ensures Valid() && old(trail) <= trail && Fewer(disk.leases, old(disk.leases))
      ensures disk == (if ok && old(disk).link.Some? then Relinked(old(disk), None) else old(disk))
                      .(leases := disk.leases)
      ensures old(failures) <= failures && (ok <==> failures == old(failures))
    {
      ok := Try();
      if ok && disk.link.Some? {
        DirectoryFlushedKeeps(disk);
        Put(Relinked(disk, None));
      }
    }

    method RemovePointer()
      requires Valid()
      modifies this`disk, this`trail
      ensures Valid() && old(trail) <= trail && Fewer(disk.leases, old(disk.leases))
      ensures disk == PointerRemoved(old(disk)).(leases := disk.leases)
    {
      DirectoryFlushedKeeps(disk);
      Put(PointerRemoved(disk));
    }

    method Scrub(g: Generation, all: bool)
      requires Valid() && uninstalled && g in disk.runtimes && !Leased(disk, g)
      modifies this`disk, this`trail
      ensures Valid() && old(trail) <= trail && Fewer(disk.leases, old(disk.leases))
      ensures disk == Scrubbed(old(disk), g, all).(leases := disk.leases)
      ensures all ==> |disk.runtimes| < |old(disk.runtimes)|
    {
      ScrubbedKeeps(disk, g, all);
      assert |disk.runtimes[g := disk.runtimes[g].(complete := false)]| == |disk.runtimes|;
      Put(Scrubbed(disk, g, all));
    }

    /** What is left in the root. */
    ghost function Entries(): nat
      reads this
    {
      |disk.guards.stages| + |disk.runtimes| + if disk.pointer.Some? then 1 else 0
    }

    /** Remove one stage. */
    method RemoveStage()
      requires Valid() && disk.guards.stages != {}
      modifies this`disk, this`trail
      ensures Valid() && old(trail) <= trail && Fewer(disk.leases, old(disk.leases))
      ensures disk == old(disk).(leases := disk.leases, guards := disk.guards)
      ensures disk.guards == old(disk.guards).(stages := disk.guards.stages, rebuilt := disk.guards.rebuilt)
      ensures |disk.guards.stages| < |old(disk.guards.stages)|
    {
      hide Valid, Inv;
      var i :| i in disk.guards.stages;
      Guarded(Guard.Erase(i));
    }

    /** Remove any one entry of the root, or stop half-way in a generation. */
    method RemoveEntry() returns (ok: bool)
      requires Valid() && uninstalled && disk.leases == map[]
      requires disk.runtimes != map[] || disk.pointer.Some? || disk.guards.stages != {}
      modifies this`disk, this`trail, this`failures
      ensures Valid() && old(trail) <= trail && disk.leases == map[]
      ensures disk == old(disk).(runtimes := disk.runtimes, pointer := disk.pointer, pointers := disk.pointers,
                                 scrubbed := disk.scrubbed, guards := disk.guards)
      ensures SameNames(old(disk), disk)
      ensures disk.guards == old(disk.guards).(stages := disk.guards.stages, rebuilt := disk.guards.rebuilt)
      ensures ok ==> Entries() < old(Entries())
      ensures old(failures) <= failures && (ok <==> failures == old(failures))
    {
      hide Valid, Inv;
      var next: nat := *;
      ok := Try();
      if disk.guards.stages != {} && (next == 0 || (disk.pointer.None? && disk.runtimes == map[])) {
        if ok { RemoveStage(); }
      } else if disk.pointer.Some? && (next == 1 || disk.runtimes == map[]) {
        if ok { RemovePointer(); }
      } else {
        var g :| g in disk.runtimes;
        Scrub(g, ok);
      }
    }

    /** Remove the whole root, entry by entry in any order, until something cannot be removed. */
    method RemoveRoot() returns (ok: bool)
      requires Valid() && uninstalled && disk.leases == map[]
      modifies this`disk, this`trail, this`failures
      ensures Valid() && old(trail) <= trail && disk.leases == map[]
      ensures disk == old(disk).(runtimes := disk.runtimes, pointer := disk.pointer, pointers := disk.pointers,
                                 scrubbed := disk.scrubbed, guards := disk.guards)
      ensures SameNames(old(disk), disk)
      ensures disk.guards == old(disk.guards).(stages := disk.guards.stages, rebuilt := disk.guards.rebuilt)
      ensures ok ==> disk.runtimes == map[] && disk.pointer == None && disk.guards.stages == {}
      ensures old(failures) <= failures && (ok <==> failures == old(failures))
    {
      while disk.runtimes != map[] || disk.pointer.Some? || disk.guards.stages != {}
        invariant Valid() && old(trail) <= trail && disk.leases == map[]
        invariant disk == old(disk).(runtimes := disk.runtimes, pointer := disk.pointer, pointers := disk.pointers,
                                     scrubbed := disk.scrubbed, guards := disk.guards)
        invariant SameNames(old(disk), disk)
        invariant disk.guards == old(disk.guards).(stages := disk.guards.stages, rebuilt := disk.guards.rebuilt)
        invariant failures == old(failures)
        decreases Entries()
      {
        hide Valid, Inv, Entries;
        var removed := RemoveEntry();
        if !removed { return false; }
      }
      ok := true;
    }

    /** Remove the install. Nothing is touched while a lease is held, and the epoch advances first. Nothing that
        is removed is flushed, so the names a crash can leave stay what they were, and `None`. */
    method Uninstall(uuid: nat, write: Guard.EpochWrite) returns (completed: bool)
      requires Valid() && uuid !in disk.guards.issued
      modifies this`disk, this`trail, this`uninstalled, this`failures
      ensures Valid() && old(trail) <= trail && Fewer(disk.leases, old(disk.leases))
      ensures disk.leases != map[] ==> disk == old(disk).(leases := disk.leases) && !completed
      ensures SameNames(old(disk), disk)
      ensures disk.guards.preparations == old(disk.guards.preparations)
      ensures completed ==>
        && disk.runtimes == map[] && disk.leaseFiles == {} && disk.pointer == None && disk.link == None
        && write.Replaced?
        && disk.guards == old(disk.guards).(epoch := Guard.Whole(uuid), issued := old(disk.guards.issued) + {uuid},
                                            stages := {}, outdated := disk.guards.preparations.Keys, rebuilt := {})
      ensures completed ==> (CrashSafe(disk) <==> forall g: Generation :: !Named(old(disk), g))
      ensures old(failures) <= failures
      ensures !completed ==> failures > old(failures) || old(disk.leases) != map[] || !write.Replaced?
      ensures failures == old(failures) && old(disk.leases) == map[] ==>
        && (!completed ==> disk == old(disk).(guards := Guard.Apply(old(disk.guards), Guard.Advance(uuid, write))))
    {
      hide Valid, Inv;
      completed := LockAllLeases();
      if !completed { return; }
      completed := InvalidatePreparedInstalls(uuid, write);
      if !completed { return; }
      completed := RemoveAll();
      if !completed { return; }
      Guarded(Guard.Complete);
      NowInv();
      RemovedCrashSafeExactly(old(disk), disk);
    }

    /** Remove the link, the root and the lease files. */
    method RemoveAll() returns (ok: bool)
      requires Valid() && disk.leases == map[]
      modifies this`disk, this`trail, this`uninstalled, this`failures
      ensures Valid() && old(trail) <= trail && disk.leases == map[]
      ensures SameNames(old(disk), disk)
      ensures disk.guards == old(disk.guards).(stages := disk.guards.stages, rebuilt := disk.guards.rebuilt)
      ensures ok ==>
        && disk.runtimes == map[] && disk.leaseFiles == {} && disk.pointer == None && disk.link == None
        && disk.guards.stages == {}
      ensures old(failures) <= failures && (ok <==> failures == old(failures))
    {
      hide Valid, Inv;
      ok := Unlink();
      if !ok { return; }
      UninstallBegins();
      ok := RemoveRoot();
      if !ok { return; }
      ok := RemoveLeaseFiles();
    }

    lemma Luck()
      requires Valid() && lucky
      ensures failures == 0
    {
    }

    lemma NowInv()
      requires Valid()
      ensures Inv(disk)
    {
    }

    method RemoveLeaseFiles() returns (ok: bool)
      requires Valid() && disk.leases == map[]
      modifies this`disk, this`trail, this`failures
      ensures Valid() && old(trail) <= trail
      ensures disk == old(disk).(leaseFiles := if ok then {} else old(disk).leaseFiles)
      ensures old(failures) <= failures && (ok <==> failures == old(failures))
    {
      ok := Try();
      if ok {
        assert Inv(disk.(leaseFiles := {}));
        Put(disk.(leaseFiles := {}));
      }
    }

    ghost method UninstallBegins()
      requires Valid()
      modifies this`uninstalled
      ensures Valid() && uninstalled
    {
      uninstalled := true;
    }

    // ---- Requests -----------------------------------------------------------

    /** Begin a request: an earlier one cannot be interrupted any more. */
    method Begin()
      requires Valid()
      modifies this`begun
      ensures Valid() && begun == |trail| - 1
    {
      begun := |trail| - 1;
    }

    /** A request that only the guards see, if it can be made. */
    method PerformGuarded(r: Request)
      requires Valid() && (r.Preparing? || r.Downloading? || r.Finishing? || r.Abandoning?)
      modifies this`disk, this`trail
      ensures Valid() && old(trail) <= trail && Achieves(old(disk), r, disk, true)
    {
      hide Valid, Inv, Guard.Apply;
      var prepared := disk.guards.preparations;
      match r
      case Preparing(i) =>
        if i !in disk.guards.prepared { Guarded(Guard.Prepare(i)); }
      case Downloading(i) =>
        if i in prepared && !prepared[i].finished { Guarded(Guard.Fill(i)); }
      case Finishing(i) =>
        if i in prepared { Guarded(Guard.Finish(i)); }
      case Abandoning(i) =>
        Guarded(Guard.Forget(i));
    }

    /** Serve one request, if it can be made. */
    method Perform(r: Request)
      requires Valid() && !r.Killed? && !r.Crashed?
      modifies this`disk, this`trail, this`uninstalled, this`failures
      ensures Valid() && old(trail) <= trail
      ensures !r.Uninstalling? ==> uninstalled == old(uninstalled)
      ensures old(failures) <= failures && Achieves(old(disk), r, disk, failures == old(failures))
    {
      hide Valid, Inv, Guard.Apply, Guard.Passes, Solid, CrashSafe, SameNames, Spared, Fewer;
      if r.Activating? {
        var prepared := disk.guards.preparations;
        if r.install in prepared && prepared[r.install].finished { var _ := Activate(r.install); }
      } else if r.Leasing? {
        if r.holder !in disk.leases { var _ := InstalledWithLease(r.holder); }
      } else if r.Releasing? {
        Release(r.holder);
      } else if r.Uninstalling? {
        if r.uuid !in disk.guards.issued { var _ := Uninstall(r.uuid, r.write); }
      } else {
        PerformGuarded(r);
      }
    }

    /** Serve one request, or stop in the last one: a process is killed, or the machine crashes, after any of its
        steps. */
    method Serve(r: Request)
      requires Valid()
      modifies this
      ensures Valid() && old(trail) <= trail
      ensures !r.Crashed? ==> bound == old(bound)
      ensures !r.Uninstalling? ==> uninstalled == old(uninstalled)
      ensures Achieves(old(disk), r, disk, failures == old(failures))
      ensures r.Killed? ==> disk in old(trail)[old(begun)..]
      ensures r.Crashed? && disk != old(disk) ==>
                exists d :: d in old(trail)[old(begun)..] && CrashOutcome(d, disk)
    {
      match r
      case Killed(at) => Kill(at);
      case Crashed(at, left) => Crash(at, left);
      case _ =>
        Begin();
        Perform(r);
    }

    /** The process that served the last request stops after one of its steps. */
    method Kill(at: nat)
      requires Valid()
      modifies this`disk, this`trail, this`begun
      ensures Valid() && old(trail) <= trail && disk in old(trail)[old(begun)..]
    {
      var step := if begun <= at < |trail| then at else |trail| - 1;
      assert trail[step] == trail[begun..][step - begun];
      disk, trail := trail[step], trail + [trail[step]];
      Begin();
    }

    /** The machine stops after one of its steps, and starts again with what that left. */
    method Crash(at: nat, left: Disk)
      requires Valid()
      modifies this`disk, this`trail, this`begun, this`bound
      ensures Valid() && old(trail) <= trail
      ensures disk != old(disk) ==> exists d :: d in old(trail)[old(begun)..] && CrashOutcome(d, disk)
    {
      if begun <= at < |trail| && CrashOutcome(trail[at], left) {
        assert trail[at] == trail[begun..][at - begun];
        CrashSafety(trail[at], left);
        disk, trail := left, trail + [left];
        bound := if |left.runtimes| > bound then |left.runtimes| else bound;
      }
      Begin();
    }

    /** Serve the requests of any number of processes. Every disk on the trail satisfies the invariant;
        without uninstalls nothing is scrubbed, so every crash leaves a whole runtime behind the pointer
        and the link; without machine crashes the number of generations stays within the limit. */
    method Lifetime(requests: seq<Request>)
      requires Valid()
      modifies this
      ensures Valid() && old(trail) <= trail
      ensures (forall r | r in requests :: !r.Crashed?) ==> bound == old(bound)
      ensures (forall r | r in requests :: !r.Uninstalling?) ==> uninstalled == old(uninstalled)
    {
      hide Valid;
      for i := 0 to |requests|
        invariant Valid() && old(trail) <= trail
        invariant (forall r | r in requests[..i] :: !r.Crashed?) ==> bound == old(bound)
        invariant (forall r | r in requests[..i] :: !r.Uninstalling?) ==> uninstalled == old(uninstalled)
      {
        assert requests[..i + 1] == requests[..i] + [requests[i]];
        Serve(requests[i]);
      }
      assert requests[..|requests|] == requests;
    }
  }

  const IN_FLIGHT := map[1 := Guard.Preparation(Guard.INITIAL_EPOCH, false)]

  /** An install that is still downloading when an uninstall completes. */
  method OutdateInstall() returns (root: RuntimeRoot)
    ensures fresh(root) && root.Valid() && root.lucky && root.disk.leases == map[] && root.disk.runtimes == map[]
    ensures root.disk.pointer == None && |root.trail| > 0 && root.disk == root.trail[|root.trail| - 1]
    ensures root.disk.guards == Guard.Guards(Guard.Whole(0), {0}, IN_FLIGHT, {}, {1}, {1}, {})
  {
    hide Inv, Guard.Inv, CrashSafe, Fewer, SameNames;
    root := new RuntimeRoot(true);
    root.Guarded(Guard.Prepare(1));
    root.Guarded(Guard.Fill(1));
    assert root.disk.guards == Guard.Guards(Guard.INITIAL_EPOCH, {}, IN_FLIGHT, {1}, {1}, {}, {});
    NoLeases(root.disk.leases);
    var completed := root.Uninstall(0, Guard.Replaced);
    NoLeases(root.disk.leases);
  }

  lemma NoLeases(now: map<Holder, Lease>)
    requires Fewer(now, map[])
    ensures now == map[]
  {
  }

  /** It writes its stage again and finishes. A second uninstall fails between truncating the epoch and
      writing it. Then the install publishes. */
  method ReviveInstall(root: RuntimeRoot) returns (r: Activation)
    requires root.Valid() && root.lucky && root.disk.leases == map[] && root.disk.runtimes == map[]
    requires root.disk.guards == Guard.Guards(Guard.Whole(0), {0}, IN_FLIGHT, {}, {1}, {1}, {})
    modifies root
    ensures root.Valid() && old(root.trail) <= root.trail
    ensures Published(r) && root.disk.pointer == Some(r.generation)
  {
    hide RuntimeRoot.Valid, Inv, Guard.Inv, CrashSafe, Spared, SameNames;
    root.Guarded(Guard.Fill(1));
    root.Guarded(Guard.Finish(1));
    var over := map[1 := Guard.Preparation(Guard.INITIAL_EPOCH, true)];
    assert root.disk.guards == Guard.Guards(Guard.Whole(0), {0}, over, {1}, {1}, {1}, {1});
    assert root.disk.leases == map[];
    root.Luck();
    var completed := root.Uninstall(1, Guard.Truncated(0));
    root.Luck();
    assert Guard.Passes(root.disk.guards, 1);
    r := root.Activate(1);
    root.Luck();
  }

  /** The failing run: an install that was prepared before the runtime was ever uninstalled publishes after an
      uninstall completed, which left nothing behind. */
  method PublishesAfterUninstall() returns (root: RuntimeRoot, at: nat, r: Activation)
    ensures fresh(root) && root.Valid()
    ensures at < |root.trail| && 1 in root.trail[at].guards.outdated && root.trail[at].pointer == None
    ensures Published(r) && root.disk.pointer == Some(r.generation)
  {
    root := OutdateInstall();
    at := |root.trail| - 1;
    assert root.trail[at] == root.disk;
    hide RuntimeRoot.Valid;
    label A: r := ReviveInstall(root);
    assert root.trail[at] == old@A(root.trail)[at];
  }

  /** A run that ends unsafe: nothing is left of the install, but a crash can bring its pointer back. */
  method UninstallThenCrash() returns (root: RuntimeRoot, completed: bool)
    ensures fresh(root) && root.Valid() && completed
    ensures root.disk.runtimes == map[] && root.disk.pointer == None && !CrashSafe(root.disk)
  {
    hide RuntimeRoot.Valid, Inv, Guard.Inv, CrashSafe, SameNames;
    root := InstallFirst();
    root.Luck();
    completed := root.Uninstall(0, Guard.Replaced);
    root.Luck();
  }

  method InstallFirst() returns (root: RuntimeRoot)
    ensures fresh(root) && root.Valid() && root.lucky && root.disk.leases == map[] && root.disk.guards.issued == {}
    ensures root.disk.pointer.Some? && Named(root.disk, root.disk.pointer.value)
  {
    root := PrepareFirst();
    hide RuntimeRoot.Valid, Inv, Guard.Inv, Spared, Fewer;
    root.Luck();
    var r := root.Activate(1);
    root.Luck();
    NoLeases(root.disk.leases);
    root.NowInv();
    PointerIsNamed(root.disk);
  }

  method PrepareFirst() returns (root: RuntimeRoot)
    ensures fresh(root) && root.Valid() && root.lucky && root.disk.leases == map[] && root.disk.runtimes == map[]
    ensures Guard.Passes(root.disk.guards, 1) && root.disk.guards.issued == {}
  {
    hide Inv, Guard.Inv, Fewer;
    root := new RuntimeRoot(true);
    root.Guarded(Guard.Prepare(1));
    root.Guarded(Guard.Fill(1));
    root.Guarded(Guard.Finish(1));
    NoLeases(root.disk.leases);
  }

  lemma PointerIsNamed(d: Disk)
    requires Inv(d) && d.pointer.Some?
    ensures Named(d, d.pointer.value)
  {
  }
}
