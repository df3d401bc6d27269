/**
 The part of the filesystem that a managed runtime lives in, as it is visible
 now and as a crash could leave it, and the single filesystem steps of
 activation, capacity recovery, pruning and uninstall.
 */
module RuntimeDisk {
  import opened Options
  import InstallGuards

  const MAX_RETAINED_RUNTIME_GENERATIONS: nat := 8

  type Generation = nat
  type Holder = nat

  /** A generation directory: nothing of it was removed, its contents are flushed, its entry is flushed. */
  datatype Directory = Directory(complete: bool, flushed: bool, linked: bool)

  /** A shared lease, and whether the runtime was complete when it was taken. */
  datatype Lease = Lease(runtime: Generation, complete: bool)

  datatype Disk = Disk(
    runtimes: map<Generation, Directory>,
    leaseFiles: set<Generation>,
    leases: map<Holder, Lease>,
    pointer: Option<Generation>,         // the generation that installed.json names
    pointers: set<Option<Generation>>,   // what it may name after a crash
    link: Option<Generation>,            // the generation that the compatibility link names
    links: set<Option<Generation>>,
    guards: InstallGuards.Guards,        // epoch and stages
    used: set<Generation>,               // every name ever given out
    scrubbed: set<Generation>)           // generations an uninstall began to remove

  const BLANK: Disk := Disk(map[], {}, map[], None, {None}, None, {None}, InstallGuards.NEW_GUARDS, {}, {})

  /** The generation survives any crash with all of its contents. */
  predicate Solid(runtimes: map<Generation, Directory>, g: Generation) {
    g in runtimes && runtimes[g] == Directory(true, true, true)
  }

  predicate Named(d: Disk, g: Generation) {
    Some(g) in d.pointers || Some(g) in d.links
  }

  /** A crash can leave the same names, apart from none at all. */
  predicate SameNames(d: Disk, e: Disk) {
    d.pointers - {None} == e.pointers - {None} && d.links - {None} == e.links - {None}
  }

  predicate Leased(d: Disk, g: Generation) {
    exists h | h in d.leases :: d.leases[h].runtime == g
  }

  /** Whatever name survives, its generation does, unless an uninstall removed it. */
  ghost predicate Recoverable(names: set<Option<Generation>>, runtimes: map<Generation, Directory>,
                              scrubbed: set<Generation>)
  {
    forall g: Generation | Some(g) in names :: Solid(runtimes, g) || g in scrubbed
  }

  /** A leased generation is still there, as whole as it was, and can be found by its lease file. */
  ghost predicate LeasesHeld(d: Disk) {
    forall h | h in d.leases ::
      var l := d.leases[h];
      l.runtime in d.runtimes && l.runtime in d.leaseFiles && (l.complete ==> d.runtimes[l.runtime].complete)
  }

  ghost predicate NamesKnown(d: Disk) {
    && d.runtimes.Keys <= d.used
    && d.scrubbed <= d.used
    && (forall g: Generation | Named(d, g) :: g in d.used)
    && d.pointer in d.pointers && d.link in d.links
  }

  ghost predicate Inv(d: Disk) {
    && Recoverable(d.pointers, d.runtimes, d.scrubbed)
    && Recoverable(d.links, d.runtimes, d.scrubbed)
    && LeasesHeld(d)
    && NamesKnown(d)
    && InstallGuards.Inv(d.guards)
  }

  // ---- Single steps ---------------------------------------------------------

  /** Leases that were not released by their holders in the meantime. */
  function Released(d: Disk, gone: set<Holder>): Disk {
    d.(leases := map h | h in d.leases && h !in gone :: d.leases[h])
  }

  function Placed(d: Disk, g: Generation): Disk {
    d.(runtimes := d.runtimes[g := Directory(true, false, false)], used := d.used + {g})
  }

  function TreeFlushed(d: Disk, g: Generation): Disk
    requires g in d.runtimes
  {
    d.(runtimes := d.runtimes[g := d.runtimes[g].(flushed := true)])
  }

  function EntriesFlushed(d: Disk): Disk {
    d.(runtimes := map g | g in d.runtimes :: d.runtimes[g].(linked := true))
  }

  function Committed(d: Disk, g: Generation): Disk {
    d.(pointer := Some(g), pointers := d.pointers + {Some(g)})
  }

  function Relinked(d: Disk, to: Option<Generation>): Disk {
    d.(link := to, links := d.links + {to})
  }

  function RootFlushed(d: Disk): Disk {
    d.(pointers := {d.pointer})
  }

  function LinkFlushed(d: Disk): Disk {
    d.(links := {d.link})
  }

  /** `remove_dir_all` on a generation: all of it, or stopped half-way. */
  function Removed(d: Disk, g: Generation, all: bool): Disk
    requires g in d.runtimes
  {
    if all then d.(runtimes := d.runtimes - {g})
    else d.(runtimes := d.runtimes[g := d.runtimes[g].(complete := false)])
  }

  function Scrubbed(d: Disk, g: Generation, all: bool): Disk
    requires g in d.runtimes
  {
    Removed(d, g, all).(scrubbed := d.scrubbed + {g})
  }

  function PointerRemoved(d: Disk): Disk {
    d.(pointer := None, pointers := d.pointers + {None})
  }

  lemma ReleasedKeeps(d: Disk, gone: set<Holder>)
    requires Inv(d)
    ensures Inv(Released(d, gone))
  {
  }

  lemma PlacedKeeps(d: Disk, g: Generation)
    requires Inv(d) && g !in d.used
    ensures Inv(Placed(d, g))
  {
  }

  lemma FlushedKeeps(d: Disk, g: Generation)
    requires Inv(d) && g in d.runtimes
    ensures Inv(TreeFlushed(d, g))
  {
  }

  lemma EntriesFlushedKeeps(d: Disk)
    requires Inv(d)
    ensures Inv(EntriesFlushed(d))
  {
  }

  lemma CommittedKeeps(d: Disk, g: Generation)
    requires Inv(d) && (Solid(d.runtimes, g) || g in d.scrubbed)
    ensures Inv(Committed(d, g)) && Inv(Relinked(d, Some(g)))
  {
  }

  lemma DirectoryFlushedKeeps(d: Disk)
    requires Inv(d)
    ensures Inv(RootFlushed(d)) && Inv(LinkFlushed(d)) && Inv(PointerRemoved(d)) && Inv(Relinked(d, None))
  {
  }

  /** A generation may be removed exactly when nobody leases it and no name that could survive a crash needs it. */
  lemma RemovableExactly(d: Disk, g: Generation)
    requires Inv(d) && g in d.runtimes
    ensures Inv(Removed(d, g, true)) <==> !Leased(d, g) && (Named(d, g) ==> g in d.scrubbed)
    ensures Inv(Removed(d, g, true)) ==> Inv(Removed(d, g, false))
  {
    if Leased(d, g) {
      var h :| h in d.leases && d.leases[h].runtime == g;
      assert !LeasesHeld(Removed(d, g, true));
    }
  }

  lemma ScrubbedKeeps(d: Disk, g: Generation, all: bool)
    requires Inv(d) && g in d.runtimes && !Leased(d, g)
    ensures Inv(Scrubbed(d, g, all))
  {
  }

  // ---- Crashes --------------------------------------------------------------

  /** `c` is a disk that a machine crash in `d` can leave. What was flushed and not removed
      since is there; anything else may be lost, damaged or restored. */
  predicate CrashOutcome(d: Disk, c: Disk) {
    && (forall g | g in d.runtimes :: Solid(d.runtimes, g) ==> Solid(c.runtimes, g))
    && c.runtimes.Keys <= d.used && c.used == d.used && c.scrubbed == d.scrubbed
    && c.pointer in d.pointers && c.pointers == {c.pointer}
    && c.link in d.links && c.links == {c.link}
    && c.leases == map[]
    && c.guards.preparations == map[] && InstallGuards.Inv(c.guards)
  }

  /** Crash safety: the surviving pointer and link name generations with all of their contents,
      and the restarted program is in a state it can go on from. */
  lemma CrashSafety(d: Disk, c: Disk)
    requires Inv(d) && CrashOutcome(d, c)
    ensures Inv(c)
    ensures c.pointer.Some? && c.pointer.value !in d.scrubbed ==> Solid(c.runtimes, c.pointer.value)
    ensures c.link.Some? && c.link.value !in d.scrubbed ==> Solid(c.runtimes, c.link.value)
  {
  }

  /** Every crash leaves a pointer and a link to whole generations, or to none. */
  ghost predicate CrashSafe(d: Disk) {
    forall c | CrashOutcome(d, c) ::
      && (c.pointer.Some? ==> Solid(c.runtimes, c.pointer.value))
      && (c.link.Some? ==> Solid(c.runtimes, c.link.value))
  }

  /** A disk is safe in a crash if and only if every name that could survive has its whole generation now. */
  lemma CrashSafeExactly(d: Disk)
    requires Inv(d)
    ensures CrashSafe(d) <==> forall g: Generation | Named(d, g) :: Solid(d.runtimes, g)
  {
    var left := d.(pointers := {d.pointer}, links := {d.link}, leases := map[], guards := InstallGuards.NEW_GUARDS);
    InstallGuards.NewGuardsInv();
    if CrashSafe(d) {
      forall g: Generation | Named(d, g)
        ensures Solid(d.runtimes, g)
      {
        if Some(g) in d.pointers {
          assert CrashOutcome(d, left.(pointer := Some(g), pointers := {Some(g)}));
        } else {
          assert CrashOutcome(d, left.(link := Some(g), links := {Some(g)}));
        }
      }
    } else {
      var c :| CrashOutcome(d, c) && !((c.pointer.Some? ==> Solid(c.runtimes, c.pointer.value))
                                       && (c.link.Some? ==> Solid(c.runtimes, c.link.value)));
      assert exists g: Generation :: Named(d, g) && !Solid(c.runtimes, g);
    }
  }

  /** An uninstall removes without flushing: what could be named before it can still be named after a crash. So
      once everything is removed the disk is safe in a crash if and only if nothing could be named before. */
  lemma RemovedCrashSafeExactly(before: Disk, after: Disk)
    requires Inv(after) && after.runtimes == map[]
    requires SameNames(before, after)
    ensures CrashSafe(after) <==> forall g: Generation :: !Named(before, g)
  {
    CrashSafeExactly(after);
    forall g: Generation
      ensures Named(after, g) <==> Named(before, g)
    {
      assert Some(g) in after.pointers <==> Some(g) in after.pointers - {None};
      assert Some(g) in after.links <==> Some(g) in after.links - {None};
    }
  }
}
