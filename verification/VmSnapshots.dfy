/** Snapshots of VM disks: a rollback brings back what the disk held, whatever happened since. */
module VmSnapshots {
  import opened Wrappers
  import opened Sequences
  import opened LocalVms
  import opened VmSafety
  import opened VmRuns

  /** The file belongs to no VM: it is nobody's disk, and no QEMU writes to it. */
  predicate Clear(h: Host, path: string) {
    Unused(path, h.procs) && forall i :: 0 <= i < |h.vms| ==> h.vms[i].disk != path
  }

  predicate SameFile(h: Host, g: Host, path: string) {
    (path in h.files <==> path in g.files) && (path in h.files ==> g.files[path] == h.files[path])
  }

  /** From `h` to `g` the file was left alone, and still belongs to nobody. */
  predicate Spared(h: Host, g: Host, path: string) {
    Clear(g, path) && SameFile(h, g, path) && g.snapshots == h.snapshots
  }

  lemma SnapshotIsClear(h: Host, path: string, stamp: nat)
    requires Sound(h) && stamp < CLOCK_LIMIT && Stamped(path, stamp)
    ensures Clear(h, path)
  {
    hide Stamped, Separate, Tracked, SnapshotsStamped, AccessesSafe, Unused;
    SnapshotIsUnused(h, path, stamp);
    forall i | 0 <= i < |h.vms|
      ensures h.vms[i].disk != path
    {
      assert Consistent(h.vms[i]);
      if h.vms[i].disk == path {
        StampIsUnique(path, stamp, h.vms[i].number);
      }
    }
  }

  lemma {:induction false} ElapseSpares(h: Host, moves: seq<Move>, path: string)
    requires Clear(h, path)
    ensures Spared(h, Elapse(h, moves), path)
  {
    if moves != [] {
      ElapseSpares(h, moves[..|moves| - 1], path);
    }
  }

  lemma StartSpares(h: Host, i: nat, l: Launch, automatic: bool, path: string)
    requires i < |h.vms| && Clear(h, path)
    ensures Spared(h, StartVm(h, i, l, automatic), path)
  {
    hide Elapse, NewPorts;
    ElapseSpares(h, l.moves, path);
  }

  lemma {:induction false} RestartAllSpares(h: Host, numbers: seq<nat>, launches: seq<Launch>, path: string)
    requires Clear(h, path)
    ensures Spared(h, RestartAll(h, numbers, launches), path)
  {
    hide StartVm, Clear;
    if numbers != [] {
      var k := |numbers| - 1;
      RestartAllSpares(h, numbers[..k], launches, path);
      var g := RestartAll(h, numbers[..k], launches);
      var i := Find(g.vms, numbers[k]);
      if i.Some? {
        StartSpares(g, i.value, LaunchOf(launches, k), true, path);
      }
    }
  }

  lemma ReadSpares(h: Host, r: Reading, path: string)
    requires Clear(h, path)
    ensures Spared(h, ReadVms(h, r), path)
  {
    hide RefreshAll, Elapse, RestartAll, Unused, LivePids, ToRestart;
    var live := LivePids(h.vms, h.procs);
    RefreshKeepsDisks(h.vms, live, r);
    ElapseSpares(h.(vms := RefreshAll(h.vms, live, r)), r.moves, path);
    RestartAllSpares(Refreshed(h, r), ToRestart(h.vms, live), r.launches, path);
  }

  lemma RefreshKeepsDisks(vms: seq<Vm>, live: set<int>, r: Reading)
    ensures forall i :: 0 <= i < |vms| ==> RefreshAll(vms, live, r)[i].disk == vms[i].disk
  {
    hide RefreshAll;
  }

  lemma HaltSpares(h: Host, vm: Vm, moves: seq<Move>, killed: bool, path: string)
    requires Clear(h, path)
    ensures Spared(h, Halt(h, vm, moves, killed).0, path)
  {
    hide Elapse;
    ElapseSpares(h, moves, path);
  }

  lemma DoStartSpares(h: Host, id: nat, moves: seq<Move>, launch: Launch, path: string)
    requires Clear(h, path)
    ensures Spared(h, DoStart(h, id, moves, launch), path)
  {
    hide Elapse, StartVm, Clear;
    ElapseSpares(h, moves, path);
    var i := Find(h.vms, id);
    if i.Some? {
      StartSpares(Elapse(h, moves), i.value, launch, false, path);
    }
  }

  lemma DoStopSpares(h: Host, id: nat, moves: seq<Move>, killed: bool, path: string)
    requires Clear(h, path)
    ensures Spared(h, DoStop(h, id, moves, killed).0, path)
  {
    hide Halt, Unused;
    var i := Find(h.vms, id);
    if i.Some? {
      HaltSpares(h, h.vms[i.value], moves, killed, path);
    }
  }

  lemma DoDeleteSpares(h: Host, id: nat, moves: seq<Move>, killed: bool, disks: bool, inside: bool, removed: bool,
                       path: string)
    requires Clear(h, path)
    ensures Spared(h, DoDelete(h, id, moves, killed, disks, inside, removed), path)
  {
    hide Halt, Unused;
    var i := Find(h.vms, id);
    if i.Some? {
      HaltSpares(h, h.vms[i.value], moves, killed, path);
    }
  }

  /** A VM that can be snapshotted and rolled back: there, stopped, and with its disk. */
  predicate AtRest(h: Host, id: nat) {
    var i := Find(h.vms, id);
    i.Some? && h.vms[i.value].pid.None? && h.vms[i.value].disk in h.files
  }

  function DiskContent(h: Host, id: nat): int
    requires AtRest(h, id)
  {
    h.files[h.vms[Find(h.vms, id).value].disk]
  }

  /** Where a snapshot of a VM is looked up: the file of the first entry with its id whose file is there. */
  function FileOf(h: Host, owner: nat, id: nat): Option<string> {
    var present := Present(h.snapshots, h.files);
    var found := FindSnapshot(present, owner, id);
    if found.Some? then Some(present[found.value].path) else None
  }

  /** Whoever asks for this snapshot gets its file, and the file holds `content`. */
  predicate Holds(h: Host, s: Snapshot, content: int) {
    FileOf(h, s.owner, s.id) == Some(s.path) && s.path in h.files && h.files[s.path] == content
  }

  // ---- The first entry -----------------------------------------------------------------------

  /** The file of the first entry with this id whose file is there. */
  function FirstFile(snapshots: seq<Snapshot>, there: set<string>, owner: nat, id: nat): (p: Option<string>)
    ensures p.Some? ==> p.value in there && exists t :: t in snapshots && t.path == p.value
  {
    if snapshots == [] then None
    else
      var t := snapshots[0];
      if t.owner == owner && t.id == id && t.path in there then Some(t.path)
      else FirstFile(snapshots[1..], there, owner, id)
  }

  lemma {:induction false} FileOfFirst(snapshots: seq<Snapshot>, files: map<string, int>, owner: nat, id: nat)
    ensures var present := Present(snapshots, files);
      var found := FindSnapshot(present, owner, id);
      FirstFile(snapshots, files.Keys, owner, id) == if found.Some? then Some(present[found.value].path) else None
  {
    if snapshots != [] {
      FileOfFirst(snapshots[1..], files, owner, id);
      if snapshots[0].path in files {
        assert Present(snapshots, files)[1..] == Present(snapshots[1..], files);
      }
    }
  }

  lemma FileIsFirst(h: Host, owner: nat, id: nat)
    ensures FileOf(h, owner, id) == FirstFile(h.snapshots, h.files.Keys, owner, id)
  {
    hide Present, FindSnapshot, FirstFile;
    FileOfFirst(h.snapshots, h.files, owner, id);
  }

  lemma {:induction false} FirstAppend(a: seq<Snapshot>, b: seq<Snapshot>, there: set<string>, owner: nat, id: nat)
    ensures FirstFile(a + b, there, owner, id)
      == var p := FirstFile(a, there, owner, id); if p.Some? then p else FirstFile(b, there, owner, id)
  {
    if a == [] {
      Neutral(b);
    } else {
      TailOfAppend(a, b);
      FirstAppend(a[1..], b, there, owner, id);
    }
  }

  /** Entries whose file is not there do not matter. */
  lemma {:induction false} FirstPresent(snapshots: seq<Snapshot>, files: map<string, int>, there: set<string>,
                                        owner: nat, id: nat)
    requires there <= files.Keys
    ensures FirstFile(Present(snapshots, files), there, owner, id) == FirstFile(snapshots, there, owner, id)
  {
    if snapshots != [] {
      FirstPresent(snapshots[1..], files, there, owner, id);
      if snapshots[0].path in files {
        assert Present(snapshots, files)[1..] == Present(snapshots[1..], files);
      }
    }
  }

  lemma {:induction false} FirstOthers(snapshots: seq<Snapshot>, path: string, there: set<string>, owner: nat, id: nat)
    requires path !in there
    ensures FirstFile(Others(snapshots, path), there, owner, id) == FirstFile(snapshots, there, owner, id)
  {
    if snapshots != [] {
      FirstOthers(snapshots[1..], path, there, owner, id);
      if snapshots[0].path != path {
        assert Others(snapshots, path)[1..] == Others(snapshots[1..], path);
      } else {
        assert Others(snapshots, path) == Others(snapshots[1..], path);
      }
    }
  }

  /** Only the first file matters: the others may go. */
  lemma {:induction false} FirstStays(snapshots: seq<Snapshot>, there: set<string>, fewer: set<string>, owner: nat,
                                      id: nat)
    requires fewer <= there && FirstFile(snapshots, there, owner, id).Some?
    requires FirstFile(snapshots, there, owner, id).value in fewer
    ensures FirstFile(snapshots, fewer, owner, id) == FirstFile(snapshots, there, owner, id)
  {
    var t := snapshots[0];
    if !(t.owner == owner && t.id == id && t.path in there) {
      FirstStays(snapshots[1..], there, fewer, owner, id);
    }
  }

  lemma {:induction false} FirstSame(snapshots: seq<Snapshot>, there: set<string>, still: set<string>, owner: nat,
                                     id: nat)
    requires forall t :: t in snapshots ==> (t.path in there <==> t.path in still)
    ensures FirstFile(snapshots, there, owner, id) == FirstFile(snapshots, still, owner, id)
  {
    if snapshots != [] {
      FirstSame(snapshots[1..], there, still, owner, id);
    }
  }

  /** One more file there: the first one found stays, or is the new one. */
  lemma {:induction false} FirstAdds(snapshots: seq<Snapshot>, there: set<string>, path: string, owner: nat, id: nat)
    requires FirstFile(snapshots, there, owner, id).Some?
    ensures FirstFile(snapshots, there + {path}, owner, id) in {FirstFile(snapshots, there, owner, id), Some(path)}
  {
    var t := snapshots[0];
    if !(t.owner == owner && t.id == id && t.path in there) {
      FirstAdds(snapshots[1..], there, path, owner, id);
    }
  }

  function Lacking(snapshots: seq<Snapshot>, k: nat): seq<Snapshot>
    requires k < |snapshots|
  {
    snapshots[..k] + snapshots[k + 1..]
  }

  lemma LackingTail(snapshots: seq<Snapshot>, k: nat)
    requires 0 < k < |snapshots|
    ensures Lacking(snapshots, k) != [] && Lacking(snapshots, k)[0] == snapshots[0]
    ensures Lacking(snapshots, k)[1..] == Lacking(snapshots[1..], k - 1)
  {
  }

  lemma LackingFirst(snapshots: seq<Snapshot>)
    requires snapshots != []
    ensures Lacking(snapshots, 0) == snapshots[1..]
  {
  }

  /** Without an entry of another id the same file is found. */
  lemma {:induction false} FirstWithoutOther(snapshots: seq<Snapshot>, k: nat, there: set<string>, owner: nat, id: nat)
    requires k < |snapshots| && (snapshots[k].owner != owner || snapshots[k].id != id)
    ensures FirstFile(Lacking(snapshots, k), there, owner, id) == FirstFile(snapshots, there, owner, id)
  {
    hide Lacking;
    if k == 0 {
      LackingFirst(snapshots);
    } else {
      LackingTail(snapshots, k);
      FirstWithoutOther(snapshots[1..], k - 1, there, owner, id);
    }
  }

  /** Without the first entry of its id the next one is found. */
  lemma {:induction false} FirstWithoutFound(snapshots: seq<Snapshot>, k: nat, there: set<string>, owner: nat, id: nat)
    requires FindSnapshot(snapshots, owner, id) == Some(k)
    ensures k < |snapshots|
    ensures FirstFile(Lacking(snapshots, k), there, owner, id) == FirstFile(snapshots[k + 1..], there, owner, id)
  {
    hide Lacking;
    if k == 0 {
      LackingFirst(snapshots);
    } else {
      LackingTail(snapshots, k);
      FirstWithoutFound(snapshots[1..], k - 1, there, owner, id);
      assert snapshots[1..][k..] == snapshots[k + 1..];
    }
  }

  // ---- One command ---------------------------------------------------------------------------

  /** All snapshot files were left alone. */
  predicate AllSpared(h: Host, g: Host) {
    g.snapshots == h.snapshots && forall t :: t in h.snapshots ==> SameFile(h, g, t.path)
  }

  lemma SparedHolds(h: Host, g: Host, s: Snapshot, content: int)
    requires AllSpared(h, g) && Holds(h, s, content)
    ensures Holds(g, s, content)
  {
    hide FileOf;
    FileIsFirst(h, s.owner, s.id);
    FileIsFirst(g, s.owner, s.id);
    FirstSame(h.snapshots, h.files.Keys, g.files.Keys, s.owner, s.id);
  }

  /** Taking a snapshot overwrites a file of the same name, which only matters if the disk differs. */
  predicate Overwrites(f: Host, id: nat, path: string, s: Snapshot, content: int) {
    path == s.path && AtRest(f, id) && DiskContent(f, id) != content
  }

  /** Its file is the missing one of an entry ahead, which has the id of `s` and is found from now on. */
  predicate Revives(f: Host, id: nat, path: string, s: Snapshot) {
    AtRest(f, id) && path !in f.files && FirstFile(f.snapshots, f.files.Keys + {path}, s.owner, s.id) == Some(path)
  }

  /**
    Dropping a snapshot removes its file, which may be the file of `s`, or else only its entry,
    which may be the one of `s`.
   */
  predicate Drops(h: Host, id: nat, snapshot: nat, inside: bool, removed: bool, s: Snapshot) {
    var present := Present(h.snapshots, h.files);
    var found := FindSnapshot(present, id, snapshot);
    found.Some?
    && if inside then removed && present[found.value].path == s.path
       else id == s.owner && snapshot == s.id && NextFile(h, found.value) != Some(s.path)
  }

  /** The file of the next entry with the id of this one. */
  function NextFile(h: Host, k: nat): Option<string>
    requires k < |Present(h.snapshots, h.files)|
  {
    var present := Present(h.snapshots, h.files);
    FirstFile(present[k + 1..], h.files.Keys, present[k].owner, present[k].id)
  }

  /** The commands that damage a snapshot, told before they run. */
  predicate Interferes(h: Host, c: Command, s: Snapshot, content: int) {
    match c
    case TakeSnapshot(r, id, _, _, path) =>
      Possible(h, c) && (Overwrites(ReadVms(h, r), id, path, s, content) || Revives(ReadVms(h, r), id, path, s))
    case DropSnapshot(id, snapshot, inside, removed) => Drops(h, id, snapshot, inside, removed, s)
    case DeleteFile(_, kind, path, inside, removed) => path == s.path && !kind.Unknown? && inside && removed
    case _ => false
  }

  lemma DoSnapshotHoldsExactly(h: Host, id: nat, stamp: nat, second: nat, path: string, s: Snapshot, content: int)
    requires Sound(h) && Holds(h, s, content)
    ensures Holds(DoSnapshot(h, id, stamp, second, path), s, content)
      <==> !Overwrites(h, id, path, s, content) && !Revives(h, id, path, s)
  {
    hide Present, FindSnapshot, FirstFile, FileOf, Separate, Tracked, SnapshotsStamped, AccessesSafe, Stamped;
    var i := Find(h.vms, id);
    if i.Some? {
      assert Consistent(h.vms[i.value]);
      if AtRest(h, id) {
        var g := DoSnapshot(h, id, stamp, second, path);
        FileIsFirst(h, s.owner, s.id);
        FileIsFirst(g, s.owner, s.id);
        FoundWithNew(h.snapshots, h.files, path, DiskContent(h, id), Snapshot(id, stamp, second, path), s.owner, s.id);
      }
    }
  }

  /** What is found once a snapshot was added and its file is there. */
  lemma FoundWithNew(snapshots: seq<Snapshot>, files: map<string, int>, path: string, content: int, new_: Snapshot,
                     owner: nat, id: nat)
    requires FirstFile(snapshots, files.Keys, owner, id).Some?
    ensures var later := files[path := content];
      var p := FirstFile(Present(snapshots, later) + [new_], later.Keys, owner, id);
      && p == FirstFile(snapshots, files.Keys + {path}, owner, id)
      && p in {FirstFile(snapshots, files.Keys, owner, id), Some(path)}
      && (path in files ==> p == FirstFile(snapshots, files.Keys, owner, id))
  {
    hide Present, FirstFile;
    var later := files[path := content];
    assert later.Keys == files.Keys + {path};
    FirstAppend(Present(snapshots, later), [new_], later.Keys, owner, id);
    FirstPresent(snapshots, later, later.Keys, owner, id);
    FirstAdds(snapshots, files.Keys, path, owner, id);
    if path in files {
      assert later.Keys == files.Keys;
    }
  }

  lemma RollbackSpares(h: Host, id: nat, snapshot: nat, inside: bool, path: string)
    requires Clear(h, path)
    ensures Spared(h, DoRollback(h, id, snapshot, inside), path)
  {
    hide Present, FindSnapshot, Unused;
  }

  lemma DoDropSnapshotHoldsExactly(h: Host, id: nat, snapshot: nat, inside: bool, removed: bool, s: Snapshot,
                                   content: int)
    requires Holds(h, s, content)
    ensures Holds(DoDropSnapshot(h, id, snapshot, inside, removed), s, content)
      <==> !Drops(h, id, snapshot, inside, removed, s)
  {
    hide Present, FirstFile, FindSnapshot;
    var present := Present(h.snapshots, h.files);
    var g := DoDropSnapshot(h, id, snapshot, inside, removed);
    FileIsFirst(h, s.owner, s.id);
    FileIsFirst(g, s.owner, s.id);
    var found := FindSnapshot(present, id, snapshot);
    if found.Some? {
      FoundWithout(h.snapshots, h.files, found.value, g.files.Keys, s.owner, s.id);
      if id == s.owner && snapshot == s.id {
        FirstWithoutFound(present, found.value, h.files.Keys, id, snapshot);
      }
    }
  }

  /** What is found once an entry of another id is gone, and perhaps its file. */
  lemma FoundWithout(snapshots: seq<Snapshot>, files: map<string, int>, k: nat, fewer: set<string>, owner: nat, id: nat)
    requires k < |Present(snapshots, files)| && fewer <= files.Keys
    ensures var present := Present(snapshots, files);
      present[k].owner != owner || present[k].id != id ==>
        var p := FirstFile(snapshots, files.Keys, owner, id);
        p.Some? && p.value in fewer ==> FirstFile(present[..k] + present[k + 1..], fewer, owner, id) == p
  {
    hide Present, FirstFile;
    var present := Present(snapshots, files);
    var p := FirstFile(snapshots, files.Keys, owner, id);
    if (present[k].owner != owner || present[k].id != id) && p.Some? && p.value in fewer {
      FirstWithoutOther(present, k, fewer, owner, id);
      FirstPresent(snapshots, files, fewer, owner, id);
      FirstStays(snapshots, files.Keys, fewer, owner, id);
    }
  }

  lemma DoDeleteFileHolds(h: Host, kind: FileKind, path: string, removed: bool, s: Snapshot, content: int)
    requires Holds(h, s, content) && Clear(h, s.path)
    ensures Holds(DoDeleteFile(h, kind, path, removed), s, content) <==> !(path == s.path && removed)
  {
    hide Present, Others, Unused, FirstFile, FileOf;
    var g := DoDeleteFile(h, kind, path, removed);
    FileIsFirst(h, s.owner, s.id);
    FileIsFirst(g, s.owner, s.id);
    if path != s.path && removed && !(kind.Disk? && IsDisk(h.vms, path)) {
      var fewer := h.files.Keys - {path};
      FirstStays(h.snapshots, h.files.Keys, fewer, s.owner, s.id);
      FirstPresent(h.snapshots, h.files - {path}, fewer, s.owner, s.id);
      FirstOthers(Present(h.snapshots, h.files - {path}), path, fewer, s.owner, s.id);
      assert g.files.Keys == fewer;
    }
  }

  lemma AddSpares(h: Host, vm: Vm, content: int, path: string)
    requires Clear(h, path) && vm.disk != path
    ensures Spared(h, Add(h, vm, content), path)
  {
    hide Unused;
  }

  lemma SparedOn(f: Host, g: Host, h: Host, path: string)
    requires Spared(f, g, path) && Spared(g, h, path)
    ensures Spared(f, h, path)
  {
  }

  lemma QuickCreateSpares(h: Host, vm: Vm, content: int, r2: Reading, auto: Auto, path: string)
    requires Clear(h, path) && vm.disk != path
    ensures Spared(h, DoQuickCreate(h, vm, content, r2, auto), path)
  {
    hide ReadVms, Add, Unused;
    AddSpares(h, vm, content, path);
    ReadSpares(Add(h, vm, content), r2, path);
  }

  lemma CreationSpares(h: Host, c: Command, path: string, second: nat)
    requires Clear(h, path) && Possible(h, c) && (c.Create? || c.Import? || c.QuickCreate?)
    requires second < CLOCK_LIMIT && Stamped(path, second)
    ensures Spared(h, Do(h, c), path)
  {
    hide ReadVms, Add, DoQuickCreate, NameTaken, Stamped, Spared, Clear;
    var f := ReadVms(h, c.r);
    ReadSpares(h, c.r, path);
    SparedIsClear(h, f, path);
    if c.disk == path {
      StampIsUnique(path, second, c.number);
    }
    var vm := NewVm(c.number, c.name, c.disk, if c.Import? then false else c.windows,
                    if c.Create? then c.userNetwork else true);
    AddSpares(f, vm, c.content, path);
    SparedOn(h, f, Add(f, vm, c.content), path);
    if c.QuickCreate? {
      QuickCreateSpares(f, vm, c.content, c.r2, c.auto, path);
      SparedOn(h, f, DoQuickCreate(f, vm, c.content, c.r2, c.auto), path);
    }
  }

  lemma SparedIsClear(h: Host, g: Host, path: string)
    requires Spared(h, g, path)
    ensures Clear(g, path)
  {
  }

  lemma UpdateSpares(h: Host, id: nat, change: Change, moves: seq<Move>, path: string)
    requires Clear(h, path) && Find(h.vms, id).Some?
    ensures var g, i := Elapse(h, moves), Find(h.vms, id).value;
      Spared(h, g, path) && Spared(h, Put(g, i, Changed(g.vms[i], change)), path)
  {
    hide Elapse, Unused;
    ElapseSpares(h, moves, path);
  }

  lemma ShutdownSpares(h: Host, id: nat, moves: seq<Move>, accepted: bool, path: string)
    requires Clear(h, path)
    ensures Spared(h, DoShutdown(h, id, moves, accepted), path)
  {
    hide Elapse, Unused, Alive;
    ElapseSpares(h, moves, path);
  }

  /** Commands that keep their hands off the snapshots. */
  predicate Bystander(c: Command) {
    c.Refresh? || c.Update? || c.Start? || c.Shutdown? || c.Stop? || c.RestartVm? || c.Export? || c.Delete?
  }

  lemma BystanderSpares(h: Host, c: Command, path: string)
    requires Clear(h, path) && Bystander(c)
    ensures Spared(h, Do(h, c), path)
  {
    hide ReadVms, DoStart, DoStop, DoDelete, DoShutdown, Elapse, Changed, Rejected, Spared, Clear;
    var f := ReadVms(h, c.r);
    ReadSpares(h, c.r, path);
    SparedIsClear(h, f, path);
    match c {
      case Refresh(_) =>
      case Update(r, id, change, moves) =>
        if Find(f.vms, id).Some? {
          UpdateSpares(f, id, change, moves, path);
          SparedOn(h, f, Elapse(f, moves), path);
        }
      case Start(r, id, moves, launch) => DoStartSpares(f, id, moves, launch, path);
      case Shutdown(r, id, moves, accepted) => ShutdownSpares(f, id, moves, accepted, path);
      case Stop(r, id, moves, killed) => DoStopSpares(f, id, moves, killed, path);
      case RestartVm(r, id, moves, killed, r2, moves2, launch) =>
        RestartVmSpares(f, id, moves, killed, r2, moves2, launch, path);
      case Export(r, id) => ExportSpares(f, id, path);
      case Delete(r, id, moves, killed, disks, inside, removed) =>
        DoDeleteSpares(f, id, moves, killed, disks, inside, removed, path);
    }
    if !c.Refresh? && !(c.Update? && Find(f.vms, c.id).None?) {
      SparedOn(h, f, Do(h, c), path);
    }
  }

  lemma ExportSpares(h: Host, id: nat, path: string)
    requires Clear(h, path)
    ensures Spared(h, DoExport(h, id), path)
  {
  }

  lemma RestartVmSpares(h: Host, id: nat, moves: seq<Move>, killed: bool, r2: Reading, moves2: seq<Move>,
                        launch: Launch, path: string)
    requires Clear(h, path)
    ensures var (g, ok) := DoStop(h, id, moves, killed);
      Spared(h, if ok then DoStart(ReadVms(g, r2), id, moves2, launch) else g, path)
  {
    hide ReadVms, DoStart, DoStop, Clear;
    var (g, ok) := DoStop(h, id, moves, killed);
    DoStopSpares(h, id, moves, killed, path);
    ReadSpares(g, r2, path);
    DoStartSpares(ReadVms(g, r2), id, moves2, launch, path);
  }

  /** Commands that neither take, drop nor delete a file leave every snapshot file alone. */
  lemma LeftAlone(h: Host, c: Command, path: string, second: nat)
    requires Sound(h) && Possible(h, c) && second < CLOCK_LIMIT && Stamped(path, second)
    requires !c.TakeSnapshot? && !c.DropSnapshot? && !c.DeleteFile?
    ensures Spared(h, Do(h, c), path)
  {
    hide Sound, Stamped, ReadVms, DoRollback, Happen, Spared, Clear;
    hide DoStart, DoStop, DoDelete, DoShutdown;
    SnapshotIsClear(h, path, second);
    if Bystander(c) {
      BystanderSpares(h, c, path);
    } else if c.Surroundings? {
      MoveSpares(h, c.move, path);
    } else if c.Rollback? {
      var f := ReadVms(h, c.r);
      ReadSpares(h, c.r, path);
      SparedIsClear(h, f, path);
      RollbackSpares(f, c.id, c.snapshot, c.inside, path);
      SparedOn(h, f, Do(h, c), path);
    } else {
      CreationSpares(h, c, path, second);
    }
  }

  lemma StampOf(h: Host, t: Snapshot)
    requires Sound(h) && t in h.snapshots
    ensures t.second < CLOCK_LIMIT && Stamped(t.path, t.second) && Clear(h, t.path)
  {
    hide Stamped, Consistent, Separate, Tracked, AccessesSafe, Clear;
    SnapshotIsClear(h, t.path, t.second);
  }

  lemma HoldsMeansListed(h: Host, s: Snapshot, content: int)
    requires Holds(h, s, content)
    ensures exists t :: t in h.snapshots && t.path == s.path
  {
    hide FindSnapshot, Present, FirstFile;
    FileIsFirst(h, s.owner, s.id);
  }

  lemma AllLeftAlone(h: Host, c: Command, s: Snapshot, content: int)
    requires Sound(h) && Possible(h, c) && Holds(h, s, content)
    requires !c.TakeSnapshot? && !c.DropSnapshot? && !c.DeleteFile?
    ensures Holds(Do(h, c), s, content)
  {
    hide Do, Sound, Stamped, Holds, Clear, Possible;
    HoldsMeansListed(h, s, content);
    var g := Do(h, c);
    forall t | t in h.snapshots
      ensures SameFile(h, g, t.path) && g.snapshots == h.snapshots
    {
      StampOf(h, t);
      LeftAlone(h, c, t.path, t.second);
    }
    SparedHolds(h, g, s, content);
  }

  lemma AllReadLeftAlone(h: Host, r: Reading, s: Snapshot, content: int)
    requires Sound(h) && Holds(h, s, content)
    ensures Sound(ReadVms(h, r)) && Holds(ReadVms(h, r), s, content) && Clear(ReadVms(h, r), s.path)
  {
    hide Sound, ReadVms, Holds, Clear;
    ReadSound(h, r);
    AllLeftAlone(h, Refresh(r), s, content);
    ListedIsClear(ReadVms(h, r), s, content);
  }

  lemma ListedIsClear(h: Host, s: Snapshot, content: int)
    requires Sound(h) && Holds(h, s, content)
    ensures Clear(h, s.path)
  {
    hide Sound, Holds, Clear;
    HoldsMeansListed(h, s, content);
    var t :| t in h.snapshots && t.path == s.path;
    StampOf(h, t);
  }

  /**
    After a command a snapshot is still found, with its content, exactly when the command does
    not interfere with it: no other one, and no guest, makes a difference.
   */
  lemma StepHoldsExactly(h: Host, c: Command, s: Snapshot, content: int)
    requires Sound(h) && Holds(h, s, content)
    ensures Holds(Step(h, c), s, content) <==> !Interferes(h, c, s, content)
  {
    hide Sound, Holds, Stamped, ReadVms, Overwrites, Revives, Drops, Clear;
    hide DoStart, DoStop, DoDelete, DoShutdown, DoSnapshot, DoRollback, DoDropSnapshot, DoDeleteFile, Happen;
    if Possible(h, c) {
      if c.DropSnapshot? {
        DoDropSnapshotHoldsExactly(h, c.id, c.snapshot, c.inside, c.removed, s, content);
      } else if c.TakeSnapshot? {
        AllReadLeftAlone(h, c.r, s, content);
        DoSnapshotHoldsExactly(ReadVms(h, c.r), c.id, c.stamp, c.second, c.path, s, content);
      } else if c.DeleteFile? {
        DeleteFileHolds(h, c, s, content);
      } else {
        AllLeftAlone(h, c, s, content);
      }
    }
  }

  lemma DeleteFileHolds(h: Host, c: Command, s: Snapshot, content: int)
    requires Sound(h) && Holds(h, s, content) && c.DeleteFile?
    ensures Holds(Do(h, c), s, content) <==> !Interferes(h, c, s, content)
  {
    hide Sound, ReadVms, DoDeleteFile, Clear, FileOf;
    AllReadLeftAlone(h, c.r, s, content);
    ListedIsClear(h, s, content);
    DoDeleteFileHolds(ReadVms(h, c.r), c.kind, c.path, c.removed, s, content);
    DoDeleteFileHolds(h, c.kind, c.path, c.removed, s, content);
  }

  lemma MoveSpares(h: Host, m: Move, path: string)
    requires Clear(h, path)
    ensures Spared(h, Happen(h, m), path)
  {
  }

  // ---- The round trip ------------------------------------------------------------------------

  /** The history of a host, command by command: `more` after `commands`. */
  function Later(commands: seq<Command>, more: seq<Command>, k: nat): Host
    requires k <= |more|
  {
    Run(EMPTY, commands + more[..k])
  }

  lemma LaterStep(commands: seq<Command>, more: seq<Command>, k: nat)
    requires k < |more|
    ensures Later(commands, more, k + 1) == Step(Later(commands, more, k), more[k])
  {
    hide Step;
    var all := commands + more[..k + 1];
    assert all[..|all| - 1] == commands + more[..k];
  }

  predicate NeverInterfered(commands: seq<Command>, more: seq<Command>, s: Snapshot, content: int) {
    forall k :: 0 <= k < |more| ==> !Interferes(Later(commands, more, k), more[k], s, content)
  }

  predicate AlwaysHolds(commands: seq<Command>, more: seq<Command>, s: Snapshot, content: int) {
    forall k :: 0 <= k <= |more| ==> Holds(Later(commands, more, k), s, content)
  }

  lemma {:induction false} HoldsUntil(commands: seq<Command>, more: seq<Command>, s: Snapshot, content: int, n: nat)
    requires n <= |more| && Holds(Later(commands, more, 0), s, content)
    ensures (forall k :: 0 <= k <= n ==> Holds(Later(commands, more, k), s, content))
      <==> forall k :: 0 <= k < n ==> !Interferes(Later(commands, more, k), more[k], s, content)
  {
    hide Step, Holds, Interferes, Later;
    if n > 0 {
      HoldsUntil(commands, more, s, content, n - 1);
      LaterStep(commands, more, n - 1);
      LaterSound(commands, more, n - 1);
      if Holds(Later(commands, more, n - 1), s, content) {
        StepHoldsExactly(Later(commands, more, n - 1), more[n - 1], s, content);
      }
    }
  }

  lemma LaterSound(commands: seq<Command>, more: seq<Command>, k: nat)
    requires k <= |more|
    ensures Sound(Later(commands, more, k))
  {
    RunSound(commands + more[..k]);
  }

  /**
    The id of the snapshot is its own: once its file is written, the first entry with that
    id, of those already listed, names the same file, or there is none.
   */
  predicate OwnId(f: Host, id: nat, stamp: nat, path: string) {
    var first := FirstFile(f.snapshots, f.files.Keys + {path}, id, stamp);
    first.None? || first == Some(path)
  }

  /** The command takes a snapshot: of a VM that is there and at rest. */
  predicate Takes(h: Host, take: Command) {
    take.TakeSnapshot? && Possible(h, take) && AtRest(ReadVms(h, take.r), take.id)
  }

  /** The entry a snapshot command adds. */
  function Entry(take: Command): Snapshot
    requires take.TakeSnapshot?
  {
    Snapshot(take.id, take.stamp, take.second, take.path)
  }

  lemma SnapshotTakenExactly(f: Host, id: nat, stamp: nat, second: nat, path: string)
    requires Sound(f) && AtRest(f, id)
    ensures Holds(DoSnapshot(f, id, stamp, second, path), Snapshot(id, stamp, second, path), DiskContent(f, id))
      <==> OwnId(f, id, stamp, path)
  {
    hide Separate, Tracked, SnapshotsStamped, AccessesSafe, Present, FindSnapshot, FileOf, FirstFile;
    var i := Find(f.vms, id).value;
    assert Consistent(f.vms[i]);
    var later := f.files[path := DiskContent(f, id)];
    var new_ := Snapshot(id, stamp, second, path);
    var g := DoSnapshot(f, id, stamp, second, path);
    FileIsFirst(g, id, stamp);
    assert later.Keys == f.files.Keys + {path};
    FirstAppend(Present(f.snapshots, later), [new_], later.Keys, id, stamp);
    FirstPresent(f.snapshots, later, later.Keys, id, stamp);
    FirstOfOne(new_, later.Keys);
  }

  lemma FirstOfOne(s: Snapshot, there: set<string>)
    ensures FirstFile([s], there, s.owner, s.id) == if s.path in there then Some(s.path) else None
  {
    assert [s][1..] == [];
  }

  lemma TakenExactly(before: seq<Command>, take: Command)
    requires Takes(Run(EMPTY, before), take)
    ensures var f := ReadVms(Run(EMPTY, before), take.r);
      Holds(Run(EMPTY, before + [take]), Entry(take), DiskContent(f, take.id))
      <==> OwnId(f, take.id, take.stamp, take.path)
  {
    hide ReadVms, DoSnapshot, Sound, Holds, AtRest, DiskContent, Possible, OwnId;
    var h := Run(EMPTY, before);
    RunSound(before);
    ReadSound(h, take.r);
    SnapshotTakenExactly(ReadVms(h, take.r), take.id, take.stamp, take.second, take.path);
    assert (before + [take])[..|before|] == before;
  }

  /**
    After any run, a snapshot is taken and stays what a rollback to it fetches, with the
    disk of that moment, through any commands and whatever guests run, if and only if its
    id is its own and none of the commands interferes with it.
   */
  lemma SnapshotStaysExactly(before: seq<Command>, take: Command, more: seq<Command>)
    requires Takes(Run(EMPTY, before), take)
    ensures var f := ReadVms(Run(EMPTY, before), take.r);
      var content := DiskContent(f, take.id);
      AlwaysHolds(before + [take], more, Entry(take), content) <==>
        OwnId(f, take.id, take.stamp, take.path) && NeverInterfered(before + [take], more, Entry(take), content)
  {
    hide Run, ReadVms, Holds, AtRest, DiskContent, Possible, Interferes, OwnId;
    TakenExactly(before, take);
    var content := DiskContent(ReadVms(Run(EMPTY, before), take.r), take.id);
    assert before + [take] + more[..0] == before + [take];
    if Holds(Later(before + [take], more, 0), Entry(take), content) {
      HoldsUntil(before + [take], more, Entry(take), content, |more|);
    }
  }

  /** What a rollback does: the disk gets the file the snapshot is found in, if it is found. */
  lemma RolledBack(h: Host, owner: nat, id: nat)
    requires Sound(h) && AtRest(h, owner)
    ensures var g := DoRollback(h, owner, id, true);
      var file := FileOf(h, owner, id);
      && AtRest(g, owner) && (file.Some? ==> file.value in h.files)
      && DiskContent(g, owner) == if file.Some? then h.files[file.value] else DiskContent(h, owner)
  {
    hide Separate, Tracked, SnapshotsStamped, AccessesSafe, FindSnapshot;
    var i := Find(h.vms, owner).value;
    assert Consistent(h.vms[i]);
  }

  lemma BroughtBack(commands: seq<Command>, s: Snapshot, content: int, r: Reading)
    requires Holds(Run(EMPTY, commands), s, content) && AtRest(ReadVms(Run(EMPTY, commands), r), s.owner)
    ensures var g := Step(Run(EMPTY, commands), Rollback(r, s.owner, s.id, true));
      AtRest(g, s.owner) && DiskContent(g, s.owner) == content
  {
    hide Run, ReadVms, DoRollback, Sound, AtRest, DiskContent, Clear, FileOf;
    var g := Run(EMPTY, commands);
    RunSound(commands);
    AllReadLeftAlone(g, r, s, content);
    RolledBack(ReadVms(g, r), s.owner, s.id);
  }

  /** And then a rollback to it gives the VM the disk it had. */
  lemma SnapshotRoundTrip(before: seq<Command>, take: Command, more: seq<Command>, r: Reading)
    requires Takes(Run(EMPTY, before), take)
    requires AtRest(ReadVms(Run(EMPTY, before + [take] + more), r), take.id)
    ensures var f := ReadVms(Run(EMPTY, before), take.r);
      var content := DiskContent(f, take.id);
      var g := Step(Run(EMPTY, before + [take] + more), Rollback(r, take.id, take.stamp, true));
      OwnId(f, take.id, take.stamp, take.path) && NeverInterfered(before + [take], more, Entry(take), content) ==>
        AtRest(g, take.id) && DiskContent(g, take.id) == content
  {
    hide Run, Step, ReadVms, Holds, AtRest, DiskContent, Possible, OwnId, NeverInterfered;
    var content := DiskContent(ReadVms(Run(EMPTY, before), take.r), take.id);
    SnapshotStaysExactly(before, take, more);
    assert more[..|more|] == more;
    if AlwaysHolds(before + [take], more, Entry(take), content) {
      assert Holds(Later(before + [take], more, |more|), Entry(take), content);
      BroughtBack(before + [take] + more, Entry(take), content, r);
    }
  }
}
