/**
  Runs of the VM manager in which something is lost or mistaken: the inputs behind
  the conditions of `VmRuns` and `VmSnapshots`.
 */
module VmExamples {
  import opened Wrappers
  import opened Sequences
  import opened LocalVms
  import opened VmSafety
  import opened VmRuns
  import opened VmSnapshots

  const FIRST: nat := CLOCK_LIMIT
  const SECOND: nat := CLOCK_LIMIT + 1

  const IDLE := Reading({}, {}, [], [])

  function DiskOf(number: nat): string {
    "local-vm" + Suffix(number)
  }

  function Fresh(number: nat, name: string): Vm {
    NewVm(number, name, DiskOf(number), false, true)
  }

  /** A launch that QEMU accepts, without SPICE. */
  function Accepted(pid: int): Launch {
    Launch({}, [], Some((pid, false)))
  }

  lemma EndsWithSuffix(prefix: string, n: nat)
    ensures Stamped(prefix + Suffix(n), n)
  {
  }

  lemma RunSnoc(commands: seq<Command>, c: Command)
    ensures Run(EMPTY, commands + [c]) == Step(Run(EMPTY, commands), c)
  {
    assert (commands + [c])[..|commands|] == commands;
  }

  /** A record that a refresh leaves as it is: stopped, or found alive and not asked for its agent. */
  predicate Quiet(vm: Vm, live: set<int>) {
    if vm.pid.None? then vm.ports == map[]
    else vm.pid.value in live && vm.state.Running? && Qga in vm.ports
  }

  lemma {:induction false} NothingToRestart(vms: seq<Vm>, live: set<int>)
    requires forall i :: 0 <= i < |vms| ==> !WantsRestart(vms[i], live)
    ensures ToRestart(vms, live) == []
  {
    if vms != [] {
      NothingToRestart(vms[..|vms| - 1], live);
    }
  }

  lemma QuietRefresh(vms: seq<Vm>, live: set<int>, r: Reading)
    requires r.probed == {} && forall i :: 0 <= i < |vms| ==> Quiet(vms[i], live)
    ensures RefreshAll(vms, live, r) == vms && ToRestart(vms, live) == []
  {
    hide RefreshAll, ToRestart;
    NothingToRestart(vms, live);
  }

  lemma QuietRead(h: Host, r: Reading)
    requires r.probed == {} && forall i :: 0 <= i < |h.vms| ==> Quiet(h.vms[i], LivePids(h.vms, h.procs))
    ensures ReadVms(h, r) == Elapse(h, r.moves)
  {
    hide LivePids, RefreshAll, ToRestart, Elapse;
    QuietRefresh(h.vms, LivePids(h.vms, h.procs), r);
  }

  lemma NoTime(h: Host)
    ensures Elapse(h, []) == h
  {
  }

  lemma OneMove(h: Host, m: Move)
    ensures Elapse(h, [m]) == Happen(h, m)
  {
    assert [m][..0] == [];
  }

  // ---- One VM, created and started ------------------------------------------------------------

  lemma CreateFirst(h: Host, number: nat, name: string, content: int)
    requires number >= CLOCK_LIMIT && number !in h.used && !NameTaken(h.vms, name)
    requires forall i :: 0 <= i < |h.vms| ==> Quiet(h.vms[i], LivePids(h.vms, h.procs))
    ensures Step(h, Create(IDLE, number, name, DiskOf(number), false, true, content))
        == Add(h, Fresh(number, name), content)
  {
    hide LivePids, Quiet, Elapse, NameTaken;
    EndsWithSuffix("local-vm", number);
    QuietRead(h, IDLE);
    NoTime(h);
  }

  /** A start finds ports when no other record holds any and none is busy. */
  lemma PortsAreFound(vms: seq<Vm>, vm: Vm)
    requires forall k :: Reserved(vms, vm.number, k) == {}
    ensures NewPorts(vms, vm, {}).Some? && Qga in NewPorts(vms, vm, {}).value
  {
    hide Reserved, FirstFree;
    forall k: PortKind
      ensures FreePort(vms, vm.number, k, {}).Some?
    {
      assert Lowest(k) !in Reserved(vms, vm.number, k);
    }
  }

  function Started(vms: seq<Vm>, vm: Vm, pid: int): Vm
    requires NewPorts(vms, vm, {}).Some?
  {
    Booted(vm, pid, NewPorts(vms, vm, {}).value, false)
  }

  const ONE := EMPTY.(vms := [Fresh(FIRST, "a")], used := {FIRST}, files := map[DiskOf(FIRST) := 1])

  const CREATE := Create(IDLE, FIRST, "a", DiskOf(FIRST), false, true, 1)
  const START := Start(IDLE, FIRST, [], Accepted(7))

  lemma Created()
    ensures Run(EMPTY, [CREATE]) == ONE
  {
    hide Step, NameTaken, LivePids;
    RunSnoc([], CREATE);
    assert [] + [CREATE] == [CREATE];
    NoNames("a");
    CreateFirst(EMPTY, FIRST, "a", 1);
    assert EMPTY.vms + [Fresh(FIRST, "a")] == [Fresh(FIRST, "a")];
  }

  lemma NoNames(name: string)
    ensures !NameTaken([], name)
  {
  }

  function RunningOne(h: Host): Host
    requires h.vms == [Fresh(FIRST, "a")] && NewPorts(h.vms, h.vms[0], {}).Some?
  {
    h.(vms := [Started(h.vms, h.vms[0], 7)], procs := map[7 := Qemu(FIRST, DiskOf(FIRST))],
       boots := h.boots + [Boot(FIRST, false, false)])
  }

  lemma OwnPortsOnly()
    ensures NewPorts([Fresh(FIRST, "a")], Fresh(FIRST, "a"), {}).Some?
    ensures Qga in NewPorts([Fresh(FIRST, "a")], Fresh(FIRST, "a"), {}).value
  {
    PortsAreFound([Fresh(FIRST, "a")], Fresh(FIRST, "a"));
  }

  lemma StartedOne(h: Host)
    requires h.vms == [Fresh(FIRST, "a")] && h.procs == map[] && DiskOf(FIRST) in h.files
    ensures NewPorts(h.vms, h.vms[0], {}).Some? && Step(h, START) == RunningOne(h)
  {
    hide NewPorts, Elapse, LivePids, ReadVms, DiskOf, Named;
    OwnPortsOnly();
    QuietRead(h, IDLE);
    NoTime(h);
    assert Find(h.vms, FIRST) == Some(0);
  }

  // ---- A disk in use, deleted as an ISO -----------------------------------------------------------

  const DELETE_AS_ISO := DeleteFile(IDLE, Iso, DiskOf(FIRST), true, true)

  /** A VM is created and started, and its disk deleted as an ISO: the file goes while QEMU has it. */
  lemma DiskInUseDeleted()
    ensures var g := Run(EMPTY, [CREATE, START, DELETE_AS_ISO]);
      DiskOf(FIRST) !in g.files
      && exists a :: a in g.accesses && a.path == DiskOf(FIRST) && !Unused(a.path, a.procs)
  {
    hide Step, NewPorts, Run, DiskOf, Unused;
    Created();
    StartedOne(ONE);
    RunSnoc([CREATE], START);
    RunSnoc([CREATE] + [START], DELETE_AS_ISO);
    assert [CREATE] + [START] + [DELETE_AS_ISO] == [CREATE, START, DELETE_AS_ISO];
    Deleted(RunningOne(ONE));
  }

  lemma Deleted(h: Host)
    requires DiskOf(FIRST) in h.files && h.procs == map[7 := Qemu(FIRST, DiskOf(FIRST))]
    ensures var g := Step(h, DELETE_AS_ISO);
      DiskOf(FIRST) !in g.files
      && exists a :: a in g.accesses && a.path == DiskOf(FIRST) && !Unused(a.path, a.procs)
  {
    hide DiskOf;
    var g := Step(h, DELETE_AS_ISO);
    var a := Access(DiskOf(FIRST), h.procs, false);
    assert g == Touch(h, DiskOf(FIRST), false).(files := h.files - {DiskOf(FIRST)});
    assert g.accesses[|h.accesses|] == a;
    assert a.procs[7].disk == a.path;
  }

  // ---- A pid that went to another VM -----------------------------------------------------------------

  const CREATE_OTHER := Create(IDLE, SECOND, "b", DiskOf(SECOND), false, true, 2)

  /** The first VM exits once the refresh has seen it alive, and the second is started with its pid. */
  const START_OTHER := Start(Reading({}, {}, [Exit(7)], []), SECOND, [], Accepted(7))

  lemma FirstAndSecond()
    ensures IdOf(FIRST) != IdOf(SECOND) && "a" != IdOf(SECOND)
  {
    IdsDiffer(FIRST, SECOND);
    assert |IdOf(SECOND)| > 1;
  }

  /** The first VM runs with pid 7, the second one is there. */
  function Pair(h: Host): Host
    requires h.vms == [Fresh(FIRST, "a")] && NewPorts(h.vms, h.vms[0], {}).Some?
  {
    Add(RunningOne(h), Fresh(SECOND, "b"), 2)
  }

  lemma OwnQemuIsLive(vms: seq<Vm>, procs: map<int, Proc>, i: nat, pid: int)
    requires i < |vms| && vms[i].pid == Some(pid) && pid in procs && procs[pid] == Qemu(vms[i].number, vms[i].disk)
    ensures Alive(procs, vms[i]) && pid in LivePids(vms, procs)
  {
    hide IdOf;
    assert Alive(procs, vms[i]);
    assert vms[i].pid.value in LivePids(vms, procs);
  }

  lemma OnlyA(vms: seq<Vm>)
    requires |vms| == 1 && vms[0].name == "a"
    ensures !NameTaken(vms, "b")
  {
    assert LowerChar("a"[0]) != LowerChar("b"[0]);
  }

  lemma AliveWithPid(h: Host)
    requires h.vms == [Fresh(FIRST, "a")] && NewPorts(h.vms, h.vms[0], {}).Some?
    requires Qga in NewPorts(h.vms, h.vms[0], {}).value
    ensures var g := RunningOne(h); Quiet(g.vms[0], LivePids(g.vms, g.procs)) && !NameTaken(g.vms, "b")
  {
    hide NewPorts, LivePids, Alive, NameTaken, DiskOf;
    var g := RunningOne(h);
    OnlyA(g.vms);
    OwnQemuIsLive(g.vms, g.procs, 0, 7);
  }

  /** One port held leaves others free. */
  lemma PortsBesideOne(vms: seq<Vm>, vm: Vm)
    requires |vms| == 2 && vms[1].number == vm.number
    ensures NewPorts(vms, vm, {}).Some? && Qga in NewPorts(vms, vm, {}).value
  {
    hide FirstFree;
    forall k: PortKind
      ensures FreePort(vms, vm.number, k, {}).Some?
    {
      var reserved := Reserved(vms, vm.number, k);
      assert forall p :: p in reserved ==> k in vms[0].ports && p == vms[0].ports[k];
      assert Lowest(k) !in reserved || Lowest(k) + 1 !in reserved;
    }
  }

  function Confused(h: Host): Host
    requires |h.vms| == 2 && NewPorts(h.vms, h.vms[1], {}).Some?
  {
    h.(vms := [h.vms[0], Started(h.vms, h.vms[1], 7)], procs := map[7 := Qemu(h.vms[1].number, h.vms[1].disk)],
       boots := h.boots + [Boot(h.vms[1].number, false, false)])
  }

  lemma StartedOther(h: Host)
    requires |h.vms| == 2 && h.vms[0].number == FIRST && h.vms[1] == Fresh(SECOND, "b") && DiskOf(SECOND) in h.files
    requires h.procs == map[7 := Qemu(FIRST, DiskOf(FIRST))]
    requires Quiet(h.vms[0], LivePids(h.vms, h.procs))
    ensures NewPorts(h.vms, h.vms[1], {}).Some? && Step(h, START_OTHER) == Confused(h)
  {
    hide NewPorts, Elapse, LivePids, ReadVms, DiskOf, Named;
    PortsBesideOne(h.vms, h.vms[1]);
    QuietRead(h, START_OTHER.r);
    OneMove(h, Exit(7));
    var f := Happen(h, Exit(7));
    assert f.procs == map[];
    NoTime(f);
    assert Find(h.vms, SECOND) == Some(1) by {
      assert h.vms[1..][0] == h.vms[1];
    }
    var booted := h.vms[1 := Started(h.vms, h.vms[1], 7)];
    assert booted == [h.vms[0], Started(h.vms, h.vms[1], 7)];
  }

  /** The process of the second VM has neither the id nor the name of the first. */
  lemma NotTheFirst(procs: map<int, Proc>, vm: Vm)
    requires vm.number == FIRST && vm.name == "a" && procs == map[7 := Qemu(SECOND, DiskOf(SECOND))]
    ensures !Alive(procs, vm) && Off(procs, FIRST)
  {
    hide IdOf, DiskOf;
    FirstAndSecond();
  }

  /** The two records have the same pid, and the process is the QEMU of the second. */
  lemma ConfusedIsMistaken(h: Host)
    requires |h.vms| == 2 && h.vms[0].number == FIRST && h.vms[0].name == "a" && h.vms[0].pid == Some(7)
    requires h.vms[0].state.Running? && Qga in h.vms[0].ports
    requires h.vms[1] == Fresh(SECOND, "b") && NewPorts(h.vms, h.vms[1], {}).Some?
    requires Qga in NewPorts(h.vms, h.vms[1], {}).value
    ensures var g := Confused(h);
      Mistaken(g.vms, g.procs, 0) && Off(g.procs, FIRST) && Step(g, Refresh(IDLE)) == g
  {
    hide NewPorts, Elapse, LivePids, Alive, Off, DiskOf, ReadVms;
    var g := Confused(h);
    NotTheFirst(g.procs, g.vms[0]);
    OwnQemuIsLive(g.vms, g.procs, 1, 7);
    QuietRead(g, IDLE);
    NoTime(g);
  }

  const MIXUP := [CREATE, START, CREATE_OTHER, START_OTHER]

  lemma MixupRun()
    ensures NewPorts(ONE.vms, ONE.vms[0], {}).Some? && NewPorts(Pair(ONE).vms, Pair(ONE).vms[1], {}).Some?
    ensures Run(EMPTY, MIXUP) == Confused(Pair(ONE))
  {
    hide Step, NewPorts, NameTaken, LivePids, Quiet, Run, DiskOf;
    Created();
    OwnPortsOnly();
    StartedOne(ONE);
    AliveWithPid(ONE);
    RunSnoc([CREATE], START);
    RunSnoc([CREATE] + [START], CREATE_OTHER);
    CreateFirst(RunningOne(ONE), SECOND, "b", 2);
    RunSnoc([CREATE] + [START] + [CREATE_OTHER], START_OTHER);
    StillAlive(ONE);
    StartedOther(Pair(ONE));
    assert [CREATE] + [START] + [CREATE_OTHER] + [START_OTHER] == MIXUP;
  }

  lemma StillAlive(h: Host)
    requires h.vms == [Fresh(FIRST, "a")] && NewPorts(h.vms, h.vms[0], {}).Some?
    requires Qga in NewPorts(h.vms, h.vms[0], {}).value
    ensures var g := Pair(h);
      Quiet(g.vms[0], LivePids(g.vms, g.procs)) && g.vms[1] == Fresh(SECOND, "b") && |g.vms| == 2
  {
    hide NewPorts, LivePids, Alive, DiskOf;
    var g := Pair(h);
    OwnQemuIsLive(g.vms, g.procs, 0, 7);
  }

  /**
    A run after which a stopped VM reads as running, refresh after refresh, while another VM's QEMU
    has its old pid.
   */
  lemma StoppedVmReadsAsRunning()
    ensures var h := Run(EMPTY, MIXUP);
      |h.vms| == 2 && Mistaken(h.vms, h.procs, 0) && h.vms[0].state.Running? && Off(h.procs, h.vms[0].number)
      && Run(EMPTY, MIXUP + [Refresh(IDLE)]) == h
  {
    hide Step, NewPorts, Mistaken, LivePids, Off;
    MixupRun();
    OwnPortsOnly();
    PortsBesideOne(Pair(ONE).vms, Pair(ONE).vms[1]);
    ConfusedIsMistaken(Pair(ONE));
    RunSnoc(MIXUP, Refresh(IDLE));
  }

  // ---- Two snapshots in one second ---------------------------------------------------------------

  const SHOT := "a-before-update" + Suffix(101)

  /** The id is drawn at the end of second 100, the file name at the start of the next. */
  const TAKE := TakeSnapshot(IDLE, FIRST, 100, 101, SHOT)
  const TAKE_AGAIN := TakeSnapshot(IDLE, FIRST, 101, 101, SHOT)

  const COLLISION := [CREATE, TAKE, START, Surroundings(Write(7, 2)), Surroundings(Exit(7)), TAKE_AGAIN]

  /** Another name in the same second. */
  const OTHER_SHOT := "a-after-update" + Suffix(101)

  lemma ShotIsNoDisk()
    ensures SHOT != DiskOf(FIRST) && Stamped(SHOT, 101)
    ensures OTHER_SHOT != DiskOf(FIRST) && Stamped(OTHER_SHOT, 101)
  {
    hide Stamped;
    EndsWithSuffix("a-before-update", 101);
    EndsWithSuffix("a-after-update", 101);
    EndsWithSuffix("local-vm", FIRST);
    if SHOT == DiskOf(FIRST) {
      StampIsUnique(SHOT, 101, FIRST);
    }
    if OTHER_SHOT == DiskOf(FIRST) {
      StampIsUnique(OTHER_SHOT, 101, FIRST);
    }
  }

  lemma AtRestRead(h: Host)
    requires h.vms == [Fresh(FIRST, "a")]
    ensures ReadVms(h, IDLE) == h && Find(h.vms, FIRST) == Some(0)
  {
    hide Elapse, LivePids;
    QuietRead(h, IDLE);
    NoTime(h);
  }

  lemma Taken(h: Host, stamp: nat, path: string)
    requires h.vms == [Fresh(FIRST, "a")] && DiskOf(FIRST) in h.files && (path == SHOT || path == OTHER_SHOT)
    ensures var files := h.files[path := h.files[DiskOf(FIRST)]];
      Step(h, TakeSnapshot(IDLE, FIRST, stamp, 101, path)) == Touch(Touch(h, DiskOf(FIRST), true), path, true).(
        files := files, snapshots := Present(h.snapshots, files) + [Snapshot(FIRST, stamp, 101, path)])
  {
    hide ReadVms, Present, Stamped;
    ShotIsNoDisk();
    AtRestRead(h);
  }

  /** What matters of the states of this run: one VM, at rest, with a disk and a snapshot file, and the index. */
  predicate Resting(h: Host, disk: int, shot: int, snapshots: seq<Snapshot>) {
    && h.vms == [Fresh(FIRST, "a")] && h.procs == map[] && h.snapshots == snapshots
    && DiskOf(FIRST) in h.files && h.files[DiskOf(FIRST)] == disk && SHOT in h.files && h.files[SHOT] == shot
  }

  lemma PresentAll(snapshots: seq<Snapshot>, files: map<string, int>)
    requires snapshots == [] || snapshots == [Snapshot(FIRST, 100, 101, SHOT)]
    requires SHOT in files
    ensures Present(snapshots, files) == snapshots
  {
    if snapshots != [] {
      assert snapshots[1..] == [];
    }
  }

  lemma TakenAtRest(h: Host, take: Command)
    requires h.vms == [Fresh(FIRST, "a")] && h.procs == map[] && DiskOf(FIRST) in h.files
    requires h.snapshots == [] || h.snapshots == [Snapshot(FIRST, 100, 101, SHOT)]
    requires take == TAKE || take == TAKE_AGAIN
    ensures Resting(Step(h, take), h.files[DiskOf(FIRST)], h.files[DiskOf(FIRST)],
                    h.snapshots + [Snapshot(FIRST, take.stamp, 101, SHOT)])
  {
    hide Step, DiskOf, Present;
    ShotIsNoDisk();
    Taken(h, take.stamp, SHOT);
    PresentAll(h.snapshots, h.files[SHOT := h.files[DiskOf(FIRST)]]);
  }

  /** The guest runs, writes, and exits. */
  lemma WrittenAndExited(h: Host)
    requires h.vms == [Fresh(FIRST, "a")] && h.procs == map[] && DiskOf(FIRST) in h.files && SHOT in h.files
    ensures NewPorts(h.vms, h.vms[0], {}).Some?
    ensures var g := Step(Step(Step(h, START), Surroundings(Write(7, 2))), Surroundings(Exit(7)));
      && g.vms == [Started(h.vms, h.vms[0], 7)] && g.procs == map[] && g.snapshots == h.snapshots
      && DiskOf(FIRST) in g.files && g.files[DiskOf(FIRST)] == 2 && SHOT in g.files && g.files[SHOT] == h.files[SHOT]
  {
    hide NewPorts, DiskOf;
    ShotIsNoDisk();
    StartedOne(h);
    var r := RunningOne(h);
    assert Step(h, START) == r;
    assert Step(r, Surroundings(Write(7, 2))) == r.(files := r.files[DiskOf(FIRST) := 2]);
  }

  /** The refresh finds the QEMU gone and stops the record. */
  lemma StoppedByRead(h: Host)
    requires NewPorts([Fresh(FIRST, "a")], Fresh(FIRST, "a"), {}).Some?
    requires h.vms == [Started([Fresh(FIRST, "a")], Fresh(FIRST, "a"), 7)] && h.procs == map[]
    ensures ReadVms(h, IDLE) == h.(vms := [Fresh(FIRST, "a")])
  {
    hide NewPorts, Elapse, DiskOf;
    assert LivePids(h.vms, h.procs) == {};
    NothingToRestart(h.vms, {});
    var s := RefreshAll(h.vms, {}, IDLE);
    assert s[0] == Fresh(FIRST, "a") && |s| == 1;
    NoTime(h.(vms := s));
  }

  lemma TakenAgain(h: Host)
    requires NewPorts([Fresh(FIRST, "a")], Fresh(FIRST, "a"), {}).Some?
    requires h.vms == [Started([Fresh(FIRST, "a")], Fresh(FIRST, "a"), 7)]
    requires h.procs == map[] && DiskOf(FIRST) in h.files
    requires h.snapshots == [Snapshot(FIRST, 100, 101, SHOT)]
    ensures Resting(Step(h, TAKE_AGAIN), h.files[DiskOf(FIRST)], h.files[DiskOf(FIRST)],
                    [Snapshot(FIRST, 100, 101, SHOT), Snapshot(FIRST, 101, 101, SHOT)])
  {
    hide NewPorts, ReadVms, DiskOf, Resting, Stamped;
    StoppedByRead(h);
    var f := h.(vms := [Fresh(FIRST, "a")]);
    AtRestRead(f);
    ShotIsNoDisk();
    assert Step(h, TAKE_AGAIN) == Step(f, TAKE_AGAIN);
    TakenAtRest(f, TAKE_AGAIN);
    assert [Snapshot(FIRST, 100, 101, SHOT)] + [Snapshot(FIRST, 101, 101, SHOT)]
        == [Snapshot(FIRST, 100, 101, SHOT), Snapshot(FIRST, 101, 101, SHOT)];
  }

  // ---- Two snapshots with one id -----------------------------------------------------------------

  const TAKE_TWIN := TakeSnapshot(IDLE, FIRST, 101, 101, OTHER_SHOT)

  const UPDATED := [CREATE, TAKE_AGAIN, START, Surroundings(Write(7, 2)), Surroundings(Exit(7))]

  lemma UpdatedRun()
    ensures NewPorts([Fresh(FIRST, "a")], Fresh(FIRST, "a"), {}).Some?
    ensures var h := Run(EMPTY, UPDATED);
      && ReadVms(h, IDLE) == h.(vms := [Fresh(FIRST, "a")])
      && Resting(h.(vms := [Fresh(FIRST, "a")]), 2, 1, [Snapshot(FIRST, 101, 101, SHOT)])
  {
    hide Step, NewPorts, DiskOf, Run, ReadVms;
    Created();
    RunSnoc([CREATE], TAKE_AGAIN);
    TakenAtRest(ONE, TAKE_AGAIN);
    var h := Run(EMPTY, [CREATE] + [TAKE_AGAIN]);
    Neutral([Snapshot(FIRST, 101, 101, SHOT)]);
    WrittenAndExited(h);
    RunSnoc([CREATE] + [TAKE_AGAIN], START);
    RunSnoc([CREATE] + [TAKE_AGAIN] + [START], Surroundings(Write(7, 2)));
    RunSnoc([CREATE] + [TAKE_AGAIN] + [START] + [Surroundings(Write(7, 2))], Surroundings(Exit(7)));
    assert [CREATE] + [TAKE_AGAIN] + [START] + [Surroundings(Write(7, 2))] + [Surroundings(Exit(7))] == UPDATED;
    StoppedByRead(Run(EMPTY, UPDATED));
  }

  lemma TwinTaken(h: Host)
    requires Resting(h, 2, 1, [Snapshot(FIRST, 101, 101, SHOT)])
    ensures var g := DoSnapshot(h, FIRST, 101, 101, OTHER_SHOT);
      && Resting(g, 2, 1, [Snapshot(FIRST, 101, 101, SHOT), Snapshot(FIRST, 101, 101, OTHER_SHOT)])
      && OTHER_SHOT in g.files && g.files[OTHER_SHOT] == 2
  {
    hide DiskOf, Present;
    ShotIsNoDisk();
    ShotsDiffer();
    var s := Snapshot(FIRST, 101, 101, SHOT);
    OnePresent(s, h.files[OTHER_SHOT := 2]);
    assert [s] + [Snapshot(FIRST, 101, 101, OTHER_SHOT)] == [s, Snapshot(FIRST, 101, 101, OTHER_SHOT)];
  }

  lemma ShotsDiffer()
    ensures SHOT != OTHER_SHOT
  {
    assert SHOT[2] == 'b' && OTHER_SHOT[2] == 'a';
  }

  lemma OnePresent(s: Snapshot, files: map<string, int>)
    requires s.path in files
    ensures Present([s], files) == [s]
  {
    assert [s][1..] == [];
  }

  /**
    Two snapshots of one VM in one second have one id: a rollback to the second, which
    nothing has touched since it was taken, gives the disk of the first.
   */
  lemma SameIdRollsBackToFirst()
    ensures var f := ReadVms(Run(EMPTY, UPDATED), IDLE); AtRest(f, FIRST) && DiskContent(f, FIRST) == 2
    ensures var g := Step(Run(EMPTY, UPDATED + [TAKE_TWIN]), Rollback(IDLE, FIRST, 101, true));
      AtRest(g, FIRST) && DiskContent(g, FIRST) == 1
  {
    hide Run, DiskOf, ReadVms, Present, Stamped;
    UpdatedRun();
    ShotIsNoDisk();
    RunSnoc(UPDATED, TAKE_TWIN);
    var f := ReadVms(Run(EMPTY, UPDATED), IDLE);
    TwinTaken(f);
    var h := DoSnapshot(f, FIRST, 101, 101, OTHER_SHOT);
    assert Run(EMPTY, UPDATED + [TAKE_TWIN]) == h;
    AtRestRead(h);
    PresentTwins(h.snapshots, h.files);
    assert FindSnapshot(h.snapshots, FIRST, 101) == Some(0);
  }

  lemma PresentTwins(snapshots: seq<Snapshot>, files: map<string, int>)
    requires snapshots == [Snapshot(FIRST, 101, 101, SHOT), Snapshot(FIRST, 101, 101, OTHER_SHOT)]
    requires SHOT in files && OTHER_SHOT in files
    ensures Present(snapshots, files) == snapshots
  {
    assert snapshots[1..] == [snapshots[1]];
    OnePresent(snapshots[1], files);
  }

  // ---- Two snapshots with one file ---------------------------------------------------------------

  lemma CollisionRun()
    ensures Resting(Run(EMPTY, COLLISION), 2, 2, [Snapshot(FIRST, 100, 101, SHOT), Snapshot(FIRST, 101, 101, SHOT)])
  {
    hide Step, NewPorts, DiskOf, Run;
    Created();
    RunSnoc([CREATE], TAKE);
    TakenAtRest(ONE, TAKE);
    var h := Run(EMPTY, [CREATE] + [TAKE]);
    Neutral([Snapshot(FIRST, 100, 101, SHOT)]);
    assert h.snapshots == [Snapshot(FIRST, 100, 101, SHOT)];
    WrittenAndExited(h);
    RunSnoc([CREATE] + [TAKE], START);
    RunSnoc([CREATE] + [TAKE] + [START], Surroundings(Write(7, 2)));
    RunSnoc([CREATE] + [TAKE] + [START] + [Surroundings(Write(7, 2))], Surroundings(Exit(7)));
    var g := Step(Step(Step(h, START), Surroundings(Write(7, 2))), Surroundings(Exit(7)));
    TakenAgain(g);
    RunSnoc([CREATE] + [TAKE] + [START] + [Surroundings(Write(7, 2))] + [Surroundings(Exit(7))], TAKE_AGAIN);
    assert [CREATE] + [TAKE] + [START] + [Surroundings(Write(7, 2))] + [Surroundings(Exit(7))] + [TAKE_AGAIN]
      == COLLISION;
  }

  /**
    The second snapshot has its own id, but falls into the second the first one named
    its file by: it overwrites that file, and a rollback to the first snapshot gives the
    disk of the second.
   */
  lemma SameSecondLosesSnapshot()
    ensures AtRest(Run(EMPTY, [CREATE]), FIRST) && DiskContent(Run(EMPTY, [CREATE]), FIRST) == 1
    ensures var g := Step(Run(EMPTY, COLLISION), Rollback(IDLE, FIRST, 100, true));
      AtRest(g, FIRST) && DiskContent(g, FIRST) == 2
  {
    hide Run, DiskOf, ReadVms;
    Created();
    CollisionRun();
    var h := Run(EMPTY, COLLISION);
    AtRestRead(h);
    assert Present(h.snapshots, h.files)[0] == h.snapshots[0];
    assert FindSnapshot(Present(h.snapshots, h.files), FIRST, 100) == Some(0);
  }
}
