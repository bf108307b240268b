/** The manager itself: the commands as they change the inventory, step by step, against the functions of LocalVms. */
module VmManager {
  import opened Wrappers
  import opened Sequences
  import opened LocalVms

  class Manager {
    var vms: seq<Vm>
    var procs: map<int, Proc>
    var files: map<string, int>
    var snapshots: seq<Snapshot>
    ghost var used: set<nat>
    ghost var accesses: seq<Access>
    ghost var boots: seq<Boot>

    ghost function State(): Host
      reads this
    {
      Host(vms, procs, files, snapshots, used, accesses, boots)
    }

    constructor ()
      ensures State() == EMPTY
    {
      vms, procs, files, snapshots := [], map[], map[], [];
      used, accesses, boots := {}, [], [];
    }

    // ---- The surroundings ------------------------------------------------------------------

    method Surround(m: Move)
      modifies this`procs, this`files
      ensures State() == Happen(old(State()), m)
    {
      match m {
        case Exit(pid) => procs := procs - {pid};
        case Appear(pid, names) =>
          if pid !in procs {
            procs := procs[pid := Foreign(names)];
          }
        case Write(pid, content) =>
          if pid in procs && procs[pid].Qemu? {
            files := files[procs[pid].disk := content];
          }
      }
    }

    /** Time passes within a command. */
    method Wait(moves: seq<Move>)
      modifies this`procs, this`files
      ensures State() == Elapse(old(State()), moves)
    {
      hide Happen;
      var k := 0;
      assert moves[..0] == [];
      while k < |moves|
        invariant k <= |moves|
        invariant State() == Elapse(old(State()), moves[..k])
      {
        Surround(moves[k]);
        assert moves[..k + 1][..k] == moves[..k];
        k := k + 1;
      }
      assert moves[..k] == moves;
    }

    // ---- Starting --------------------------------------------------------------------------

    method StartLocalVm(i: nat, l: Launch, automatic: bool) returns (started: bool)
      requires i < |vms|
      modifies this
      ensures State() == StartVm(old(State()), i, l, automatic)
      ensures started <==> boots != old(boots)
    {
      hide NewPorts, Elapse;
      Wait(l.moves);
      var vm := vms[i];
      if vm.disk !in files {
        return false;
      }
      var ports := NewPorts(vms, vm, l.busy);
      if ports.None? || l.outcome.None? || l.outcome.value.0 in procs {
        return false;
      }
      var (pid, spice) := l.outcome.value;
      boots := boots + [Boot(vm.number, automatic, Installer(vm))];
      procs := procs[pid := Qemu(vm.number, vm.disk)];
      vm := vm.(pid := Some(pid), ports := ports.value);
      if !spice {
        vm := vm.(ports := vm.ports - {Spice});
      }
      vm := vm.(agent := false);
      vm := vm.(state := Running);
      vms := vms[i := vm];
      return true;
    }

    // ---- Refresh ---------------------------------------------------------------------------

    method ProcessesAlive() returns (live: set<int>)
      ensures live == LivePids(vms, procs)
    {
      hide Alive;
      live := {};
      var k := 0;
      while k < |vms|
        invariant k <= |vms|
        invariant live == LivePids(vms[..k], procs)
      {
        LiveSnoc(vms, procs, k);
        if Alive(procs, vms[k]) {
          AliveHasPid(procs, vms[k]);
          live := live + {vms[k].pid.value};
        }
        k := k + 1;
      }
      assert vms[..k] == vms;
    }

    /** One pass over the records; the ids to start again are collected. */
    method RefreshRecords(live: set<int>, r: Reading) returns (restart: seq<nat>)
      modifies this`vms
      ensures vms == RefreshAll(old(vms), live, r)
      ensures restart == ToRestart(old(vms), live)
    {
      hide RefreshOne, WantsRestart;
      restart := [];
      var k := 0;
      ghost var was := vms;
      assert was[..0] == [];
      while k < |vms|
        invariant k <= |vms| == |was|
        invariant vms == RefreshAll(was[..k], live, r) + was[k..]
        invariant restart == ToRestart(was[..k], live)
      {
        var vm, again := RefreshRecord(vms[k], live, r);
        RefreshSnoc(was, live, r, k);
        if again {
          restart := restart + [vm.number];
        }
        vms := vms[k := vm];
        k := k + 1;
      }
      assert was[..k] == was;
    }

    method RefreshVmStates(r: Reading)
      modifies this
      ensures State() == ReadVms(old(State()), r)
    {
      hide Elapse, RefreshAll, ToRestart, LivePids, Restart;
      var live := ProcessesAlive();
      var restart := RefreshRecords(live, r);
      Wait(r.moves);
      ghost var refreshed := State();
      assert restart[..0] == [];
      var k := 0;
      while k < |restart|
        invariant k <= |restart|
        invariant State() == RestartAll(refreshed, restart[..k], r.launches)
      {
        RestartSnoc(refreshed, restart, r.launches, k);
        StartAgain(restart[k], LaunchOf(r.launches, k));
        k := k + 1;
      }
      assert restart[..k] == restart;
    }

    method StartAgain(number: nat, l: Launch)
      modifies this
      ensures State() == Restart(old(State()), number, l)
    {
      hide StartVm;
      var i := Find(vms, number);
      if i.Some? {
        var _ := StartLocalVm(i.value, l, true);
      }
    }

    // ---- Running and stopping ----------------------------------------------------------------

    method RunStart(id: nat, moves: seq<Move>, launch: Launch)
      modifies this
      ensures State() == DoStart(old(State()), id, moves, launch)
    {
      hide Elapse, StartVm, Alive;
      var i := Find(vms, id);
      if i.None? {
        return;
      }
      Wait(moves);
      if Alive(procs, vms[i.value]) {
        return;
      }
      var _ := StartLocalVm(i.value, launch, false);
    }

    method RunShutdown(id: nat, moves: seq<Move>, accepted: bool)
      modifies this
      ensures State() == DoShutdown(old(State()), id, moves, accepted)
    {
      hide Elapse, Alive;
      var i := Find(vms, id);
      if i.None? {
        return;
      }
      Wait(moves);
      var vm := vms[i.value];
      if !Alive(procs, vm) {
        vms := vms[i.value := StopFields(vm)];
      } else if Qmp in vm.ports && accepted {
        vms := vms[i.value := vm.(state := Stopping)];
      }
    }

    method EndProcess(vm: Vm, moves: seq<Move>, killed: bool) returns (ended: bool)
      modifies this`procs, this`files
      ensures (State(), ended) == Halt(old(State()), vm, moves, killed)
      ensures ended ==> !Alive(procs, vm)
    {
      hide Elapse, Named;
      if vm.pid.None? {
        return true;
      }
      Wait(moves);
      if Alive(procs, vm) {
        if !killed {
          return false;
        }
        procs := procs - {vm.pid.value};
      }
      return true;
    }

    method RunStop(id: nat, moves: seq<Move>, killed: bool) returns (ok: bool)
      modifies this
      ensures (State(), ok) == DoStop(old(State()), id, moves, killed)
    {
      hide Halt;
      var i := Find(vms, id);
      if i.None? {
        return false;
      }
      ok := EndProcess(vms[i.value], moves, killed);
      if ok {
        vms := vms[i.value := StopFields(vms[i.value])];
      }
    }

    method RunRestart(r: Reading, id: nat, moves: seq<Move>, killed: bool, r2: Reading, moves2: seq<Move>,
                      launch: Launch)
      modifies this
      ensures State() == Step(old(State()), RestartVm(r, id, moves, killed, r2, moves2, launch))
    {
      hide ReadVms, DoStop, DoStart;
      RefreshVmStates(r);
      var ok := RunStop(id, moves, killed);
      if ok {
        RefreshVmStates(r2);
        RunStart(id, moves2, launch);
      }
    }

    // ---- Creating, changing and deleting ---------------------------------------------------------

    method Push(vm: Vm, content: int)
      modifies this
      ensures State() == Add(old(State()), vm, content)
    {
      files := files[vm.disk := content];
      vms := vms + [vm];
      used := used + {vm.number};
    }

    method CreateVm(r: Reading, number: nat, name: string, disk: string, windows: bool, userNetwork: bool, content: int)
      returns (created: bool)
      requires Possible(State(), Create(r, number, name, disk, windows, userNetwork, content))
      modifies this
      ensures State() == Step(old(State()), Create(r, number, name, disk, windows, userNetwork, content))
      ensures created == !NameTaken(ReadVms(old(State()), r).vms, name)
    {
      hide ReadVms, Stamped, NameTaken, SameName;
      RefreshVmStates(r);
      created := !NameTaken(vms, name);
      if created {
        Push(NewVm(number, name, disk, windows, userNetwork), content);
      }
    }

    /** The end of a template import, once the archive is unpacked. */
    method ImportVm(r: Reading, number: nat, name: string, disk: string, content: int)
      requires Possible(State(), Import(r, number, name, disk, content))
      modifies this
      ensures State() == Step(old(State()), Import(r, number, name, disk, content))
    {
      hide ReadVms, Stamped;
      RefreshVmStates(r);
      Push(NewVm(number, name, disk, false, true), content);
    }

    method QuickCreateVm(r: Reading, number: nat, name: string, disk: string, windows: bool, content: int,
                         r2: Reading, auto: Auto)
      requires Possible(State(), QuickCreate(r, number, name, disk, windows, content, r2, auto))
      modifies this
      ensures State() == Step(old(State()), QuickCreate(r, number, name, disk, windows, content, r2, auto))
    {
      hide ReadVms, Stamped, NameTaken, SameName;
      RefreshVmStates(r);
      if NameTaken(vms, name) {
        return;
      }
      Push(NewVm(number, name, disk, windows, true), content);
      RefreshVmStates(r2);
      var i := Find(vms, number);
      if i.Some? {
        vms := vms[i.value := vms[i.value].(auto := Some(auto))];
      }
    }

    method UpdateVm(r: Reading, id: nat, change: Change, moves: seq<Move>)
      modifies this
      ensures State() == Step(old(State()), Update(r, id, change, moves))
    {
      hide ReadVms, Elapse, Rejected, Changed;
      RefreshVmStates(r);
      var i := Find(vms, id);
      if i.None? {
        return;
      }
      Wait(moves);
      var vm, ok := ChangeRecord(i.value, change);
      if ok {
        vms := vms[i.value := vm];
      }
    }

    method ChangeRecord(i: nat, change: Change) returns (vm: Vm, ok: bool)
      requires i < |vms|
      ensures ok == !Rejected(State(), i, change)
      ensures ok ==> vm == Changed(vms[i], change)
    {
      hide NameTaken, Alive;
      vm, ok := vms[i], false;
      if change.name.Some? {
        if change.name.value == "" || NameTaken(vms[..i] + vms[i + 1..], change.name.value) {
          return;
        }
        vm := vm.(name := change.name.value);
      }
      if change.windows.Some? {
        vm := vm.(windows := change.windows.value);
      }
      if change.userNetwork.Some? {
        vm := vm.(userNetwork := change.userNetwork.value);
      }
      ok := !(change.bus && Alive(procs, vms[i]));
    }

    method DeleteVm(r: Reading, id: nat, moves: seq<Move>, killed: bool, disks: bool, inside: bool, removed: bool)
      modifies this
      ensures State() == Step(old(State()), Delete(r, id, moves, killed, disks, inside, removed))
    {
      hide ReadVms, Halt, Find;
      RefreshVmStates(r);
      var i := Find(vms, id);
      if i.None? {
        return;
      }
      var vm := vms[i.value];
      var ended := EndProcess(vm, moves, killed);
      if !ended {
        return;
      }
      if disks {
        var gone := RemoveDisk(vm.disk, inside, removed);
        if !gone {
          return;
        }
      }
      vms := vms[..i.value] + vms[i.value + 1..];
    }

    /** False if the file is there and could not be removed: the VM is kept then. */
    method RemoveDisk(disk: string, inside: bool, removed: bool) returns (gone: bool)
      modifies this`files, this`accesses
      ensures gone == (disk !in old(files) || !inside || removed)
      ensures var h := old(State());
        State() == if disk !in h.files || !inside then h
                   else if !removed then Touch(h, disk, true)
                   else Touch(h, disk, true).(files := h.files - {disk})
    {
      if disk in files && inside {
        accesses := accesses + [Access(disk, procs, true)];
        if !removed {
          return false;
        }
        files := files - {disk};
      }
      return true;
    }

    // ---- Disks and snapshots -----------------------------------------------------------------------

    method CreateSnapshot(r: Reading, id: nat, stamp: nat, second: nat, path: string)
      requires Possible(State(), TakeSnapshot(r, id, stamp, second, path))
      modifies this
      ensures State() == Step(old(State()), TakeSnapshot(r, id, stamp, second, path))
    {
      hide ReadVms, Stamped, Present;
      RefreshVmStates(r);
      var i := Find(vms, id);
      if i.None? {
        return;
      }
      var vm := vms[i.value];
      if vm.pid.Some? || vm.state.Running? || vm.state.Stopping? {
        return;
      }
      if vm.disk !in files {
        return;
      }
      accesses := accesses + [Access(vm.disk, procs, true)] + [Access(path, procs, true)];
      files := files[path := files[vm.disk]];
      snapshots := Present(snapshots, files) + [Snapshot(id, stamp, second, path)];
    }

    method RollbackSnapshot(r: Reading, id: nat, snapshot: nat, inside: bool)
      modifies this
      ensures State() == Step(old(State()), Rollback(r, id, snapshot, inside))
    {
      hide ReadVms;
      RefreshVmStates(r);
      var i := Find(vms, id);
      if i.None? {
        return;
      }
      var vm := vms[i.value];
      if vm.pid.Some? || vm.state.Running? || vm.state.Stopping? {
        return;
      }
      var present := Present(snapshots, files);
      var s := FindSnapshot(present, id, snapshot);
      if s.None? || !inside {
        return;
      }
      var path := present[s.value].path;
      accesses := accesses + [Access(path, procs, true)] + [Access(vm.disk, procs, true)];
      files := files[vm.disk := files[path]];
    }

    method DeleteSnapshot(id: nat, snapshot: nat, inside: bool, removed: bool)
      modifies this
      ensures State() == Step(old(State()), DropSnapshot(id, snapshot, inside, removed))
    {
      hide Present;
      var present := Present(snapshots, files);
      var s := FindSnapshot(present, id, snapshot);
      if s.None? {
        return;
      }
      var path := present[s.value].path;
      if inside {
        accesses := accesses + [Access(path, procs, true)];
        if !removed {
          return;
        }
        files := files - {path};
      }
      snapshots := present[..s.value] + present[s.value + 1..];
    }

    method DeleteStorageFile(r: Reading, kind: FileKind, path: string, inside: bool, removed: bool)
      modifies this
      ensures State() == Step(old(State()), DeleteFile(r, kind, path, inside, removed))
    {
      hide ReadVms, Others;
      if path !in files || kind.Unknown? || !inside {
        return;
      }
      if kind.Disk? {
        RefreshVmStates(r);
        if IsDisk(vms, path) {
          return;
        }
      }
      accesses := accesses + [Access(path, procs, kind.Disk?)];
      if !removed {
        return;
      }
      files := files - {path};
      if kind.SnapshotFile? {
        snapshots := Others(Present(snapshots, files), path);
      }
    }
  }

  /** One record of the pass. */
  method RefreshRecord(record: Vm, live: set<int>, r: Reading) returns (vm: Vm, again: bool)
    ensures vm == RefreshOne(record, live, r) && again == WantsRestart(record, live)
    ensures vm.number == record.number
  {
    vm, again := record, false;
    if vm.pid.None? {
      vm := vm.(ports := vm.ports - {Vnc, Spice, Qmp, Rdp});
      OnlyAgentPort(record.ports);
      return;
    }
    if vm.pid.value !in live {
      var finished := FinishIfDone(vm, true);
      vm, again := StopFields(finished.0), finished.1;
      return;
    }
    if !vm.state.Running? && !vm.state.Stopping? {
      vm := vm.(state := Running);
    }
    if Qga in vm.ports {
      if vm.number in r.probed {
        vm := vm.(agent := vm.number in r.answering);
        vm := FinishIfDone(vm, false).0;
      }
    } else {
      vm := vm.(agent := false);
    }
  }

  lemma OnlyAgentPort(ports: map<PortKind, int>)
    ensures ports - {Vnc, Spice, Qmp, Rdp} == map k | k in ports && k == Qga :: ports[k]
  {
  }

  lemma AliveHasPid(procs: map<int, Proc>, vm: Vm)
    requires Alive(procs, vm)
    ensures vm.pid.Some?
  {
  }

  lemma LiveSnoc(vms: seq<Vm>, procs: map<int, Proc>, k: nat)
    requires k < |vms|
    ensures LivePids(vms[..k + 1], procs)
         == LivePids(vms[..k], procs) + if Alive(procs, vms[k]) then {vms[k].pid.value} else {}
  {
    hide Named;
    TakeNext(vms, k);
    forall i | 0 <= i < k && Alive(procs, vms[i])
      ensures vms[i].pid.value in LivePids(vms[..k + 1], procs)
    {
      assert vms[..k + 1][i] == vms[i];
    }
  }

  lemma RefreshSnoc(was: seq<Vm>, live: set<int>, r: Reading, k: nat)
    requires k < |was|
    ensures (RefreshAll(was[..k], live, r) + was[k..])[k := RefreshOne(was[k], live, r)]
         == RefreshAll(was[..k + 1], live, r) + was[k + 1..]
    ensures (RefreshAll(was[..k], live, r) + was[k..])[k] == was[k]
    ensures ToRestart(was[..k + 1], live)
         == ToRestart(was[..k], live) + if WantsRestart(was[k], live) then [was[k].number] else []
  {
    hide RefreshOne, WantsRestart;
    assert was[..k + 1][..k] == was[..k];
  }

  lemma RestartSnoc(h: Host, numbers: seq<nat>, launches: seq<Launch>, k: nat)
    requires k < |numbers|
    ensures RestartAll(h, numbers[..k + 1], launches)
         == Restart(RestartAll(h, numbers[..k], launches), numbers[k], LaunchOf(launches, k))
  {
    hide Restart;
    assert numbers[..k + 1][..k] == numbers[..k];
  }
}
