/**
  The local VM manager: the inventory of VM records, the process table, and the files
  of the disks. Commands run one at a time; the guests, the user and the system may act
  at any moment between two lines of a command. What they do is given as moves.
 */
module LocalVms {
  import opened Wrappers
  import opened Decimals

  datatype PortKind = Vnc | Spice | Qmp | Qga | Rdp

  datatype RunState = Stopped | Running | Stopping

  /** An unattended installation under way; `kernel` and `initrd` tell whether the record names them. */
  datatype Auto = Auto(os: string, kernel: bool, initrd: bool)

  /** A record. `number` is the clock reading in its id; the five optional ports are a partial map. */
  datatype Vm = Vm(number: nat, name: string, disk: string, windows: bool, userNetwork: bool,
                   pid: Option<int>, state: RunState, ports: map<PortKind, int>, agent: bool, auto: Option<Auto>)

  function IdOf(number: nat): string {
    "local-vm-" + Decimal(number)
  }

  /** A process: a QEMU of this manager, or any other with the arguments that follow a `-name` of its own. */
  datatype Proc = Qemu(owner: nat, disk: string) | Foreign(names: set<string>)

  predicate Named(p: Proc, name: string) {
    match p
    case Qemu(owner, _) => name == IdOf(owner)
    case Foreign(names) => name in names
  }

  /** An entry of the snapshot index: the second in its id, and the second in the name of its file, read later. */
  datatype Snapshot = Snapshot(owner: nat, id: nat, second: nat, path: string)

  /** A file a command reads, writes or deletes, with the processes of that moment. */
  datatype Access = Access(path: string, procs: map<int, Proc>, checked: bool)

  /** A QEMU that was started: by the refresh or by a command, and with the installer kernel or not. */
  datatype Boot = Boot(number: nat, automatic: bool, installer: bool)

  /** `used`, `accesses` and `boots` are the history. */
  datatype Host = Host(vms: seq<Vm>, procs: map<int, Proc>, files: map<string, int>, snapshots: seq<Snapshot>,
                       used: set<nat>, accesses: seq<Access>, boots: seq<Boot>)

  const EMPTY := Host([], map[], map[], [], {}, [], [])

  // ---- The surroundings ------------------------------------------------------------------

  /** A process ends; a process appears on a free pid, reused or not; a guest writes to its disk. */
  datatype Move = Exit(pid: int) | Appear(pid: int, names: set<string>) | Write(pid: int, content: int)

  function Happen(h: Host, m: Move): (g: Host)
    ensures g == h.(procs := g.procs, files := g.files)
  {
    match m
    case Exit(pid) => h.(procs := h.procs - {pid})
    case Appear(pid, names) => if pid in h.procs then h else h.(procs := h.procs[pid := Foreign(names)])
    case Write(pid, content) =>
      if pid in h.procs && h.procs[pid].Qemu? then h.(files := h.files[h.procs[pid].disk := content]) else h
  }

  function Elapse(h: Host, moves: seq<Move>): (g: Host)
    ensures g == h.(procs := g.procs, files := g.files)
  {
    if moves == [] then h else Happen(Elapse(h, moves[..|moves| - 1]), moves[|moves| - 1])
  }

  // ---- Records ---------------------------------------------------------------------------

  function Find(vms: seq<Vm>, number: nat): (r: Option<nat>)
    ensures r.Some? ==> r.value < |vms| && vms[r.value].number == number
    ensures r.None? ==> forall i :: 0 <= i < |vms| ==> vms[i].number != number
    ensures r.Some? ==> forall i :: 0 <= i < r.value ==> vms[i].number != number
  {
    if vms == [] then None
    else if vms[0].number == number then Some(0)
    else
      var rest := Find(vms[1..], number);
      if rest.Some? then Some(rest.value + 1) else None
  }

  predicate Alive(procs: map<int, Proc>, vm: Vm) {
    vm.pid.Some? && vm.pid.value in procs
    && (Named(procs[vm.pid.value], IdOf(vm.number)) || Named(procs[vm.pid.value], vm.name))
  }

  function StopFields(vm: Vm): Vm {
    vm.(pid := None, ports := map[], agent := false, state := Stopped)
  }

  /** The installation is over: the record forgets it. True if the VM is to be started again. */
  function FinishIfDone(vm: Vm, exited: bool): (Vm, bool) {
    if vm.auto.None? then (vm, false)
    else if vm.auto.value.os == "debian13" && exited && vm.auto.value.kernel then (vm.(auto := None), true)
    else if vm.auto.value.os == "windows11" && vm.agent then (vm.(auto := None), false)
    else (vm, false)
  }

  // ---- Starting --------------------------------------------------------------------------

  function Lowest(k: PortKind): int {
    match k
    case Vnc => 5901
    case Spice => 5701
    case Qmp => 6001
    case Qga => 6201
    case Rdp => 6301
  }

  function Highest(k: PortKind): int {
    Lowest(k) + 98
  }

  function FirstFree(port: int, high: int, reserved: set<int>, busy: set<int>): (r: Option<int>)
    ensures r.Some? ==> port <= r.value <= high && r.value !in reserved && r.value !in busy
    ensures r.Some? ==> forall p :: port <= p < r.value ==> p in reserved || p in busy
    ensures r.None? ==> forall p :: port <= p <= high ==> p in reserved || p in busy
    decreases high - port
  {
    if port > high then None
    else if port !in reserved && port !in busy then Some(port)
    else FirstFree(port + 1, high, reserved, busy)
  }

  /** Ports of a kind that the other records hold. */
  function Reserved(vms: seq<Vm>, number: nat, k: PortKind): set<int> {
    set i | 0 <= i < |vms| && vms[i].number != number && k in vms[i].ports :: vms[i].ports[k]
  }

  function FreePort(vms: seq<Vm>, number: nat, k: PortKind, busy: set<int>): Option<int> {
    FirstFree(Lowest(k), Highest(k), Reserved(vms, number, k), busy)
  }

  /** Console, control and agent ports must be found; the RDP forward is optional. */
  function NewPorts(vms: seq<Vm>, vm: Vm, busy: set<int>): Option<map<PortKind, int>> {
    var vnc, qmp := FreePort(vms, vm.number, Vnc, busy), FreePort(vms, vm.number, Qmp, busy);
    var spice, qga := FreePort(vms, vm.number, Spice, busy), FreePort(vms, vm.number, Qga, busy);
    var rdp := FreePort(vms, vm.number, Rdp, busy);
    if vnc.None? || qmp.None? || spice.None? || qga.None? then None
    else
      var ports := map[Vnc := vnc.value, Qmp := qmp.value, Spice := spice.value, Qga := qga.value];
      Some(if vm.windows && vm.userNetwork && rdp.Some? then ports[Rdp := rdp.value] else ports)
  }

  /** The outcome of the launch ladder: the pid of the QEMU that stayed up, and whether its plan has SPICE. */
  datatype Launch = Launch(busy: set<int>, moves: seq<Move>, outcome: Option<(int, bool)>)

  function Booted(vm: Vm, pid: int, ports: map<PortKind, int>, spice: bool): Vm {
    vm.(pid := Some(pid), state := Running, agent := false, ports := if spice then ports else ports - {Spice})
  }

  function Installer(vm: Vm): bool {
    vm.auto.Some? && vm.auto.value.kernel && vm.auto.value.initrd
  }

  function StartVm(h0: Host, i: nat, l: Launch, automatic: bool): Host
    requires i < |h0.vms|
    ensures |StartVm(h0, i, l, automatic).vms| == |h0.vms|
  {
    var h := Elapse(h0, l.moves);
    var vm := h.vms[i];
    var ports := NewPorts(h.vms, vm, l.busy);
    if vm.disk !in h.files || ports.None? || l.outcome.None? || l.outcome.value.0 in h.procs then h
    else
      var (pid, spice) := l.outcome.value;
      h.(vms := h.vms[i := Booted(vm, pid, ports.value, spice)],
         procs := h.procs[pid := Qemu(vm.number, vm.disk)],
         boots := h.boots + [Boot(vm.number, automatic, Installer(vm))])
  }

  // ---- Refresh ---------------------------------------------------------------------------

  /** Pids found alive, from one pass over the process table; a pid is not told apart by its record. */
  function LivePids(vms: seq<Vm>, procs: map<int, Proc>): set<int> {
    set i | 0 <= i < |vms| && Alive(procs, vms[i]) :: vms[i].pid.value
  }

  /** `probed` are the VMs whose agent is asked now, `answering` those whose agent answers. */
  datatype Reading = Reading(probed: set<nat>, answering: set<nat>, moves: seq<Move>, launches: seq<Launch>)

  predicate Exited(vm: Vm, live: set<int>) {
    vm.pid.Some? && vm.pid.value !in live
  }

  function RefreshOne(vm: Vm, live: set<int>, r: Reading): Vm {
    if vm.pid.None? then vm.(ports := map k | k in vm.ports && k == Qga :: vm.ports[k])
    else if Exited(vm, live) then StopFields(FinishIfDone(vm, true).0)
    else
      var up := if vm.state.Stopped? then vm.(state := Running) else vm;
      if Qga !in up.ports then up.(agent := false)
      else if vm.number in r.probed then FinishIfDone(up.(agent := vm.number in r.answering), false).0
      else up
  }

  predicate WantsRestart(vm: Vm, live: set<int>) {
    Exited(vm, live) && FinishIfDone(vm, true).1
  }

  function RefreshAll(vms: seq<Vm>, live: set<int>, r: Reading): (s: seq<Vm>)
    ensures |s| == |vms|
    ensures forall i :: 0 <= i < |vms| ==> s[i] == RefreshOne(vms[i], live, r)
  {
    if vms == [] then []
    else RefreshAll(vms[..|vms| - 1], live, r) + [RefreshOne(vms[|vms| - 1], live, r)]
  }

  function ToRestart(vms: seq<Vm>, live: set<int>): seq<nat> {
    if vms == [] then []
    else ToRestart(vms[..|vms| - 1], live) + if WantsRestart(vms[|vms| - 1], live) then [vms[|vms| - 1].number] else []
  }

  const FAILED := Launch({}, [], None)

  function LaunchOf(launches: seq<Launch>, k: nat): Launch {
    if k < |launches| then launches[k] else FAILED
  }

  function Restart(h: Host, number: nat, l: Launch): Host {
    var i := Find(h.vms, number);
    if i.None? then h else StartVm(h, i.value, l, true)
  }

  function RestartAll(h: Host, numbers: seq<nat>, launches: seq<Launch>): Host {
    if numbers == [] then h
    else
      var n := |numbers| - 1;
      Restart(RestartAll(h, numbers[..n], launches), numbers[n], LaunchOf(launches, n))
  }

  function Refreshed(h: Host, r: Reading): Host {
    Elapse(h.(vms := RefreshAll(h.vms, LivePids(h.vms, h.procs), r)), r.moves)
  }

  /** Reading the inventory refreshes it, and every command starts by reading. */
  function ReadVms(h: Host, r: Reading): Host {
    RestartAll(Refreshed(h, r), ToRestart(h.vms, LivePids(h.vms, h.procs)), r.launches)
  }

  // ---- Commands --------------------------------------------------------------------------

  datatype Change = Change(name: Option<string>, windows: Option<bool>, userNetwork: Option<bool>, bus: bool)

  datatype FileKind = Iso | Template | Disk | SnapshotFile | Unknown

  /**
    `killed` tells whether the process could be killed, `inside` whether a path is inside
    the directory it must be in, `removed` whether the file could be removed.
   */
  datatype Command =
    | Surroundings(move: Move)
    | Refresh(r: Reading)
    | Create(r: Reading, number: nat, name: string, disk: string, windows: bool, userNetwork: bool, content: int)
    | Import(r: Reading, number: nat, name: string, disk: string, content: int)
    | QuickCreate(r: Reading, number: nat, name: string, disk: string, windows: bool, content: int, r2: Reading,
                  auto: Auto)
    | Update(r: Reading, id: nat, change: Change, moves: seq<Move>)
    | Start(r: Reading, id: nat, moves: seq<Move>, launch: Launch)
    | Shutdown(r: Reading, id: nat, moves: seq<Move>, accepted: bool)
    | Stop(r: Reading, id: nat, moves: seq<Move>, killed: bool)
    | RestartVm(r: Reading, id: nat, moves: seq<Move>, killed: bool, r2: Reading, moves2: seq<Move>, launch: Launch)
    | TakeSnapshot(r: Reading, id: nat, stamp: nat, second: nat, path: string)
    | Rollback(r: Reading, id: nat, snapshot: nat, inside: bool)
    | DropSnapshot(id: nat, snapshot: nat, inside: bool, removed: bool)
    | Export(r: Reading, id: nat)
    | Delete(r: Reading, id: nat, moves: seq<Move>, killed: bool, disks: bool, inside: bool, removed: bool)
    | DeleteFile(r: Reading, kind: FileKind, path: string, inside: bool, removed: bool)

  function LowerChar(c: char): char {
    if 'A' <= c <= 'Z' then c + 32 as char else c
  }

  predicate SameName(a: string, b: string) {
    |a| == |b| && forall i :: 0 <= i < |a| ==> LowerChar(a[i]) == LowerChar(b[i])
  }

  predicate NameTaken(vms: seq<Vm>, name: string) {
    exists i :: 0 <= i < |vms| && SameName(vms[i].name, name)
  }

  function NewVm(number: nat, name: string, disk: string, windows: bool, userNetwork: bool): Vm {
    Vm(number, name, disk, windows, userNetwork, None, Stopped, map[], false, None)
  }

  function Add(h: Host, vm: Vm, content: int): Host {
    h.(vms := h.vms + [vm], used := h.used + {vm.number}, files := h.files[vm.disk := content])
  }

  function Put(h: Host, i: nat, vm: Vm): Host
    requires i < |h.vms|
  {
    h.(vms := h.vms[i := vm])
  }

  function Touch(h: Host, path: string, checked: bool): Host {
    h.(accesses := h.accesses + [Access(path, h.procs, checked)])
  }

  function Changed(vm: Vm, c: Change): Vm {
    vm.(name := if c.name.Some? then c.name.value else vm.name,
        windows := if c.windows.Some? then c.windows.value else vm.windows,
        userNetwork := if c.userNetwork.Some? then c.userNetwork.value else vm.userNetwork)
  }

  predicate Rejected(h: Host, i: nat, c: Change)
    requires i < |h.vms|
  {
    || (c.name.Some? && (c.name.value == "" || NameTaken(h.vms[..i] + h.vms[i + 1..], c.name.value)))
    || (c.bus && Alive(h.procs, h.vms[i]))
  }

  /** Ending the process of a record: QMP `quit` and a wait, then a kill. False if the kill is refused. */
  function Halt(h: Host, vm: Vm, moves: seq<Move>, killed: bool): (r: (Host, bool))
    ensures r.0 == h.(procs := r.0.procs, files := r.0.files)
  {
    if vm.pid.None? then (h, true)
    else
      var g := Elapse(h, moves);
      if !Alive(g.procs, vm) then (g, true)
      else if killed then (g.(procs := g.procs - {vm.pid.value}), true)
      else (g, false)
  }

  function DoStart(h: Host, id: nat, moves: seq<Move>, launch: Launch): Host {
    var i := Find(h.vms, id);
    if i.None? then h
    else
      var g := Elapse(h, moves);
      if Alive(g.procs, g.vms[i.value]) then g else StartVm(g, i.value, launch, false)
  }

  function DoShutdown(h: Host, id: nat, moves: seq<Move>, accepted: bool): Host {
    var i := Find(h.vms, id);
    if i.None? then h
    else
      var g := Elapse(h, moves);
      var vm := g.vms[i.value];
      if !Alive(g.procs, vm) then Put(g, i.value, StopFields(vm))
      else if Qmp in vm.ports && accepted then Put(g, i.value, vm.(state := Stopping))
      else g
  }

  function DoStop(h: Host, id: nat, moves: seq<Move>, killed: bool): (Host, bool) {
    var i := Find(h.vms, id);
    if i.None? then (h, false)
    else
      var (g, ok) := Halt(h, h.vms[i.value], moves, killed);
      if ok then (Put(g, i.value, StopFields(g.vms[i.value])), true) else (g, false)
  }

  function DoDelete(h: Host, id: nat, moves: seq<Move>, killed: bool, disks: bool, inside: bool, removed: bool): Host {
    var i := Find(h.vms, id);
    if i.None? then h
    else
      var vm := h.vms[i.value];
      var (g, ok) := Halt(h, vm, moves, killed);
      var without := g.(vms := g.vms[..i.value] + g.vms[i.value + 1..]);
      if !ok then g
      else if !disks || vm.disk !in g.files || !inside then without
      else if !removed then Touch(g, vm.disk, true)
      else Touch(without, vm.disk, true).(files := g.files - {vm.disk})
  }

  function DoSnapshot(h: Host, id: nat, stamp: nat, second: nat, path: string): Host {
    var i := Find(h.vms, id);
    if i.None? || h.vms[i.value].pid.Some? || !h.vms[i.value].state.Stopped? || h.vms[i.value].disk !in h.files then h
    else
      var disk := h.vms[i.value].disk;
      var files := h.files[path := h.files[disk]];
      Touch(Touch(h, disk, true), path, true).(
        files := files, snapshots := Present(h.snapshots, files) + [Snapshot(id, stamp, second, path)])
  }

  function FindSnapshot(snapshots: seq<Snapshot>, owner: nat, id: nat): (r: Option<nat>)
    ensures r.Some? ==> r.value < |snapshots| && snapshots[r.value].owner == owner && snapshots[r.value].id == id
  {
    if snapshots == [] then None
    else if snapshots[0].owner == owner && snapshots[0].id == id then Some(0)
    else
      var rest := FindSnapshot(snapshots[1..], owner, id);
      if rest.Some? then Some(rest.value + 1) else None
  }

  /** The index read back holds only the snapshots whose file is there. */
  function Present(snapshots: seq<Snapshot>, files: map<string, int>): (r: seq<Snapshot>)
    ensures forall i :: 0 <= i < |r| ==> r[i] in snapshots && r[i].path in files
  {
    if snapshots == [] then []
    else if snapshots[0].path in files then [snapshots[0]] + Present(snapshots[1..], files)
    else Present(snapshots[1..], files)
  }

  function Others(snapshots: seq<Snapshot>, path: string): (r: seq<Snapshot>)
    ensures forall i :: 0 <= i < |r| ==> r[i] in snapshots && r[i].path != path
  {
    if snapshots == [] then []
    else (if snapshots[0].path != path then [snapshots[0]] else []) + Others(snapshots[1..], path)
  }

  function DoRollback(h: Host, id: nat, snapshot: nat, inside: bool): Host {
    var i := Find(h.vms, id);
    if i.None? || h.vms[i.value].pid.Some? || !h.vms[i.value].state.Stopped? then h
    else
      var present := Present(h.snapshots, h.files);
      var s := FindSnapshot(present, id, snapshot);
      if s.None? || !inside then h
      else
        var path, disk := present[s.value].path, h.vms[i.value].disk;
        Touch(Touch(h, path, true), disk, true).(files := h.files[disk := h.files[path]])
  }

  function DoDropSnapshot(h: Host, id: nat, snapshot: nat, inside: bool, removed: bool): Host {
    var present := Present(h.snapshots, h.files);
    var s := FindSnapshot(present, id, snapshot);
    if s.None? then h
    else
      var path := present[s.value].path;
      var rest := present[..s.value] + present[s.value + 1..];
      if !inside then h.(snapshots := rest)
      else if !removed then Touch(h, path, true)
      else Touch(h, path, true).(files := h.files - {path}, snapshots := rest)
  }

  function DoExport(h: Host, id: nat): Host {
    var i := Find(h.vms, id);
    if i.None? || h.vms[i.value].pid.Some? || h.vms[i.value].state.Running? || h.vms[i.value].disk !in h.files then h
    else Touch(h, h.vms[i.value].disk, true)
  }

  predicate IsDisk(vms: seq<Vm>, path: string) {
    exists i :: 0 <= i < |vms| && vms[i].disk == path
  }

  /** Only a file deleted as a disk is compared with the disks of the VMs. */
  function DoDeleteFile(h: Host, kind: FileKind, path: string, removed: bool): Host {
    if kind.Disk? && IsDisk(h.vms, path) then h
    else
      var g := Touch(h, path, kind.Disk?);
      if !removed then g
      else g.(files := h.files - {path},
              snapshots := if kind.SnapshotFile? then Others(Present(h.snapshots, h.files - {path}), path)
                else h.snapshots)
  }

  /** Seconds stay below and nanoseconds above it, on any clock set after 1970 and for millions of years. */
  const CLOCK_LIMIT := 1_000_000_000_000_000

  function Suffix(n: nat): string {
    "-" + Decimal(n) + ".qcow2"
  }

  /** Disks end with the number of their VM, snapshots with the second they were taken. */
  predicate Stamped(path: string, n: nat) {
    var s := Suffix(n);
    |s| <= |path| && path[|path| - |s|..] == s
  }

  /** What the clock allows: a new VM has a number never drawn before, and in nanoseconds; a snapshot a second. */
  predicate Possible(h: Host, c: Command) {
    match c
    case Create(_, number, _, disk, _, _, _) => number !in h.used && number >= CLOCK_LIMIT && Stamped(disk, number)
    case Import(_, number, _, disk, _) => number !in h.used && number >= CLOCK_LIMIT && Stamped(disk, number)
    case QuickCreate(_, number, _, disk, _, _, _, _) =>
      number !in h.used && number >= CLOCK_LIMIT && Stamped(disk, number)
    case TakeSnapshot(_, _, _, second, path) => second < CLOCK_LIMIT && Stamped(path, second)
    case _ => true
  }

  function DoQuickCreate(h: Host, vm: Vm, content: int, r2: Reading, auto: Auto): Host {
    var g := ReadVms(Add(h, vm, content), r2);
    var i := Find(g.vms, vm.number);
    if i.None? then g else Put(g, i.value, g.vms[i.value].(auto := Some(auto)))
  }

  function Do(h: Host, c: Command): Host {
    match c
    case Surroundings(move) => Happen(h, move)
    case Refresh(r) => ReadVms(h, r)
    case Create(r, number, name, disk, windows, userNetwork, content) =>
      var g := ReadVms(h, r);
      if NameTaken(g.vms, name) then g else Add(g, NewVm(number, name, disk, windows, userNetwork), content)
    case Import(r, number, name, disk, content) =>
      Add(ReadVms(h, r), NewVm(number, name, disk, false, true), content)
    case QuickCreate(r, number, name, disk, windows, content, r2, auto) =>
      var g := ReadVms(h, r);
      if NameTaken(g.vms, name) then g
        else DoQuickCreate(g, NewVm(number, name, disk, windows, true), content, r2, auto)
    case Update(r, id, change, moves) =>
      var g := ReadVms(h, r);
      var i := Find(g.vms, id);
      if i.None? then g
      else
        var later := Elapse(g, moves);
        if Rejected(later, i.value, change) then later else Put(later, i.value, Changed(later.vms[i.value], change))
    case Start(r, id, moves, launch) => DoStart(ReadVms(h, r), id, moves, launch)
    case Shutdown(r, id, moves, accepted) => DoShutdown(ReadVms(h, r), id, moves, accepted)
    case Stop(r, id, moves, killed) => DoStop(ReadVms(h, r), id, moves, killed).0
    case RestartVm(r, id, moves, killed, r2, moves2, launch) =>
      var (g, ok) := DoStop(ReadVms(h, r), id, moves, killed);
      if ok then DoStart(ReadVms(g, r2), id, moves2, launch) else g
    case TakeSnapshot(r, id, stamp, second, path) => DoSnapshot(ReadVms(h, r), id, stamp, second, path)
    case Rollback(r, id, snapshot, inside) => DoRollback(ReadVms(h, r), id, snapshot, inside)
    case DropSnapshot(id, snapshot, inside, removed) => DoDropSnapshot(h, id, snapshot, inside, removed)
    case Export(r, id) => DoExport(ReadVms(h, r), id)
    case Delete(r, id, moves, killed, disks, inside, removed) =>
      DoDelete(ReadVms(h, r), id, moves, killed, disks, inside, removed)
    case DeleteFile(r, kind, path, inside, removed) =>
      if path !in h.files || kind.Unknown? || !inside then h
      else DoDeleteFile(if kind.Disk? then ReadVms(h, r) else h, kind, path, removed)
  }

  /** A command that the clock rules out does not occur. */
  function Step(h: Host, c: Command): Host {
    if Possible(h, c) then Do(h, c) else h
  }

  function Run(h: Host, commands: seq<Command>): Host {
    if commands == [] then h else Step(Run(h, commands[..|commands| - 1]), commands[|commands| - 1])
  }
}
