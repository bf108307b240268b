/** What every run of the VM manager keeps: one QEMU for a VM, distinct ports, and no hand on a disk in use. */
module VmSafety {
  import opened Wrappers
  import opened Decimals
  import opened LocalVms

  // ---- The invariant ---------------------------------------------------------------------

  /** Stopped, without pid and without ports are one and the same; a port is in the range of its kind. */
  predicate Consistent(vm: Vm) {
    && (vm.pid.None? <==> vm.state.Stopped?)
    && (vm.pid.None? <==> vm.ports == map[])
    && (vm.pid.Some? ==> Vnc in vm.ports && Qmp in vm.ports && Qga in vm.ports)
    && (forall k :: k in vm.ports ==> Lowest(k) <= vm.ports[k] <= Highest(k))
    && vm.number >= CLOCK_LIMIT && Stamped(vm.disk, vm.number)
  }

  predicate PortsDiffer(v: Vm, w: Vm) {
    forall k :: k in v.ports && k in w.ports ==> v.ports[k] != w.ports[k]
  }

  predicate Apart(v: Vm, w: Vm) {
    v.number != w.number && PortsDiffer(v, w)
  }

  predicate Separate(vms: seq<Vm>) {
    forall i, j :: 0 <= i < j < |vms| ==> Apart(vms[i], vms[j])
  }

  ghost predicate Tracks(vm: Vm, pid: int, p: Proc) {
    p == Qemu(vm.number, vm.disk) && vm.pid == Some(pid)
  }

  /** Every live QEMU is the one its VM's record names. */
  ghost predicate Tracked(vms: seq<Vm>, procs: map<int, Proc>) {
    forall pid :: pid in procs && procs[pid].Qemu? ==> exists i :: 0 <= i < |vms| && Tracks(vms[i], pid, procs[pid])
  }

  predicate SnapshotsStamped(snapshots: seq<Snapshot>) {
    forall i :: 0 <= i < |snapshots| ==>
      snapshots[i].second < CLOCK_LIMIT && Stamped(snapshots[i].path, snapshots[i].second)
  }

  /** The file is not the disk of a live QEMU. */
  predicate Unused(path: string, procs: map<int, Proc>) {
    forall pid :: pid in procs && procs[pid].Qemu? ==> procs[pid].disk != path
  }

  predicate AccessesSafe(accesses: seq<Access>) {
    forall i :: 0 <= i < |accesses| && accesses[i].checked ==> Unused(accesses[i].path, accesses[i].procs)
  }

  ghost predicate Sound(h: Host) {
    && (forall i :: 0 <= i < |h.vms| ==> Consistent(h.vms[i]) && h.vms[i].number in h.used)
    && Separate(h.vms) && Tracked(h.vms, h.procs) && SnapshotsStamped(h.snapshots) && AccessesSafe(h.accesses)
  }

  /** No QEMU of that VM is alive. */
  predicate Off(procs: map<int, Proc>, number: nat) {
    forall pid :: pid in procs && procs[pid].Qemu? ==> procs[pid].owner != number
  }

  // ---- The surroundings --------------------------------------------------------------------

  /** The QEMUs of `g` are among those of `h`. */
  predicate Fewer(g: map<int, Proc>, h: map<int, Proc>) {
    forall pid :: pid in g && g[pid].Qemu? ==> pid in h && h[pid] == g[pid]
  }

  lemma {:induction false} ElapseFewer(h: Host, moves: seq<Move>)
    ensures Fewer(Elapse(h, moves).procs, h.procs)
  {
    if moves != [] {
      ElapseFewer(h, moves[..|moves| - 1]);
    }
  }

  lemma ElapseSound(h: Host, moves: seq<Move>)
    requires Sound(h)
    ensures Sound(Elapse(h, moves))
  {
    hide Elapse;
    ElapseFewer(h, moves);
  }

  // ---- Changing one record -----------------------------------------------------------------

  /** Ports a record may be given: none of them is held by another. */
  predicate PortsFit(vms: seq<Vm>, i: nat, ports: map<PortKind, int>)
    requires i < |vms|
  {
    forall j, k :: 0 <= j < |vms| && j != i && k in ports && k in vms[j].ports ==> ports[k] != vms[j].ports[k]
  }

  lemma PutSeparate(vms: seq<Vm>, i: nat, vm: Vm)
    requires i < |vms| && Separate(vms) && vm.number == vms[i].number && PortsFit(vms, i, vm.ports)
    ensures Separate(vms[i := vm])
  {
    var s := vms[i := vm];
    forall a, b | 0 <= a < b < |s|
      ensures Apart(s[a], s[b])
    {
      assert Apart(vms[a], vms[b]);
    }
  }

  lemma PutTracked(vms: seq<Vm>, procs: map<int, Proc>, i: nat, vm: Vm)
    requires i < |vms| && Tracked(vms, procs)
    requires vm.number == vms[i].number && vm.disk == vms[i].disk
    requires vm.pid == vms[i].pid || Off(procs, vm.number)
    ensures Tracked(vms[i := vm], procs)
  {
    var s := vms[i := vm];
    forall pid | pid in procs && procs[pid].Qemu?
      ensures exists j :: 0 <= j < |s| && Tracks(s[j], pid, procs[pid])
    {
      var j :| 0 <= j < |vms| && Tracks(vms[j], pid, procs[pid]);
      assert Tracks(s[j], pid, procs[pid]);
    }
  }

  lemma PutSound(h: Host, i: nat, vm: Vm)
    requires i < |h.vms| && Sound(h) && Consistent(vm) && PortsFit(h.vms, i, vm.ports)
    requires vm.number == h.vms[i].number && vm.disk == h.vms[i].disk
    requires vm.pid == h.vms[i].pid || Off(h.procs, vm.number)
    ensures Sound(Put(h, i, vm))
  {
    PutSeparate(h.vms, i, vm);
    PutTracked(h.vms, h.procs, i, vm);
  }

  lemma OwnPortsFit(vms: seq<Vm>, i: nat)
    requires i < |vms| && Separate(vms)
    ensures PortsFit(vms, i, vms[i].ports) && PortsFit(vms, i, map[])
  {
    forall j, k | 0 <= j < |vms| && j != i && k in vms[i].ports && k in vms[j].ports
      ensures vms[i].ports[k] != vms[j].ports[k]
    {
      assert if i < j then Apart(vms[i], vms[j]) else Apart(vms[j], vms[i]);
    }
  }

  lemma StopSound(h: Host, i: nat)
    requires i < |h.vms| && Sound(h) && Off(h.procs, h.vms[i].number)
    ensures Sound(Put(h, i, StopFields(h.vms[i])))
  {
    OwnPortsFit(h.vms, i);
    PutSound(h, i, StopFields(h.vms[i]));
  }

  /** A record whose process is not found alive has no QEMU anywhere. */
  lemma DeadIsOff(h: Host, i: nat)
    requires i < |h.vms| && Sound(h) && !Alive(h.procs, h.vms[i])
    ensures Off(h.procs, h.vms[i].number)
  {
    hide Consistent, PortsDiffer, SnapshotsStamped, AccessesSafe;
    forall pid | pid in h.procs && h.procs[pid].Qemu?
      ensures h.procs[pid].owner != h.vms[i].number
    {
      var j :| 0 <= j < |h.vms| && Tracks(h.vms[j], pid, h.procs[pid]);
      if j < i {
        assert Apart(h.vms[j], h.vms[i]);
      } else if i < j {
        assert Apart(h.vms[i], h.vms[j]);
      }
    }
  }

  lemma FewerIsOff(g: map<int, Proc>, h: map<int, Proc>, number: nat)
    requires Fewer(g, h) && Off(h, number)
    ensures Off(g, number)
  {
  }

  // ---- Starting ----------------------------------------------------------------------------

  predicate PortFits(vms: seq<Vm>, i: nat, k: PortKind, port: int)
    requires i < |vms|
  {
    && Lowest(k) <= port <= Highest(k)
    && forall j :: 0 <= j < |vms| && j != i && k in vms[j].ports ==> port != vms[j].ports[k]
  }

  lemma FreePortFits(vms: seq<Vm>, i: nat, k: PortKind, busy: set<int>)
    requires i < |vms| && Separate(vms)
    ensures var p := FreePort(vms, vms[i].number, k, busy); p.Some? ==> PortFits(vms, i, k, p.value)
  {
    hide FirstFree;
    forall j | 0 <= j < |vms| && j != i && k in vms[j].ports
      ensures vms[j].ports[k] in Reserved(vms, vms[i].number, k)
    {
      assert if i < j then Apart(vms[i], vms[j]) else Apart(vms[j], vms[i]);
    }
  }

  lemma NewPortsFit(vms: seq<Vm>, i: nat, busy: set<int>)
    requires i < |vms| && Separate(vms) && NewPorts(vms, vms[i], busy).Some?
    ensures var ports := NewPorts(vms, vms[i], busy).value;
      && PortsFit(vms, i, ports) && Vnc in ports && Qmp in ports && Qga in ports
      && forall k :: k in ports ==> Lowest(k) <= ports[k] <= Highest(k)
  {
    hide FreePort, PortFits, Lowest, Highest, Separate;
    var ports := NewPorts(vms, vms[i], busy).value;
    forall k | k in ports
      ensures PortFits(vms, i, k, ports[k])
    {
      FreePortFits(vms, i, k, busy);
      assert Some(ports[k]) == FreePort(vms, vms[i].number, k, busy);
    }
    AllPortsFit(vms, i, ports);
  }

  lemma AllPortsFit(vms: seq<Vm>, i: nat, ports: map<PortKind, int>)
    requires i < |vms| && forall k :: k in ports ==> PortFits(vms, i, k, ports[k])
    ensures PortsFit(vms, i, ports) && forall k :: k in ports ==> Lowest(k) <= ports[k] <= Highest(k)
  {
  }

  lemma BootSound(h: Host, i: nat, pid: int, ports: map<PortKind, int>, spice: bool)
    requires i < |h.vms| && Sound(h) && Off(h.procs, h.vms[i].number) && pid !in h.procs
    requires PortsFit(h.vms, i, ports) && Vnc in ports && Qmp in ports && Qga in ports
    requires forall k :: k in ports ==> Lowest(k) <= ports[k] <= Highest(k)
    ensures Sound(Put(h, i, Booted(h.vms[i], pid, ports, spice)).(
                  procs := h.procs[pid := Qemu(h.vms[i].number, h.vms[i].disk)]))
  {
    var vm := Booted(h.vms[i], pid, ports, spice);
    PutSound(h, i, vm);
    var vms, procs := h.vms[i := vm], h.procs[pid := Qemu(vm.number, vm.disk)];
    forall p | p in procs && procs[p].Qemu?
      ensures exists j :: 0 <= j < |vms| && Tracks(vms[j], p, procs[p])
    {
      if p == pid {
        assert Tracks(vms[i], p, procs[p]);
      }
    }
  }

  lemma StartSound(h0: Host, i: nat, l: Launch, automatic: bool)
    requires i < |h0.vms| && Sound(h0) && Off(h0.procs, h0.vms[i].number)
    ensures Sound(StartVm(h0, i, l, automatic))
  {
    hide Elapse, NewPorts, Sound, Off;
    var h := Elapse(h0, l.moves);
    ElapseSound(h0, l.moves);
    ElapseFewer(h0, l.moves);
    FewerIsOff(h.procs, h0.procs, h.vms[i].number);
    var ports := NewPorts(h.vms, h.vms[i], l.busy);
    if h.vms[i].disk in h.files && ports.Some? && l.outcome.Some? && l.outcome.value.0 !in h.procs {
      SoundSeparate(h);
      NewPortsFit(h.vms, i, l.busy);
      var (pid, spice) := l.outcome.value;
      BootSound(h, i, pid, ports.value, spice);
      BootsDoNotMatter(Put(h, i, Booted(h.vms[i], pid, ports.value, spice)).(
                         procs := h.procs[pid := Qemu(h.vms[i].number, h.vms[i].disk)]),
                       StartVm(h0, i, l, automatic).boots);
    }
  }

  lemma SoundSeparate(h: Host)
    requires Sound(h)
    ensures Separate(h.vms)
  {
  }

  lemma BootsDoNotMatter(h: Host, boots: seq<Boot>)
    requires Sound(h)
    ensures Sound(h.(boots := boots))
  {
  }

  // ---- Refresh -----------------------------------------------------------------------------

  lemma RefreshOneKeeps(vm: Vm, live: set<int>, r: Reading)
    requires Consistent(vm)
    ensures var v := RefreshOne(vm, live, r);
      && Consistent(v) && v.number == vm.number && v.disk == vm.disk
      && (forall k :: k in v.ports ==> k in vm.ports && v.ports[k] == vm.ports[k])
      && v.pid == (if Exited(vm, live) then None else vm.pid)
  {
    hide Stamped, Lowest, Highest;
  }

  lemma RefreshSeparate(vms: seq<Vm>, live: set<int>, r: Reading)
    requires Separate(vms) && forall i :: 0 <= i < |vms| ==> Consistent(vms[i])
    ensures Separate(RefreshAll(vms, live, r))
  {
    hide RefreshOne, RefreshAll, Consistent;
    var s := RefreshAll(vms, live, r);
    forall a, b | 0 <= a < b < |s|
      ensures Apart(s[a], s[b])
    {
      assert Apart(vms[a], vms[b]);
      RefreshOneKeeps(vms[a], live, r);
      RefreshOneKeeps(vms[b], live, r);
    }
  }

  lemma RefreshTracked(vms: seq<Vm>, procs: map<int, Proc>, r: Reading)
    requires Tracked(vms, procs) && forall i :: 0 <= i < |vms| ==> Consistent(vms[i])
    ensures Tracked(RefreshAll(vms, LivePids(vms, procs), r), procs)
  {
    hide RefreshOne, RefreshAll, Consistent;
    var live := LivePids(vms, procs);
    var s := RefreshAll(vms, live, r);
    forall pid | pid in procs && procs[pid].Qemu?
      ensures exists j :: 0 <= j < |s| && Tracks(s[j], pid, procs[pid])
    {
      var j :| 0 <= j < |vms| && Tracks(vms[j], pid, procs[pid]);
      assert Alive(procs, vms[j]) && vms[j].pid.value in live;
      RefreshOneKeeps(vms[j], live, r);
      assert Tracks(s[j], pid, procs[pid]);
    }
  }

  lemma RefreshedSound(h: Host, r: Reading)
    requires Sound(h)
    ensures Sound(Refreshed(h, r))
  {
    hide RefreshOne, Consistent, RefreshAll, Tracked, Separate;
    var live := LivePids(h.vms, h.procs);
    RefreshSeparate(h.vms, live, r);
    RefreshTracked(h.vms, h.procs, r);
    var s := RefreshAll(h.vms, live, r);
    forall i | 0 <= i < |s|
      ensures Consistent(s[i]) && s[i].number in h.used
    {
      RefreshOneKeeps(h.vms[i], live, r);
    }
    ElapseSound(h.(vms := s), r.moves);
  }

  /** Where the numbers to restart come from: one record each, found dead. */
  ghost predicate Wanted(vms: seq<Vm>, live: set<int>, number: nat) {
    exists i :: 0 <= i < |vms| && vms[i].number == number && WantsRestart(vms[i], live)
  }

  predicate Distinct(numbers: seq<nat>) {
    forall a, b :: 0 <= a < b < |numbers| ==> numbers[a] != numbers[b]
  }

  lemma {:induction false} ToRestartAreWanted(vms: seq<Vm>, live: set<int>)
    requires Separate(vms)
    ensures forall number :: number in ToRestart(vms, live) ==> Wanted(vms, live, number)
    ensures Distinct(ToRestart(vms, live))
  {
    hide WantsRestart;
    if vms != [] {
      var n := |vms| - 1;
      ToRestartAreWanted(vms[..n], live);
      var rest := ToRestart(vms[..n], live);
      forall number | number in rest
        ensures Wanted(vms, live, number) && number != vms[n].number
      {
        var i :| 0 <= i < n && vms[..n][i].number == number && WantsRestart(vms[..n][i], live);
        assert Apart(vms[i], vms[n]);
      }
      assert WantsRestart(vms[n], live) ==> Wanted(vms, live, vms[n].number);
    }
  }

  lemma WantedIsOff(h: Host, number: nat)
    requires Sound(h) && Wanted(h.vms, LivePids(h.vms, h.procs), number)
    ensures Off(h.procs, number)
  {
    hide Sound, Off;
    var live := LivePids(h.vms, h.procs);
    var i :| 0 <= i < |h.vms| && h.vms[i].number == number && WantsRestart(h.vms[i], live);
    ExitedIsDead(h.vms, h.procs, i);
    DeadIsOff(h, i);
  }

  lemma ExitedIsDead(vms: seq<Vm>, procs: map<int, Proc>, i: nat)
    requires i < |vms|
    ensures Exited(vms[i], LivePids(vms, procs)) ==> !Alive(procs, vms[i])
  {
  }

  lemma RestartSound(h: Host, number: nat, l: Launch)
    requires Sound(h) && Off(h.procs, number)
    ensures Sound(Restart(h, number, l))
    ensures forall m :: m != number && Off(h.procs, m) ==> Off(Restart(h, number, l).procs, m)
  {
    hide Sound, NewPorts, Elapse;
    var i := Find(h.vms, number);
    if i.Some? {
      StartSound(h, i.value, l, true);
      ElapseFewer(h, l.moves);
    }
  }

  lemma {:induction false} RestartAllSound(h: Host, numbers: seq<nat>, launches: seq<Launch>)
    requires Sound(h) && Distinct(numbers) && forall number :: number in numbers ==> Off(h.procs, number)
    ensures Sound(RestartAll(h, numbers, launches))
    ensures forall m :: m !in numbers && Off(h.procs, m) ==> Off(RestartAll(h, numbers, launches).procs, m)
  {
    hide Sound, Off, Restart;
    if numbers != [] {
      var n := |numbers| - 1;
      RestartAllSound(h, numbers[..n], launches);
      RestartSound(RestartAll(h, numbers[..n], launches), numbers[n], LaunchOf(launches, n));
    }
  }

  lemma ReadSound(h: Host, r: Reading)
    requires Sound(h)
    ensures Sound(ReadVms(h, r))
  {
    hide Sound, Off, RefreshAll, Wanted, Separate;
    var live := LivePids(h.vms, h.procs);
    RefreshedSound(h, r);
    SoundSeparate(h);
    ToRestartAreWanted(h.vms, live);
    ElapseFewer(h.(vms := RefreshAll(h.vms, live, r)), r.moves);
    forall number | number in ToRestart(h.vms, live)
      ensures Off(Refreshed(h, r).procs, number)
    {
      WantedIsOff(h, number);
      FewerIsOff(Refreshed(h, r).procs, h.procs, number);
    }
    RestartAllSound(Refreshed(h, r), ToRestart(h.vms, live), r.launches);
  }

  // ---- Paths ---------------------------------------------------------------------------------

  lemma DashIsLast(a: string, x: string)
    requires forall k :: 0 <= k < |x| ==> x[k] != '-'
    ensures (a + "-" + x)[|a|] == '-' && forall i :: |a| < i <= |a| + |x| ==> (a + "-" + x)[i] != '-'
    ensures (a + "-" + x)[|a| + 1..] == x
  {
  }

  lemma AfterTheDash(a: string, b: string, x: string, y: string)
    requires a + "-" + x == b + "-" + y
    requires forall k :: 0 <= k < |x| ==> x[k] != '-'
    requires forall k :: 0 <= k < |y| ==> y[k] != '-'
    ensures x == y
  {
    DashIsLast(a, x);
    DashIsLast(b, y);
    assert |a| == |b|;
  }

  lemma SuffixOff(path: string, n: nat)
    requires Stamped(path, n)
    ensures |path| >= 6 && exists a: string :: path[..|path| - 6] == a + "-" + Decimal(n)
  {
    var s := Suffix(n);
    var cut := |path| - |s|;
    var a := path[..cut];
    assert path == a + s;
    assert path[..|path| - 6] == a + "-" + Decimal(n);
  }

  /** A path is stamped with one number only: files of different VMs, and a disk and a snapshot, are never the same. */
  lemma StampIsUnique(path: string, m: nat, n: nat)
    requires Stamped(path, m) && Stamped(path, n)
    ensures m == n
  {
    SuffixOff(path, m);
    SuffixOff(path, n);
    var a: string :| path[..|path| - 6] == a + "-" + Decimal(m);
    var b: string :| path[..|path| - 6] == b + "-" + Decimal(n);
    DecimalIsParsed(m);
    DecimalIsParsed(n);
    AfterTheDash(a, b, Decimal(m), Decimal(n));
  }

  /** A file stamped with a number is not in use while no QEMU of that number is alive. */
  lemma OffIsUnused(h: Host, path: string, n: nat)
    requires Sound(h) && Stamped(path, n) && Off(h.procs, n)
    ensures Unused(path, h.procs)
  {
    hide Stamped;
    forall pid | pid in h.procs && h.procs[pid].Qemu?
      ensures h.procs[pid].disk != path
    {
      var j :| 0 <= j < |h.vms| && Tracks(h.vms[j], pid, h.procs[pid]);
      if h.vms[j].disk == path {
        StampIsUnique(path, n, h.vms[j].number);
      }
    }
  }

  lemma SecondsAreOff(h: Host, n: nat)
    requires Sound(h) && n < CLOCK_LIMIT
    ensures Off(h.procs, n)
  {
    forall pid | pid in h.procs && h.procs[pid].Qemu?
      ensures h.procs[pid].owner != n
    {
      var j :| 0 <= j < |h.vms| && Tracks(h.vms[j], pid, h.procs[pid]);
    }
  }

  lemma TouchSound(h: Host, path: string, checked: bool)
    requires Sound(h) && (checked ==> Unused(path, h.procs))
    ensures Sound(Touch(h, path, checked))
  {
  }

  lemma FilesDoNotMatter(h: Host, files: map<string, int>)
    requires Sound(h)
    ensures Sound(h.(files := files))
  {
  }

  // ---- Commands --------------------------------------------------------------------------------

  lemma AddSound(h: Host, vm: Vm, content: int)
    requires Sound(h) && Consistent(vm) && vm.pid.None? && vm.number !in h.used
    ensures Sound(Add(h, vm, content))
  {
    var vms := h.vms + [vm];
    forall a, b | 0 <= a < b < |vms|
      ensures Apart(vms[a], vms[b])
    {
      if b < |h.vms| {
        assert Apart(h.vms[a], h.vms[b]);
      }
    }
    forall pid | pid in h.procs && h.procs[pid].Qemu?
      ensures exists j :: 0 <= j < |vms| && Tracks(vms[j], pid, h.procs[pid])
    {
      var j :| 0 <= j < |h.vms| && Tracks(h.vms[j], pid, h.procs[pid]);
      assert Tracks(vms[j], pid, h.procs[pid]);
    }
  }

  lemma NewVmConsistent(number: nat, name: string, disk: string, windows: bool, userNetwork: bool)
    requires number >= CLOCK_LIMIT && Stamped(disk, number)
    ensures Consistent(NewVm(number, name, disk, windows, userNetwork))
  {
  }

  /** A process that was ended, or found dead, leaves no QEMU of its VM behind. */
  lemma HaltSound(h: Host, i: nat, moves: seq<Move>, killed: bool)
    requires i < |h.vms| && Sound(h)
    ensures var (g, ok) := Halt(h, h.vms[i], moves, killed); Sound(g) && (ok ==> Off(g.procs, h.vms[i].number))
  {
    hide Elapse, Sound, Off;
    var vm := h.vms[i];
    if vm.pid.None? {
      DeadIsOff(h, i);
    } else {
      var g := Elapse(h, moves);
      ElapseSound(h, moves);
      if !Alive(g.procs, vm) {
        DeadIsOff(g, i);
      } else if killed {
        KillSound(g, i);
      }
    }
  }

  lemma KillSound(h: Host, i: nat)
    requires i < |h.vms| && Sound(h) && h.vms[i].pid.Some?
    ensures Sound(h.(procs := h.procs - {h.vms[i].pid.value})) && Off(h.procs - {h.vms[i].pid.value}, h.vms[i].number)
  {
    var g := h.(procs := h.procs - {h.vms[i].pid.value});
    forall pid | pid in g.procs && g.procs[pid].Qemu?
      ensures g.procs[pid].owner != h.vms[i].number
    {
      var j :| 0 <= j < |h.vms| && Tracks(h.vms[j], pid, h.procs[pid]);
      if j < i {
        assert Apart(h.vms[j], h.vms[i]);
      } else if i < j {
        assert Apart(h.vms[i], h.vms[j]);
      }
    }
  }

  lemma DoStartSound(h: Host, id: nat, moves: seq<Move>, launch: Launch)
    requires Sound(h)
    ensures Sound(DoStart(h, id, moves, launch))
  {
    hide Elapse, Sound, Off, StartVm;
    var i := Find(h.vms, id);
    if i.Some? {
      var g := Elapse(h, moves);
      ElapseSound(h, moves);
      if !Alive(g.procs, g.vms[i.value]) {
        DeadIsOff(g, i.value);
        StartSound(g, i.value, launch, false);
      }
    }
  }

  lemma DoShutdownSound(h: Host, id: nat, moves: seq<Move>, accepted: bool)
    requires Sound(h)
    ensures Sound(DoShutdown(h, id, moves, accepted))
  {
    hide Elapse, Sound, Off, PortsFit;
    var i := Find(h.vms, id);
    if i.Some? {
      var g := Elapse(h, moves);
      var vm := g.vms[i.value];
      ElapseSound(h, moves);
      if !Alive(g.procs, vm) {
        DeadIsOff(g, i.value);
        StopSound(g, i.value);
      } else if Qmp in vm.ports && accepted {
        SoundSeparate(g);
        OwnPortsFit(g.vms, i.value);
        SoundConsistent(g, i.value);
        PutSound(g, i.value, vm.(state := Stopping));
      }
    }
  }

  lemma SoundConsistent(h: Host, i: nat)
    requires i < |h.vms| && Sound(h)
    ensures Consistent(h.vms[i]) && h.vms[i].number in h.used
  {
  }

  lemma DoStopSound(h: Host, id: nat, moves: seq<Move>, killed: bool)
    requires Sound(h)
    ensures Sound(DoStop(h, id, moves, killed).0)
  {
    hide Halt, Sound, Off;
    var i := Find(h.vms, id);
    if i.Some? {
      HaltSound(h, i.value, moves, killed);
      var (g, ok) := Halt(h, h.vms[i.value], moves, killed);
      if ok {
        StopSound(g, i.value);
      }
    }
  }

  function Without(vms: seq<Vm>, i: nat): (r: seq<Vm>)
    requires i < |vms|
    ensures |r| == |vms| - 1
    ensures forall j :: 0 <= j < |vms| - 1 ==> r[j] == vms[if j < i then j else j + 1]
  {
    vms[..i] + vms[i + 1..]
  }

  lemma RemoveSeparate(vms: seq<Vm>, i: nat)
    requires i < |vms| && Separate(vms)
    ensures Separate(Without(vms, i))
  {
    hide Apart, Without;
    var r := Without(vms, i);
    forall a, b | 0 <= a < b < |r|
      ensures Apart(r[a], r[b])
    {
      assert Apart(vms[if a < i then a else a + 1], vms[if b < i then b else b + 1]);
    }
  }

  lemma RemoveTracked(vms: seq<Vm>, procs: map<int, Proc>, i: nat)
    requires i < |vms| && Tracked(vms, procs) && Off(procs, vms[i].number)
    ensures Tracked(Without(vms, i), procs)
  {
    hide Without;
    var r := Without(vms, i);
    forall pid | pid in procs && procs[pid].Qemu?
      ensures exists j :: 0 <= j < |r| && Tracks(r[j], pid, procs[pid])
    {
      var j :| 0 <= j < |vms| && Tracks(vms[j], pid, procs[pid]);
      assert Tracks(r[if j < i then j else j - 1], pid, procs[pid]);
    }
  }

  lemma RemoveSound(h: Host, i: nat)
    requires i < |h.vms| && Sound(h) && Off(h.procs, h.vms[i].number)
    ensures Sound(h.(vms := h.vms[..i] + h.vms[i + 1..]))
  {
    hide Consistent, Separate, Tracked, Off;
    assert Without(h.vms, i) == h.vms[..i] + h.vms[i + 1..];
    RemoveSeparate(h.vms, i);
    RemoveTracked(h.vms, h.procs, i);
  }

  lemma DoDeleteSound(h: Host, id: nat, moves: seq<Move>, killed: bool, disks: bool, inside: bool, removed: bool)
    requires Sound(h)
    ensures Sound(DoDelete(h, id, moves, killed, disks, inside, removed))
  {
    hide Halt, Sound, Off, Unused;
    var i := Find(h.vms, id);
    if i.Some? {
      var vm := h.vms[i.value];
      HaltSound(h, i.value, moves, killed);
      var (g, ok) := Halt(h, vm, moves, killed);
      if ok {
        SoundConsistent(h, i.value);
        OffIsUnused(g, vm.disk, vm.number);
        TouchSound(g, vm.disk, true);
        RemoveSound(g, i.value);
        var without := g.(vms := g.vms[..i.value] + g.vms[i.value + 1..]);
        TouchSound(without, vm.disk, true);
        FilesDoNotMatter(Touch(without, vm.disk, true), g.files - {vm.disk});
      }
    }
  }

  /** The guard of snapshot, rollback and export: a record without a pid has no QEMU. */
  lemma StoppedIsUnused(h: Host, i: nat)
    requires i < |h.vms| && Sound(h) && h.vms[i].pid.None?
    ensures Unused(h.vms[i].disk, h.procs)
  {
    DeadIsOff(h, i);
    OffIsUnused(h, h.vms[i].disk, h.vms[i].number);
  }

  lemma SnapshotIsUnused(h: Host, path: string, stamp: nat)
    requires Sound(h) && stamp < CLOCK_LIMIT && Stamped(path, stamp)
    ensures Unused(path, h.procs)
  {
    SecondsAreOff(h, stamp);
    OffIsUnused(h, path, stamp);
  }

  lemma SnapshotsSound(h: Host, snapshots: seq<Snapshot>)
    requires Sound(h) && SnapshotsStamped(snapshots)
    ensures Sound(h.(snapshots := snapshots))
  {
  }

  lemma PresentStamped(h: Host, files: map<string, int>)
    requires Sound(h)
    ensures SnapshotsStamped(Present(h.snapshots, files))
  {
  }

  lemma DoSnapshotSound(h: Host, id: nat, stamp: nat, second: nat, path: string)
    requires Sound(h) && second < CLOCK_LIMIT && Stamped(path, second)
    ensures Sound(DoSnapshot(h, id, stamp, second, path))
  {
    hide Sound, Unused, Stamped, Present;
    var i := Find(h.vms, id);
    if i.Some? && h.vms[i.value].pid.None? && h.vms[i.value].state.Stopped? && h.vms[i.value].disk in h.files {
      var disk := h.vms[i.value].disk;
      StoppedIsUnused(h, i.value);
      SnapshotIsUnused(h, path, second);
      TouchSound(h, disk, true);
      var t := Touch(Touch(h, disk, true), path, true);
      TouchSound(Touch(h, disk, true), path, true);
      var files := h.files[path := h.files[disk]];
      FilesDoNotMatter(t, files);
      PresentStamped(h, files);
      var s := Present(h.snapshots, files) + [Snapshot(id, stamp, second, path)];
      SnapshotsSound(t.(files := files), s);
    }
  }

  lemma DoRollbackSound(h: Host, id: nat, snapshot: nat, inside: bool)
    requires Sound(h)
    ensures Sound(DoRollback(h, id, snapshot, inside))
  {
    hide Sound, Unused, Stamped;
    var i := Find(h.vms, id);
    if i.Some? && h.vms[i.value].pid.None? && h.vms[i.value].state.Stopped? {
      var present := Present(h.snapshots, h.files);
      var s := FindSnapshot(present, id, snapshot);
      if s.Some? && inside {
        PresentStamped(h, h.files);
        var path, disk := present[s.value].path, h.vms[i.value].disk;
        StoppedIsUnused(h, i.value);
        SnapshotIsUnused(h, path, present[s.value].second);
        TouchSound(h, path, true);
        TouchSound(Touch(h, path, true), disk, true);
        FilesDoNotMatter(Touch(Touch(h, path, true), disk, true), h.files[disk := h.files[path]]);
      }
    }
  }

  lemma DoDropSnapshotSound(h: Host, id: nat, snapshot: nat, inside: bool, removed: bool)
    requires Sound(h)
    ensures Sound(DoDropSnapshot(h, id, snapshot, inside, removed))
  {
    hide Sound, Unused, Stamped;
    var present := Present(h.snapshots, h.files);
    var s := FindSnapshot(present, id, snapshot);
    if s.Some? {
      PresentStamped(h, h.files);
      var path := present[s.value].path;
      var rest := present[..s.value] + present[s.value + 1..];
      SnapshotIsUnused(h, path, present[s.value].second);
      SnapshotsSound(h, rest);
      TouchSound(h, path, true);
      FilesDoNotMatter(Touch(h, path, true), h.files - {path});
      SnapshotsSound(Touch(h, path, true).(files := h.files - {path}), rest);
    }
  }

  lemma DoExportSound(h: Host, id: nat)
    requires Sound(h)
    ensures Sound(DoExport(h, id))
  {
    hide Sound, Unused;
    var i := Find(h.vms, id);
    if i.Some? && h.vms[i.value].pid.None? {
      StoppedIsUnused(h, i.value);
      TouchSound(h, h.vms[i.value].disk, true);
    }
  }

  /** A file that is no VM's disk is no QEMU's disk. */
  lemma NoDiskIsUnused(h: Host, path: string)
    requires Sound(h) && !IsDisk(h.vms, path)
    ensures Unused(path, h.procs)
  {
    forall pid | pid in h.procs && h.procs[pid].Qemu?
      ensures h.procs[pid].disk != path
    {
      var j :| 0 <= j < |h.vms| && Tracks(h.vms[j], pid, h.procs[pid]);
      assert h.vms[j].disk == h.procs[pid].disk;
    }
  }

  lemma DoDeleteFileSound(h: Host, kind: FileKind, path: string, removed: bool)
    requires Sound(h)
    ensures Sound(DoDeleteFile(h, kind, path, removed))
  {
    hide Sound, Unused, IsDisk, Present, Others, SnapshotsStamped;
    if !(kind.Disk? && IsDisk(h.vms, path)) {
      if kind.Disk? {
        NoDiskIsUnused(h, path);
      }
      TouchSound(h, path, kind.Disk?);
      var g := Touch(h, path, kind.Disk?);
      FilesDoNotMatter(g, h.files - {path});
      OthersStamped(h, path);
      SnapshotsSound(g.(files := h.files - {path}), Others(Present(h.snapshots, h.files - {path}), path));
    }
  }

  lemma OthersStamped(h: Host, path: string)
    requires Sound(h)
    ensures SnapshotsStamped(Others(Present(h.snapshots, h.files - {path}), path))
  {
    hide Stamped;
  }

  lemma DoQuickCreateSound(h: Host, vm: Vm, content: int, r2: Reading, auto: Auto)
    requires Sound(h) && Consistent(vm) && vm.pid.None? && vm.number !in h.used
    ensures Sound(DoQuickCreate(h, vm, content, r2, auto))
  {
    hide Sound, ReadVms, Add, PortsFit, Consistent;
    AddSound(h, vm, content);
    ReadSound(Add(h, vm, content), r2);
    var g := ReadVms(Add(h, vm, content), r2);
    var i := Find(g.vms, vm.number);
    if i.Some? {
      AnnotateSound(g, i.value, g.vms[i.value].(auto := Some(auto)));
    }
  }

  /** A change of a record that leaves its disk, its process and its ports alone. */
  lemma AnnotateSound(h: Host, i: nat, vm: Vm)
    requires i < |h.vms| && Sound(h)
    requires vm == h.vms[i].(name := vm.name, windows := vm.windows, userNetwork := vm.userNetwork, auto := vm.auto)
    ensures Sound(Put(h, i, vm))
  {
    OwnPortsFit(h.vms, i);
    PutSound(h, i, vm);
  }

  lemma UpdateSound(h: Host, id: nat, change: Change, moves: seq<Move>)
    requires Sound(h)
    ensures Find(h.vms, id).Some? ==>
      Sound(Elapse(h, moves))
        && Sound(Put(Elapse(h, moves), Find(h.vms, id).value, Changed(h.vms[Find(h.vms, id).value], change)))
  {
    hide Sound, Elapse;
    ElapseSound(h, moves);
    var i := Find(h.vms, id);
    if i.Some? {
      AnnotateSound(Elapse(h, moves), i.value, Changed(h.vms[i.value], change));
    }
  }

  lemma UsedAfterRead(h: Host, r: Reading)
    ensures ReadVms(h, r).used == h.used && ReadVms(h, r).snapshots == h.snapshots
  {
    hide RefreshAll, Elapse;
    RestartAllUsed(Refreshed(h, r), ToRestart(h.vms, LivePids(h.vms, h.procs)), r.launches);
  }

  lemma {:induction false} RestartAllUsed(h: Host, numbers: seq<nat>, launches: seq<Launch>)
    ensures var g := RestartAll(h, numbers, launches); g.used == h.used && g.snapshots == h.snapshots
  {
    hide Elapse, NewPorts;
    if numbers != [] {
      RestartAllUsed(h, numbers[..|numbers| - 1], launches);
    }
  }

  lemma HappenSound(h: Host, m: Move)
    requires Sound(h)
    ensures Sound(Happen(h, m))
  {
  }

  lemma DoSound(h: Host, c: Command)
    requires Sound(h) && Possible(h, c)
    ensures Sound(Do(h, c))
  {
    hide Sound, ReadVms, DoStart, DoShutdown, DoStop, DoDelete, DoSnapshot, DoRollback, DoDropSnapshot, DoExport,
      DoDeleteFile,
         DoQuickCreate, Elapse, Happen, Add, Stamped, Consistent, NameTaken, Rejected, Changed;
    if !c.Surroundings? && !c.DropSnapshot? {
      ReadSound(h, c.r);
      UsedAfterRead(h, c.r);
    }
    match c {
      case Surroundings(move) => HappenSound(h, move);
      case Refresh(r) =>
      case Create(r, number, name, disk, windows, userNetwork, content) =>
        NewVmConsistent(number, name, disk, windows, userNetwork);
        if !NameTaken(ReadVms(h, r).vms, name) {
          AddSound(ReadVms(h, r), NewVm(number, name, disk, windows, userNetwork), content);
        }
      case Import(r, number, name, disk, content) =>
        NewVmConsistent(number, name, disk, false, true);
        AddSound(ReadVms(h, r), NewVm(number, name, disk, false, true), content);
      case QuickCreate(r, number, name, disk, windows, content, r2, auto) =>
        NewVmConsistent(number, name, disk, windows, true);
        if !NameTaken(ReadVms(h, r).vms, name) {
          DoQuickCreateSound(ReadVms(h, r), NewVm(number, name, disk, windows, true), content, r2, auto);
        }
      case Update(r, id, change, moves) => UpdateSound(ReadVms(h, r), id, change, moves);
      case Start(r, id, moves, launch) => DoStartSound(ReadVms(h, r), id, moves, launch);
      case Shutdown(r, id, moves, accepted) => DoShutdownSound(ReadVms(h, r), id, moves, accepted);
      case Stop(r, id, moves, killed) => DoStopSound(ReadVms(h, r), id, moves, killed);
      case RestartVm(r, id, moves, killed, r2, moves2, launch) =>
        var (g, ok) := DoStop(ReadVms(h, r), id, moves, killed);
        DoStopSound(ReadVms(h, r), id, moves, killed);
        ReadSound(g, r2);
        DoStartSound(ReadVms(g, r2), id, moves2, launch);
      case TakeSnapshot(r, id, stamp, second, path) => DoSnapshotSound(ReadVms(h, r), id, stamp, second, path);
      case Rollback(r, id, snapshot, inside) => DoRollbackSound(ReadVms(h, r), id, snapshot, inside);
      case DropSnapshot(id, snapshot, inside, removed) => DoDropSnapshotSound(h, id, snapshot, inside, removed);
      case Export(r, id) => DoExportSound(ReadVms(h, r), id);
      case Delete(r, id, moves, killed, disks, inside, removed) =>
        DoDeleteSound(ReadVms(h, r), id, moves, killed, disks, inside, removed);
      case DeleteFile(r, kind, path, inside, removed) =>
        DoDeleteFileSound(h, kind, path, removed);
        DoDeleteFileSound(ReadVms(h, r), kind, path, removed);
    }
  }
}
