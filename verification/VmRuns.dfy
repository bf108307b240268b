/** Whole runs of the VM manager, from an empty inventory. */
module VmRuns {
  import opened Wrappers
  import opened Decimals
  import opened LocalVms
  import opened VmSafety

  /** Every command, whatever happens around and inside it, keeps the invariant. */
  lemma StepSound(h: Host, c: Command)
    requires Sound(h)
    ensures Sound(Step(h, c))
  {
    hide Sound, Do;
    if Possible(h, c) {
      DoSound(h, c);
    }
  }

  lemma {:induction false} RunSound(commands: seq<Command>)
    ensures Sound(Run(EMPTY, commands))
  {
    hide Step;
    if commands != [] {
      RunSound(commands[..|commands| - 1]);
      StepSound(Run(EMPTY, commands[..|commands| - 1]), commands[|commands| - 1]);
    }
  }

  /** A VM has at most one live QEMU, which its record names. */
  lemma OneQemu(commands: seq<Command>, p: int, q: int)
    requires var procs := Run(EMPTY, commands).procs;
      p in procs && q in procs && procs[p].Qemu? && procs[q].Qemu? && procs[p].owner == procs[q].owner
    ensures p == q
    ensures var h := Run(EMPTY, commands);
      exists i :: 0 <= i < |h.vms| && h.vms[i].number == h.procs[p].owner && h.vms[i].pid == Some(p)
  {
    hide Run, Consistent, SnapshotsStamped, AccessesSafe;
    RunSound(commands);
    var h := Run(EMPTY, commands);
    var i :| 0 <= i < |h.vms| && Tracks(h.vms[i], p, h.procs[p]);
    var j :| 0 <= j < |h.vms| && Tracks(h.vms[j], q, h.procs[q]);
    SameRecord(h.vms, i, j);
  }

  lemma SameRecord(vms: seq<Vm>, i: nat, j: nat)
    requires i < |vms| && j < |vms| && Separate(vms) && vms[i].number == vms[j].number
    ensures i == j
  {
  }

  /** No snapshot, rollback, export or deletion of a disk ever touches a disk whose QEMU is alive. */
  lemma DisksInUseAreNotTouched(commands: seq<Command>, a: Access)
    requires a in Run(EMPTY, commands).accesses && a.checked
    ensures Unused(a.path, a.procs)
  {
    hide Run, Unused, Consistent, Separate, Tracked, SnapshotsStamped;
    RunSound(commands);
  }

  /** The record names a live process, and it is the QEMU of this VM. */
  predicate Runs(procs: map<int, Proc>, vm: Vm) {
    vm.pid.Some? && vm.pid.value in procs && procs[vm.pid.value] == Qemu(vm.number, vm.disk)
  }

  /** The path is the disk of a VM whose record names its live QEMU. */
  predicate DiskOfRunning(h: Host, path: string) {
    exists i :: 0 <= i < |h.vms| && h.vms[i].disk == path && Runs(h.procs, h.vms[i])
  }

  lemma RunningIsUsed(h: Host, path: string, i: nat)
    requires i < |h.vms| && h.vms[i].disk == path && Runs(h.procs, h.vms[i])
    ensures !Unused(path, h.procs)
  {
    var pid := h.vms[i].pid.value;
    assert pid in h.procs && h.procs[pid].Qemu? && h.procs[pid].disk == path;
  }

  lemma UsedIsRunning(h: Host, path: string)
    requires Sound(h) && !Unused(path, h.procs)
    ensures DiskOfRunning(h, path)
  {
    hide Consistent, Separate, SnapshotsStamped, AccessesSafe;
    var pid :| pid in h.procs && h.procs[pid].Qemu? && h.procs[pid].disk == path;
    var i :| 0 <= i < |h.vms| && Tracks(h.vms[i], pid, h.procs[pid]);
    assert h.vms[i].disk == path && Runs(h.procs, h.vms[i]);
  }

  lemma UsedExactly(h: Host, path: string)
    requires Sound(h)
    ensures Unused(path, h.procs) <==> !DiskOfRunning(h, path)
  {
    hide Sound, Unused, Runs;
    if !Unused(path, h.procs) {
      UsedIsRunning(h, path);
    } else if DiskOfRunning(h, path) {
      var i :| 0 <= i < |h.vms| && h.vms[i].disk == path && Runs(h.procs, h.vms[i]);
      RunningIsUsed(h, path, i);
    }
  }

  /** The accesses a command made. */
  function NewAccesses(h: Host, g: Host): seq<Access> {
    if |h.accesses| <= |g.accesses| then g.accesses[|h.accesses|..] else []
  }

  predicate AllUnused(accesses: seq<Access>) {
    forall i :: 0 <= i < |accesses| ==> Unused(accesses[i].path, accesses[i].procs)
  }

  /**
    Deleting a storage file touches a disk in use exactly when it is deleted as an ISO,
    a template or a snapshot, is there and inside the directory of that kind, and is the
    disk of a VM whose record names its live QEMU. Deleted as a disk it never is.
   */
  lemma StorageDeletionIsSafeExactly(commands: seq<Command>, r: Reading, kind: FileKind, path: string, inside: bool,
                                     removed: bool)
    ensures var h := Run(EMPTY, commands);
      var g := Step(h, DeleteFile(r, kind, path, inside, removed));
      !AllUnused(NewAccesses(h, g))
      <==> (kind.Iso? || kind.Template? || kind.SnapshotFile?) && inside && path in h.files && DiskOfRunning(h, path)
  {
    hide Run, Unused, Sound, DiskOfRunning, ReadVms, Present, Others;
    RunSound(commands);
    var h := Run(EMPTY, commands);
    UsedExactly(h, path);
    ReadSound(h, r);
    AccessesAfterRead(h, r);
    var f := if kind.Disk? then ReadVms(h, r) else h;
    var g := Step(h, DeleteFile(r, kind, path, inside, removed));
    if path in h.files && !kind.Unknown? && inside && !(kind.Disk? && IsDisk(f.vms, path)) {
      assert NewAccesses(h, g) == [Access(path, f.procs, kind.Disk?)];
      if kind.Disk? {
        NoDiskIsUnused(f, path);
      }
      assert NewAccesses(h, g)[0].path == path;
    } else {
      assert NewAccesses(h, g) == [];
    }
  }

  lemma AccessesAfterRead(h: Host, r: Reading)
    ensures ReadVms(h, r).accesses == h.accesses
  {
    hide RefreshAll, Elapse;
    RestartAllAccesses(Refreshed(h, r), ToRestart(h.vms, LivePids(h.vms, h.procs)), r.launches);
  }

  lemma {:induction false} RestartAllAccesses(h: Host, numbers: seq<nat>, launches: seq<Launch>)
    ensures RestartAll(h, numbers, launches).accesses == h.accesses
  {
    hide Elapse, NewPorts;
    if numbers != [] {
      RestartAllAccesses(h, numbers[..|numbers| - 1], launches);
    }
  }

  /** Without a pid, stopped, and without ports are the same; the ports that are held are all different. */
  lemma InventoryIsConsistent(commands: seq<Command>, i: nat, j: nat)
    requires i < |Run(EMPTY, commands).vms| && j < |Run(EMPTY, commands).vms|
    ensures var v := Run(EMPTY, commands).vms[i];
      (v.pid.None? <==> v.state.Stopped?) && (v.pid.None? <==> v.ports == map[])
    ensures var v, w := Run(EMPTY, commands).vms[i], Run(EMPTY, commands).vms[j];
      forall k, l :: k in v.ports && l in w.ports && (i != j || k != l) ==> v.ports[k] != w.ports[l]
    ensures var v, w := Run(EMPTY, commands).vms[i], Run(EMPTY, commands).vms[j];
      i != j ==> v.number != w.number && v.disk != w.disk
  {
    hide Run, Tracked, SnapshotsStamped, AccessesSafe, Stamped;
    RunSound(commands);
    var v, w := Run(EMPTY, commands).vms[i], Run(EMPTY, commands).vms[j];
    if i != j {
      assert if i < j then Apart(v, w) else Apart(w, v);
      if v.disk == w.disk {
        StampIsUnique(v.disk, v.number, w.number);
      }
    }
  }

  /** The last byte of the loopback address an RDP port is forwarded on, on Windows. */
  function LoopbackByte(port: nat): (b: nat)
    ensures 10 <= b < 250
  {
    10 + (if port >= 6300 then port - 6300 else 0) % 240
  }

  /** Two running VMs with an RDP forward never share a loopback address. */
  lemma LoopbackAddressesDiffer(commands: seq<Command>, i: nat, j: nat)
    requires i < j < |Run(EMPTY, commands).vms|
    requires Rdp in Run(EMPTY, commands).vms[i].ports && Rdp in Run(EMPTY, commands).vms[j].ports
    ensures var p, q := Run(EMPTY, commands).vms[i].ports[Rdp], Run(EMPTY, commands).vms[j].ports[Rdp];
      p >= 0 && q >= 0 && LoopbackByte(p) != LoopbackByte(q)
  {
    hide Run, Sound, LoopbackByte, Stamped;
    InventoryIsConsistent(commands, i, j);
    RunSound(commands);
    SoundConsistent(Run(EMPTY, commands), i);
    SoundConsistent(Run(EMPTY, commands), j);
    LoopbackIsInjective(Run(EMPTY, commands).vms[i].ports[Rdp], Run(EMPTY, commands).vms[j].ports[Rdp]);
  }

  lemma LoopbackIsInjective(p: int, q: int)
    requires 6301 <= p <= 6399 && 6301 <= q <= 6399 && p != q
    ensures LoopbackByte(p) != LoopbackByte(q)
  {
  }

  // ---- What a refresh sees ---------------------------------------------------------------------

  /** The record's process is gone, and yet its pid was found alive. */
  predicate Mistaken(vms: seq<Vm>, procs: map<int, Proc>, i: nat)
    requires i < |vms|
  {
    vms[i].pid.Some? && !Alive(procs, vms[i]) && !Exited(vms[i], LivePids(vms, procs))
  }

  lemma IdsDiffer(m: nat, n: nat)
    ensures IdOf(m) == IdOf(n) <==> m == n
  {
    DecimalIsParsed(m);
    DecimalIsParsed(n);
    assert IdOf(m)[|"local-vm-"|..] == Decimal(m) && IdOf(n)[|"local-vm-"|..] == Decimal(n);
  }

  /**
    The pid of the record is now that of another VM's QEMU, or of a foreign process that
    another record takes for its own.
   */
  predicate TakenOver(vms: seq<Vm>, i: nat, p: Proc)
    requires i < |vms|
  {
    match p
    case Qemu(owner, _) => owner != vms[i].number && vms[i].name != IdOf(owner)
    case Foreign(names) =>
      && IdOf(vms[i].number) !in names && vms[i].name !in names
      && exists j :: 0 <= j < |vms| && vms[j].pid == vms[i].pid
           && (IdOf(vms[j].number) in names || vms[j].name in names)
  }

  /**
    After any run, the refresh keeps a dead VM as running exactly when its pid was taken
    over: by any QEMU of the manager, since another record names each of them, or by a
    foreign process with the name of another record that has the same pid.
   */
  lemma MistakenExactly(commands: seq<Command>, i: nat)
    requires i < |Run(EMPTY, commands).vms|
    ensures var h := Run(EMPTY, commands);
      var pid := h.vms[i].pid;
      Mistaken(h.vms, h.procs, i) <==> pid.Some? && pid.value in h.procs && TakenOver(h.vms, i, h.procs[pid.value])
  {
    hide Run, Consistent, Separate, SnapshotsStamped, AccessesSafe, IdOf;
    RunSound(commands);
    var h := Run(EMPTY, commands);
    MistakenHere(h.vms, h.procs, i);
  }

  /** The pid is found alive when some record takes the process for its own. */
  lemma KnownPid(vms: seq<Vm>, procs: map<int, Proc>, pid: int)
    ensures pid in LivePids(vms, procs)
      <==> exists j :: 0 <= j < |vms| && vms[j].pid == Some(pid) && Alive(procs, vms[j])
  {
    hide Named;
    forall j | 0 <= j < |vms| && vms[j].pid == Some(pid) && Alive(procs, vms[j])
      ensures pid in LivePids(vms, procs)
    {
      assert vms[j].pid.value in LivePids(vms, procs);
    }
  }

  lemma MistakenHere(vms: seq<Vm>, procs: map<int, Proc>, i: nat)
    requires i < |vms| && Tracked(vms, procs)
    ensures Mistaken(vms, procs, i) <==>
      vms[i].pid.Some? && vms[i].pid.value in procs && TakenOver(vms, i, procs[vms[i].pid.value])
  {
    hide LivePids, IdOf;
    if vms[i].pid.Some? && vms[i].pid.value in procs {
      var pid := vms[i].pid.value;
      KnownPid(vms, procs, pid);
      if procs[pid].Qemu? {
        IdsDiffer(procs[pid].owner, vms[i].number);
        var j :| 0 <= j < |vms| && Tracks(vms[j], pid, procs[pid]);
        assert Alive(procs, vms[j]) && vms[j].pid == Some(pid);
      }
    } else if vms[i].pid.Some? {
      KnownPid(vms, procs, vms[i].pid.value);
    }
  }

  /** Whether a refresh found anything to write. */
  predicate Differs(vm: Vm, live: set<int>, r: Reading) {
    vm.pid.Some? && (Exited(vm, live) || vm.state.Stopped? || (Qga in vm.ports && vm.number in r.probed))
  }

  /** A refresh that writes nothing has changed nothing. */
  lemma UnwrittenIsUnchanged(commands: seq<Command>, live: set<int>, r: Reading, i: nat)
    requires i < |Run(EMPTY, commands).vms| && !Differs(Run(EMPTY, commands).vms[i], live, r)
    ensures RefreshOne(Run(EMPTY, commands).vms[i], live, r) == Run(EMPTY, commands).vms[i]
  {
    hide Run, Tracked, SnapshotsStamped, AccessesSafe, Stamped, Separate;
    RunSound(commands);
    SoundConsistent(Run(EMPTY, commands), i);
  }

  /**
    A start that succeeds leaves its VM alive under the new pid, with the ports its plan calls for;
    one that fails leaves every record as it was.
   */
  lemma StartOutcome(h: Host, i: nat, l: Launch, automatic: bool)
    requires i < |h.vms|
    ensures var g := StartVm(h, i, l, automatic);
      g.boots == h.boots ==> g.vms == h.vms
    ensures var g := StartVm(h, i, l, automatic);
      g.boots != h.boots ==> Alive(g.procs, g.vms[i]) && l.outcome.Some? && RunsWith(g.vms[i], l.outcome.value)
    ensures forall j :: 0 <= j < |h.vms| && j != i ==> StartVm(h, i, l, automatic).vms[j] == h.vms[j]
  {
    hide Elapse, FreePort;
    var g := StartVm(h, i, l, automatic);
    var ports := NewPorts(h.vms, h.vms[i], l.busy);
    if g.boots != h.boots {
      assert g.procs[l.outcome.value.0] == Qemu(h.vms[i].number, h.vms[i].disk);
      assert {Vnc, Spice, Qmp, Qga} <= ports.value.Keys;
    }
  }

  predicate RunsWith(vm: Vm, outcome: (int, bool)) {
    && vm.pid == Some(outcome.0) && vm.state.Running?
    && Vnc in vm.ports && Qmp in vm.ports && Qga in vm.ports && (Spice in vm.ports <==> outcome.1)
    && (Rdp in vm.ports ==> vm.windows && vm.userNetwork)
  }

  // ---- Unattended installation -------------------------------------------------------------------

  /** The VM exists, or did, and its record no longer says that an installation is under way. */
  predicate Settled(h: Host, n: nat) {
    n in h.used && forall i :: 0 <= i < |h.vms| && h.vms[i].number == n ==> h.vms[i].auto.None?
  }

  function AutomaticBoots(boots: seq<Boot>, n: nat): nat {
    if boots == [] then 0
    else
      var b := boots[|boots| - 1];
      AutomaticBoots(boots[..|boots| - 1], n) + if b.number == n && b.automatic then 1 else 0
  }

  lemma AutomaticSnoc(boots: seq<Boot>, b: Boot, n: nat)
    ensures AutomaticBoots(boots + [b], n) == AutomaticBoots(boots, n) + if b.number == n && b.automatic then 1 else 0
  {
    assert (boots + [b])[..|boots|] == boots;
  }

  /** A VM is restarted by the refresh once at most, and then it is settled; such a start has no installer. */
  predicate OnceBooted(h: Host, n: nat) {
    && AutomaticBoots(h.boots, n) <= 1
    && (AutomaticBoots(h.boots, n) == 1 ==> Settled(h, n))
    && (forall b :: b in h.boots && b.automatic ==> !b.installer)
  }

  predicate Manual(b: Boot) {
    !b.automatic && !b.installer
  }

  /** From `h` to `g`, a settled VM stays settled, and is started by the user only and without the installer. */
  predicate StaysSettled(h: Host, g: Host, n: nat) {
    && h.boots <= g.boots
    && (Settled(h, n) ==> Settled(g, n))
    && (Settled(h, n) ==> forall k :: |h.boots| <= k < |g.boots| && g.boots[k].number == n ==> Manual(g.boots[k]))
  }

  lemma StaysSettledOn(f: Host, g: Host, h: Host, n: nat)
    requires StaysSettled(f, g, n) && StaysSettled(g, h, n)
    ensures StaysSettled(f, h, n)
  {
    forall k | |f.boots| <= k < |g.boots|
      ensures h.boots[k] == g.boots[k]
    {
    }
  }

  /** Records keep their numbers, and an installation is only ever forgotten. */
  predicate Forgets(v: seq<Vm>, w: seq<Vm>) {
    |v| == |w| && forall i :: 0 <= i < |v| ==> w[i].number == v[i].number && (w[i].auto == v[i].auto || w[i].auto.None?)
  }

  lemma ForgetsSettled(h: Host, g: Host, n: nat)
    requires Forgets(h.vms, g.vms) && g.boots == h.boots && g.used == h.used
    ensures StaysSettled(h, g, n) && (OnceBooted(h, n) ==> OnceBooted(g, n))
  {
  }

  lemma StartSettled(h: Host, i: nat, l: Launch, n: nat)
    requires i < |h.vms|
    ensures StaysSettled(h, StartVm(h, i, l, false), n) && (OnceBooted(h, n) ==> OnceBooted(StartVm(h, i, l, false), n))
  {
    hide StartVm;
    StartShape(h, i, l, false);
    ManualBoot(h, StartVm(h, i, l, false), i, n);
  }

  lemma ManualBoot(h: Host, g: Host, i: nat, n: nat)
    requires i < |h.vms| && Forgets(h.vms, g.vms) && g.used == h.used
    requires g.boots == h.boots || g.boots == h.boots + [Boot(h.vms[i].number, false, Installer(h.vms[i]))]
    ensures StaysSettled(h, g, n) && (OnceBooted(h, n) ==> OnceBooted(g, n))
  {
    hide AutomaticBoots;
    AutomaticSnoc(h.boots, Boot(h.vms[i].number, false, Installer(h.vms[i])), n);
  }

  lemma StartShape(h: Host, i: nat, l: Launch, automatic: bool)
    requires i < |h.vms|
    ensures var g := StartVm(h, i, l, automatic);
      && Forgets(h.vms, g.vms) && g.used == h.used
      && (g.boots == h.boots || g.boots == h.boots + [Boot(h.vms[i].number, automatic, Installer(h.vms[i]))])
  {
    hide Elapse, NewPorts;
  }

  /** One more automatic start, of a VM that had none, or of another. */
  lemma BootedOnce(h: Host, g: Host, number: nat, n: nat)
    requires OnceBooted(h, n) && Forgets(h.vms, g.vms) && g.used == h.used && Settled(h, number)
    requires g.boots == h.boots + [Boot(number, true, false)]
    requires number == n ==> AutomaticBoots(h.boots, n) == 0
    ensures OnceBooted(g, n)
  {
    hide AutomaticBoots;
    AutomaticSnoc(h.boots, Boot(number, true, false), n);
    StillSettled(h, g, number);
  }

  lemma RestartShape(h: Host, number: nat, l: Launch)
    requires Settled(h, number)
    ensures var g := Restart(h, number, l);
      && Forgets(h.vms, g.vms) && g.used == h.used
      && (g.boots == h.boots || g.boots == h.boots + [Boot(number, true, false)])
  {
    hide StartVm;
    var i := Find(h.vms, number);
    if i.Some? {
      StartShape(h, i.value, l, true);
      assert !Installer(h.vms[i.value]);
    }
  }

  lemma RestartOnce(h: Host, number: nat, l: Launch, n: nat)
    requires Settled(h, number) && (number == n ==> AutomaticBoots(h.boots, n) == 0)
    ensures var g := Restart(h, number, l);
      && Forgets(h.vms, g.vms) && g.used == h.used
      && (g.boots == h.boots || g.boots == h.boots + [Boot(number, true, false)])
      && (OnceBooted(h, n) ==> OnceBooted(g, n))
  {
    hide Restart, AutomaticBoots, OnceBooted, Settled, Forgets;
    var g := Restart(h, number, l);
    RestartShape(h, number, l);
    if OnceBooted(h, n) {
      if g.boots == h.boots {
        ForgetsSettled(h, g, n);
      } else {
        BootedOnce(h, g, number, n);
      }
    }
  }

  lemma {:induction false} RestartAllOnce(h: Host, numbers: seq<nat>, launches: seq<Launch>, n: nat)
    requires Distinct(numbers) && (forall number :: number in numbers ==> Settled(h, number))
    requires OnceBooted(h, n) && (n in numbers ==> AutomaticBoots(h.boots, n) == 0)
    ensures var g := RestartAll(h, numbers, launches);
      && OnceBooted(g, n) && Forgets(h.vms, g.vms) && g.used == h.used && h.boots <= g.boots
      && (n !in numbers ==> AutomaticBoots(g.boots, n) == AutomaticBoots(h.boots, n))
      && forall k :: |h.boots| <= k < |g.boots| ==> g.boots[k].number in numbers
  {
    hide Restart, AutomaticBoots;
    if numbers != [] {
      var k := |numbers| - 1;
      RestartAllOnce(h, numbers[..k], launches, n);
      var g := RestartAll(h, numbers[..k], launches);
      StillSettled(h, g, numbers[k]);
      RestartOnce(g, numbers[k], LaunchOf(launches, k), n);
      AutomaticSnoc(g.boots, Boot(numbers[k], true, false), n);
    }
  }

  lemma StillSettled(h: Host, g: Host, n: nat)
    requires Settled(h, n) && Forgets(h.vms, g.vms) && g.used == h.used
    ensures Settled(g, n)
  {
  }

  lemma RefreshOneForgets(vm: Vm, live: set<int>, r: Reading)
    ensures var v := RefreshOne(vm, live, r);
      v.number == vm.number && (v.auto == vm.auto || v.auto.None?)
        && (WantsRestart(vm, live) ==> vm.auto.Some? && v.auto.None?)
  {
    hide FinishIfDone;
    FinishForgets(vm, true);
    var up := if vm.state.Stopped? then vm.(state := Running) else vm;
    FinishForgets(up.(agent := vm.number in r.answering), false);
  }

  lemma FinishForgets(vm: Vm, exited: bool)
    ensures var (v, again) := FinishIfDone(vm, exited);
      v == vm.(auto := v.auto) && (v.auto == vm.auto || v.auto.None?) && (again ==> vm.auto.Some? && v.auto.None?)
  {
  }

  lemma RefreshForgets(h: Host, r: Reading)
    ensures Forgets(h.vms, Refreshed(h, r).vms)
  {
    hide RefreshAll, Elapse, RefreshOne, LivePids;
    var live := LivePids(h.vms, h.procs);
    forall i | 0 <= i < |h.vms|
      ensures var v := RefreshOne(h.vms[i], live, r);
        v.number == h.vms[i].number && (v.auto == h.vms[i].auto || v.auto.None?)
    {
      RefreshOneForgets(h.vms[i], live, r);
    }
  }

  /** A VM that the refresh is to restart was not settled before, and is after. */
  lemma WantedSettles(h: Host, r: Reading, number: nat)
    requires Sound(h) && Wanted(h.vms, LivePids(h.vms, h.procs), number)
    ensures !Settled(h, number) && Settled(Refreshed(h, r), number)
  {
    hide RefreshAll, Elapse, Consistent, Tracked, SnapshotsStamped, AccessesSafe;
    hide LivePids, RefreshOne, WantsRestart, Separate;
    var live := LivePids(h.vms, h.procs);
    var i :| 0 <= i < |h.vms| && h.vms[i].number == number && WantsRestart(h.vms[i], live);
    var g := Refreshed(h, r);
    RefreshOneForgets(h.vms[i], live, r);
    forall j | 0 <= j < |g.vms| && g.vms[j].number == number
      ensures g.vms[j].auto.None?
    {
      RefreshOneForgets(h.vms[j], live, r);
      SameRecord(h.vms, i, j);
    }
  }

  lemma ReadSettled(h: Host, r: Reading, n: nat)
    requires Sound(h) && OnceBooted(h, n)
    ensures OnceBooted(ReadVms(h, r), n) && StaysSettled(h, ReadVms(h, r), n) && Forgets(h.vms, ReadVms(h, r).vms)
  {
    hide Sound, Wanted, RefreshAll, Elapse, AutomaticBoots, LivePids;
    var live := LivePids(h.vms, h.procs);
    var numbers := ToRestart(h.vms, live);
    var g := Refreshed(h, r);
    SoundSeparate(h);
    ToRestartAreWanted(h.vms, live);
    RefreshForgets(h, r);
    ForgetsSettled(h, g, n);
    forall number | number in numbers
      ensures !Settled(h, number) && Settled(g, number)
    {
      WantedSettles(h, r, number);
    }
    RestartAllOnce(g, numbers, r.launches, n);
  }

  /** What every command keeps, for each VM. */
  predicate Kept(h: Host, g: Host, n: nat) {
    OnceBooted(g, n) && (n in h.used ==> StaysSettled(h, g, n))
  }

  lemma KeptOn(f: Host, g: Host, h: Host, n: nat)
    requires Kept(f, g, n) && Kept(g, h, n) && g.used >= f.used
    ensures Kept(f, h, n)
  {
    hide Settled;
    if n in f.used {
      StaysSettledOn(f, g, h, n);
    }
  }

  /** A command that starts nothing and keeps the records' installations as they are, or forgets them. */
  lemma QuietKept(h: Host, g: Host, n: nat)
    requires OnceBooted(h, n) && Forgets(h.vms, g.vms) && g.boots == h.boots && g.used == h.used
    ensures Kept(h, g, n)
  {
    ForgetsSettled(h, g, n);
  }

  lemma ReadKept(h: Host, r: Reading, n: nat)
    requires Sound(h) && OnceBooted(h, n)
    ensures Kept(h, ReadVms(h, r), n) && ReadVms(h, r).used == h.used
  {
    hide ReadVms;
    ReadSettled(h, r, n);
    UsedAfterRead(h, r);
  }

  lemma StartKept(h: Host, id: nat, moves: seq<Move>, launch: Launch, n: nat)
    requires OnceBooted(h, n)
    ensures Kept(h, DoStart(h, id, moves, launch), n)
  {
    hide Elapse, StartVm, OnceBooted, Settled, Alive;
    var i := Find(h.vms, id);
    var g := Elapse(h, moves);
    QuietKept(h, g, n);
    if i.Some? {
      StartSettled(g, i.value, launch, n);
      SettledKept(g, StartVm(g, i.value, launch, false), n);
      KeptOn(h, g, StartVm(g, i.value, launch, false), n);
    } else {
      QuietKept(h, h, n);
    }
  }

  lemma SettledKept(h: Host, g: Host, n: nat)
    requires OnceBooted(g, n) && StaysSettled(h, g, n)
    ensures Kept(h, g, n)
  {
  }

  lemma RemoveKept(h: Host, g: Host, i: nat, n: nat)
    requires i < |h.vms| && OnceBooted(h, n)
    requires g.vms == h.vms[..i] + h.vms[i + 1..] && g.boots == h.boots && g.used == h.used
    ensures Kept(h, g, n)
  {
    hide AutomaticBoots;
    assert g.vms == Without(h.vms, i);
  }

  lemma DeleteKept(h: Host, id: nat, moves: seq<Move>, killed: bool, disks: bool, inside: bool, removed: bool, n: nat)
    requires OnceBooted(h, n)
    ensures Kept(h, DoDelete(h, id, moves, killed, disks, inside, removed), n)
  {
    hide Halt, OnceBooted, Settled;
    var g := DoDelete(h, id, moves, killed, disks, inside, removed);
    var i := Find(h.vms, id);
    if g.vms == h.vms {
      QuietKept(h, g, n);
    } else {
      RemoveKept(h, g, i.value, n);
    }
  }

  lemma AddKept(h: Host, vm: Vm, content: int, n: nat)
    requires OnceBooted(h, n) && vm.number !in h.used
    ensures Kept(h, Add(h, vm, content), n)
    ensures vm.number == n ==> AutomaticBoots(h.boots, n) == 0
  {
    hide AutomaticBoots;
  }

  lemma QuickCreateKept(h: Host, vm: Vm, content: int, r2: Reading, auto: Auto, n: nat)
    requires Sound(h) && OnceBooted(h, n)
    requires Consistent(vm) && vm.pid.None? && vm.auto.None? && vm.number !in h.used
    ensures Kept(h, DoQuickCreate(h, vm, content, r2, auto), n)
  {
    hide Sound, ReadVms, Consistent, AutomaticBoots, Settled;
    var a := Add(h, vm, content);
    AddKept(h, vm, content, n);
    AddSound(h, vm, content);
    ReadKept(a, r2, n);
    var g := ReadVms(a, r2);
    KeptOn(h, a, g, n);
    var i := Find(g.vms, vm.number);
    if i.Some? {
      var q := Put(g, i.value, g.vms[i.value].(auto := Some(auto)));
      if vm.number == n {
        NewIsSettled(h, vm, content);
        ReadSettled(a, r2, n);
        NoNewBoots(a, g, n, |g.boots|);
      } else {
        AnnotateOther(g, i.value, auto, n);
        KeptOn(h, g, q, n);
      }
    }
  }

  lemma NewIsSettled(h: Host, vm: Vm, content: int)
    requires Sound(h) && vm.auto.None? && vm.number !in h.used
    ensures Settled(Add(h, vm, content), vm.number)
  {
    hide Consistent, Separate, Tracked, SnapshotsStamped, AccessesSafe;
  }

  lemma {:induction false} NoNewBoots(h: Host, g: Host, n: nat, k: nat)
    requires StaysSettled(h, g, n) && Settled(h, n) && |h.boots| <= k <= |g.boots|
    ensures AutomaticBoots(g.boots[..k], n) == AutomaticBoots(h.boots, n)
    ensures k == |g.boots| ==> AutomaticBoots(g.boots, n) == AutomaticBoots(h.boots, n)
    decreases k
  {
    hide Settled;
    assert g.boots[..|g.boots|] == g.boots;
    if k == |h.boots| {
      assert g.boots[..k] == h.boots;
    } else {
      NoNewBoots(h, g, n, k - 1);
      assert g.boots[..k][..k - 1] == g.boots[..k - 1];
    }
  }

  lemma AnnotateOther(h: Host, i: nat, auto: Auto, n: nat)
    requires i < |h.vms| && h.vms[i].number != n && OnceBooted(h, n)
    ensures Kept(h, Put(h, i, h.vms[i].(auto := Some(auto))), n)
  {
    hide AutomaticBoots;
  }

  predicate Quiet(c: Command) {
    !(c.Create? || c.Import? || c.QuickCreate? || c.Start? || c.RestartVm? || c.Delete?)
  }

  /** What a command works on: the inventory as it is, or as it reads it. */
  predicate ReadOrNot(h: Host, c: Command, f: Host) {
    f == h || (!c.Surroundings? && !c.DropSnapshot? && f == ReadVms(h, c.r))
  }

  predicate LeftAlone(f: Host, g: Host) {
    Forgets(f.vms, g.vms) && g.boots == f.boots && g.used == f.used
  }

  /** Commands that do not even read the inventory, or not before they look at a path. */
  predicate Unread(c: Command) {
    c.Surroundings? || c.DropSnapshot? || (c.DeleteFile? && !c.kind.Disk?)
  }

  lemma UnreadCommands(h: Host, c: Command)
    requires Unread(c)
    ensures LeftAlone(h, Do(h, c))
  {
    hide ReadVms, Elapse, Present, Others, FindSnapshot;
  }

  lemma ReadCommands(h: Host, c: Command)
    requires Quiet(c) && !Unread(c)
    ensures LeftAlone(h, Do(h, c)) || LeftAlone(ReadVms(h, c.r), Do(h, c))
  {
    hide ReadVms, Elapse, Halt, Rejected, Present, IsDisk, Find, FindSnapshot, Happen;
  }

  /** The other commands only read the inventory, and then leave the installations alone. */
  lemma QuietCommands(h: Host, c: Command)
    requires Quiet(c)
    ensures exists f: Host :: ReadOrNot(h, c, f) && LeftAlone(f, Do(h, c))
  {
    hide ReadVms, Do, LeftAlone;
    if Unread(c) {
      UnreadCommands(h, c);
      assert ReadOrNot(h, c, h);
    } else {
      ReadCommands(h, c);
      assert ReadOrNot(h, c, h) && ReadOrNot(h, c, ReadVms(h, c.r));
    }
  }

  lemma QuietCommandKept(h: Host, c: Command, n: nat)
    requires Sound(h) && OnceBooted(h, n) && Quiet(c)
    ensures Kept(h, Do(h, c), n)
  {
    hide Sound, OnceBooted, Do, ReadVms, Forgets, Settled;
    QuietCommands(h, c);
    var f: Host :| ReadOrNot(h, c, f) && LeftAlone(f, Do(h, c));
    if f == h {
      QuietKept(h, Do(h, c), n);
    } else {
      ReadKept(h, c.r, n);
      QuietKept(f, Do(h, c), n);
      KeptOn(h, f, Do(h, c), n);
    }
  }

  lemma RestartVmKept(h: Host, id: nat, moves: seq<Move>, killed: bool, r2: Reading, moves2: seq<Move>,
                      launch: Launch, n: nat)
    requires Sound(h) && OnceBooted(h, n)
    ensures var (g, ok) := DoStop(h, id, moves, killed);
      Kept(h, if ok then DoStart(ReadVms(g, r2), id, moves2, launch) else g, n)
  {
    hide Sound, OnceBooted, ReadVms, Settled, DoStart, Halt;
    var (g, ok) := DoStop(h, id, moves, killed);
    DoStopSound(h, id, moves, killed);
    QuietKept(h, g, n);
    if ok {
      var f := ReadVms(g, r2);
      ReadKept(g, r2, n);
      KeptOn(h, g, f, n);
      StartKept(f, id, moves2, launch, n);
      KeptOn(h, f, DoStart(f, id, moves2, launch), n);
    }
  }

  lemma CreationKept(h: Host, c: Command, n: nat)
    requires Sound(h) && OnceBooted(h, n) && Possible(h, c) && (c.Create? || c.Import? || c.QuickCreate?)
    ensures Kept(h, Do(h, c), n)
  {
    hide Sound, OnceBooted, ReadVms, Settled, Add, DoQuickCreate, NameTaken, Stamped, Consistent;
    var f := ReadVms(h, c.r);
    ReadKept(h, c.r, n);
    ReadSound(h, c.r);
    match c {
      case Create(r, number, name, disk, windows, userNetwork, content) =>
        var vm := NewVm(number, name, disk, windows, userNetwork);
        AddKept(f, vm, content, n);
        KeptOn(h, f, Add(f, vm, content), n);
      case Import(r, number, name, disk, content) =>
        var vm := NewVm(number, name, disk, false, true);
        AddKept(f, vm, content, n);
        KeptOn(h, f, Add(f, vm, content), n);
      case QuickCreate(r, number, name, disk, windows, content, r2, auto) =>
        var vm := NewVm(number, name, disk, windows, true);
        NewVmConsistent(number, name, disk, windows, true);
        QuickCreateKept(f, vm, content, r2, auto, n);
        KeptOn(h, f, DoQuickCreate(f, vm, content, r2, auto), n);
    }
  }

  lemma StepKept(h: Host, c: Command, n: nat)
    requires Sound(h) && OnceBooted(h, n)
    ensures Kept(h, Step(h, c), n)
  {
    hide Sound, OnceBooted, ReadVms, Settled, DoStart, DoDelete, Do;
    if !Possible(h, c) {
      QuietKept(h, h, n);
    } else if c.Create? || c.Import? || c.QuickCreate? {
      CreationKept(h, c, n);
    } else if Quiet(c) {
      QuietCommandKept(h, c, n);
    } else {
      StartingKept(h, c, n);
    }
  }

  lemma StartingKept(h: Host, c: Command, n: nat)
    requires Sound(h) && OnceBooted(h, n) && (c.Start? || c.RestartVm? || c.Delete?)
    ensures Kept(h, Do(h, c), n)
  {
    hide Sound, OnceBooted, ReadVms, Settled, DoStart, DoStop, DoDelete;
    var f := ReadVms(h, c.r);
    ReadKept(h, c.r, n);
    ReadSound(h, c.r);
    match c {
      case Start(r, id, moves, launch) => StartKept(f, id, moves, launch, n);
      case RestartVm(r, id, moves, killed, r2, moves2, launch) =>
        RestartVmKept(f, id, moves, killed, r2, moves2, launch, n);
      case Delete(r, id, moves, killed, disks, inside, removed) =>
        DeleteKept(f, id, moves, killed, disks, inside, removed, n);
    }
    KeptOn(h, f, Do(h, c), n);
  }

  lemma {:induction false} RunKept(commands: seq<Command>, n: nat)
    ensures OnceBooted(Run(EMPTY, commands), n)
  {
    hide Step, Settled;
    if commands != [] {
      var before := commands[..|commands| - 1];
      RunKept(before, n);
      RunSound(before);
      StepKept(Run(EMPTY, before), commands[|commands| - 1], n);
    }
  }

  /** In every run the refresh restarts a VM at most once, and never with the installer. */
  lemma RestartedOnce(commands: seq<Command>, n: nat)
    ensures AutomaticBoots(Run(EMPTY, commands).boots, n) <= 1
    ensures forall b :: b in Run(EMPTY, commands).boots && b.automatic ==> !b.installer
  {
    hide Run;
    RunKept(commands, n);
  }

  /** Once an installation is over it stays over: no later start of that VM is automatic, none carries the installer. */
  lemma {:induction false} NeverReinstalled(commands: seq<Command>, more: seq<Command>, n: nat)
    requires Settled(Run(EMPTY, commands), n)
    ensures Run(EMPTY, commands).used <= Run(EMPTY, commands + more).used
    ensures StaysSettled(Run(EMPTY, commands), Run(EMPTY, commands + more), n)
    decreases |more|
  {
    hide Step, Settled;
    if more == [] {
      assert commands + more == commands;
    } else {
      var k := |more| - 1;
      var before := commands + more[..k];
      NeverReinstalled(commands, more[..k], n);
      assert (commands + more)[..|commands + more| - 1] == before;
      RunSound(before);
      RunKept(before, n);
      StepKept(Run(EMPTY, before), more[k], n);
      UsedGrows(Run(EMPTY, before), more[k]);
      SettledIsUsed(Run(EMPTY, commands), n);
      StaysSettledOn(Run(EMPTY, commands), Run(EMPTY, before), Step(Run(EMPTY, before), more[k]), n);
    }
  }

  lemma SettledIsUsed(h: Host, n: nat)
    requires Settled(h, n)
    ensures n in h.used
  {
  }

  lemma UsedGrows(h: Host, c: Command)
    ensures h.used <= Step(h, c).used
  {
    hide ReadVms, Elapse, Halt, NameTaken, Rejected, Present, Others, IsDisk, Find, FindSnapshot, NewPorts, Possible;
    if !c.Surroundings? && !c.DropSnapshot? {
      UsedAfterRead(h, c.r);
    }
    if c.RestartVm? {
      UsedAfterRead(DoStop(ReadVms(h, c.r), c.id, c.moves, c.killed).0, c.r2);
    }
    if c.QuickCreate? {
      UsedAfterRead(Add(ReadVms(h, c.r), NewVm(c.number, c.name, c.disk, c.windows, true), c.content), c.r2);
    }
  }
}
