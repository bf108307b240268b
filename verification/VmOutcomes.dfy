/**
  What a command achieves: for every state of the manager and every command, the records,
  the processes and the files it leaves, told from the inventory the command has read.
 */
module VmOutcomes {
  import opened Wrappers
  import opened LocalVms
  import opened VmSafety
  import opened VmRuns
  import opened VmSnapshots

  lemma FindIs(vms: seq<Vm>, i: nat)
    requires i < |vms| && Separate(vms)
    ensures Find(vms, vms[i].number) == Some(i)
  {
  }

  lemma ReadSeparate(h: Host, r: Reading)
    requires Sound(h)
    ensures Sound(ReadVms(h, r)) && Separate(ReadVms(h, r).vms)
  {
    hide ReadVms;
    ReadSound(h, r);
  }

  // ---- Starting ------------------------------------------------------------------------------

  /** A port of the range is neither busy nor held by another record. */
  ghost predicate Free(vms: seq<Vm>, i: nat, k: PortKind, low: int, high: int, busy: set<int>) {
    exists p :: low <= p <= high && FreeFor(vms, i, k, p, busy)
  }

  predicate FreeFor(vms: seq<Vm>, i: nat, k: PortKind, p: int, busy: set<int>) {
    p !in busy && forall j :: 0 <= j < |vms| && j != i && k in vms[j].ports ==> vms[j].ports[k] != p
  }

  /** What a start needs: the disk, a console, control, SPICE and agent port, and a QEMU that stays up. */
  ghost predicate CanStart(h: Host, i: nat, l: Launch)
    requires i < |h.vms|
  {
    && h.vms[i].disk in h.files && l.outcome.Some? && l.outcome.value.0 !in h.procs
    && Free(h.vms, i, Vnc, 5901, 5999, l.busy) && Free(h.vms, i, Qmp, 6001, 6099, l.busy)
    && Free(h.vms, i, Spice, 5701, 5799, l.busy) && Free(h.vms, i, Qga, 6201, 6299, l.busy)
  }

  /** A Windows guest on the user network gets its RDP forwarded when a port is left. */
  ghost predicate Forwards(h: Host, i: nat, l: Launch)
    requires i < |h.vms|
  {
    h.vms[i].windows && h.vms[i].userNetwork && Free(h.vms, i, Rdp, 6301, 6399, l.busy)
  }

  /** The record of a VM that was just started; everything else in it is as before. */
  ghost predicate RunsFrom(h: Host, i: nat, l: Launch, w: Vm)
    requires i < |h.vms| && l.outcome.Some?
  {
    && w == h.vms[i].(pid := Some(l.outcome.value.0), state := Running, agent := false, ports := w.ports)
    && Vnc in w.ports && Qmp in w.ports && Qga in w.ports
    && (Spice in w.ports <==> l.outcome.value.1) && (Rdp in w.ports <==> Forwards(h, i, l))
    && (forall k :: k in w.ports ==> FreeFor(h.vms, i, k, w.ports[k], l.busy))
  }

  lemma FreePortExactly(vms: seq<Vm>, i: nat, k: PortKind, busy: set<int>)
    requires i < |vms| && Separate(vms)
    ensures var p := FreePort(vms, vms[i].number, k, busy);
      && (p.Some? <==> Free(vms, i, k, Lowest(k), Highest(k), busy))
      && (p.Some? ==> FreeFor(vms, i, k, p.value, busy))
  {
    hide Lowest, Highest, Separate;
    var reserved := Reserved(vms, vms[i].number, k);
    forall p
      ensures FreeFor(vms, i, k, p, busy) <==> p !in reserved && p !in busy
    {
      ReservedMeans(vms, i, k, p);
    }
  }

  lemma ReservedMeans(vms: seq<Vm>, i: nat, k: PortKind, p: int)
    requires i < |vms| && Separate(vms)
    ensures p in Reserved(vms, vms[i].number, k)
      <==> exists j :: 0 <= j < |vms| && j != i && k in vms[j].ports && vms[j].ports[k] == p
  {
    forall j | 0 <= j < |vms| && j != i
      ensures vms[j].number != vms[i].number
    {
      assert if i < j then Apart(vms[i], vms[j]) else Apart(vms[j], vms[i]);
    }
  }

  lemma Ranges()
    ensures Lowest(Vnc) == 5901 && Highest(Vnc) == 5999 && Lowest(Qmp) == 6001 && Highest(Qmp) == 6099
    ensures Lowest(Spice) == 5701 && Highest(Spice) == 5799 && Lowest(Qga) == 6201 && Highest(Qga) == 6299
    ensures Lowest(Rdp) == 6301 && Highest(Rdp) == 6399
  {
  }

  lemma PortsExactly(h: Host, i: nat, l: Launch)
    requires i < |h.vms| && Separate(h.vms) && l.outcome.Some?
    ensures var ports := NewPorts(h.vms, h.vms[i], l.busy);
      && (ports.Some? <==> Free(h.vms, i, Vnc, 5901, 5999, l.busy) && Free(h.vms, i, Qmp, 6001, 6099, l.busy)
                           && Free(h.vms, i, Spice, 5701, 5799, l.busy) && Free(h.vms, i, Qga, 6201, 6299, l.busy))
      && (ports.Some? ==> RunsFrom(h, i, l, Booted(h.vms[i], l.outcome.value.0, ports.value, l.outcome.value.1)))
  {
    hide FreePort, Free, FreeFor, Lowest, Highest, Separate;
    Ranges();
    forall k: PortKind
      ensures var p := FreePort(h.vms, h.vms[i].number, k, l.busy);
        && (p.Some? <==> Free(h.vms, i, k, Lowest(k), Highest(k), l.busy))
        && (p.Some? ==> FreeFor(h.vms, i, k, p.value, l.busy))
    {
      FreePortExactly(h.vms, i, k, l.busy);
    }
  }

  /** The launch proper, after what else happened since the record was read. */
  ghost predicate Launched(h: Host, i: nat, l: Launch, automatic: bool, g: Host)
    requires i < |h.vms|
  {
    if CanStart(h, i, l) then
      && |g.vms| == |h.vms| && RunsFrom(h, i, l, g.vms[i])
        && (forall j :: 0 <= j < |h.vms| && j != i ==> g.vms[j] == h.vms[j])
      && g.procs == h.procs[l.outcome.value.0 := Qemu(h.vms[i].number, h.vms[i].disk)]
      && g.boots == h.boots + [Boot(h.vms[i].number, automatic,
                                    h.vms[i].auto.Some? && h.vms[i].auto.value.kernel && h.vms[i].auto.value.initrd)]
      && g == h.(vms := g.vms, procs := g.procs, boots := g.boots)
    else g == h
  }

  lemma LaunchedExactly(h: Host, i: nat, l: Launch, automatic: bool)
    requires i < |h.vms| && Separate(h.vms)
    ensures Launched(Elapse(h, l.moves), i, l, automatic, StartVm(h, i, l, automatic))
  {
    hide Elapse, Separate, NewPorts, Free, RunsFrom, Booted;
    var e := Elapse(h, l.moves);
    if l.outcome.Some? {
      PortsExactly(e, i, l);
    }
  }

  /** A VM found alive is left alone; any other is started exactly when what a start needs is there. */
  lemma StartOutcome(h: Host, r: Reading, id: nat, moves: seq<Move>, launch: Launch, i: nat)
    requires Sound(h) && i < |ReadVms(h, r).vms| && ReadVms(h, r).vms[i].number == id
    ensures var e := Elapse(ReadVms(h, r), moves);
      var g := Step(h, Start(r, id, moves, launch));
      if Alive(e.procs, e.vms[i]) then g == e
      else Launched(Elapse(e, launch.moves), i, launch, false, g)
  {
    hide ReadVms, Elapse, StartVm, Separate, Launched, Sound, Alive;
    var f := ReadVms(h, r);
    ReadSeparate(h, r);
    FindIs(f.vms, i);
    LaunchedExactly(Elapse(f, moves), i, launch, false);
  }

  // ---- Ending --------------------------------------------------------------------------------

  /** What happened while the process of a record was being ended; there is nothing to wait for without one. */
  function Meanwhile(f: Host, i: nat, moves: seq<Move>): Host
    requires i < |f.vms|
  {
    if f.vms[i].pid.None? then f else Elapse(f, moves)
  }

  predicate Ended(f: Host, i: nat, moves: seq<Move>, killed: bool)
    requires i < |f.vms|
  {
    killed || !Alive(Meanwhile(f, i, moves).procs, f.vms[i])
  }

  function Cleared(vm: Vm): Vm {
    vm.(pid := None, state := Stopped, ports := map[], agent := false)
  }

  /** Of one record the rest of the inventory does not depend. */
  predicate OnlyRecord(f: Host, i: nat, vm: Vm, g: Host)
    requires i < |f.vms|
  {
    g.vms == f.vms[i := vm]
  }

  /** The processes are those of the moment, without the one that was killed. */
  predicate ProcsAfter(f: Host, i: nat, moves: seq<Move>, killed: bool, g: Host)
    requires i < |f.vms|
  {
    var e := Meanwhile(f, i, moves);
    g.procs == if killed && Alive(e.procs, f.vms[i]) then e.procs - {f.vms[i].pid.value} else e.procs
  }

  lemma HaltExactly(f: Host, i: nat, moves: seq<Move>, killed: bool)
    requires i < |f.vms| && Sound(f)
    ensures var (g, ok) := Halt(f, f.vms[i], moves, killed);
      && ok == Ended(f, i, moves, killed) && g == Meanwhile(f, i, moves).(procs := g.procs)
      && ProcsAfter(f, i, moves, killed, g) && (ok ==> Off(g.procs, f.vms[i].number))
  {
    hide Elapse, Sound, Off;
    HaltSound(f, i, moves, killed);
  }

  /** A process that ended leaves the record stopped; one that could not be killed leaves it as it was. */
  lemma StopOutcome(h: Host, r: Reading, id: nat, moves: seq<Move>, killed: bool, i: nat)
    requires Sound(h) && i < |ReadVms(h, r).vms| && ReadVms(h, r).vms[i].number == id
    ensures var f, g := ReadVms(h, r), Step(h, Stop(r, id, moves, killed));
      && g.files == Meanwhile(f, i, moves).files && ProcsAfter(f, i, moves, killed, g)
      && OnlyRecord(f, i, if Ended(f, i, moves, killed) then Cleared(f.vms[i]) else f.vms[i], g)
      && g == f.(vms := g.vms, procs := g.procs, files := g.files)
      && (Ended(f, i, moves, killed) ==> Off(g.procs, id))
  {
    hide ReadVms, Elapse, Separate, Sound, Halt, Ended, Off;
    var f := ReadVms(h, r);
    ReadSeparate(h, r);
    FindIs(f.vms, i);
    HaltExactly(f, i, moves, killed);
  }

  /** A restart is a stop and, if the process ended, a start that reads the inventory again. */
  lemma RestartIsStopAndStart(h: Host, r: Reading, id: nat, moves: seq<Move>, killed: bool, r2: Reading,
                              moves2: seq<Move>, launch: Launch, i: nat)
    requires Sound(h) && i < |ReadVms(h, r).vms| && ReadVms(h, r).vms[i].number == id
    ensures var stopped := Step(h, Stop(r, id, moves, killed));
      Step(h, RestartVm(r, id, moves, killed, r2, moves2, launch))
      == if Ended(ReadVms(h, r), i, moves, killed) then Step(stopped, Start(r2, id, moves2, launch)) else stopped
  {
    hide ReadVms, Elapse, Separate, Sound, Halt, Ended, ProcsAfter, Off, DoStart;
    var f := ReadVms(h, r);
    ReadSeparate(h, r);
    FindIs(f.vms, i);
    HaltExactly(f, i, moves, killed);
  }

  /** A dead VM is recorded stopped; a live one is stopping once QMP has accepted. */
  lemma ShutdownOutcome(h: Host, r: Reading, id: nat, moves: seq<Move>, accepted: bool, i: nat)
    requires Sound(h) && i < |ReadVms(h, r).vms| && ReadVms(h, r).vms[i].number == id
    ensures var f := ReadVms(h, r);
      var e, g := Elapse(f, moves), Step(h, Shutdown(r, id, moves, accepted));
      && g == e.(vms := g.vms)
      && OnlyRecord(f, i,
                    if !Alive(e.procs, f.vms[i]) then Cleared(f.vms[i])
                    else if accepted then f.vms[i].(state := Stopping) else f.vms[i], g)
  {
    hide ReadVms, Elapse, Separate, Sound, Alive;
    var f := ReadVms(h, r);
    ReadSeparate(h, r);
    FindIs(f.vms, i);
    SoundConsistent(f, i);
    assert f.vms[i := f.vms[i]] == f.vms;
    AliveHasPid(Elapse(f, moves).procs, f.vms[i]);
  }

  lemma AliveHasPid(procs: map<int, Proc>, vm: Vm)
    ensures Alive(procs, vm) ==> vm.pid.Some?
  {
  }

  /**
    A deletion removes the record once its process has ended and no wanted removal failed,
    and the disk if that was asked for, there and inside; else it keeps both. The other
    records stay, in order.
   */
  lemma DeleteOutcome(h: Host, r: Reading, id: nat, moves: seq<Move>, killed: bool, disks: bool, inside: bool,
                      removed: bool, i: nat)
    requires Sound(h) && i < |ReadVms(h, r).vms| && ReadVms(h, r).vms[i].number == id
    ensures var f, g := ReadVms(h, r), Step(h, Delete(r, id, moves, killed, disks, inside, removed));
      var e := Meanwhile(f, i, moves);
      var disk := disks && inside && f.vms[i].disk in e.files;
      && ProcsAfter(f, i, moves, killed, g) && g.snapshots == f.snapshots && g.boots == f.boots && g.used == f.used
      && (if Ended(f, i, moves, killed) && (disk ==> removed) then
            && g.vms == f.vms[..i] + f.vms[i + 1..] && (forall j :: 0 <= j < |g.vms| ==> g.vms[j].number != id)
            && g.files == (if disk then e.files - {f.vms[i].disk} else e.files) && Off(g.procs, id)
          else g.vms == f.vms && g.files == e.files)
  {
    hide ReadVms, Elapse, Separate, Sound, Halt, Ended, Off;
    var f := ReadVms(h, r);
    ReadSeparate(h, r);
    FindIs(f.vms, i);
    HaltExactly(f, i, moves, killed);
    NoOther(f.vms, i);
  }

  lemma NoOther(vms: seq<Vm>, i: nat)
    requires i < |vms| && Separate(vms)
    ensures var rest := vms[..i] + vms[i + 1..]; forall j :: 0 <= j < |rest| ==> rest[j].number != vms[i].number
  {
    var rest := vms[..i] + vms[i + 1..];
    forall j | 0 <= j < |rest|
      ensures rest[j].number != vms[i].number
    {
      var k := if j < i then j else j + 1;
      assert rest[j] == vms[k];
      assert if i < k then Apart(vms[i], vms[k]) else Apart(vms[k], vms[i]);
    }
  }

  // ---- Adding and changing ---------------------------------------------------------------------

  /** The same letters, but for the case of the ASCII ones. */
  predicate SameLetter(a: char, b: char) {
    a == b || ('A' <= a <= 'Z' && b as int == a as int + 32) || ('A' <= b <= 'Z' && a as int == b as int + 32)
  }

  predicate Taken(vms: seq<Vm>, name: string) {
    exists i :: 0 <= i < |vms| && SameLetters(vms[i].name, name)
  }

  predicate SameLetters(a: string, b: string) {
    |a| == |b| && forall k :: 0 <= k < |a| ==> SameLetter(a[k], b[k])
  }

  lemma SameNameExactly(a: string, b: string)
    ensures SameName(a, b) <==> SameLetters(a, b)
  {
  }

  lemma TakenExactly(vms: seq<Vm>, name: string)
    ensures NameTaken(vms, name) <==> Taken(vms, name)
  {
    hide SameName, SameLetters;
    forall i | 0 <= i < |vms|
      ensures SameName(vms[i].name, name) <==> SameLetters(vms[i].name, name)
    {
      SameNameExactly(vms[i].name, name);
    }
  }

  /** A record is added at the end, stopped and with its disk; everything else is as it was read. */
  predicate Added(f: Host, vm: Vm, content: int, g: Host) {
    && g.vms == f.vms + [vm] && g.files == f.files[vm.disk := content] && g.used == f.used + {vm.number}
    && g == f.(vms := g.vms, files := g.files, used := g.used)
  }

  lemma CreateOutcome(h: Host, r: Reading, number: nat, name: string, disk: string, windows: bool, userNetwork: bool,
                      content: int)
    requires Possible(h, Create(r, number, name, disk, windows, userNetwork, content))
    ensures var f, g := ReadVms(h, r), Step(h, Create(r, number, name, disk, windows, userNetwork, content));
      if Taken(f.vms, name) then g == f
      else Added(f, Vm(number, name, disk, windows, userNetwork, None, Stopped, map[], false, None), content, g)
  {
    hide ReadVms, NameTaken, Taken, Stamped;
    TakenExactly(ReadVms(h, r).vms, name);
  }

  lemma ImportOutcome(h: Host, r: Reading, number: nat, name: string, disk: string, content: int)
    requires Possible(h, Import(r, number, name, disk, content))
    ensures Added(ReadVms(h, r), Vm(number, name, disk, false, true, None, Stopped, map[], false, None), content,
                  Step(h, Import(r, number, name, disk, content)))
  {
    hide ReadVms, Stamped;
  }

  /** What the change names is as it says, and nothing else has changed. */
  predicate Applied(vm: Vm, c: Change, w: Vm) {
    && w == vm.(name := w.name, windows := w.windows, userNetwork := w.userNetwork)
    && (if c.name.Some? then w.name == c.name.value else w.name == vm.name)
    && (if c.windows.Some? then w.windows == c.windows.value else w.windows == vm.windows)
    && (if c.userNetwork.Some? then w.userNetwork == c.userNetwork.value else w.userNetwork == vm.userNetwork)
  }

  lemma ChangedIsApplied(vm: Vm, c: Change)
    ensures Applied(vm, c, Changed(vm, c))
  {
  }

  /** A change is applied whole, or not at all. */
  lemma UpdateOutcome(h: Host, r: Reading, id: nat, change: Change, moves: seq<Move>, i: nat)
    requires Sound(h) && i < |ReadVms(h, r).vms| && ReadVms(h, r).vms[i].number == id
    ensures var f := ReadVms(h, r);
      var e, g := Elapse(f, moves), Step(h, Update(r, id, change, moves));
      var refused := (change.name.Some?
                      && (change.name.value == "" || Taken(f.vms[..i] + f.vms[i + 1..], change.name.value)))
                     || (change.bus && Alive(e.procs, f.vms[i]));
      && g == e.(vms := g.vms) && |g.vms| == |f.vms|
        && (forall j :: 0 <= j < |f.vms| && j != i ==> g.vms[j] == f.vms[j])
      && (if refused then g.vms[i] == f.vms[i] else Applied(f.vms[i], change, g.vms[i]))
  {
    hide ReadVms, Elapse, Separate, Sound, NameTaken, Taken, Alive, Applied, Changed;
    var f := ReadVms(h, r);
    ReadSeparate(h, r);
    FindIs(f.vms, i);
    ChangedIsApplied(f.vms[i], change);
    if change.name.Some? {
      TakenExactly(f.vms[..i] + f.vms[i + 1..], change.name.value);
    }
  }

  predicate NamesVm(c: Command) {
    c.Start? || c.Shutdown? || c.Stop? || c.RestartVm? || c.Update? || c.TakeSnapshot? || c.Rollback? || c.Export?
      || c.Delete?
  }

  /** A command for a VM that is not there only reads the inventory. */
  lemma UnknownVm(h: Host, c: Command)
    requires NamesVm(c) && Possible(h, c)
    requires forall i :: 0 <= i < |ReadVms(h, c.r).vms| ==> ReadVms(h, c.r).vms[i].number != c.id
    ensures Step(h, c) == ReadVms(h, c.r)
  {
    hide ReadVms, Elapse, Halt, StartVm, Stamped;
  }

  /** The disk of a VM is refused, when it is deleted as a disk; else the file goes, and its snapshots with it. */
  lemma DeleteFileOutcome(h: Host, r: Reading, kind: FileKind, path: string, inside: bool, removed: bool)
    ensures var f := if kind.Disk? then ReadVms(h, r) else h;
      var g := Step(h, DeleteFile(r, kind, path, inside, removed));
      if path !in h.files || kind.Unknown? || !inside then g == h
      else
        var gone := removed && !(kind.Disk? && exists i :: 0 <= i < |f.vms| && f.vms[i].disk == path);
        && g == f.(files := g.files, snapshots := g.snapshots, accesses := g.accesses)
        && g.files == (if gone then f.files - {path} else f.files)
        && (!gone || !kind.SnapshotFile? ==> g.snapshots == f.snapshots)
        && (gone && kind.SnapshotFile? ==>
              forall t :: t in g.snapshots <==> t in f.snapshots && t.path in g.files)
  {
    hide ReadVms, Present, Others;
    if kind.SnapshotFile? {
      ListedExactly(h.snapshots, h.files - {path});
      OthersExactly(Present(h.snapshots, h.files - {path}), path);
    }
  }

  lemma {:induction false} ListedExactly(snapshots: seq<Snapshot>, files: map<string, int>)
    ensures forall t :: t in Present(snapshots, files) <==> t in snapshots && t.path in files
  {
    if snapshots != [] {
      ListedExactly(snapshots[1..], files);
    }
  }

  lemma {:induction false} OthersExactly(snapshots: seq<Snapshot>, path: string)
    ensures forall t :: t in Others(snapshots, path) <==> t in snapshots && t.path != path
  {
    if snapshots != [] {
      OthersExactly(snapshots[1..], path);
    }
  }

  // ---- Reading ---------------------------------------------------------------------------------

  /** The pid of the record was found alive: some record that has it takes its process for its own. */
  predicate Seen(h: Host, i: nat)
    requires i < |h.vms|
  {
    exists j :: 0 <= j < |h.vms| && h.vms[j].pid == h.vms[i].pid && Alive(h.procs, h.vms[j])
  }

  /** Quick create's Debian, before its first boot from the disk. */
  predicate Installing(vm: Vm) {
    vm.auto.Some? && vm.auto.value.os == "debian13" && vm.auto.value.kernel
  }

  /** Windows reports by its agent that its installation is over. */
  predicate Reports(vm: Vm, agent: bool) {
    vm.auto.Some? && vm.auto.value.os == "windows11" && agent
  }

  predicate Probed(vm: Vm, r: Reading) {
    Qga in vm.ports && vm.number in r.probed
  }

  /** What the pass over the records makes of one of them. */
  predicate Updated(h: Host, r: Reading, i: nat, w: Vm)
    requires i < |h.vms|
  {
    var v := h.vms[i];
    if v.pid.None? then w == v
    else if !Seen(h, i) then w == Cleared(v).(auto := if Installing(v) || Reports(v, v.agent) then None else v.auto)
    else
      var agent := if Probed(v, r) then v.number in r.answering else v.agent;
      w == v.(state := if v.state.Stopping? then Stopping else Running, agent := agent,
              auto := if Probed(v, r) && Reports(v, agent) then None else v.auto)
  }

  lemma RecordUpdated(h: Host, r: Reading, i: nat)
    requires i < |h.vms| && Consistent(h.vms[i])
    ensures Updated(h, r, i, RefreshOne(h.vms[i], LivePids(h.vms, h.procs), r))
  {
    hide Alive, LivePids, Lowest, Highest, Stamped;
    var v, live := h.vms[i], LivePids(h.vms, h.procs);
    if v.pid.Some? {
      KnownPid(h.vms, h.procs, v.pid.value);
      assert Exited(v, live) <==> !Seen(h, i);
      hide Seen, Exited;
      if !Seen(h, i) {
        FinishedDead(v);
      } else {
        FinishedLive(v, r, live);
      }
    } else {
      assert v.ports == map[];
    }
  }

  lemma FinishedDead(v: Vm)
    ensures StopFields(FinishIfDone(v, true).0)
      == Cleared(v).(auto := if Installing(v) || Reports(v, v.agent) then None else v.auto)
  {
    assert "debian13"[0] != "windows11"[0];
  }

  lemma FinishedLive(v: Vm, r: Reading, live: set<int>)
    requires v.pid.Some? && !Exited(v, live) && !v.state.Stopped? && Qga in v.ports
    ensures var agent := if Probed(v, r) then v.number in r.answering else v.agent;
      RefreshOne(v, live, r)
      == v.(state := if v.state.Stopping? then Stopping else Running, agent := agent,
            auto := if Probed(v, r) && Reports(v, agent) then None else v.auto)
  {
    assert "debian13"[0] != "windows11"[0];
  }

  /** The records to be started again: the installers found gone, in the order of the inventory. */
  predicate Turns(h: Host, owners: seq<nat>) {
    && (forall k :: 0 <= k < |owners| ==> owners[k] < |h.vms|)
    && (forall a, b :: 0 <= a < b < |owners| ==> owners[a] < owners[b])
    && (forall i :: 0 <= i < |h.vms| ==> (i in owners <==> h.vms[i].pid.Some? && !Seen(h, i) && Installing(h.vms[i])))
  }

  function TurnOf(launches: seq<Launch>, k: nat): Launch {
    if k < |launches| then launches[k] else Launch({}, [], None)
  }

  /** They are started one after the other, each in the state the one before has left. */
  ghost predicate InTurn(owners: seq<nat>, launches: seq<Launch>, chain: seq<Host>) {
    && |chain| == |owners| + 1
    && forall k :: 0 <= k < |owners| ==>
         var l := TurnOf(launches, k);
         owners[k] < |chain[k].vms| && Launched(Elapse(chain[k], l.moves), owners[k], l, true, chain[k + 1])
  }

  /** What a reading of the inventory does: one pass over the records, then the restarts in turn. */
  ghost predicate ReadAs(h: Host, r: Reading, owners: seq<nat>, chain: seq<Host>) {
    && Turns(h, owners) && InTurn(owners, r.launches, chain) && chain[|owners|] == ReadVms(h, r)
    && (var f := chain[0];
        && f == Elapse(h, r.moves).(vms := f.vms) && |f.vms| == |h.vms|
        && forall i :: 0 <= i < |h.vms| ==> Updated(h, r, i, f.vms[i]))
  }

  lemma {:induction false} RecordsDoNotMatter(h: Host, vms: seq<Vm>, moves: seq<Move>)
    ensures Elapse(h.(vms := vms), moves) == Elapse(h, moves).(vms := vms)
  {
    if moves != [] {
      RecordsDoNotMatter(h, vms, moves[..|moves| - 1]);
    }
  }

  lemma WantedExactly(h: Host, i: nat)
    requires i < |h.vms|
    ensures WantsRestart(h.vms[i], LivePids(h.vms, h.procs))
      <==> h.vms[i].pid.Some? && !Seen(h, i) && Installing(h.vms[i])
  {
    hide Alive, LivePids;
    if h.vms[i].pid.Some? {
      KnownPid(h.vms, h.procs, h.vms[i].pid.value);
    }
  }

  /** The numbers to restart, record by record. */
  lemma {:induction false} OwnersOf(vms: seq<Vm>, live: set<int>) returns (owners: seq<nat>)
    ensures |owners| == |ToRestart(vms, live)|
    ensures forall k :: 0 <= k < |owners| ==> owners[k] < |vms| && vms[owners[k]].number == ToRestart(vms, live)[k]
    ensures forall a, b :: 0 <= a < b < |owners| ==> owners[a] < owners[b]
    ensures forall i :: 0 <= i < |vms| ==> (i in owners <==> WantsRestart(vms[i], live))
  {
    hide WantsRestart;
    if vms == [] {
      owners := [];
    } else {
      var n := |vms| - 1;
      owners := OwnersOf(vms[..n], live);
      if WantsRestart(vms[n], live) {
        owners := owners + [n];
      }
    }
  }

  lemma {:induction false} RestartChain(h: Host, numbers: seq<nat>, owners: seq<nat>, launches: seq<Launch>)
    returns (chain: seq<Host>)
    requires Sound(h) && Distinct(numbers) && forall n :: n in numbers ==> Off(h.procs, n)
    requires |owners| == |numbers|
    requires forall k :: 0 <= k < |owners| ==> owners[k] < |h.vms| && h.vms[owners[k]].number == numbers[k]
    ensures InTurn(owners, launches, chain) && chain[0] == h && chain[|owners|] == RestartAll(h, numbers, launches)
    ensures SameNumbers(h.vms, chain[|owners|].vms)
  {
    hide Sound, Off, Elapse, Launched, StartVm, Separate;
    if numbers == [] {
      chain := [h];
    } else {
      var n := |numbers| - 1;
      chain := RestartChain(h, numbers[..n], owners[..n], launches);
      RestartAllSound(h, numbers[..n], launches);
      OneTurn(chain[n], numbers[n], owners[n], TurnOf(launches, n));
      var last := Restart(chain[n], numbers[n], TurnOf(launches, n));
      InTurnSnoc(owners, launches, chain, last);
      chain := chain + [last];
    }
  }

  predicate SameNumbers(v: seq<Vm>, w: seq<Vm>) {
    |v| == |w| && forall i :: 0 <= i < |v| ==> v[i].number == w[i].number
  }

  lemma OneTurn(m: Host, number: nat, i: nat, l: Launch)
    requires Sound(m) && i < |m.vms| && m.vms[i].number == number
    ensures Launched(Elapse(m, l.moves), i, l, true, Restart(m, number, l))
    ensures SameNumbers(m.vms, Restart(m, number, l).vms)
  {
    hide Elapse, StartVm, Separate, NewPorts, Free, RunsFrom;
    FindIs(m.vms, i);
    LaunchedExactly(m, i, l, true);
    LaunchedNumbers(Elapse(m, l.moves), i, l, true, Restart(m, number, l));
  }

  lemma LaunchedNumbers(h: Host, i: nat, l: Launch, automatic: bool, g: Host)
    requires i < |h.vms| && Launched(h, i, l, automatic, g)
    ensures SameNumbers(h.vms, g.vms)
  {
    hide Free, FreeFor;
  }

  lemma InTurnSnoc(owners: seq<nat>, launches: seq<Launch>, chain: seq<Host>, last: Host)
    requires owners != [] && InTurn(owners[..|owners| - 1], launches, chain)
    requires var k := |owners| - 1;
      var l := TurnOf(launches, k);
      owners[k] < |chain[k].vms| && Launched(Elapse(chain[k], l.moves), owners[k], l, true, last)
    ensures InTurn(owners, launches, chain + [last])
  {
    hide Elapse, Launched;
    var k := |owners| - 1;
    assert (chain + [last])[k + 1] == last && (chain + [last])[k] == chain[k];
    forall j | 0 <= j < |owners|
      ensures var l := TurnOf(launches, j);
        owners[j] < |chain[j].vms| && Launched(Elapse(chain[j], l.moves), owners[j], l, true, (chain + [last])[j + 1])
    {
      if j < k {
        assert owners[..k][j] == owners[j] && (chain + [last])[j + 1] == chain[j + 1];
      }
    }
  }

  /**
    Reading the inventory: a record without a pid stays, one whose process is gone is
    stopped, one that runs is recorded running and its agent is asked; an installation that
    is over is forgotten, and a Debian one that powered off is started again, in turn.
   */
  lemma ReadOutcome(h: Host, r: Reading)
    requires Sound(h)
    ensures exists owners, chain :: ReadAs(h, r, owners, chain)
  {
    hide Sound, Off, RefreshAll, RefreshOne, Updated, Elapse, RestartAll, Separate, Consistent, InTurn, WantsRestart,
      Seen,
         LivePids, Wanted;
    var live := LivePids(h.vms, h.procs);
    var f := Refreshed(h, r);
    RefreshedSound(h, r);
    SoundSeparate(h);
    ToRestartAreWanted(h.vms, live);
    RecordsDoNotMatter(h, RefreshAll(h.vms, live, r), r.moves);
    RestartsAreOff(h, r);
    var owners := OwnersOf(h.vms, live);
    forall i | 0 <= i < |h.vms|
      ensures Updated(h, r, i, f.vms[i]) && f.vms[i].number == h.vms[i].number
      ensures WantsRestart(h.vms[i], live) <==> h.vms[i].pid.Some? && !Seen(h, i) && Installing(h.vms[i])
    {
      SoundConsistent(h, i);
      RecordUpdated(h, r, i);
      UpdatedNumber(h, r, i, f.vms[i]);
      WantedExactly(h, i);
    }
    var chain := RestartChain(f, ToRestart(h.vms, live), owners, r.launches);
    assert ReadAs(h, r, owners, chain) by {
      TurnsOf(h, owners, live);
    }
  }

  lemma UpdatedNumber(h: Host, r: Reading, i: nat, w: Vm)
    requires i < |h.vms| && Updated(h, r, i, w)
    ensures w.number == h.vms[i].number
  {
  }

  lemma TurnsOf(h: Host, owners: seq<nat>, live: set<int>)
    requires forall k :: 0 <= k < |owners| ==> owners[k] < |h.vms|
    requires forall a, b :: 0 <= a < b < |owners| ==> owners[a] < owners[b]
    requires forall i :: 0 <= i < |h.vms| ==> (i in owners <==> WantsRestart(h.vms[i], live))
    requires forall i :: 0 <= i < |h.vms| ==>
      (WantsRestart(h.vms[i], live) <==> h.vms[i].pid.Some? && !Seen(h, i) && Installing(h.vms[i]))
    ensures Turns(h, owners)
  {
    hide WantsRestart, Seen, Installing;
  }

  lemma RestartsAreOff(h: Host, r: Reading)
    requires Sound(h)
    ensures forall n :: n in ToRestart(h.vms, LivePids(h.vms, h.procs)) ==> Off(Refreshed(h, r).procs, n)
  {
    hide Sound, Off, RefreshAll, Wanted, Separate;
    var live := LivePids(h.vms, h.procs);
    SoundSeparate(h);
    ToRestartAreWanted(h.vms, live);
    ElapseFewer(h.(vms := RefreshAll(h.vms, live, r)), r.moves);
    forall n | n in ToRestart(h.vms, live)
      ensures Off(Refreshed(h, r).procs, n)
    {
      WantedIsOff(h, n);
      FewerIsOff(Refreshed(h, r).procs, h.procs, n);
    }
  }

  // ---- Quick create ------------------------------------------------------------------------------

  predicate MarkedAfter(a: Host, r: Reading, i: nat, w: Vm, g: Host) {
    var b := ReadVms(a, r);
    |b.vms| == |a.vms| && i < |b.vms| && g == b.(vms := b.vms[i := w])
  }

  /** The VM is created, the inventory read again, and the new record, and no other, is marked as being installed. */
  lemma QuickCreateOutcome(h: Host, r: Reading, number: nat, name: string, disk: string, windows: bool, content: int,
                           r2: Reading, auto: Auto)
    requires Sound(h) && Possible(h, QuickCreate(r, number, name, disk, windows, content, r2, auto))
    ensures var f, g := ReadVms(h, r), Step(h, QuickCreate(r, number, name, disk, windows, content, r2, auto));
      var vm := Vm(number, name, disk, windows, true, None, Stopped, map[], false, None);
      if Taken(f.vms, name) then g == f
      else exists a :: Added(f, vm, content, a) && MarkedAfter(a, r2, |f.vms|, vm.(auto := Some(auto)), g)
  {
    hide ReadVms, NameTaken, Taken, Stamped, Sound, Separate, ReadAs;
    var f := ReadVms(h, r);
    TakenExactly(f.vms, name);
    if !Taken(f.vms, name) {
      var vm := NewVm(number, name, disk, windows, true);
      ReadSeparate(h, r);
      UsedAfterRead(h, r);
      AddSound(f, vm, content);
      var a := Add(f, vm, content);
      ReadSeparate(a, r2);
      RestingStays(a, r2, |f.vms|);
      FindIs(ReadVms(a, r2).vms, |f.vms|);
      assert Added(f, vm, content, a);
    }
  }

  /** A record without a pid is as it was after a reading. */
  lemma RestingStays(h: Host, r: Reading, i: nat)
    requires Sound(h) && i < |h.vms| && h.vms[i].pid.None?
    ensures |ReadVms(h, r).vms| == |h.vms| && ReadVms(h, r).vms[i] == h.vms[i]
  {
    hide Sound, ReadVms, Elapse, Seen, Installing, InTurn;
    ReadOutcome(h, r);
    var owners, chain :| ReadAs(h, r, owners, chain);
    RestingInTurn(owners, r.launches, chain, i, |owners|);
  }

  lemma {:induction false} RestingInTurn(owners: seq<nat>, launches: seq<Launch>, chain: seq<Host>, i: nat, k: nat)
    requires InTurn(owners, launches, chain) && i !in owners && k <= |owners| && i < |chain[0].vms|
    ensures |chain[k].vms| == |chain[0].vms| && chain[k].vms[i] == chain[0].vms[i]
  {
    hide Elapse, Free, FreeFor, RunsFrom;
    if k > 0 {
      RestingInTurn(owners, launches, chain, i, k - 1);
      assert owners[k - 1] in owners;
    }
  }

  // ---- Snapshots -----------------------------------------------------------------------------------

  /** Nothing but the history of accesses has changed. */
  predicate OnlyAccessed(f: Host, g: Host) {
    g == f.(accesses := g.accesses)
  }

  /** Only a VM without a process and with its disk is snapshotted; the entry joins those listed. */
  lemma TakeOutcome(h: Host, r: Reading, id: nat, stamp: nat, second: nat, path: string, i: nat)
    requires Sound(h) && Possible(h, TakeSnapshot(r, id, stamp, second, path))
    requires i < |ReadVms(h, r).vms| && ReadVms(h, r).vms[i].number == id
    ensures var f, g := ReadVms(h, r), Step(h, TakeSnapshot(r, id, stamp, second, path));
      if f.vms[i].pid.Some? || f.vms[i].disk !in f.files then g == f
      else
        && g == f.(files := g.files, snapshots := g.snapshots, accesses := g.accesses)
        && g.files == f.files[path := f.files[f.vms[i].disk]] && g.snapshots != []
        && g.snapshots[|g.snapshots| - 1] == Snapshot(id, stamp, second, path)
        && (forall t :: t in g.snapshots[..|g.snapshots| - 1] <==> t in f.snapshots && t.path in g.files)
  {
    hide ReadVms, Present, Separate, Sound, Stamped;
    var f := ReadVms(h, r);
    ReadSeparate(h, r);
    FindIs(f.vms, i);
    SoundConsistent(f, i);
    if f.vms[i].pid.None? && f.vms[i].disk in f.files {
      ListedExactly(f.snapshots, f.files[path := f.files[f.vms[i].disk]]);
    }
  }

  /**
    A rollback writes the disk, and nothing else, of a VM without a process, from a listed file
    inside the directory.
   */
  lemma RollbackOutcome(h: Host, r: Reading, id: nat, snapshot: nat, inside: bool, i: nat)
    requires Sound(h) && i < |ReadVms(h, r).vms| && ReadVms(h, r).vms[i].number == id
    ensures var f, g := ReadVms(h, r), Step(h, Rollback(r, id, snapshot, inside));
      var file := FirstFile(f.snapshots, f.files.Keys, id, snapshot);
      if f.vms[i].pid.Some? || file.None? || !inside then g == f
      else OnlyAccessed(f.(files := f.files[f.vms[i].disk := f.files[file.value]]), g)
  {
    hide ReadVms, Present, FindSnapshot, Separate, Sound, FirstFile, Stamped;
    var f := ReadVms(h, r);
    ReadSeparate(h, r);
    FindIs(f.vms, i);
    SoundConsistent(f, i);
    FileIsFirst(f, id, snapshot);
  }

  /** How many listed entries have this id. */
  function EntriesOf(snapshots: seq<Snapshot>, there: set<string>, owner: nat, id: nat): nat {
    if snapshots == [] then 0
    else
      var t := snapshots[0];
      (if t.owner == owner && t.id == id && t.path in there then 1 else 0) + EntriesOf(snapshots[1..], there, owner, id)
  }

  /**
    Dropping a snapshot takes its file, if that is inside, and its entry; it keeps both if the file
    could not be removed.
   */
  lemma DropOutcome(h: Host, id: nat, snapshot: nat, inside: bool, removed: bool)
    ensures var g := Step(h, DropSnapshot(id, snapshot, inside, removed));
      var file := FirstFile(h.snapshots, h.files.Keys, id, snapshot);
      if file.None? then g == h
      else if inside && !removed then OnlyAccessed(h, g)
      else
        && g == h.(files := g.files, snapshots := g.snapshots, accesses := g.accesses)
        && g.files == (if inside then h.files - {file.value} else h.files)
        && EntriesOf(g.snapshots, h.files.Keys, id, snapshot) + 1
           == EntriesOf(h.snapshots, h.files.Keys, id, snapshot)
  {
    hide Present, FindSnapshot, FirstFile, EntriesOf;
    FileIsFirst(h, id, snapshot);
    var present := Present(h.snapshots, h.files);
    var found := FindSnapshot(present, id, snapshot);
    if found.Some? {
      EntriesPresent(h.snapshots, h.files, id, snapshot);
      EntryGone(present, found.value, h.files.Keys, id, snapshot);
    }
  }

  lemma {:induction false} EntriesPresent(snapshots: seq<Snapshot>, files: map<string, int>, owner: nat, id: nat)
    ensures EntriesOf(Present(snapshots, files), files.Keys, owner, id) == EntriesOf(snapshots, files.Keys, owner, id)
  {
    if snapshots != [] {
      EntriesPresent(snapshots[1..], files, owner, id);
      if snapshots[0].path in files {
        assert Present(snapshots, files)[1..] == Present(snapshots[1..], files);
      }
    }
  }

  lemma {:induction false} EntryGone(snapshots: seq<Snapshot>, k: nat, there: set<string>, owner: nat, id: nat)
    requires k < |snapshots| && snapshots[k].owner == owner && snapshots[k].id == id && snapshots[k].path in there
    ensures EntriesOf(snapshots[..k] + snapshots[k + 1..], there, owner, id) + 1
      == EntriesOf(snapshots, there, owner, id)
  {
    var rest := snapshots[..k] + snapshots[k + 1..];
    if k == 0 {
      assert rest == snapshots[1..];
    } else {
      assert rest[0] == snapshots[0] && rest[1..] == snapshots[1..][..k - 1] + snapshots[1..][k..];
      EntryGone(snapshots[1..], k - 1, there, owner, id);
    }
  }
}
