/**
  What the arguments of the command line come to: drive options that are read back, the
  boot order, the installer kernel, and SPICE audio.
 */
module QemuOptions {
  import opened Sequences
  import opened LaunchLadder
  import opened QemuArgs
  import OptionStrings

  // ---- Members of the command line --------------------------------------------------------

  lemma {:induction false} FlattenMember(segments: seq<seq<Arg>>, a: Arg)
    ensures a in Flatten(segments) <==> exists k :: 0 <= k < |segments| && a in segments[k]
  {
    if segments != [] {
      FlattenMember(segments[1..], a);
      if k :| 0 <= k < |segments| && a in segments[k] {
        if k > 0 {
          assert a in segments[1..][k - 1];
        }
      }
      if k :| 0 <= k < |segments[1..]| && a in segments[1..][k] {
        assert a in segments[k + 1];
      }
    }
  }

  // ---- Commas -------------------------------------------------------------------------------

  predicate CleanText(s: string) {
    s != "" && ',' !in s
  }

  predicate CleanPlain(p: Plain) {
    CleanText(PlainText(p))
  }

  predicate CleanArg(a: Arg) {
    a.Options? ==>
      && a.before != []
      && (forall p :: p in a.before ==> CleanPlain(p))
      && (forall p :: p in a.after ==> CleanPlain(p))
  }

  predicate CleanTexts(texts: seq<string>) {
    forall k :: 0 <= k < |texts| ==> CleanText(texts[k])
  }

  lemma {:induction false} CleanPlains(parts: seq<Plain>)
    requires forall p :: p in parts ==> CleanPlain(p)
    ensures |PlainTexts(parts)| == |parts| && CleanTexts(PlainTexts(parts))
  {
    if parts != [] {
      CleanPlains(parts[1..]);
      var rest := PlainTexts(parts[1..]);
      assert forall k :: 1 <= k < |PlainTexts(parts)| ==> PlainTexts(parts)[k] == rest[k - 1];
      assert CleanPlain(parts[0]);
    }
  }

  lemma CleanName(id: Id)
    ensures CleanText(Name(id))
  {
  }

  lemma CleanRef(r: Ref)
    ensures CleanText(RefText(r))
  {
    CleanName(r.id);
    match r {
      case Refers(key, id) => assert ',' !in KeyText(key);
      case OnBus(id) =>
    }
  }

  lemma {:induction false} CleanRefs(refs: seq<Ref>)
    ensures CleanTexts(RefTexts(refs))
  {
    if refs != [] {
      CleanRef(refs[0]);
      CleanRefs(refs[1..]);
    }
  }

  lemma CleanArgReadsBack(a: Arg)
    requires a.Options? && CleanArg(a)
    ensures PartTexts(a) != [] && OptionStrings.Split(OptionStrings.Join(PartTexts(a)), "") == PartTexts(a)
  {
    hide PlainTexts, RefTexts, CleanText, Name;
    CleanPlains(a.before);
    CleanPlains(a.after);
    CleanRefs(a.refs);
    if a.id.Some? {
      CleanName(a.id.value);
      CleanIdText(a.id.value);
    }
    assert CleanTexts(PartTexts(a));
    Unclean(PartTexts(a));
    OptionStrings.SplitJoin(PartTexts(a));
  }

  lemma CleanIdText(id: Id)
    ensures CleanText("id=" + Name(id))
  {
    CleanName(id);
  }

  lemma Unclean(texts: seq<string>)
    requires CleanTexts(texts)
    ensures OptionStrings.CommaFree(texts) && OptionStrings.NoneEmpty(texts)
  {
  }

  /** Constant parts of the -drive options. */
  lemma ConstantDriveParts()
    ensures CleanPlain(Pair("if", "pflash")) && CleanPlain(Pair("if", "none")) && CleanPlain(Pair("if", "virtio"))
    ensures CleanPlain(Pair("if", "ide")) && CleanPlain(Pair("index", "3")) && CleanPlain(Pair("unit", "0"))
    ensures CleanPlain(Pair("unit", "1")) && CleanPlain(Pair("format", "raw")) && CleanPlain(Pair("format", "qcow2"))
    ensures CleanPlain(Pair("readonly", "on")) && CleanPlain(Pair("media", "cdrom"))
  {
  }

  lemma ConstantTuningParts()
    ensures CleanPlain(Pair("cache", "writeback"))
    ensures CleanPlain(Pair("discard", "unmap")) && CleanPlain(Pair("aio", "io_uring"))
  {
  }

  lemma DetectZeroesPart()
    ensures CleanPlain(Pair("detect-zeroes", "unmap"))
  {
  }

  lemma CleanFile(path: string)
    requires ValidPath(path)
    ensures CleanPlain(Pair("file", path)) && CleanPlain(Pair("file", "fat:" + path))
  {
    assert "file" + "=" + path != "" && "file" + "=" + ("fat:" + path) != "";
  }

  ghost predicate CleanDrives(segment: seq<Arg>) {
    forall a :: a in segment && a.Options? && a.kind == Drive ==> CleanArg(a)
  }

  lemma CleanFirmware(vm: Vm, ports: Ports, plan: Plan, host: Host)
    requires FirmwareArgs(vm, ports, plan, host).Ok?
    ensures CleanDrives(FirmwareArgs(vm, ports, plan, host).value)
  {
    hide CleanPlain, PflashArgs;
    if ports.uefi.Some? && ValidUefi(ports.uefi.value) {
      CleanPflash(ports.uefi.value);
    }
  }

  lemma CleanPflash(uefi: Uefi)
    requires ValidUefi(uefi)
    ensures CleanDrives(PflashArgs(uefi))
  {
    hide CleanPlain;
    ConstantDriveParts();
    CleanFile(uefi.code);
    CleanFile(uefi.vars);
  }

  lemma CleanStorage(vm: Vm, host: Host, plan: Plan)
    requires ValidPath(vm.diskPath)
    ensures var t := TuningFor(host.os, plan); CleanDrives(IothreadArgs(t) + DiskArgs(vm, t))
  {
    hide CleanPlain, DriveOptions, TuningFor, VirtioRefs;
    ConstantDriveParts();
    CleanFile(vm.diskPath);
    CleanDriveOptions(host, plan);
  }

  lemma CleanDriveOptions(host: Host, plan: Plan)
    ensures forall p :: p in DriveOptions(TuningFor(host.os, plan)) ==> CleanPlain(p)
  {
    hide CleanPlain;
    ConstantTuningParts();
    DetectZeroesPart();
  }

  lemma CleanCds(vm: Vm)
    requires CdArgs(vm).Ok?
    ensures CleanDrives(CdArgs(vm).value)
  {
    hide CleanPlain;
    ConstantDriveParts();
    if vm.isoPath.Some? {
      CleanFile(vm.isoPath.value);
    }
    if vm.driverIsoPath.Some? {
      CleanFile(vm.driverIsoPath.value);
    }
  }

  lemma CleanUnattend(vm: Vm, ports: Ports)
    requires UnattendArgs(vm, ports).Ok?
    ensures CleanDrives(UnattendArgs(vm, ports).value)
  {
    hide CleanPlain;
    ConstantDriveParts();
    if ports.unattendDir.Some? {
      CleanFile(ports.unattendDir.value);
    }
  }

  lemma FirstAreClean(vm: Vm, ports: Ports, plan: Plan, host: Host, k: nat)
    requires Segments(vm, ports, plan, host).Ok? && ValidPath(vm.diskPath) && k < 8
    ensures CleanDrives(Segments(vm, ports, plan, host).value[k])
  {
    hide CleanArg, FirmwareArgs, DiskArgs, IothreadArgs, CdArgs, UnattendArgs, TpmArgs, SerialArgs, CleanDrives;
    hide KernelArgs, AgentArgs, SpiceArgs, AudioArgs, DisplayArgs, NameArgs;
    hide MachineArgs, GpuArgs, NetworkArgs, TunedDevices;
    BoardHasNoDrive(vm, ports, plan, host);
    match k {
      case 2 => CleanFirmware(vm, ports, plan, host);
      case 3 => CleanStorage(vm, host, plan);
      case 4 => CleanCds(vm);
      case _ =>
    }
  }

  lemma BoardHasNoDrive(vm: Vm, ports: Ports, plan: Plan, host: Host)
    ensures CleanDrives(NameArgs(vm)) && CleanDrives(MachineArgs(vm, plan)) && CleanDrives(GpuArgs(vm, plan))
    ensures CleanDrives(NetworkArgs(vm, ports, host)) && CleanDrives(TunedDevices(vm, plan, host))
  {
    hide CleanDrives, NameArgs, MachineArgs, GpuArgs, NetworkArgs, TunedDevices;
    MachineHasNoDrive(vm, plan);
    NetworkHasNoDrive(vm, ports, plan, host);
  }

  lemma MachineHasNoDrive(vm: Vm, plan: Plan)
    ensures CleanDrives(NameArgs(vm)) && CleanDrives(MachineArgs(vm, plan)) && CleanDrives(GpuArgs(vm, plan))
  {
    hide CleanArg;
  }

  lemma NetworkHasNoDrive(vm: Vm, ports: Ports, plan: Plan, host: Host)
    ensures CleanDrives(NetworkArgs(vm, ports, host)) && CleanDrives(TunedDevices(vm, plan, host))
  {
    hide CleanArg;
  }

  lemma KernelHasNoDrive(vm: Vm, ports: Ports)
    ensures CleanDrives(KernelArgs(vm)) && CleanDrives(DisplayArgs(ports)) && CleanDrives(AgentArgs(ports))
  {
  }

  lemma DevicesHaveNoDrive(ports: Ports, plan: Plan)
    ensures CleanDrives(SpiceArgs(ports, plan)) && CleanDrives(AudioArgs(plan))
    ensures TpmArgs(ports).Ok? ==> CleanDrives(TpmArgs(ports).value)
    ensures SerialArgs(ports).Ok? ==> CleanDrives(SerialArgs(ports).value)
  {
  }

  lemma LastAreClean(vm: Vm, ports: Ports, plan: Plan, host: Host, k: nat)
    requires Segments(vm, ports, plan, host).Ok? && 8 <= k < |Segments(vm, ports, plan, host).value|
    ensures CleanDrives(Segments(vm, ports, plan, host).value[k])
  {
    hide CleanDrives, FirmwareArgs, DiskArgs, IothreadArgs, CdArgs, UnattendArgs, TpmArgs, SerialArgs;
    hide NameArgs, MachineArgs, GpuArgs, NetworkArgs, TunedDevices, KernelArgs;
    hide AgentArgs, SpiceArgs, AudioArgs, DisplayArgs;
    KernelHasNoDrive(vm, ports);
    DevicesHaveNoDrive(ports, plan);
    CleanUnattend(vm, ports);
  }

  lemma DrivesAreClean(vm: Vm, ports: Ports, plan: Plan, host: Host, a: Arg)
    requires Build(vm, ports, plan, host).Ok? && ValidPath(vm.diskPath)
    requires a in Build(vm, ports, plan, host).value && a.Options? && a.kind == Drive
    ensures CleanArg(a)
  {
    hide CleanArg, Segments, Flatten;
    var segments := Segments(vm, ports, plan, host).value;
    FlattenMember(segments, a);
    var k :| 0 <= k < |segments| && a in segments[k];
    if k < 8 {
      FirstAreClean(vm, ports, plan, host, k);
    } else {
      LastAreClean(vm, ports, plan, host, k);
    }
  }

  /**
    Every -drive option of the command line is split by QEMU into exactly the
    options it was made of, and every path in it is read back unchanged.
   */
  lemma DrivesAreReadBack(vm: Vm, ports: Ports, plan: Plan, host: Host, a: Arg)
    requires Build(vm, ports, plan, host).Ok? && ValidPath(vm.diskPath)
    requires a in Build(vm, ports, plan, host).value && a.Options? && a.kind == Drive
    ensures PartTexts(a) != [] && OptionStrings.Split(ArgText(a)[1], "") == PartTexts(a)
    ensures forall key, value :: Pair(key, value) in a.before + a.after && '=' !in key ==>
      exists part :: part in PartTexts(a) && OptionStrings.Key(part) == key && OptionStrings.Value(part) == value
  {
    hide CleanArg, Build, PartTexts;
    DrivesAreClean(vm, ports, plan, host, a);
    CleanArgReadsBack(a);
    forall key, value | Pair(key, value) in a.before + a.after && '=' !in key
      ensures exists part ::
          part in PartTexts(a) && OptionStrings.Key(part) == key && OptionStrings.Value(part) == value
    {
      PairIsThere(a, key, value);
      OptionStrings.KeyAndValue(key, value);
    }
  }

  lemma PairIsThere(a: Arg, key: string, value: string)
    requires a.Options? && Pair(key, value) in a.before + a.after
    ensures key + "=" + value in PartTexts(a)
  {
    TextOfMember(a.before, Pair(key, value));
    TextOfMember(a.after, Pair(key, value));
  }

  lemma {:induction false} TextOfMember(parts: seq<Plain>, p: Plain)
    ensures p in parts ==> PlainText(p) in PlainTexts(parts)
  {
    if parts != [] {
      TextOfMember(parts[1..], p);
    }
  }

  /**
    The rule `validate_qemu_path` applies to commas is the right one: the drive of a disk is read
    back exactly when it holds.
   */
  lemma DiskDriveReadBackExactly(path: string, host: Host, plan: Plan)
    ensures var a := DiskDrive(path, TuningFor(host.os, plan));
      PartTexts(a) != []
      && (OptionStrings.Split(OptionStrings.Join(PartTexts(a)), "") == PartTexts(a) <==> ',' !in path)
  {
    hide CleanPlain, DriveOptions, TuningFor, PlainTexts;
    var a := DiskDrive(path, TuningFor(host.os, plan));
    if ',' !in path {
      ConstantDriveParts();
      CleanDriveOptions(host, plan);
      CommaFreeFile(path);
      CleanArgReadsBack(a);
    } else {
      PairIsThere(a, "file", path);
      var k :| 0 <= k < |PartTexts(a)| && PartTexts(a)[k] == "file" + "=" + path;
      assert !OptionStrings.CommaFree(PartTexts(a)) by {
        assert ',' in PartTexts(a)[k];
      }
      DrivePairs(host, plan);
      NonEmptyParts(a);
      OptionStrings.OptionsRoundTripExactly(PartTexts(a));
    }
  }

  lemma DrivePairs(host: Host, plan: Plan)
    ensures forall p :: p in DriveOptions(TuningFor(host.os, plan)) ==> p.Pair?
  {
  }

  lemma CommaFreeFile(path: string)
    requires ',' !in path
    ensures CleanPlain(Pair("file", path))
  {
    assert "file" + "=" + path != "";
  }

  lemma NonEmptyParts(a: Arg)
    requires a.Options? && (forall p :: p in a.before + a.after ==> p.Pair?)
    ensures OptionStrings.NoneEmpty(PartTexts(a))
  {
    NonEmptyPairs(a.before);
    NonEmptyPairs(a.after);
    CleanRefs(a.refs);
  }

  lemma {:induction false} NonEmptyPairs(parts: seq<Plain>)
    requires forall p :: p in parts ==> p.Pair?
    ensures OptionStrings.NoneEmpty(PlainTexts(parts))
  {
    if parts != [] {
      NonEmptyPairs(parts[1..]);
      assert parts[0].Pair? && |parts[0].key + "=" + parts[0].value| > 0;
      var rest := PlainTexts(parts[1..]);
      assert forall k :: 1 <= k < |PlainTexts(parts)| ==> PlainTexts(parts)[k] == rest[k - 1];
    }
  }

  // ---- Boot order ------------------------------------------------------------------------

  function Boots(a: Arg): set<nat> {
    if a.Options? then set p | p in a.before + a.after && p.BootIndex? :: p.n else {}
  }

  function AllBoots(args: seq<Arg>): set<nat> {
    if args == [] then {} else Boots(args[0]) + AllBoots(args[1..])
  }

  predicate DistinctBoots(args: seq<Arg>) {
    args == [] || (Boots(args[0]) !! AllBoots(args[1..]) && DistinctBoots(args[1..]))
  }

  lemma {:induction false} BootsAppend(a: seq<Arg>, b: seq<Arg>)
    ensures AllBoots(a + b) == AllBoots(a) + AllBoots(b)
    ensures DistinctBoots(a) && DistinctBoots(b) && AllBoots(a) !! AllBoots(b) ==> DistinctBoots(a + b)
  {
    if a == [] {
      Neutral(b);
    } else {
      TailOfAppend(a, b);
      BootsAppend(a[1..], b);
    }
  }

  ghost predicate Bootless(segment: seq<Arg>) {
    forall a :: a in segment ==> NoBoot(a)
  }

  predicate NoBoot(a: Arg) {
    a.Options? ==> (forall p :: p in a.before ==> !p.BootIndex?) && (forall p :: p in a.after ==> !p.BootIndex?)
  }

  lemma {:induction false} BootlessHasNone(segment: seq<Arg>)
    requires Bootless(segment)
    ensures AllBoots(segment) == {} && DistinctBoots(segment)
  {
    if segment != [] {
      assert NoBoot(segment[0]) && Boots(segment[0]) == {};
      BootlessHasNone(segment[1..]);
    }
  }

  lemma OneBoot(args: seq<Arg>, k: nat, n: nat)
    requires k < |args| && Boots(args[k]) == {n}
    requires forall j :: 0 <= j < |args| && j != k ==> Boots(args[j]) == {}
    ensures AllBoots(args) == {n} && DistinctBoots(args)
  {
    if k == 0 {
      NoBoots(args[1..]);
    } else {
      OneBoot(args[1..], k - 1, n);
    }
  }

  lemma {:induction false} NoBoots(args: seq<Arg>)
    requires forall j :: 0 <= j < |args| ==> Boots(args[j]) == {}
    ensures AllBoots(args) == {} && DistinctBoots(args)
  {
    if args != [] {
      NoBoots(args[1..]);
    }
  }

  lemma DiskBoots(vm: Vm, host: Host, plan: Plan)
    ensures var args := DiskArgs(vm, TuningFor(host.os, plan));
      AllBoots(args) <= {1} && DistinctBoots(args)
  {
    hide AllBoots, DistinctBoots, TuningFor, VirtioRefs;
    var t := TuningFor(host.os, plan);
    var args := DiskArgs(vm, t);
    DriveBoots(vm.diskPath, host, plan);
    if vm.diskBus == "nvme" || (vm.diskBus != "sata" && vm.architecture == "arm64") {
      OneBoot(args, 1, 1);
    } else if vm.diskBus == "sata" {
      OneBoot(args, 2, 1);
    } else {
      NoBoots(args);
    }
  }

  lemma DriveBoots(path: string, host: Host, plan: Plan)
    ensures Boots(DiskDrive(path, TuningFor(host.os, plan))) == {}
    ensures forall p :: p in DriveOptions(TuningFor(host.os, plan)) ==> !p.BootIndex?
  {
  }

  lemma StorageBoots(vm: Vm, host: Host, plan: Plan)
    ensures var t := TuningFor(host.os, plan);
      AllBoots(IothreadArgs(t) + DiskArgs(vm, t)) <= {1} && DistinctBoots(IothreadArgs(t) + DiskArgs(vm, t))
  {
    hide DiskArgs, TuningFor;
    var t := TuningFor(host.os, plan);
    DiskBoots(vm, host, plan);
    BootlessHasNone(IothreadArgs(t));
    BootsAppend(IothreadArgs(t), DiskArgs(vm, t));
  }

  lemma CdBoots(vm: Vm)
    requires CdArgs(vm).Ok?
    ensures AllBoots(CdArgs(vm).value) <= {0} && DistinctBoots(CdArgs(vm).value)
  {
    hide AllBoots, DistinctBoots;
    if vm.architecture == "arm64" {
      BootlessHasNone(DriverArgs(vm));
      if vm.isoPath.Some? {
        OneBoot(IsoArgs(vm), 1, 0);
      } else {
        NoBoots(IsoArgs(vm));
      }
      BootsAppend(IsoArgs(vm), DriverArgs(vm));
    } else {
      BootlessHasNone(CdArgs(vm).value);
    }
  }

  lemma PflashBoots(uefi: Uefi)
    ensures Bootless(PflashArgs(uefi))
  {
  }

  lemma FirmwareBoots(vm: Vm, ports: Ports, plan: Plan, host: Host)
    ensures FirmwareArgs(vm, ports, plan, host).Ok? ==> Bootless(FirmwareArgs(vm, ports, plan, host).value)
  {
    hide PflashArgs;
    if ports.uefi.Some? {
      PflashBoots(ports.uefi.value);
    }
  }

  lemma MiddleBoots(vm: Vm, ports: Ports, plan: Plan, host: Host)
    ensures Bootless(TunedDevices(vm, plan, host)) && Bootless(NetworkArgs(vm, ports, host))
    ensures Bootless(GpuArgs(vm, plan)) && Bootless(NameArgs(vm)) && Bootless(MachineArgs(vm, plan))
  {
    hide TunedDevices, MachineArgs, NameArgs;
    TunedBoots(vm, plan, host);
    NameBoots(vm, plan);
  }

  lemma TunedBoots(vm: Vm, plan: Plan, host: Host)
    ensures Bootless(TunedDevices(vm, plan, host))
  {
  }

  lemma NameBoots(vm: Vm, plan: Plan)
    ensures Bootless(NameArgs(vm)) && Bootless(MachineArgs(vm, plan))
  {
  }

  lemma AgentBoots(vm: Vm, ports: Ports)
    ensures Bootless(KernelArgs(vm)) && Bootless(DisplayArgs(ports)) && Bootless(AgentArgs(ports))
  {
  }

  lemma SpiceBoots(ports: Ports, plan: Plan)
    ensures Bootless(SpiceArgs(ports, plan)) && Bootless(AudioArgs(plan))
    ensures SerialArgs(ports).Ok? ==> Bootless(SerialArgs(ports).value)
  {
  }

  lemma TpmBoots(ports: Ports)
    ensures TpmArgs(ports).Ok? ==> Bootless(TpmArgs(ports).value)
  {
  }

  lemma UnattendBoots(vm: Vm, ports: Ports)
    ensures UnattendArgs(vm, ports).Ok? ==> Bootless(UnattendArgs(vm, ports).value)
  {
  }

  function BootBound(k: nat): set<nat> {
    if k <= 3 then {0, 1} else if k == 4 then {0} else {}
  }

  lemma SegmentBoots(vm: Vm, ports: Ports, plan: Plan, host: Host, k: nat)
    requires Segments(vm, ports, plan, host).Ok? && k < |Segments(vm, ports, plan, host).value|
    ensures var segment := Segments(vm, ports, plan, host).value[k];
      DistinctBoots(segment) && AllBoots(segment) <= (if k == 3 then {1} else if k == 4 then {0} else {})
  {
    hide AllBoots, DistinctBoots, Bootless, FirmwareArgs, DiskArgs, IothreadArgs;
    hide CdArgs, UnattendArgs, TpmArgs, SerialArgs;
    hide NameArgs, MachineArgs, GpuArgs, NetworkArgs, TunedDevices, KernelArgs;
    hide AgentArgs, SpiceArgs, AudioArgs, DisplayArgs;
    if k == 3 {
      StorageBoots(vm, host, plan);
    } else if k == 4 {
      CdBoots(vm);
    } else {
      FirmwareBoots(vm, ports, plan, host);
      MiddleBoots(vm, ports, plan, host);
      AgentBoots(vm, ports);
      SpiceBoots(ports, plan);
      TpmBoots(ports);
      UnattendBoots(vm, ports);
      BootlessHasNone(Segments(vm, ports, plan, host).value[k]);
    }
  }

  lemma {:induction false} FlattenBoots(vm: Vm, ports: Ports, plan: Plan, host: Host, k: nat)
    requires Segments(vm, ports, plan, host).Ok? && k <= |Segments(vm, ports, plan, host).value|
    ensures var args := Flatten(Segments(vm, ports, plan, host).value[k..]);
      DistinctBoots(args) && AllBoots(args) <= BootBound(k)
    decreases |Segments(vm, ports, plan, host).value| - k
  {
    hide Segments;
    var segments := Segments(vm, ports, plan, host).value;
    if k < |segments| {
      SegmentBoots(vm, ports, plan, host, k);
      FlattenBoots(vm, ports, plan, host, k + 1);
      assert segments[k..][1..] == segments[k + 1..];
      BootsAppend(segments[k], Flatten(segments[k + 1..]));
    }
  }

  lemma {:induction false} DistinctMeans(args: seq<Arg>, i: nat, j: nat)
    requires DistinctBoots(args) && i < j < |args|
    ensures Boots(args[i]) !! Boots(args[j])
  {
    if i == 0 {
      BootsOfMember(args[1..], j - 1);
    } else {
      DistinctMeans(args[1..], i - 1, j - 1);
    }
  }

  lemma {:induction false} BootsOfMember(args: seq<Arg>, i: nat)
    requires i < |args|
    ensures Boots(args[i]) <= AllBoots(args)
  {
    if i > 0 {
      BootsOfMember(args[1..], i - 1);
    }
  }

  /** No two devices share a boot index. */
  lemma BootIndicesDiffer(vm: Vm, ports: Ports, plan: Plan, host: Host, i: nat, j: nat)
    requires Build(vm, ports, plan, host).Ok? && i < j < |Build(vm, ports, plan, host).value|
    ensures Boots(Build(vm, ports, plan, host).value[i]) !! Boots(Build(vm, ports, plan, host).value[j])
  {
    hide Segments, Boots;
    var segments := Segments(vm, ports, plan, host).value;
    FlattenBoots(vm, ports, plan, host, 0);
    assert segments[0..] == segments;
    DistinctMeans(Build(vm, ports, plan, host).value, i, j);
  }

  // ---- Installer kernel and SPICE audio ---------------------------------------------------

  predicate IsKernel(a: Arg) {
    a.Raw? && a.flag == "-kernel"
  }

  predicate IsAudio(a: Arg) {
    a.Options? && a.kind == Audiodev
  }

  predicate IsSpice(a: Arg) {
    a.Options? && a.kind == Spice
  }

  ghost predicate Ordinary(segment: seq<Arg>) {
    forall a :: a in segment ==> !IsKernel(a) && !IsAudio(a)
  }

  lemma FlagsDiffer()
    ensures "-kernel" !in {"-name", "-m", "-smp", "-machine", "-accel", "-cpu", "-bios", "-cdrom", "-boot", "-rtc",
                           "-display", "-vnc", "-qmp"}
    ensures "-kernel" != "-global" && "-kernel" != "-initrd" && "-kernel" != "-append"
  {
    assert "-kernel"[1] != "-global"[1] && "-kernel"[1] != "-initrd"[1] && "-kernel"[1] != "-append"[1];
  }

  lemma OrdinaryPflash(uefi: Uefi)
    ensures Ordinary(PflashArgs(uefi))
  {
    FlagsDiffer();
  }

  lemma OrdinaryMachine(vm: Vm, plan: Plan)
    ensures Ordinary(NameArgs(vm)) && Ordinary(MachineArgs(vm, plan))
  {
    FlagsDiffer();
  }

  lemma OrdinaryAppend(a: seq<Arg>, b: seq<Arg>)
    requires Ordinary(a) && Ordinary(b)
    ensures Ordinary(a + b)
  {
  }

  lemma OrdinaryBios(firmware: string)
    ensures Ordinary([Raw("-bios", firmware)])
  {
    FlagsDiffer();
  }

  /** Arguments that are devices. */
  lemma OrdinaryUsb(devices: seq<Arg>)
    requires forall a :: a in devices ==> a.Options? && a.kind == Device
    ensures Ordinary(devices)
  {
  }

  lemma OrdinaryFirmware(vm: Vm, ports: Ports, plan: Plan, host: Host)
    ensures FirmwareArgs(vm, ports, plan, host).Ok? ==> Ordinary(FirmwareArgs(vm, ports, plan, host).value)
  {
    hide PflashArgs, Ordinary;
    var usb := ArmUsb();
    OrdinaryUsb(usb);
    OrdinaryUsb(Pointer(plan));
    if ports.uefi.Some? {
      var pflash := PflashArgs(ports.uefi.value);
      OrdinaryPflash(ports.uefi.value);
      OrdinaryAppend(pflash, usb);
      OrdinaryAppend(pflash, Pointer(plan));
    } else {
      OrdinaryUsb([]);
      OrdinaryAppend([], Pointer(plan));
    }
    if host.firmware.Some? {
      OrdinaryBios(host.firmware.value);
      OrdinaryAppend([Raw("-bios", host.firmware.value)], usb);
    }
  }

  lemma OrdinaryStorage(vm: Vm, t: Tuning)
    ensures Ordinary(IothreadArgs(t) + DiskArgs(vm, t))
  {
    hide DriveOptions, VirtioRefs;
  }

  lemma OrdinaryCds(vm: Vm)
    ensures CdArgs(vm).Ok? ==> Ordinary(CdArgs(vm).value)
  {
    FlagsDiffer();
  }

  lemma OrdinaryDevices(vm: Vm, ports: Ports, plan: Plan, host: Host)
    ensures Ordinary(GpuArgs(vm, plan)) && Ordinary(NetworkArgs(vm, ports, host)) && Ordinary(AgentArgs(ports))
    ensures Ordinary(SpiceArgs(ports, plan))
  {
  }

  lemma OrdinaryTuning(vm: Vm, ports: Ports, plan: Plan, host: Host)
    ensures Ordinary(TunedDevices(vm, plan, host)) && Ordinary(DisplayArgs(ports))
  {
    FlagsDiffer();
  }

  lemma OrdinaryChannels(vm: Vm, ports: Ports)
    ensures UnattendArgs(vm, ports).Ok? ==> Ordinary(UnattendArgs(vm, ports).value)
    ensures TpmArgs(ports).Ok? ==> Ordinary(TpmArgs(ports).value)
    ensures SerialArgs(ports).Ok? ==> Ordinary(SerialArgs(ports).value)
  {
  }

  /** Only the kernel segment boots a kernel, only the audio segment opens an audio device. */
  lemma WhereKernelAndAudioAre(vm: Vm, ports: Ports, plan: Plan, host: Host, k: nat)
    requires Segments(vm, ports, plan, host).Ok? && k < |Segments(vm, ports, plan, host).value|
    ensures k != 8 && k != 13 ==> Ordinary(Segments(vm, ports, plan, host).value[k])
    ensures Segments(vm, ports, plan, host).value[8] == KernelArgs(vm)
    ensures Segments(vm, ports, plan, host).value[12] == SpiceArgs(ports, plan)
    ensures Segments(vm, ports, plan, host).value[13] == AudioArgs(plan)
    ensures |Segments(vm, ports, plan, host).value| == 16
  {
    hide Ordinary, FirmwareArgs, DiskArgs, IothreadArgs, CdArgs, UnattendArgs, TpmArgs, SerialArgs;
    hide NameArgs, MachineArgs, GpuArgs, NetworkArgs, TunedDevices, KernelArgs;
    hide AgentArgs, SpiceArgs, AudioArgs, DisplayArgs;
    OrdinaryMachine(vm, plan);
    OrdinaryTuning(vm, ports, plan, host);
    OrdinaryFirmware(vm, ports, plan, host);
    OrdinaryStorage(vm, TuningFor(host.os, plan));
    OrdinaryCds(vm);
    OrdinaryDevices(vm, ports, plan, host);
    OrdinaryChannels(vm, ports);
  }

  /** The Debian installer's kernel and initrd, while the VM still carries them. */
  predicate Installer(vm: Vm) {
    vm.autoinstall.Some? && vm.autoinstall.value.kernel.Some? && vm.autoinstall.value.initrd.Some?
  }

  /** QEMU is told to boot a kernel exactly while an unattended Debian installation is recorded on the VM. */
  lemma KernelOnlyWhileInstalling(vm: Vm, ports: Ports, plan: Plan, host: Host)
    requires Build(vm, ports, plan, host).Ok?
    ensures (exists a :: a in Build(vm, ports, plan, host).value && IsKernel(a)) <==> Installer(vm)
  {
    hide Segments, AudioArgs;
    var segments := Segments(vm, ports, plan, host).value;
    WhereKernelAndAudioAre(vm, ports, plan, host, 0);
    if Installer(vm) {
      assert IsKernel(KernelArgs(vm)[0]);
      FlattenMember(segments, KernelArgs(vm)[0]);
      assert segments[8] == KernelArgs(vm);
    }
    forall a | a in Build(vm, ports, plan, host).value && IsKernel(a)
      ensures Installer(vm)
    {
      FlattenMember(segments, a);
      var k :| 0 <= k < |segments| && a in segments[k];
      WhereKernelAndAudioAre(vm, ports, plan, host, k);
      NoKernelInAudio(plan);
    }
  }

  lemma NoKernelInAudio(plan: Plan)
    ensures forall a :: a in AudioArgs(plan) ==> !IsKernel(a)
  {
  }

  lemma NoAudioInKernel(vm: Vm)
    ensures forall a :: a in KernelArgs(vm) ==> !IsAudio(a)
  {
  }

  /** SPICE audio appears only in a command line that also turns SPICE on. */
  lemma AudioComesWithSpice(vm: Vm, ports: Ports, gpuModel: string, preferred: string, plan: Plan, host: Host, a: Arg)
    requires plan in Ladder(vm.architecture, gpuModel, preferred)
    requires Build(vm, ports, plan, host).Ok? && a in Build(vm, ports, plan, host).value && IsAudio(a)
    ensures exists b :: b in Build(vm, ports, plan, host).value && IsSpice(b)
  {
    hide Segments, KernelArgs, Ladder;
    var segments := Segments(vm, ports, plan, host).value;
    FlattenMember(segments, a);
    var k :| 0 <= k < |segments| && a in segments[k];
    WhereKernelAndAudioAre(vm, ports, plan, host, k);
    NoAudioInKernel(vm);
    AudioNeedsSpice(vm.architecture, gpuModel, preferred, plan);
    var spice := SpiceArgs(ports, plan);
    var b := spice[|spice| - 1];
    assert IsSpice(b) && b in segments[12];
    FlattenMember(segments, b);
  }
}
