/**
  What the command line gives the guest, read back from its words: its disk, discs, network,
  firmware, consoles and control channels, as the record of the VM and the plan have them.
 */
module QemuContents {
  import opened Decimals
  import opened LaunchLadder
  import opened QemuArgs
  import opened QemuOptions
  import opened QemuWords
  import opened QemuReading
  import O = OptionStrings

  /** The command line as QEMU reads it. */
  function Line(vm: Vm, ports: Ports, plan: Plan, host: Host): seq<Switch>
    requires Build(vm, ports, plan, host).Ok?
  {
    ReadPairs(Words(Build(vm, ports, plan, host).value))
  }

  predicate Has(line: seq<Switch>, flag: string, value: string) {
    (flag, value) in line
  }

  /** The option has this setting. */
  predicate Sets(o: Switch, key: string, value: string) {
    exists part :: part in O.Split(o.1, "") && '=' in part && O.Key(part) == key && O.Value(part) == value
  }

  predicate Shows(o: Switch, flag: string, names: seq<string>, settings: seq<(string, string)>) {
    && o.0 == flag
    && (forall n :: n in names ==> n in O.Split(o.1, ""))
    && (forall s :: s in settings ==> Sets(o, s.0, s.1))
  }

  /** An option with this flag, these words and these settings is on the line. */
  predicate Shown(line: seq<Switch>, flag: string, names: seq<string>, settings: seq<(string, string)>) {
    exists o :: o in line && Shows(o, flag, names, settings)
  }

  // ---- From arguments to words ------------------------------------------------------------------

  /** The setting among the parts of an argument. */
  predicate Setting(a: Arg, s: (string, string))
    requires a.Options?
  {
    || Plain.Pair(s.0, s.1) in a.before + a.after
    || (a.id.Some? && s == ("id", Name(a.id.value)))
    || (exists r :: r in a.refs && r.Refers? && s == (KeyText(r.key), Name(r.id)))
    || (exists r :: r in a.refs && r.OnBus? && s == ("bus", Name(r.id) + ".0"))
    || (s.0 == "bootindex" && exists n :: n in Boots(a) && s.1 == Decimal(n))
  }

  lemma PlainIsSet(a: Arg, p: Plain)
    requires a.Options? && TidyArg(a) && p in a.before + a.after
    ensures PlainText(p) in PartTexts(a)
    ensures p.Pair? ==> '=' in PlainText(p) && O.Key(PlainText(p)) == p.key && O.Value(PlainText(p)) == p.value
  {
    hide PartTexts, PlainTexts, PlainKey, Named;
    PartsOf(a, PlainText(p));
    PlainTextsMembers(a.before, PlainText(p));
    PlainTextsMembers(a.after, PlainText(p));
    if p.Pair? {
      assert TidyPlain(p);
      PlainKeysNameNothing(p.key);
      O.KeyAndValue(p.key, p.value);
      assert PlainText(p)[|p.key|] == '=';
    }
  }

  lemma RefIsSet(a: Arg, r: Ref)
    requires a.Options? && r in a.refs
    ensures RefText(r) in PartTexts(a) && '=' in RefText(r)
    ensures r.Refers? ==> O.Key(RefText(r)) == KeyText(r.key) && O.Value(RefText(r)) == Name(r.id)
    ensures r.OnBus? ==> O.Key(RefText(r)) == "bus" && O.Value(RefText(r)) == Name(r.id) + ".0"
  {
    hide PartTexts, Named, Name, KeyText, FlagText;
    PartsOf(a, RefText(r));
    RefTextsMembers(a.refs, RefText(r));
    match r {
      case Refers(key, id) =>
        KeysAreNamed(key);
        O.KeyAndValue(KeyText(key), Name(id));
        assert RefText(r)[|KeyText(key)|] == '=';
      case OnBus(id) =>
        BusIsNamed();
        O.KeyAndValue("bus", Name(id) + ".0");
        assert RefText(r) == "bus" + "=" + (Name(id) + ".0");
        assert RefText(r)[3] == '=';
    }
  }

  lemma IdIsSet(a: Arg)
    requires a.Options? && a.id.Some?
    ensures "id=" + Name(a.id.value) in PartTexts(a)
  {
    hide Name;
    PartsOf(a, "id=" + Name(a.id.value));
  }

  lemma SettingIsRead(a: Arg, s: (string, string))
    requires a.Options? && TidyArg(a) && Setting(a, s)
    ensures exists part :: part in PartTexts(a) && '=' in part && O.Key(part) == s.0 && O.Value(part) == s.1
  {
    hide PartTexts, TidyArg, Name, KeyText, PlainText, RefText;
    if Plain.Pair(s.0, s.1) in a.before + a.after {
      PlainIsSet(a, Plain.Pair(s.0, s.1));
    } else if a.id.Some? && s == ("id", Name(a.id.value)) {
      IdIsSet(a);
      IdTextReads(a.id.value);
    } else if r :| r in a.refs && r.Refers? && s == (KeyText(r.key), Name(r.id)) {
      RefIsSet(a, r);
    } else if r :| r in a.refs && r.OnBus? && s == ("bus", Name(r.id) + ".0") {
      RefIsSet(a, r);
    } else {
      var n :| n in Boots(a) && s.1 == Decimal(n);
      BootIsThere(a, n);
    }
  }

  /** What an argument of the line says is read back from its words. */
  lemma ArgIsShown(vm: Vm, ports: Ports, plan: Plan, host: Host, a: Arg, names: seq<string>,
                   settings: seq<(string, string)>)
    requires Build(vm, ports, plan, host).Ok? && CommaFreeInputs(vm, ports)
    requires a in Build(vm, ports, plan, host).value && a.Options?
    requires forall n :: n in names ==> Word(n) in a.before + a.after
    requires forall s :: s in settings ==> Setting(a, s)
    ensures Shown(Line(vm, ports, plan, host), FlagText(a.kind), names, settings)
  {
    hide Build, CommaFreeInputs, TidyArg, PartTexts, Setting, FlagText, ReadPairs, Words;
    var all := Build(vm, ports, plan, host).value;
    AllAreTidy(vm, ports, plan, host);
    OptionsAreReadBack(vm, ports, plan, host, a);
    PairsAreSwitches(all);
    var o := SwitchOf(a);
    SwitchOnLine(vm, ports, plan, host, a);
    forall n | n in names
      ensures n in O.Split(o.1, "")
    {
      PlainIsSet(a, Word(n));
    }
    forall s | s in settings
      ensures Sets(o, s.0, s.1)
    {
      SettingIsRead(a, s);
    }
  }

  lemma SwitchOnLine(vm: Vm, ports: Ports, plan: Plan, host: Host, a: Arg)
    requires Build(vm, ports, plan, host).Ok? && a in Build(vm, ports, plan, host).value
    ensures SwitchOf(a) in Line(vm, ports, plan, host)
  {
    hide Build, ReadPairs, Words, ArgText;
    var all := Build(vm, ports, plan, host).value;
    PairsAreSwitches(all);
    var i :| 0 <= i < |all| && all[i] == a;
    assert ReadPairs(Words(all))[i] == SwitchOf(a);
  }

  /** An argument of a segment is on the line. */
  lemma OnLine(vm: Vm, ports: Ports, plan: Plan, host: Host, k: nat, a: Arg)
    requires Build(vm, ports, plan, host).Ok? && k < 16
    requires a in Segments(vm, ports, plan, host).value[k]
    ensures a in Build(vm, ports, plan, host).value
  {
    hide Segments;
    FlattenMember(Segments(vm, ports, plan, host).value, a);
  }

  /** What the segments of a line are. */
  lemma SegmentsAre(vm: Vm, ports: Ports, plan: Plan, host: Host)
    requires Build(vm, ports, plan, host).Ok?
    ensures var r := Segments(vm, ports, plan, host);
      var t := TuningFor(host.os, plan);
      && r.Ok? && r.value[0] == NameArgs(vm) && r.value[1] == MachineArgs(vm, plan)
      && r.value[3] == IothreadArgs(t) + DiskArgs(vm, t) && r.value[5] == GpuArgs(vm, plan)
      && r.value[6] == NetworkArgs(vm, ports, host) && r.value[7] == TunedDevices(vm, plan, host)
      && r.value[8] == KernelArgs(vm) && r.value[11] == AgentArgs(ports) && r.value[12] == SpiceArgs(ports, plan)
      && r.value[13] == AudioArgs(plan) && r.value[15] == DisplayArgs(ports)
      && FirmwareArgs(vm, ports, plan, host).Ok? && r.value[2] == FirmwareArgs(vm, ports, plan, host).value
      && CdArgs(vm).Ok? && r.value[4] == CdArgs(vm).value
      && UnattendArgs(vm, ports).Ok? && r.value[9] == UnattendArgs(vm, ports).value
      && TpmArgs(ports).Ok? && r.value[10] == TpmArgs(ports).value
      && SerialArgs(ports).Ok? && r.value[14] == SerialArgs(ports).value
  {
    hide FirmwareArgs, DiskArgs, IothreadArgs, CdArgs, UnattendArgs, TpmArgs, SerialArgs, TuningFor;
    hide NameArgs, MachineArgs, GpuArgs, NetworkArgs, TunedDevices, KernelArgs;
    hide AgentArgs, SpiceArgs, AudioArgs, DisplayArgs;
  }

  predicate Gives(a: Arg, flag: string, names: seq<string>, settings: seq<(string, string)>) {
    && a.Options? && FlagText(a.kind) == flag
    && (forall n :: n in names ==> Word(n) in a.before + a.after)
    && (forall s :: s in settings ==> Setting(a, s))
  }

  /** One argument of the segment has this flag, these words and these settings. */
  predicate Offers(segment: seq<Arg>, flag: string, names: seq<string>, settings: seq<(string, string)>) {
    exists a :: a in segment && Gives(a, flag, names, settings)
  }

  lemma OffersAppend(a: seq<Arg>, b: seq<Arg>, flag: string, names: seq<string>, settings: seq<(string, string)>)
    requires Offers(a, flag, names, settings) || Offers(b, flag, names, settings)
    ensures Offers(a + b, flag, names, settings)
  {
    hide Gives;
  }

  lemma At(segment: seq<Arg>, k: nat, flag: string, names: seq<string>, settings: seq<(string, string)>)
    requires k < |segment| && Gives(segment[k], flag, names, settings)
    ensures Offers(segment, flag, names, settings)
  {
    hide Gives;
  }

  /** What a segment offers is read back from the line. */
  lemma OfferShown(vm: Vm, ports: Ports, plan: Plan, host: Host, k: nat, flag: string, names: seq<string>,
                   settings: seq<(string, string)>)
    requires Build(vm, ports, plan, host).Ok? && CommaFreeInputs(vm, ports) && k < 16
    requires Offers(Segments(vm, ports, plan, host).value[k], flag, names, settings)
    ensures Shown(Line(vm, ports, plan, host), flag, names, settings)
  {
    hide Build, Segments, CommaFreeInputs, Setting, FlagText, Shown, Line;
    SegmentsAre(vm, ports, plan, host);
    var a :| a in Segments(vm, ports, plan, host).value[k] && Gives(a, flag, names, settings);
    OnLine(vm, ports, plan, host, k, a);
    ArgIsShown(vm, ports, plan, host, a, names, settings);
  }

  /** A flag and a value pushed as they are. */
  lemma RawShown(vm: Vm, ports: Ports, plan: Plan, host: Host, k: nat, flag: string, value: string)
    requires Build(vm, ports, plan, host).Ok? && k < 16
    requires Raw(flag, value) in Segments(vm, ports, plan, host).value[k]
    ensures Has(Line(vm, ports, plan, host), flag, value)
  {
    hide Build, Segments, Line;
    OnLine(vm, ports, plan, host, k, Raw(flag, value));
    SwitchOnLine(vm, ports, plan, host, Raw(flag, value));
  }

  // ---- Machine ---------------------------------------------------------------------------------

  lemma MachineWords(vm: Vm, plan: Plan)
    ensures var cpus := Decimal(if vm.cpu > 0 then vm.cpu else 1);
      && Raw("-name", vm.id) in NameArgs(vm) && Raw("-m", Decimal(vm.memoryMib)) in NameArgs(vm)
      && Raw("-smp", cpus + ",sockets=1,cores=" + cpus + ",threads=1") in NameArgs(vm)
  {
    hide Decimal;
    var cpus := Decimal(if vm.cpu > 0 then vm.cpu else 1);
    assert NameArgs(vm)[0] == Raw("-name", vm.id) && NameArgs(vm)[1] == Raw("-m", Decimal(vm.memoryMib));
    assert NameArgs(vm)[2] == Raw("-smp", cpus + ",sockets=1,cores=" + cpus + ",threads=1");
  }

  /** The machine has the name, the memory and the processors of the record, in one socket. */
  lemma MachineIsAsRecorded(vm: Vm, ports: Ports, plan: Plan, host: Host)
    requires Build(vm, ports, plan, host).Ok? && CommaFreeInputs(vm, ports)
    ensures var line := Line(vm, ports, plan, host);
      var cpus := Decimal(if vm.cpu > 0 then vm.cpu else 1);
      && Has(line, "-name", vm.id) && Has(line, "-m", Decimal(vm.memoryMib))
      && Has(line, "-smp", cpus + ",sockets=1,cores=" + cpus + ",threads=1")
  {
    hide Build, Segments, CommaFreeInputs, Shown, Line, Flatten, Offers;
    hide FirmwareArgs, DiskArgs, IothreadArgs, CdArgs, UnattendArgs, TpmArgs, SerialArgs, TuningFor;
    hide NameArgs, MachineArgs, GpuArgs, NetworkArgs, TunedDevices, KernelArgs;
    hide AgentArgs, SpiceArgs, AudioArgs, DisplayArgs;
    SegmentsAre(vm, ports, plan, host);
    hide Decimal, Has;
    var cpus := Decimal(if vm.cpu > 0 then vm.cpu else 1);
    MachineWords(vm, plan);
    RawShown(vm, ports, plan, host, 0, "-name", vm.id);
    RawShown(vm, ports, plan, host, 0, "-m", Decimal(vm.memoryMib));
    RawShown(vm, ports, plan, host, 0, "-smp", cpus + ",sockets=1,cores=" + cpus + ",threads=1");
  }

  function Board(vm: Vm, plan: Plan): string {
    MachineArgs(vm, plan)[0].value
  }

  function Cpu(vm: Vm, plan: Plan): string {
    MachineArgs(vm, plan)[2].value
  }

  /** A tuned launch of an x86 Windows guest on KVM. */
  predicate Enlightened(vm: Vm, plan: Plan) {
    plan.tuned && plan.accelerator == "kvm" && vm.guestOs == "windows" && vm.architecture != "arm64"
  }

  /**
    The board is `virt` on ARM64 and `q35` elsewhere, without an interrupt controller in WHPX, nor a
    HPET for Windows.
   */
  lemma BoardIs(vm: Vm, plan: Plan)
    ensures Board(vm, plan) == if vm.architecture == "arm64" then "virt"
                               else if plan.accelerator == "whpx" then "q35,kernel-irqchip=off"
                               else if Enlightened(vm, plan) then "q35,hpet=off" else "q35"
  {
    assert "q35" + ",hpet=off" == "q35,hpet=off" && "q35" + "" == "q35" && "virt" + "" == "virt";
    assert "q35,kernel-irqchip=off" + "" == "q35,kernel-irqchip=off";
  }

  /** Only emulation and WHPX do not pass the host's processor on; Windows on KVM gets its enlightenments. */
  lemma CpuIs(vm: Vm, plan: Plan)
    ensures if plan.accelerator == "tcg" then Cpu(vm, plan) == "max"
            else if plan.accelerator == "whpx" then "qemu64," <= Cpu(vm, plan)
            else if Enlightened(vm, plan) then Cpu(vm, plan) == "host," + KVM_HYPERV_FLAGS
            else Cpu(vm, plan) == "host"
  {
    if Enlightened(vm, plan) {
      assert plan.accelerator[0] == 'k' && "tcg"[0] != 'k' && "whpx"[0] != 'k';
      CpuForWindows(vm, plan);
    } else {
      CpuForOthers(vm, plan);
    }
  }

  lemma CpuForWindows(vm: Vm, plan: Plan)
    requires Enlightened(vm, plan)
    ensures Cpu(vm, plan) == "host," + KVM_HYPERV_FLAGS
  {
  }

  lemma CpuForOthers(vm: Vm, plan: Plan)
    requires !Enlightened(vm, plan)
    ensures if plan.accelerator == "tcg" then Cpu(vm, plan) == "max"
            else if plan.accelerator == "whpx" then "qemu64," <= Cpu(vm, plan) else Cpu(vm, plan) == "host"
  {
    if plan.accelerator == "whpx" {
      assert Cpu(vm, plan)[..7] == "qemu64,";
    }
  }

  lemma MachineArgsAre(vm: Vm, plan: Plan)
    ensures var args := MachineArgs(vm, plan);
      && Raw("-machine", Board(vm, plan)) in args && Raw("-cpu", Cpu(vm, plan)) in args
      && Raw("-accel", if plan.accelerator == "tcg" then "tcg,thread=multi" else plan.accelerator) in args
  {
    var args := MachineArgs(vm, plan);
    assert args[0].flag == "-machine" && args[2].flag == "-cpu";
    assert args[1] == Raw("-accel", if plan.accelerator == "tcg" then "tcg,thread=multi" else plan.accelerator);
  }

  /** The accelerator is the plan's, and the board and the processor go with it. */
  lemma AcceleratorIsThePlans(vm: Vm, ports: Ports, plan: Plan, host: Host)
    requires Build(vm, ports, plan, host).Ok? && CommaFreeInputs(vm, ports)
    ensures var line := Line(vm, ports, plan, host);
      && Has(line, "-accel", if plan.accelerator == "tcg" then "tcg,thread=multi" else plan.accelerator)
      && Has(line, "-machine", if vm.architecture == "arm64" then "virt"
                               else if plan.accelerator == "whpx" then "q35,kernel-irqchip=off"
                               else if Enlightened(vm, plan) then "q35,hpet=off" else "q35")
      && (exists cpu :: Has(line, "-cpu", cpu)
                        && (if plan.accelerator == "tcg" then cpu == "max"
                            else if plan.accelerator == "whpx" then "qemu64," <= cpu
                            else if Enlightened(vm, plan) then cpu == "host," + KVM_HYPERV_FLAGS
                            else cpu == "host"))
  {
    hide Build, Segments, CommaFreeInputs, Shown, Line, Flatten, Offers;
    hide FirmwareArgs, DiskArgs, IothreadArgs, CdArgs, UnattendArgs, TpmArgs, SerialArgs, TuningFor;
    hide NameArgs, MachineArgs, GpuArgs, NetworkArgs, TunedDevices, KernelArgs;
    hide AgentArgs, SpiceArgs, AudioArgs, DisplayArgs;
    SegmentsAre(vm, ports, plan, host);
    hide Has, Board, Cpu, Enlightened;
    BoardIs(vm, plan);
    CpuIs(vm, plan);
    MachineArgsAre(vm, plan);
    RawShown(vm, ports, plan, host, 1, "-machine", Board(vm, plan));
    RawShown(vm, ports, plan, host, 1, "-accel",
             if plan.accelerator == "tcg" then "tcg,thread=multi" else plan.accelerator);
    RawShown(vm, ports, plan, host, 1, "-cpu", Cpu(vm, plan));
  }

  // ---- Firmware and pointer --------------------------------------------------------------------

  lemma PflashOffers(uefi: Uefi)
    ensures Offers(PflashArgs(uefi), "-drive", [],
                   [("if", "pflash"), ("unit", "0"), ("readonly", "on"), ("file", uefi.code)])
    ensures Offers(PflashArgs(uefi), "-drive", [], [("if", "pflash"), ("unit", "1"), ("file", uefi.vars)])
    ensures uefi.smm ==>
      Raw("-machine", "smm=on") in PflashArgs(uefi)
      && Raw("-global", "driver=cfi.pflash01,property=secure,value=on") in PflashArgs(uefi)
  {
    var args := PflashArgs(uefi);
    At(args, |args| - 2, "-drive", [], [("if", "pflash"), ("unit", "0"), ("readonly", "on"), ("file", uefi.code)]);
    At(args, |args| - 1, "-drive", [], [("if", "pflash"), ("unit", "1"), ("file", uefi.vars)]);
    if uefi.smm {
      assert args[0] == Raw("-machine", "smm=on");
      assert args[1] == Raw("-global", "driver=cfi.pflash01,property=secure,value=on");
    }
  }

  lemma FirmwareOffers(vm: Vm, ports: Ports, plan: Plan, host: Host)
    requires FirmwareArgs(vm, ports, plan, host).Ok? && ports.uefi.Some?
    requires vm.architecture == "arm64" ==> plan.uefiVars
    ensures var args := FirmwareArgs(vm, ports, plan, host).value;
      && Offers(args, "-drive", [],
                [("if", "pflash"), ("unit", "0"), ("readonly", "on"), ("file", ports.uefi.value.code)])
      && Offers(args, "-drive", [], [("if", "pflash"), ("unit", "1"), ("file", ports.uefi.value.vars)])
      && (ports.uefi.value.smm ==>
          Raw("-machine", "smm=on") in args && Raw("-global", "driver=cfi.pflash01,property=secure,value=on") in args)
  {
    hide PflashArgs, ValidUefi, ArmUsb, Pointer, Offers;
    var pflash := PflashArgs(ports.uefi.value);
    var rest := if vm.architecture == "arm64" then ArmUsb() else Pointer(plan);
    PflashOffers(ports.uefi.value);
    OffersAppend(pflash, rest, "-drive", [],
                 [("if", "pflash"), ("unit", "0"), ("readonly", "on"), ("file", ports.uefi.value.code)]);
    OffersAppend(pflash, rest, "-drive", [], [("if", "pflash"), ("unit", "1"), ("file", ports.uefi.value.vars)]);
    assert FirmwareArgs(vm, ports, plan, host).value == pflash + rest;
  }

  /**
    A guest with a UEFI pair boots from it, and keeps its variables: in every plan, or on ARM64
    in every plan that keeps them.
   */
  lemma UefiIsThere(vm: Vm, ports: Ports, plan: Plan, host: Host)
    requires Build(vm, ports, plan, host).Ok? && CommaFreeInputs(vm, ports)
    requires ports.uefi.Some? && (vm.architecture == "arm64" ==> plan.uefiVars)
    ensures var line := Line(vm, ports, plan, host);
      && Shown(line, "-drive", [],
               [("if", "pflash"), ("unit", "0"), ("readonly", "on"), ("file", ports.uefi.value.code)])
      && Shown(line, "-drive", [], [("if", "pflash"), ("unit", "1"), ("file", ports.uefi.value.vars)])
      && (ports.uefi.value.smm ==>
            && Has(line, "-machine", "smm=on")
            && Has(line, "-global", "driver=cfi.pflash01,property=secure,value=on"))
  {
    hide Build, Segments, CommaFreeInputs, Shown, Line, Flatten, Offers;
    hide FirmwareArgs, DiskArgs, IothreadArgs, CdArgs, UnattendArgs, TpmArgs, SerialArgs, TuningFor;
    hide NameArgs, MachineArgs, GpuArgs, NetworkArgs, TunedDevices, KernelArgs;
    hide AgentArgs, SpiceArgs, AudioArgs, DisplayArgs;
    SegmentsAre(vm, ports, plan, host);
    FirmwareOffers(vm, ports, plan, host);
    OfferShown(vm, ports, plan, host, 2, "-drive", [],
               [("if", "pflash"), ("unit", "0"), ("readonly", "on"), ("file", ports.uefi.value.code)]);
    OfferShown(vm, ports, plan, host, 2, "-drive", [],
               [("if", "pflash"), ("unit", "1"), ("file", ports.uefi.value.vars)]);
    if ports.uefi.value.smm {
      RawShown(vm, ports, plan, host, 2, "-machine", "smm=on");
      RawShown(vm, ports, plan, host, 2, "-global", "driver=cfi.pflash01,property=secure,value=on");
    }
  }

  lemma BiosIsPushed(vm: Vm, ports: Ports, plan: Plan, host: Host)
    requires FirmwareArgs(vm, ports, plan, host).Ok?
    requires vm.architecture == "arm64" && !(ports.uefi.Some? && plan.uefiVars)
    ensures host.firmware.Some? && Raw("-bios", host.firmware.value) in FirmwareArgs(vm, ports, plan, host).value
  {
    hide ArmUsb;
    assert FirmwareArgs(vm, ports, plan, host).value[0] == Raw("-bios", host.firmware.value);
  }

  /** Another ARM64 guest boots from QEMU's own firmware. */
  lemma BiosIsThere(vm: Vm, ports: Ports, plan: Plan, host: Host)
    requires Build(vm, ports, plan, host).Ok? && CommaFreeInputs(vm, ports)
    requires vm.architecture == "arm64" && !(ports.uefi.Some? && plan.uefiVars)
    ensures var line := Line(vm, ports, plan, host);
      host.firmware.Some? && Has(line, "-bios", host.firmware.value)
  {
    hide Build, Segments, CommaFreeInputs, Shown, Line, Flatten, Offers;
    hide FirmwareArgs, DiskArgs, IothreadArgs, CdArgs, UnattendArgs, TpmArgs, SerialArgs, TuningFor;
    hide NameArgs, MachineArgs, GpuArgs, NetworkArgs, TunedDevices, KernelArgs;
    hide AgentArgs, SpiceArgs, AudioArgs, DisplayArgs;
    SegmentsAre(vm, ports, plan, host);
    BiosIsPushed(vm, ports, plan, host);
    RawShown(vm, ports, plan, host, 2, "-bios", host.firmware.value);
  }

  lemma ArmUsbOffers()
    ensures Offers(ArmUsb(), "-device", ["usb-kbd"], []) && Offers(ArmUsb(), "-device", ["usb-tablet"], [])
  {
    At(ArmUsb(), 1, "-device", ["usb-kbd"], []);
    At(ArmUsb(), 2, "-device", ["usb-tablet"], []);
  }

  lemma TabletOffers(plan: Plan)
    requires plan.usbTablet
    ensures Offers(Pointer(plan), "-device", ["usb-tablet"], [])
  {
    At(Pointer(plan), 1, "-device", ["usb-tablet"], []);
  }

  lemma PointerOffers(vm: Vm, ports: Ports, plan: Plan, host: Host)
    requires FirmwareArgs(vm, ports, plan, host).Ok?
    ensures var args := FirmwareArgs(vm, ports, plan, host).value;
      && (vm.architecture == "arm64" ==> Offers(args, "-device", ["usb-kbd"], []))
      && (vm.architecture == "arm64" || plan.usbTablet ==> Offers(args, "-device", ["usb-tablet"], []))
  {
    hide PflashArgs, ValidUefi, ArmUsb, Pointer, Offers;
    var pflash := if ports.uefi.Some? then PflashArgs(ports.uefi.value) else [];
    if vm.architecture == "arm64" {
      var before := if ports.uefi.Some? && plan.uefiVars then pflash else [Raw("-bios", host.firmware.value)];
      ArmUsbOffers();
      OffersAppend(before, ArmUsb(), "-device", ["usb-kbd"], []);
      OffersAppend(before, ArmUsb(), "-device", ["usb-tablet"], []);
    } else if plan.usbTablet {
      TabletOffers(plan);
      OffersAppend(pflash, Pointer(plan), "-device", ["usb-tablet"], []);
    }
  }

  /** An ARM64 guest always has a keyboard and a pointer; another has the tablet when the plan has it. */
  lemma PointerIsThere(vm: Vm, ports: Ports, plan: Plan, host: Host)
    requires Build(vm, ports, plan, host).Ok? && CommaFreeInputs(vm, ports)
    ensures var line := Line(vm, ports, plan, host);
      && (vm.architecture == "arm64" ==> Shown(line, "-device", ["usb-kbd"], []))
      && (vm.architecture == "arm64" || plan.usbTablet ==> Shown(line, "-device", ["usb-tablet"], []))
  {
    hide Build, Segments, CommaFreeInputs, Shown, Line, Flatten, Offers;
    hide FirmwareArgs, DiskArgs, IothreadArgs, CdArgs, UnattendArgs, TpmArgs, SerialArgs, TuningFor;
    hide NameArgs, MachineArgs, GpuArgs, NetworkArgs, TunedDevices, KernelArgs;
    hide AgentArgs, SpiceArgs, AudioArgs, DisplayArgs;
    SegmentsAre(vm, ports, plan, host);
    PointerOffers(vm, ports, plan, host);
    if vm.architecture == "arm64" {
      OfferShown(vm, ports, plan, host, 2, "-device", ["usb-kbd"], []);
    }
    if vm.architecture == "arm64" || plan.usbTablet {
      OfferShown(vm, ports, plan, host, 2, "-device", ["usb-tablet"], []);
    }
  }

  // ---- Disks -----------------------------------------------------------------------------------

  lemma DriveOptionsAre(t: Tuning)
    ensures Plain.Pair("cache", "writeback") in DriveOptions(t) && Plain.Pair("discard", "unmap") in DriveOptions(t)
  {
    assert DriveOptions(t)[0] == Plain.Pair("cache", "writeback")
      && DriveOptions(t)[1] == Plain.Pair("discard", "unmap");
  }

  lemma DriveGives(path: string, t: Tuning)
    ensures Gives(DiskDrive(path, t), "-drive", [],
                  [("file", path), ("if", "none"), ("id", "virtua-disk0"), ("format", "qcow2"),
                   ("cache", "writeback"), ("discard", "unmap")])
  {
    hide DriveOptions;
    var a := DiskDrive(path, t);
    DriveOptionsAre(t);
    assert Plain.Pair("file", path) in a.before + a.after && Plain.Pair("if", "none") in a.before + a.after;
    assert a.after[0] == Plain.Pair("format", "qcow2");
  }

  lemma DriveIsOffered(vm: Vm, t: Tuning)
    ensures if vm.diskBus !in {"nvme", "sata"} && vm.architecture != "arm64" && !t.iothread
            then Offers(DiskArgs(vm, t), "-drive", [],
                        [("file", vm.diskPath), ("if", "virtio"), ("format", "qcow2"), ("cache", "writeback"),
                         ("discard", "unmap")])
            else Offers(DiskArgs(vm, t), "-drive", [],
                        [("file", vm.diskPath), ("if", "none"), ("id", "virtua-disk0"), ("format", "qcow2"),
                         ("cache", "writeback"), ("discard", "unmap")])
  {
    hide DriveOptions, VirtioRefs, DiskDrive;
    var args := DiskArgs(vm, t);
    DriveOptionsAre(t);
    if vm.diskBus !in {"nvme", "sata"} && vm.architecture != "arm64" && !t.iothread {
      var b := args[0].before;
      assert b[0] == Plain.Pair("file", vm.diskPath) && b[1] == Plain.Pair("if", "virtio")
        && b[2] == Plain.Pair("format", "qcow2");
      At(args, 0, "-drive", [],
         [("file", vm.diskPath), ("if", "virtio"), ("format", "qcow2"), ("cache", "writeback"), ("discard", "unmap")]);
    } else {
      DriveGives(vm.diskPath, t);
      At(args, 0, "-drive", [],
         [("file", vm.diskPath), ("if", "none"), ("id", "virtua-disk0"), ("format", "qcow2"), ("cache", "writeback"),
          ("discard", "unmap")]);
    }
  }

  lemma NvmeIsOffered(vm: Vm, t: Tuning)
    requires vm.diskBus == "nvme"
    ensures Offers(DiskArgs(vm, t), "-device", ["nvme"], [("drive", "virtua-disk0"), ("serial", "virtua-disk0")])
  {
    hide DriveOptions, DiskDrive;
    At(DiskArgs(vm, t), 1, "-device", ["nvme"], [("drive", "virtua-disk0"), ("serial", "virtua-disk0")]);
  }

  lemma SataDiskGives(vm: Vm, t: Tuning)
    requires vm.diskBus == "sata"
    ensures |DiskArgs(vm, t)| == 3
    ensures Gives(DiskArgs(vm, t)[2], "-device", ["ide-hd"], [("drive", "virtua-disk0"), ("bus", "virtua-ahci.0")])
  {
    hide DriveOptions, DiskDrive;
    var a := DiskArgs(vm, t)[2];
    assert Name(Ahci) + ".0" == "virtua-ahci.0";
    assert a.refs[0] == Refers(DriveKey, Disk0) && a.refs[1] == OnBus(Ahci);
  }

  lemma SataIsOffered(vm: Vm, t: Tuning)
    requires vm.diskBus == "sata"
    ensures Offers(DiskArgs(vm, t), "-device", ["ich9-ahci"], [("id", "virtua-ahci")])
    ensures Offers(DiskArgs(vm, t), "-device", ["ide-hd"], [("drive", "virtua-disk0"), ("bus", "virtua-ahci.0")])
  {
    hide DriveOptions, DiskDrive;
    At(DiskArgs(vm, t), 1, "-device", ["ich9-ahci"], [("id", "virtua-ahci")]);
    hide DiskArgs;
    SataDiskGives(vm, t);
    At(DiskArgs(vm, t), 2, "-device", ["ide-hd"], [("drive", "virtua-disk0"), ("bus", "virtua-ahci.0")]);
  }

  lemma VirtioIsOffered(vm: Vm, t: Tuning)
    requires vm.diskBus !in {"nvme", "sata"} && (vm.architecture == "arm64" || t.iothread)
    ensures Offers(DiskArgs(vm, t), "-device", ["virtio-blk-pci"],
                   if t.iothread then [("drive", "virtua-disk0"), ("iothread", "virtua-io0")]
                     else [("drive", "virtua-disk0")])
  {
    hide DriveOptions, DiskDrive, VirtioRefs;
    VirtioSettings(t);
    At(DiskArgs(vm, t), 1, "-device", ["virtio-blk-pci"],
       if t.iothread then [("drive", "virtua-disk0"), ("iothread", "virtua-io0")] else [("drive", "virtua-disk0")]);
  }

  lemma VirtioSettings(t: Tuning)
    ensures Refers(DriveKey, Disk0) in VirtioRefs(t) && (t.iothread ==> Refers(IothreadKey, Io0) in VirtioRefs(t))
  {
  }

  lemma IothreadIsOffered(t: Tuning)
    requires t.iothread
    ensures Offers(IothreadArgs(t), "-object", ["iothread"], [("id", "virtua-io0")])
  {
    At(IothreadArgs(t), 0, "-object", ["iothread"], [("id", "virtua-io0")]);
  }

  lemma ThreadsAre(host: Host, plan: Plan)
    ensures TuningFor(host.os, plan).iothread <==> plan.tuned && host.os in {"linux", "macos"}
  {
  }

  lemma StorageShown(vm: Vm, ports: Ports, plan: Plan, host: Host, flag: string, names: seq<string>,
                     settings: seq<(string, string)>)
    requires Build(vm, ports, plan, host).Ok? && CommaFreeInputs(vm, ports)
    requires var t := TuningFor(host.os, plan);
      Offers(IothreadArgs(t), flag, names, settings) || Offers(DiskArgs(vm, t), flag, names, settings)
    ensures Shown(Line(vm, ports, plan, host), flag, names, settings)
  {
    hide Build, Segments, CommaFreeInputs, Shown, Line, Flatten, Offers;
    hide FirmwareArgs, DiskArgs, IothreadArgs, CdArgs, UnattendArgs, TpmArgs, SerialArgs, TuningFor;
    hide NameArgs, MachineArgs, GpuArgs, NetworkArgs, TunedDevices, KernelArgs;
    hide AgentArgs, SpiceArgs, AudioArgs, DisplayArgs;
    SegmentsAre(vm, ports, plan, host);
    var t := TuningFor(host.os, plan);
    OffersAppend(IothreadArgs(t), DiskArgs(vm, t), flag, names, settings);
    OfferShown(vm, ports, plan, host, 3, flag, names, settings);
  }

  /** The disk of the record is on the line, in its own drive when it has a device. */
  lemma DiskIsThere(vm: Vm, ports: Ports, plan: Plan, host: Host)
    requires Build(vm, ports, plan, host).Ok? && CommaFreeInputs(vm, ports)
    ensures var line := Line(vm, ports, plan, host);
      if vm.diskBus !in {"nvme", "sata"} && vm.architecture != "arm64" && !(plan.tuned && host.os in {"linux", "macos"})
      then Shown(line, "-drive", [],
                 [("file", vm.diskPath), ("if", "virtio"), ("format", "qcow2"), ("cache", "writeback"),
                  ("discard", "unmap")])
      else Shown(line, "-drive", [],
                 [("file", vm.diskPath), ("if", "none"), ("id", "virtua-disk0"), ("format", "qcow2"),
                  ("cache", "writeback"), ("discard", "unmap")])
  {
    hide Build, Segments, CommaFreeInputs, Shown, Line, Flatten, Offers;
    hide FirmwareArgs, DiskArgs, IothreadArgs, CdArgs, UnattendArgs, TpmArgs, SerialArgs, TuningFor;
    hide NameArgs, MachineArgs, GpuArgs, NetworkArgs, TunedDevices, KernelArgs;
    hide AgentArgs, SpiceArgs, AudioArgs, DisplayArgs;
    SegmentsAre(vm, ports, plan, host);
    var t := TuningFor(host.os, plan);
    ThreadsAre(host, plan);
    DriveIsOffered(vm, t);
    if vm.diskBus !in {"nvme", "sata"} && vm.architecture != "arm64" && !t.iothread {
      StorageShown(vm, ports, plan, host, "-drive", [],
                   [("file", vm.diskPath), ("if", "virtio"), ("format", "qcow2"), ("cache", "writeback"),
                    ("discard", "unmap")]);
    } else {
      StorageShown(vm, ports, plan, host, "-drive", [],
                   [("file", vm.diskPath), ("if", "none"), ("id", "virtua-disk0"), ("format", "qcow2"),
                    ("cache", "writeback"), ("discard", "unmap")]);
    }
  }

  /** That device is on the bus of the record, with a thread of its own when the plan is tuned for it. */
  lemma DiskIsAttached(vm: Vm, ports: Ports, plan: Plan, host: Host)
    requires Build(vm, ports, plan, host).Ok? && CommaFreeInputs(vm, ports)
    ensures var line := Line(vm, ports, plan, host);
      var threads := plan.tuned && host.os in {"linux", "macos"};
      && (vm.diskBus == "nvme" ==>
            Shown(line, "-device", ["nvme"], [("drive", "virtua-disk0"), ("serial", "virtua-disk0")]))
      && (vm.diskBus == "sata" ==>
            && Shown(line, "-device", ["ich9-ahci"], [("id", "virtua-ahci")])
            && Shown(line, "-device", ["ide-hd"], [("drive", "virtua-disk0"), ("bus", "virtua-ahci.0")]))
      && (vm.diskBus !in {"nvme", "sata"} && threads ==>
            && Shown(line, "-object", ["iothread"], [("id", "virtua-io0")])
            && Shown(line, "-device", ["virtio-blk-pci"], [("drive", "virtua-disk0"), ("iothread", "virtua-io0")]))
      && (vm.diskBus !in {"nvme", "sata"} && vm.architecture == "arm64" && !threads ==>
            Shown(line, "-device", ["virtio-blk-pci"], [("drive", "virtua-disk0")]))
  {
    hide Build, Segments, CommaFreeInputs, Shown, Line, Flatten, Offers;
    hide FirmwareArgs, DiskArgs, IothreadArgs, CdArgs, UnattendArgs, TpmArgs, SerialArgs, TuningFor;
    hide NameArgs, MachineArgs, GpuArgs, NetworkArgs, TunedDevices, KernelArgs;
    hide AgentArgs, SpiceArgs, AudioArgs, DisplayArgs;
    SegmentsAre(vm, ports, plan, host);
    var t := TuningFor(host.os, plan);
    ThreadsAre(host, plan);
    if vm.diskBus == "nvme" {
      NvmeIsOffered(vm, t);
      StorageShown(vm, ports, plan, host, "-device", ["nvme"], [("drive", "virtua-disk0"), ("serial", "virtua-disk0")]);
    } else if vm.diskBus == "sata" {
      SataIsOffered(vm, t);
      StorageShown(vm, ports, plan, host, "-device", ["ich9-ahci"], [("id", "virtua-ahci")]);
      StorageShown(vm, ports, plan, host, "-device", ["ide-hd"], [("drive", "virtua-disk0"), ("bus", "virtua-ahci.0")]);
    } else if t.iothread {
      IothreadIsOffered(t);
      VirtioIsOffered(vm, t);
      StorageShown(vm, ports, plan, host, "-object", ["iothread"], [("id", "virtua-io0")]);
      StorageShown(vm, ports, plan, host, "-device", ["virtio-blk-pci"],
                   [("drive", "virtua-disk0"), ("iothread", "virtua-io0")]);
    } else if vm.architecture == "arm64" {
      VirtioIsOffered(vm, t);
      StorageShown(vm, ports, plan, host, "-device", ["virtio-blk-pci"], [("drive", "virtua-disk0")]);
    }
  }

  lemma ArmIsoIsOffered(vm: Vm)
    requires vm.isoPath.Some?
    ensures Offers(IsoArgs(vm), "-drive", [],
                   [("file", vm.isoPath.value), ("id", "virtua-cd0"), ("media", "cdrom"), ("readonly", "on")])
    ensures Offers(IsoArgs(vm), "-device", ["usb-storage"],
                   [("drive", "virtua-cd0"), ("removable", "on"), ("bootindex", "0")])
  {
    At(IsoArgs(vm), 0, "-drive", [],
       [("file", vm.isoPath.value), ("id", "virtua-cd0"), ("media", "cdrom"), ("readonly", "on")]);
    BootZero(vm);
    At(IsoArgs(vm), 1, "-device", ["usb-storage"], [("drive", "virtua-cd0"), ("removable", "on"), ("bootindex", "0")]);
  }

  lemma BootZero(vm: Vm)
    requires vm.isoPath.Some?
    ensures 0 in Boots(IsoArgs(vm)[1]) && Decimal(0) == "0"
  {
    var a := IsoArgs(vm)[1];
    assert a.after[1] == BootIndex(0);
    assert BootIndex(0) in a.before + a.after;
  }

  lemma ArmDriverIsOffered(vm: Vm)
    requires vm.driverIsoPath.Some?
    ensures Offers(DriverArgs(vm), "-drive", [],
                   [("file", vm.driverIsoPath.value), ("id", "virtua-cd1"), ("media", "cdrom"), ("readonly", "on")])
    ensures Offers(DriverArgs(vm), "-device", ["usb-storage"], [("drive", "virtua-cd1"), ("removable", "on")])
  {
    At(DriverArgs(vm), 0, "-drive", [],
       [("file", vm.driverIsoPath.value), ("id", "virtua-cd1"), ("media", "cdrom"), ("readonly", "on")]);
    At(DriverArgs(vm), 1, "-device", ["usb-storage"], [("drive", "virtua-cd1"), ("removable", "on")]);
  }

  lemma CdDriverIsOffered(vm: Vm)
    requires CdArgs(vm).Ok? && vm.architecture != "arm64" && vm.driverIsoPath.Some?
    ensures Offers(CdArgs(vm).value, "-drive", [],
                   [("file", vm.driverIsoPath.value), ("if", "ide"), ("index", "3"), ("media", "cdrom"),
                    ("readonly", "on")])
  {
    At(CdArgs(vm).value, |CdArgs(vm).value| - 1, "-drive", [],
       [("file", vm.driverIsoPath.value), ("if", "ide"), ("index", "3"), ("media", "cdrom"), ("readonly", "on")]);
  }

  lemma CdromIsPushed(vm: Vm)
    requires CdArgs(vm).Ok? && vm.architecture != "arm64" && vm.isoPath.Some?
    ensures Raw("-cdrom", vm.isoPath.value) in CdArgs(vm).value && Raw("-boot", "order=dc,menu=on") in CdArgs(vm).value
  {
    assert CdArgs(vm).value[0] == Raw("-cdrom", vm.isoPath.value)
      && CdArgs(vm).value[1] == Raw("-boot", "order=dc,menu=on");
  }

  lemma ArmCdsAre(vm: Vm)
    requires CdArgs(vm).Ok? && vm.architecture == "arm64"
    ensures CdArgs(vm).value == IsoArgs(vm) + DriverArgs(vm)
  {
    hide IsoArgs, DriverArgs;
  }

  /** The discs of an ARM64 guest. */
  lemma ArmDiscsAreThere(vm: Vm, ports: Ports, plan: Plan, host: Host)
    requires Build(vm, ports, plan, host).Ok? && CommaFreeInputs(vm, ports)
    requires vm.architecture == "arm64"
    ensures var line := Line(vm, ports, plan, host);
      && (vm.isoPath.Some? ==>
            && Shown(line, "-drive", [],
                     [("file", vm.isoPath.value), ("id", "virtua-cd0"), ("media", "cdrom"), ("readonly", "on")])
            && Shown(line, "-device", ["usb-storage"],
                     [("drive", "virtua-cd0"), ("removable", "on"), ("bootindex", "0")]))
      && (vm.driverIsoPath.Some? ==>
            && Shown(line, "-drive", [],
                     [("file", vm.driverIsoPath.value), ("id", "virtua-cd1"), ("media", "cdrom"), ("readonly", "on")])
            && Shown(line, "-device", ["usb-storage"], [("drive", "virtua-cd1"), ("removable", "on")]))
  {
    hide Build, Segments, CommaFreeInputs, Shown, Line, Flatten, Offers;
    hide FirmwareArgs, DiskArgs, IothreadArgs, CdArgs, UnattendArgs, TpmArgs, SerialArgs, TuningFor;
    hide NameArgs, MachineArgs, GpuArgs, NetworkArgs, TunedDevices, KernelArgs;
    hide AgentArgs, SpiceArgs, AudioArgs, DisplayArgs;
    SegmentsAre(vm, ports, plan, host);
    hide IsoArgs, DriverArgs;
    ArmCdsAre(vm);
    var iso, driver := IsoArgs(vm), DriverArgs(vm);
    if vm.isoPath.Some? {
      ArmIsoIsOffered(vm);
      OffersAppend(iso, driver, "-drive", [],
                   [("file", vm.isoPath.value), ("id", "virtua-cd0"), ("media", "cdrom"), ("readonly", "on")]);
      OffersAppend(iso, driver, "-device", ["usb-storage"],
                   [("drive", "virtua-cd0"), ("removable", "on"), ("bootindex", "0")]);
      OfferShown(vm, ports, plan, host, 4, "-drive", [],
                 [("file", vm.isoPath.value), ("id", "virtua-cd0"), ("media", "cdrom"), ("readonly", "on")]);
      OfferShown(vm, ports, plan, host, 4, "-device", ["usb-storage"],
                 [("drive", "virtua-cd0"), ("removable", "on"), ("bootindex", "0")]);
    }
    if vm.driverIsoPath.Some? {
      ArmDriverIsOffered(vm);
      OffersAppend(iso, driver, "-drive", [],
                   [("file", vm.driverIsoPath.value), ("id", "virtua-cd1"), ("media", "cdrom"), ("readonly", "on")]);
      OffersAppend(iso, driver, "-device", ["usb-storage"], [("drive", "virtua-cd1"), ("removable", "on")]);
      OfferShown(vm, ports, plan, host, 4, "-drive", [],
                 [("file", vm.driverIsoPath.value), ("id", "virtua-cd1"), ("media", "cdrom"), ("readonly", "on")]);
      OfferShown(vm, ports, plan, host, 4, "-device", ["usb-storage"], [("drive", "virtua-cd1"), ("removable", "on")]);
    }
  }

  /**
    The installer and the driver disc are there: on ARM64 as USB discs, the installer first in
    the boot order; else on the IDE bus, the installer before the disk.
   */
  lemma DiscsAreThere(vm: Vm, ports: Ports, plan: Plan, host: Host)
    requires Build(vm, ports, plan, host).Ok? && CommaFreeInputs(vm, ports)
    ensures var line := Line(vm, ports, plan, host);
      && (vm.architecture == "arm64" && vm.isoPath.Some? ==>
            && Shown(line, "-drive", [],
                     [("file", vm.isoPath.value), ("id", "virtua-cd0"), ("media", "cdrom"), ("readonly", "on")])
            && Shown(line, "-device", ["usb-storage"],
                     [("drive", "virtua-cd0"), ("removable", "on"), ("bootindex", "0")]))
      && (vm.architecture == "arm64" && vm.driverIsoPath.Some? ==>
            && Shown(line, "-drive", [],
                     [("file", vm.driverIsoPath.value), ("id", "virtua-cd1"), ("media", "cdrom"), ("readonly", "on")])
            && Shown(line, "-device", ["usb-storage"], [("drive", "virtua-cd1"), ("removable", "on")]))
      && (vm.architecture != "arm64" && vm.isoPath.Some? ==>
            Has(line, "-cdrom", vm.isoPath.value) && Has(line, "-boot", "order=dc,menu=on"))
      && (vm.architecture != "arm64" && vm.driverIsoPath.Some? ==>
            Shown(line, "-drive", [],
                  [("file", vm.driverIsoPath.value), ("if", "ide"), ("index", "3"), ("media", "cdrom"),
                   ("readonly", "on")]))
  {
    hide Build, Segments, CommaFreeInputs, Shown, Line, Flatten, Offers;
    hide FirmwareArgs, DiskArgs, IothreadArgs, CdArgs, UnattendArgs, TpmArgs, SerialArgs, TuningFor;
    hide NameArgs, MachineArgs, GpuArgs, NetworkArgs, TunedDevices, KernelArgs;
    hide AgentArgs, SpiceArgs, AudioArgs, DisplayArgs;
    SegmentsAre(vm, ports, plan, host);
    if vm.architecture == "arm64" {
      ArmDiscsAreThere(vm, ports, plan, host);
    } else {
      if vm.isoPath.Some? {
        CdromIsPushed(vm);
        RawShown(vm, ports, plan, host, 4, "-cdrom", vm.isoPath.value);
        RawShown(vm, ports, plan, host, 4, "-boot", "order=dc,menu=on");
      }
      if vm.driverIsoPath.Some? {
        CdDriverIsOffered(vm);
        OfferShown(vm, ports, plan, host, 4, "-drive", [],
                   [("file", vm.driverIsoPath.value), ("if", "ide"), ("index", "3"), ("media", "cdrom"),
                    ("readonly", "on")]);
      }
    }
  }

  // ---- Graphics, network and the rest ----------------------------------------------------------

  /** The graphics device of a model. */
  function Graphics(vm: Vm, plan: Plan): string {
    match plan.gpuModel
    case "std" => if vm.architecture == "arm64" then "ramfb" else "VGA"
    case "qxl" => "qxl-vga"
    case "cirrus" => "cirrus-vga"
    case _ => if vm.architecture == "arm64" then "virtio-gpu-pci" else "virtio-vga"
  }

  lemma GraphicsOffers(vm: Vm, plan: Plan)
    ensures Offers(GpuArgs(vm, plan), "-device", [Graphics(vm, plan)], [])
  {
    At(GpuArgs(vm, plan), 0, "-device", [Graphics(vm, plan)], []);
  }

  /** The graphics are the plan's. */
  lemma GraphicsAreThePlans(vm: Vm, ports: Ports, plan: Plan, host: Host)
    requires Build(vm, ports, plan, host).Ok? && CommaFreeInputs(vm, ports)
    ensures var line := Line(vm, ports, plan, host);
      Shown(line, "-device", [Graphics(vm, plan)], [])
  {
    hide Build, Segments, CommaFreeInputs, Shown, Line, Flatten, Offers;
    hide FirmwareArgs, DiskArgs, IothreadArgs, CdArgs, UnattendArgs, TpmArgs, SerialArgs, TuningFor;
    hide NameArgs, MachineArgs, GpuArgs, NetworkArgs, TunedDevices, KernelArgs;
    hide AgentArgs, SpiceArgs, AudioArgs, DisplayArgs;
    SegmentsAre(vm, ports, plan, host);
    GraphicsOffers(vm, plan);
    OfferShown(vm, ports, plan, host, 5, "-device", [Graphics(vm, plan)], []);
  }

  /** The network card of a guest: one its drivers know. */
  function Card(vm: Vm): string {
    if vm.networkModel == "e1000" || vm.networkModel == "rtl8139" then vm.networkModel
    else if vm.architecture == "amd64" then "e1000"
    else if vm.architecture == "arm64" && vm.guestOs != "windows" then "virtio-net-device"
    else "virtio-net-pci"
  }

  /** On macOS the two vmnet modes, else the user network. */
  function Backend(vm: Vm, host: Host): string {
    if host.os == "macos" && vm.network in {"vmnet-shared", "vmnet-bridged"} then vm.network else "user"
  }

  lemma CardOffers(vm: Vm, ports: Ports, host: Host)
    requires vm.network != "isolated"
    ensures Offers(NetworkArgs(vm, ports, host), "-device", [Card(vm)], [("netdev", "net0")])
  {
    At(NetworkArgs(vm, ports, host), 1, "-device", [Card(vm)], [("netdev", "net0")]);
  }

  lemma BackendOffers(vm: Vm, ports: Ports, host: Host)
    requires vm.network != "isolated"
    ensures Offers(NetworkArgs(vm, ports, host), "-netdev", [Backend(vm, host)], [("id", "net0")])
  {
    hide Decimal;
    At(NetworkArgs(vm, ports, host), 0, "-netdev", [Backend(vm, host)], [("id", "net0")]);
  }

  lemma ForwardOffers(vm: Vm, ports: Ports, host: Host)
    requires vm.network != "isolated" && Backend(vm, host) == "user" && ports.rdpForward.Some?
    ensures Offers(NetworkArgs(vm, ports, host), "-netdev", ["user"],
                   [("hostfwd", "tcp:" + ports.rdpForward.value.0 + ":" + Decimal(ports.rdpForward.value.1)
                     + "-:3389")])
  {
    hide Decimal;
    At(NetworkArgs(vm, ports, host), 0, "-netdev", ["user"],
       [("hostfwd", "tcp:" + ports.rdpForward.value.0 + ":" + Decimal(ports.rdpForward.value.1) + "-:3389")]);
  }

  /**
    A guest that is not isolated has a network card on the back end its record asks for, with
    the RDP forward on the user network.
   */
  lemma NetworkIsAttached(vm: Vm, ports: Ports, plan: Plan, host: Host)
    requires Build(vm, ports, plan, host).Ok? && CommaFreeInputs(vm, ports)
    requires vm.network != "isolated"
    ensures var line := Line(vm, ports, plan, host);
      && Shown(line, "-netdev", [Backend(vm, host)], [("id", "net0")])
      && Shown(line, "-device", [Card(vm)], [("netdev", "net0")])
      && (Backend(vm, host) == "user" && ports.rdpForward.Some? ==>
            Shown(line, "-netdev", ["user"],
                  [("hostfwd", "tcp:" + ports.rdpForward.value.0 + ":" + Decimal(ports.rdpForward.value.1)
                    + "-:3389")]))
  {
    hide Build, Segments, CommaFreeInputs, Shown, Line, Flatten, Offers;
    hide FirmwareArgs, DiskArgs, IothreadArgs, CdArgs, UnattendArgs, TpmArgs, SerialArgs, TuningFor;
    hide NameArgs, MachineArgs, GpuArgs, NetworkArgs, TunedDevices, KernelArgs;
    hide AgentArgs, SpiceArgs, AudioArgs, DisplayArgs;
    SegmentsAre(vm, ports, plan, host);
    hide Card, Backend, Decimal;
    CardOffers(vm, ports, host);
    BackendOffers(vm, ports, host);
    OfferShown(vm, ports, plan, host, 6, "-netdev", [Backend(vm, host)], [("id", "net0")]);
    OfferShown(vm, ports, plan, host, 6, "-device", [Card(vm)], [("netdev", "net0")]);
    if Backend(vm, host) == "user" && ports.rdpForward.Some? {
      ForwardOffers(vm, ports, host);
      OfferShown(vm, ports, plan, host, 6, "-netdev", ["user"],
                 [("hostfwd", "tcp:" + ports.rdpForward.value.0 + ":" + Decimal(ports.rdpForward.value.1) + "-:3389")]);
    }
  }

  lemma AgentOffersFirst(ports: Ports)
    ensures Offers(AgentArgs(ports), "-chardev", ["socket"],
                   [("host", "127.0.0.1"), ("port", Decimal(ports.qgaPort)), ("server", "on"), ("wait", "off"),
                    ("id", "qga0")])
  {
    hide Decimal;
    At(AgentArgs(ports), 0, "-chardev", ["socket"],
       [("host", "127.0.0.1"), ("port", Decimal(ports.qgaPort)), ("server", "on"), ("wait", "off"), ("id", "qga0")]);
  }

  lemma AgentOffersSecond(ports: Ports)
    ensures Offers(AgentArgs(ports), "-device", ["virtserialport"],
                   [("chardev", "qga0"), ("name", "org.qemu.guest_agent.0")])
  {
    hide Decimal;
    At(AgentArgs(ports), 2, "-device", ["virtserialport"], [("chardev", "qga0"), ("name", "org.qemu.guest_agent.0")]);
  }

  lemma AgentOffers(ports: Ports)
    ensures Offers(AgentArgs(ports), "-chardev", ["socket"],
                   [("host", "127.0.0.1"), ("port", Decimal(ports.qgaPort)), ("server", "on"), ("wait", "off"),
                    ("id", "qga0")])
    ensures Offers(AgentArgs(ports), "-device", ["virtserialport"],
                   [("chardev", "qga0"), ("name", "org.qemu.guest_agent.0")])
  {
    hide Offers, AgentArgs;
    AgentOffersFirst(ports);
    AgentOffersSecond(ports);
  }

  lemma DisplayWordsAre(ports: Ports)
    ensures var args := DisplayArgs(ports);
      && Raw("-display", "none") in args
      && Raw("-vnc", "127.0.0.1:" + Decimal(ports.vncDisplay) + ",share=force-shared") in args
      && Raw("-qmp", "tcp:127.0.0.1:" + Decimal(ports.qmpPort) + ",server=on,wait=off") in args
  {
    hide Decimal;
    var args := DisplayArgs(ports);
    assert args[0] == Raw("-display", "none");
    assert args[1] == Raw("-vnc", "127.0.0.1:" + Decimal(ports.vncDisplay) + ",share=force-shared");
    assert args[2] == Raw("-qmp", "tcp:127.0.0.1:" + Decimal(ports.qmpPort) + ",server=on,wait=off");
  }

  /**
    In every plan the VNC console, the QMP control and the guest agent listen on the loopback
    address, on the ports drawn for the VM.
   */
  lemma ControlIsThere(vm: Vm, ports: Ports, plan: Plan, host: Host)
    requires Build(vm, ports, plan, host).Ok? && CommaFreeInputs(vm, ports)
    ensures var line := Line(vm, ports, plan, host);
      && Has(line, "-vnc", "127.0.0.1:" + Decimal(ports.vncDisplay) + ",share=force-shared")
      && Has(line, "-qmp", "tcp:127.0.0.1:" + Decimal(ports.qmpPort) + ",server=on,wait=off")
      && Shown(line, "-chardev", ["socket"],
               [("host", "127.0.0.1"), ("port", Decimal(ports.qgaPort)), ("server", "on"), ("wait", "off"),
                ("id", "qga0")])
      && Shown(line, "-device", ["virtserialport"], [("chardev", "qga0"), ("name", "org.qemu.guest_agent.0")])
  {
    hide Build, Segments, CommaFreeInputs, Shown, Line, Flatten, Offers;
    hide FirmwareArgs, DiskArgs, IothreadArgs, CdArgs, UnattendArgs, TpmArgs, SerialArgs, TuningFor;
    hide NameArgs, MachineArgs, GpuArgs, NetworkArgs, TunedDevices, KernelArgs;
    hide AgentArgs, SpiceArgs, AudioArgs, DisplayArgs;
    SegmentsAre(vm, ports, plan, host);
    hide Decimal, Has;
    AgentOffers(ports);
    DisplayWordsAre(ports);
    RawShown(vm, ports, plan, host, 15, "-vnc", "127.0.0.1:" + Decimal(ports.vncDisplay) + ",share=force-shared");
    RawShown(vm, ports, plan, host, 15, "-qmp", "tcp:127.0.0.1:" + Decimal(ports.qmpPort) + ",server=on,wait=off");
    OfferShown(vm, ports, plan, host, 11, "-chardev", ["socket"],
               [("host", "127.0.0.1"), ("port", Decimal(ports.qgaPort)), ("server", "on"), ("wait", "off"),
                ("id", "qga0")]);
    OfferShown(vm, ports, plan, host, 11, "-device", ["virtserialport"],
               [("chardev", "qga0"), ("name", "org.qemu.guest_agent.0")]);
  }

  lemma SpiceSecretOffersFirst(ports: Ports, plan: Plan)
    requires plan.spice == Secret
    ensures Offers(SpiceArgs(ports, plan), "-object", ["secret"],
                   [("id", "virtua-spice-secret"), ("data", ports.spicePassword)])
  {
    hide Decimal;
    At(SpiceArgs(ports, plan), 0, "-object", ["secret"],
       [("id", "virtua-spice-secret"), ("data", ports.spicePassword)]);
  }

  lemma SpiceSecretOffersSecond(ports: Ports, plan: Plan)
    requires plan.spice == Secret
    ensures Offers(SpiceArgs(ports, plan), "-spice", [],
                   [("port", Decimal(ports.spicePort)), ("addr", "127.0.0.1"), ("disable-ticketing", "off"),
                    ("password-secret", "virtua-spice-secret")])
  {
    hide Decimal;
    At(SpiceArgs(ports, plan), 1, "-spice", [],
       [("port", Decimal(ports.spicePort)), ("addr", "127.0.0.1"), ("disable-ticketing", "off"),
        ("password-secret", "virtua-spice-secret")]);
  }

  lemma SpiceSecretOffers(ports: Ports, plan: Plan)
    requires plan.spice == Secret
    ensures Offers(SpiceArgs(ports, plan), "-object", ["secret"],
                   [("id", "virtua-spice-secret"), ("data", ports.spicePassword)])
    ensures Offers(SpiceArgs(ports, plan), "-spice", [],
                   [("port", Decimal(ports.spicePort)), ("addr", "127.0.0.1"), ("disable-ticketing", "off"),
                    ("password-secret", "virtua-spice-secret")])
  {
    hide Offers, SpiceArgs;
    SpiceSecretOffersFirst(ports, plan);
    SpiceSecretOffersSecond(ports, plan);
  }

  lemma SpiceInlineOffers(ports: Ports, plan: Plan)
    requires plan.spice == Inline
    ensures Offers(SpiceArgs(ports, plan), "-spice", [],
                   [("port", Decimal(ports.spicePort)), ("addr", "127.0.0.1"), ("disable-ticketing", "off"),
                    ("password", ports.spicePassword)])
  {
    hide Decimal;
    var a := SpiceArgs(ports, plan)[0];
    assert a.before[0] == Plain.Pair("port", Decimal(ports.spicePort))
      && a.before[1] == Plain.Pair("addr", "127.0.0.1");
    assert a.before[2] == Plain.Pair("disable-ticketing", "off");
    assert a.before[3] == Plain.Pair("password", ports.spicePassword);
    At(SpiceArgs(ports, plan), 0, "-spice", [],
       [("port", Decimal(ports.spicePort)), ("addr", "127.0.0.1"), ("disable-ticketing", "off"),
        ("password", ports.spicePassword)]);
  }

  /**
    A plan with SPICE has it on the loopback address, with a password: passed as a secret, or,
    for an older QEMU, on the line.
   */
  lemma SpiceIsThere(vm: Vm, ports: Ports, plan: Plan, host: Host)
    requires Build(vm, ports, plan, host).Ok? && CommaFreeInputs(vm, ports)
    ensures var line := Line(vm, ports, plan, host);
      && (plan.spice == Secret ==>
            && Shown(line, "-object", ["secret"], [("id", "virtua-spice-secret"), ("data", ports.spicePassword)])
            && Shown(line, "-spice", [],
                     [("port", Decimal(ports.spicePort)), ("addr", "127.0.0.1"), ("disable-ticketing", "off"),
                      ("password-secret", "virtua-spice-secret")]))
      && (plan.spice == Inline ==>
          Shown(line, "-spice", [],
                [("port", Decimal(ports.spicePort)), ("addr", "127.0.0.1"), ("disable-ticketing", "off"),
                 ("password", ports.spicePassword)]))
  {
    hide Build, Segments, CommaFreeInputs, Shown, Line, Flatten, Offers;
    hide FirmwareArgs, DiskArgs, IothreadArgs, CdArgs, UnattendArgs, TpmArgs, SerialArgs, TuningFor;
    hide NameArgs, MachineArgs, GpuArgs, NetworkArgs, TunedDevices, KernelArgs;
    hide AgentArgs, SpiceArgs, AudioArgs, DisplayArgs;
    SegmentsAre(vm, ports, plan, host);
    hide Decimal;
    if plan.spice == Secret {
      SpiceSecretOffers(ports, plan);
      OfferShown(vm, ports, plan, host, 12, "-object", ["secret"],
                 [("id", "virtua-spice-secret"), ("data", ports.spicePassword)]);
      OfferShown(vm, ports, plan, host, 12, "-spice", [],
                 [("port", Decimal(ports.spicePort)), ("addr", "127.0.0.1"), ("disable-ticketing", "off"),
                  ("password-secret", "virtua-spice-secret")]);
    } else if plan.spice == Inline {
      SpiceInlineOffers(ports, plan);
      OfferShown(vm, ports, plan, host, 12, "-spice", [],
                 [("port", Decimal(ports.spicePort)), ("addr", "127.0.0.1"), ("disable-ticketing", "off"),
                  ("password", ports.spicePassword)]);
    }
  }

  lemma AudioOffersFirst(plan: Plan)
    requires plan.audio
    ensures Offers(AudioArgs(plan), "-audiodev", ["spice"], [("id", "audioSpice")])
  {
    At(AudioArgs(plan), 0, "-audiodev", ["spice"], [("id", "audioSpice")]);
  }

  lemma AudioOffersSecond(plan: Plan)
    requires plan.audio
    ensures Offers(AudioArgs(plan), "-device", ["intel-hda"], [])
  {
    At(AudioArgs(plan), 1, "-device", ["intel-hda"], []);
  }

  lemma AudioOffersThird(plan: Plan)
    requires plan.audio
    ensures Offers(AudioArgs(plan), "-device", ["hda-duplex"], [("audiodev", "audioSpice")])
  {
    At(AudioArgs(plan), 2, "-device", ["hda-duplex"], [("audiodev", "audioSpice")]);
  }

  lemma AudioOffers(plan: Plan)
    requires plan.audio
    ensures Offers(AudioArgs(plan), "-audiodev", ["spice"], [("id", "audioSpice")])
    ensures Offers(AudioArgs(plan), "-device", ["intel-hda"], [])
    ensures Offers(AudioArgs(plan), "-device", ["hda-duplex"], [("audiodev", "audioSpice")])
  {
    hide Offers, AudioArgs;
    AudioOffersFirst(plan);
    AudioOffersSecond(plan);
    AudioOffersThird(plan);
  }

  /** A plan with audio has a sound card with its controller. */
  lemma AudioIsThere(vm: Vm, ports: Ports, plan: Plan, host: Host)
    requires Build(vm, ports, plan, host).Ok? && CommaFreeInputs(vm, ports)
    requires plan.audio
    ensures var line := Line(vm, ports, plan, host);
      && Shown(line, "-audiodev", ["spice"], [("id", "audioSpice")]) && Shown(line, "-device", ["intel-hda"], [])
      && Shown(line, "-device", ["hda-duplex"], [("audiodev", "audioSpice")])
  {
    hide Build, Segments, CommaFreeInputs, Shown, Line, Flatten, Offers;
    hide FirmwareArgs, DiskArgs, IothreadArgs, CdArgs, UnattendArgs, TpmArgs, SerialArgs, TuningFor;
    hide NameArgs, MachineArgs, GpuArgs, NetworkArgs, TunedDevices, KernelArgs;
    hide AgentArgs, SpiceArgs, AudioArgs, DisplayArgs;
    SegmentsAre(vm, ports, plan, host);
    AudioOffers(plan);
    OfferShown(vm, ports, plan, host, 13, "-audiodev", ["spice"], [("id", "audioSpice")]);
    OfferShown(vm, ports, plan, host, 13, "-device", ["intel-hda"], []);
    OfferShown(vm, ports, plan, host, 13, "-device", ["hda-duplex"], [("audiodev", "audioSpice")]);
  }

  /** The TPM device of a model. */
  function TpmDevice(t: Tpm): string {
    match t
    case CrbDevice => "tpm-crb-device"
    case Tis => "tpm-tis"
    case _ => "tpm-tis-device"
  }

  lemma TpmOffersFirst(ports: Ports)
    requires TpmArgs(ports).Ok? && ports.tpmSocket.Some?
    ensures Offers(TpmArgs(ports).value, "-chardev", ["socket"],
                   [("path", ports.tpmSocket.value), ("id", "virtua-tpm-chr")])
  {
    hide TpmModel;
    At(TpmArgs(ports).value, 0, "-chardev", ["socket"], [("path", ports.tpmSocket.value), ("id", "virtua-tpm-chr")]);
  }

  lemma TpmOffersSecond(ports: Ports)
    requires TpmArgs(ports).Ok? && ports.tpmSocket.Some?
    ensures Offers(TpmArgs(ports).value, "-tpmdev", ["emulator"], [("id", "virtua-tpm"), ("chardev", "virtua-tpm-chr")])
  {
    hide TpmModel;
    At(TpmArgs(ports).value, 1, "-tpmdev", ["emulator"], [("id", "virtua-tpm"), ("chardev", "virtua-tpm-chr")]);
  }

  lemma TpmOffers(ports: Ports)
    requires TpmArgs(ports).Ok? && ports.tpmSocket.Some?
    ensures Offers(TpmArgs(ports).value, "-chardev", ["socket"],
                   [("path", ports.tpmSocket.value), ("id", "virtua-tpm-chr")])
    ensures Offers(TpmArgs(ports).value, "-tpmdev", ["emulator"], [("id", "virtua-tpm"), ("chardev", "virtua-tpm-chr")])
  {
    hide Offers, TpmArgs;
    TpmOffersFirst(ports);
    TpmOffersSecond(ports);
  }

  lemma TpmDeviceOffers(ports: Ports)
    requires TpmArgs(ports).Ok? && ports.tpmSocket.Some?
    ensures Offers(TpmArgs(ports).value, "-device", [TpmDevice(ports.tpmDevice)], [("tpmdev", "virtua-tpm")])
  {
    assert TpmModel(ports.tpmDevice)[0] == Word(TpmDevice(ports.tpmDevice));
    At(TpmArgs(ports).value, 2, "-device", [TpmDevice(ports.tpmDevice)], [("tpmdev", "virtua-tpm")]);
  }

  /** A TPM socket adds the emulated TPM. */
  lemma TpmIsThere(vm: Vm, ports: Ports, plan: Plan, host: Host)
    requires Build(vm, ports, plan, host).Ok? && CommaFreeInputs(vm, ports)
    requires ports.tpmSocket.Some?
    ensures var line := Line(vm, ports, plan, host);
      && Shown(line, "-chardev", ["socket"], [("path", ports.tpmSocket.value), ("id", "virtua-tpm-chr")])
      && Shown(line, "-tpmdev", ["emulator"], [("id", "virtua-tpm"), ("chardev", "virtua-tpm-chr")])
      && Shown(line, "-device", [TpmDevice(ports.tpmDevice)], [("tpmdev", "virtua-tpm")])
  {
    hide Build, Segments, CommaFreeInputs, Shown, Line, Flatten, Offers;
    hide FirmwareArgs, DiskArgs, IothreadArgs, CdArgs, UnattendArgs, TpmArgs, SerialArgs, TuningFor;
    hide NameArgs, MachineArgs, GpuArgs, NetworkArgs, TunedDevices, KernelArgs;
    hide AgentArgs, SpiceArgs, AudioArgs, DisplayArgs;
    SegmentsAre(vm, ports, plan, host);
    hide TpmDevice;
    TpmOffers(ports);
    TpmDeviceOffers(ports);
    OfferShown(vm, ports, plan, host, 10, "-chardev", ["socket"],
               [("path", ports.tpmSocket.value), ("id", "virtua-tpm-chr")]);
    OfferShown(vm, ports, plan, host, 10, "-tpmdev", ["emulator"],
               [("id", "virtua-tpm"), ("chardev", "virtua-tpm-chr")]);
    OfferShown(vm, ports, plan, host, 10, "-device", [TpmDevice(ports.tpmDevice)], [("tpmdev", "virtua-tpm")]);
  }

  lemma UnattendOffersFirst(vm: Vm, ports: Ports)
    requires UnattendArgs(vm, ports).Ok? && ports.unattendDir.Some?
    ensures Offers(UnattendArgs(vm, ports).value, "-drive", [],
                   [("file", "fat:" + ports.unattendDir.value), ("id", "virtua-unattend"), ("format", "raw"),
                    ("readonly", "on")])
  {
    At(UnattendArgs(vm, ports).value, 0, "-drive", [],
       [("file", "fat:" + ports.unattendDir.value), ("id", "virtua-unattend"), ("format", "raw"), ("readonly", "on")]);
  }

  lemma UnattendOffersSecond(vm: Vm, ports: Ports)
    requires UnattendArgs(vm, ports).Ok? && ports.unattendDir.Some?
    ensures Offers(UnattendArgs(vm, ports).value, "-device", ["usb-storage"],
                   [("drive", "virtua-unattend"), ("removable", "on")])
  {
    At(UnattendArgs(vm, ports).value, |UnattendArgs(vm, ports).value| - 1, "-device", ["usb-storage"],
       [("drive", "virtua-unattend"), ("removable", "on")]);
  }

  lemma UnattendOffers(vm: Vm, ports: Ports)
    requires UnattendArgs(vm, ports).Ok? && ports.unattendDir.Some?
    ensures Offers(UnattendArgs(vm, ports).value, "-drive", [],
                   [("file", "fat:" + ports.unattendDir.value), ("id", "virtua-unattend"), ("format", "raw"),
                    ("readonly", "on")])
    ensures Offers(UnattendArgs(vm, ports).value, "-device", ["usb-storage"],
                   [("drive", "virtua-unattend"), ("removable", "on")])
  {
    hide Offers, UnattendArgs;
    UnattendOffersFirst(vm, ports);
    UnattendOffersSecond(vm, ports);
  }

  /** The answer file is served as a removable disk. */
  lemma AnswerFileIsThere(vm: Vm, ports: Ports, plan: Plan, host: Host)
    requires Build(vm, ports, plan, host).Ok? && CommaFreeInputs(vm, ports)
    requires ports.unattendDir.Some?
    ensures var line := Line(vm, ports, plan, host);
      && Shown(line, "-drive", [],
               [("file", "fat:" + ports.unattendDir.value), ("id", "virtua-unattend"), ("format", "raw"),
                ("readonly", "on")])
      && Shown(line, "-device", ["usb-storage"], [("drive", "virtua-unattend"), ("removable", "on")])
  {
    hide Build, Segments, CommaFreeInputs, Shown, Line, Flatten, Offers;
    hide FirmwareArgs, DiskArgs, IothreadArgs, CdArgs, UnattendArgs, TpmArgs, SerialArgs, TuningFor;
    hide NameArgs, MachineArgs, GpuArgs, NetworkArgs, TunedDevices, KernelArgs;
    hide AgentArgs, SpiceArgs, AudioArgs, DisplayArgs;
    SegmentsAre(vm, ports, plan, host);
    UnattendOffers(vm, ports);
    OfferShown(vm, ports, plan, host, 9, "-drive", [],
               [("file", "fat:" + ports.unattendDir.value), ("id", "virtua-unattend"), ("format", "raw"),
                ("readonly", "on")]);
    OfferShown(vm, ports, plan, host, 9, "-device", ["usb-storage"],
               [("drive", "virtua-unattend"), ("removable", "on")]);
  }

  lemma SerialOffers(ports: Ports)
    requires SerialArgs(ports).Ok? && ports.serialLog.Some?
    ensures Offers(SerialArgs(ports).value, "-chardev", ["file"],
                   [("path", ports.serialLog.value), ("id", "virtua-serial")])
    ensures SerialTo(Serial) in SerialArgs(ports).value
  {
    At(SerialArgs(ports).value, 0, "-chardev", ["file"], [("path", ports.serialLog.value), ("id", "virtua-serial")]);
    assert SerialArgs(ports).value[1] == SerialTo(Serial);
  }

  /** The serial console is written to its log. */
  lemma SerialIsThere(vm: Vm, ports: Ports, plan: Plan, host: Host)
    requires Build(vm, ports, plan, host).Ok? && CommaFreeInputs(vm, ports)
    requires ports.serialLog.Some?
    ensures var line := Line(vm, ports, plan, host);
      Shown(line, "-chardev", ["file"], [("path", ports.serialLog.value), ("id", "virtua-serial")])
        && Has(line, "-serial", "chardev:virtua-serial")
  {
    hide Build, Segments, CommaFreeInputs, Shown, Line, Flatten, Offers;
    hide FirmwareArgs, DiskArgs, IothreadArgs, CdArgs, UnattendArgs, TpmArgs, SerialArgs, TuningFor;
    hide NameArgs, MachineArgs, GpuArgs, NetworkArgs, TunedDevices, KernelArgs;
    hide AgentArgs, SpiceArgs, AudioArgs, DisplayArgs;
    SegmentsAre(vm, ports, plan, host);
    SerialOffers(ports);
    OfferShown(vm, ports, plan, host, 14, "-chardev", ["file"],
               [("path", ports.serialLog.value), ("id", "virtua-serial")]);
    OnLine(vm, ports, plan, host, 14, SerialTo(Serial));
    SwitchOnLine(vm, ports, plan, host, SerialTo(Serial));
    assert "chardev:" + Name(Serial) == "chardev:virtua-serial";
  }

  lemma KernelWordsAre(vm: Vm)
    requires Installer(vm)
    ensures var auto := vm.autoinstall.value;
      && Raw("-kernel", auto.kernel.value) in KernelArgs(vm) && Raw("-initrd", auto.initrd.value) in KernelArgs(vm)
      && (auto.append.Some? ==> Raw("-append", auto.append.value) in KernelArgs(vm))
  {
    var args := KernelArgs(vm);
    assert args[0] == Raw("-kernel", vm.autoinstall.value.kernel.value);
    assert args[1] == Raw("-initrd", vm.autoinstall.value.initrd.value);
    assert vm.autoinstall.value.append.Some? ==> args[2] == Raw("-append", vm.autoinstall.value.append.value);
  }

  /** An unattended installation boots the installer's kernel, with its initrd and arguments. */
  lemma InstallerIsThere(vm: Vm, ports: Ports, plan: Plan, host: Host)
    requires Build(vm, ports, plan, host).Ok? && CommaFreeInputs(vm, ports)
    requires Installer(vm)
    ensures var line := Line(vm, ports, plan, host);
      var auto := vm.autoinstall.value;
      && Has(line, "-kernel", auto.kernel.value) && Has(line, "-initrd", auto.initrd.value)
      && (auto.append.Some? ==> Has(line, "-append", auto.append.value))
  {
    hide Build, Segments, CommaFreeInputs, Shown, Line, Flatten, Offers;
    hide FirmwareArgs, DiskArgs, IothreadArgs, CdArgs, UnattendArgs, TpmArgs, SerialArgs, TuningFor;
    hide NameArgs, MachineArgs, GpuArgs, NetworkArgs, TunedDevices, KernelArgs;
    hide AgentArgs, SpiceArgs, AudioArgs, DisplayArgs;
    SegmentsAre(vm, ports, plan, host);
    hide Has;
    KernelWordsAre(vm);
    var auto := vm.autoinstall.value;
    RawShown(vm, ports, plan, host, 8, "-kernel", auto.kernel.value);
    RawShown(vm, ports, plan, host, 8, "-initrd", auto.initrd.value);
    if auto.append.Some? {
      RawShown(vm, ports, plan, host, 8, "-append", auto.append.value);
    }
  }

  lemma TuningOffersFirst(vm: Vm, plan: Plan, host: Host)
    requires plan.tuned
    ensures Offers(TunedDevices(vm, plan, host), "-object", ["rng-builtin"], [("id", "virtua-rng")])
  {
    At(TunedDevices(vm, plan, host), 0, "-object", ["rng-builtin"], [("id", "virtua-rng")]);
  }

  lemma TuningOffersSecond(vm: Vm, plan: Plan, host: Host)
    requires plan.tuned
    ensures Offers(TunedDevices(vm, plan, host), "-device", ["virtio-rng-pci"], [("rng", "virtua-rng")])
  {
    At(TunedDevices(vm, plan, host), 1, "-device", ["virtio-rng-pci"], [("rng", "virtua-rng")]);
  }

  lemma TuningOffers(vm: Vm, plan: Plan, host: Host)
    requires plan.tuned
    ensures Offers(TunedDevices(vm, plan, host), "-object", ["rng-builtin"], [("id", "virtua-rng")])
    ensures Offers(TunedDevices(vm, plan, host), "-device", ["virtio-rng-pci"], [("rng", "virtua-rng")])
    ensures vm.guestOs == "windows" && vm.architecture != "arm64" ==>
      && Raw("-rtc", "base=localtime,driftfix=slew") in TunedDevices(vm, plan, host)
      && (plan.accelerator == "kvm" ==>
          Raw("-global", "kvm-pit.lost_tick_policy=delay") in TunedDevices(vm, plan, host))
  {
    hide Offers, TunedDevices;
    TuningOffersFirst(vm, plan, host);
    TuningOffersSecond(vm, plan, host);
    ClockIsPushed(vm, plan, host);
  }

  lemma ClockIsPushed(vm: Vm, plan: Plan, host: Host)
    requires plan.tuned
    ensures vm.guestOs == "windows" && vm.architecture != "arm64" ==>
      && Raw("-rtc", "base=localtime,driftfix=slew") in TunedDevices(vm, plan, host)
      && (plan.accelerator == "kvm" ==>
          Raw("-global", "kvm-pit.lost_tick_policy=delay") in TunedDevices(vm, plan, host))
  {
    var args := TunedDevices(vm, plan, host);
    if vm.guestOs == "windows" && vm.architecture != "arm64" {
      assert args[|args| - if plan.accelerator == "kvm" then 2 else 1] == Raw("-rtc", "base=localtime,driftfix=slew");
      assert plan.accelerator == "kvm" ==> args[|args| - 1] == Raw("-global", "kvm-pit.lost_tick_policy=delay");
    }
  }

  lemma BalloonOffers(vm: Vm, plan: Plan, host: Host)
    requires plan.tuned && host.os == "linux" && plan.accelerator == "kvm"
    ensures Offers(TunedDevices(vm, plan, host), "-device", ["virtio-balloon-pci"], [("free-page-reporting", "on")])
  {
    At(TunedDevices(vm, plan, host), 2, "-device", ["virtio-balloon-pci"], [("free-page-reporting", "on")]);
  }

  /** A tuned plan has an entropy source, and keeps the clock of a Windows guest. */
  lemma TuningIsThere(vm: Vm, ports: Ports, plan: Plan, host: Host)
    requires Build(vm, ports, plan, host).Ok? && CommaFreeInputs(vm, ports)
    requires plan.tuned
    ensures var line := Line(vm, ports, plan, host);
      && Shown(line, "-object", ["rng-builtin"], [("id", "virtua-rng")])
      && Shown(line, "-device", ["virtio-rng-pci"], [("rng", "virtua-rng")])
      && (vm.guestOs == "windows" && vm.architecture != "arm64" ==> Has(line, "-rtc", "base=localtime,driftfix=slew"))
      && (vm.guestOs == "windows" && vm.architecture != "arm64" && plan.accelerator == "kvm" ==>
            Has(line, "-global", "kvm-pit.lost_tick_policy=delay"))
      && (host.os == "linux" && plan.accelerator == "kvm" ==>
            Shown(line, "-device", ["virtio-balloon-pci"], [("free-page-reporting", "on")]))
  {
    hide Build, Segments, CommaFreeInputs, Shown, Line, Flatten, Offers;
    hide FirmwareArgs, DiskArgs, IothreadArgs, CdArgs, UnattendArgs, TpmArgs, SerialArgs, TuningFor;
    hide NameArgs, MachineArgs, GpuArgs, NetworkArgs, TunedDevices, KernelArgs;
    hide AgentArgs, SpiceArgs, AudioArgs, DisplayArgs;
    SegmentsAre(vm, ports, plan, host);
    TuningOffers(vm, plan, host);
    OfferShown(vm, ports, plan, host, 7, "-object", ["rng-builtin"], [("id", "virtua-rng")]);
    OfferShown(vm, ports, plan, host, 7, "-device", ["virtio-rng-pci"], [("rng", "virtua-rng")]);
    if vm.guestOs == "windows" && vm.architecture != "arm64" {
      RawShown(vm, ports, plan, host, 7, "-rtc", "base=localtime,driftfix=slew");
      if plan.accelerator == "kvm" {
        RawShown(vm, ports, plan, host, 7, "-global", "kvm-pit.lost_tick_policy=delay");
      }
    }
    if host.os == "linux" && plan.accelerator == "kvm" {
      BalloonOffers(vm, plan, host);
      OfferShown(vm, ports, plan, host, 7, "-device", ["virtio-balloon-pci"], [("free-page-reporting", "on")]);
    }
  }

  // ---- Nothing that was not asked for -------------------------------------------------------------

  /** What an option of this kind needs to be on a line. */
  predicate Asked(vm: Vm, ports: Ports, plan: Plan, kind: Flag) {
    match kind
    case Spice => plan.spice != Off
    case Audiodev => plan.audio
    case Netdev => vm.network != "isolated"
    case Tpmdev => ports.tpmSocket.Some?
    case _ => true
  }

  ghost predicate AllAsked(vm: Vm, ports: Ports, plan: Plan, segment: seq<Arg>) {
    forall a :: a in segment ==> a.Options? ==> Asked(vm, ports, plan, a.kind)
  }

  lemma AskedAppend(vm: Vm, ports: Ports, plan: Plan, a: seq<Arg>, b: seq<Arg>)
    requires AllAsked(vm, ports, plan, a) && AllAsked(vm, ports, plan, b)
    ensures AllAsked(vm, ports, plan, a + b)
  {
  }

  lemma MachineAsked(vm: Vm, ports: Ports, plan: Plan)
    ensures AllAsked(vm, ports, plan, NameArgs(vm)) && AllAsked(vm, ports, plan, MachineArgs(vm, plan))
    ensures AllAsked(vm, ports, plan, KernelArgs(vm)) && AllAsked(vm, ports, plan, DisplayArgs(ports))
  {
    hide Decimal;
  }

  lemma PflashAsked(vm: Vm, ports: Ports, plan: Plan, uefi: Uefi)
    ensures AllAsked(vm, ports, plan, PflashArgs(uefi))
  {
  }

  lemma PointerAsked(vm: Vm, ports: Ports, plan: Plan)
    ensures AllAsked(vm, ports, plan, ArmUsb()) && AllAsked(vm, ports, plan, Pointer(plan))
  {
  }

  lemma BiosAsked(vm: Vm, ports: Ports, plan: Plan, firmware: string)
    ensures AllAsked(vm, ports, plan, [Raw("-bios", firmware)]) && AllAsked(vm, ports, plan, [])
  {
  }

  lemma FirmwareAsked(vm: Vm, ports: Ports, plan: Plan, host: Host)
    requires FirmwareArgs(vm, ports, plan, host).Ok?
    ensures AllAsked(vm, ports, plan, FirmwareArgs(vm, ports, plan, host).value)
  {
    hide PflashArgs, ArmUsb, Pointer, ValidUefi, AllAsked;
    PointerAsked(vm, ports, plan);
    BiosAsked(vm, ports, plan, if host.firmware.Some? then host.firmware.value else "");
    var first := if ports.uefi.Some? then PflashArgs(ports.uefi.value) else [];
    if ports.uefi.Some? {
      PflashAsked(vm, ports, plan, ports.uefi.value);
    }
    AskedAppend(vm, ports, plan, first, ArmUsb());
    AskedAppend(vm, ports, plan, first, Pointer(plan));
    if host.firmware.Some? {
      AskedAppend(vm, ports, plan, [Raw("-bios", host.firmware.value)], ArmUsb());
    }
  }

  lemma StorageAsked(vm: Vm, ports: Ports, plan: Plan, t: Tuning)
    ensures AllAsked(vm, ports, plan, IothreadArgs(t) + DiskArgs(vm, t))
  {
    hide DriveOptions, VirtioRefs;
  }

  lemma CdsAsked(vm: Vm, ports: Ports, plan: Plan)
    requires CdArgs(vm).Ok?
    ensures AllAsked(vm, ports, plan, CdArgs(vm).value)
  {
  }

  lemma NetworkAsked(vm: Vm, ports: Ports, plan: Plan, host: Host)
    ensures AllAsked(vm, ports, plan, GpuArgs(vm, plan)) && AllAsked(vm, ports, plan, NetworkArgs(vm, ports, host))
  {
    hide Decimal;
  }

  lemma TunedAsked(vm: Vm, ports: Ports, plan: Plan, host: Host)
    ensures AllAsked(vm, ports, plan, TunedDevices(vm, plan, host))
  {
  }

  lemma ChannelsAsked(vm: Vm, ports: Ports, plan: Plan)
    ensures TpmArgs(ports).Ok? ==> AllAsked(vm, ports, plan, TpmArgs(ports).value)
    ensures SerialArgs(ports).Ok? ==> AllAsked(vm, ports, plan, SerialArgs(ports).value)
  {
  }

  lemma AnswerFileAsked(vm: Vm, ports: Ports, plan: Plan)
    ensures UnattendArgs(vm, ports).Ok? ==> AllAsked(vm, ports, plan, UnattendArgs(vm, ports).value)
  {
  }

  lemma AgentAsked(vm: Vm, ports: Ports, plan: Plan)
    ensures AllAsked(vm, ports, plan, AgentArgs(ports))
  {
    hide Decimal;
  }

  lemma SpiceAsked(vm: Vm, ports: Ports, plan: Plan)
    ensures AllAsked(vm, ports, plan, SpiceArgs(ports, plan)) && AllAsked(vm, ports, plan, AudioArgs(plan))
  {
    hide Decimal;
  }

  lemma SegmentAsked(vm: Vm, ports: Ports, plan: Plan, host: Host, k: nat)
    requires Build(vm, ports, plan, host).Ok? && k < 16
    ensures Segments(vm, ports, plan, host).Ok? && AllAsked(vm, ports, plan, Segments(vm, ports, plan, host).value[k])
  {
    hide Build, Segments, AllAsked, FirmwareArgs, DiskArgs, IothreadArgs, CdArgs, UnattendArgs, TpmArgs, SerialArgs;
    hide NameArgs, MachineArgs, GpuArgs, NetworkArgs, TunedDevices, KernelArgs, TuningFor;
    hide AgentArgs, SpiceArgs, AudioArgs, DisplayArgs;
    SegmentsAre(vm, ports, plan, host);
    MachineAsked(vm, ports, plan);
    FirmwareAsked(vm, ports, plan, host);
    StorageAsked(vm, ports, plan, TuningFor(host.os, plan));
    CdsAsked(vm, ports, plan);
    NetworkAsked(vm, ports, plan, host);
    TunedAsked(vm, ports, plan, host);
    ChannelsAsked(vm, ports, plan);
    AnswerFileAsked(vm, ports, plan);
    AgentAsked(vm, ports, plan);
    SpiceAsked(vm, ports, plan);
  }

  lemma AskedFlag(a: Arg, vm: Vm, ports: Ports, plan: Plan)
    requires TidyArg(a) && (a.Options? ==> Asked(vm, ports, plan, a.kind))
    ensures var flag := ArgText(a)[0];
      && (flag == "-spice" ==> plan.spice != Off) && (flag == "-audiodev" ==> plan.audio)
      && (flag == "-netdev" ==> vm.network != "isolated") && (flag == "-tpmdev" ==> ports.tpmSocket.Some?)
  {
    hide TidyPlain, PartTexts;
  }

  /** No SPICE and no audio but the plan's, no network for an isolated guest, no TPM without its socket. */
  lemma NothingUnasked(vm: Vm, ports: Ports, plan: Plan, host: Host, o: Switch)
    requires Build(vm, ports, plan, host).Ok? && CommaFreeInputs(vm, ports) && o in Line(vm, ports, plan, host)
    ensures o.0 == "-spice" ==> plan.spice != Off
    ensures o.0 == "-audiodev" ==> plan.audio
    ensures o.0 == "-netdev" ==> vm.network != "isolated"
    ensures o.0 == "-tpmdev" ==> ports.tpmSocket.Some?
  {
    hide Segments, CommaFreeInputs, TidyArg, ArgText, ReadPairs, Words, Asked, Flatten;
    var all := Build(vm, ports, plan, host).value;
    AllAreTidy(vm, ports, plan, host);
    PairsAreSwitches(all);
    var i :| 0 <= i < |all| && SwitchOf(all[i]) == o;
    assert all[i] in all;
    var segments := Segments(vm, ports, plan, host).value;
    FlattenMember(segments, all[i]);
    var k :| 0 <= k < |segments| && all[i] in segments[k];
    SegmentCount(vm, ports, plan, host);
    SegmentAsked(vm, ports, plan, host, k);
    AskedFlag(all[i], vm, ports, plan);
  }

  lemma SegmentCount(vm: Vm, ports: Ports, plan: Plan, host: Host)
    requires Segments(vm, ports, plan, host).Ok?
    ensures |Segments(vm, ports, plan, host).value| == 16
  {
    hide Segments;
  }
}
