/** The whole command line of a VM, written as words and read back: every name in it resolves. */
module QemuReading {
  import opened Decimals
  import opened LaunchLadder
  import opened QemuArgs
  import opened QemuOptions
  import opened QemuWords
  import O = OptionStrings

  /**
    What the launch guarantees of the texts it does not check again: the disk path, the SPICE secret
    and the RDP address.
   */
  predicate CommaFreeInputs(vm: Vm, ports: Ports) {
    && ValidPath(vm.diskPath) && ',' !in ports.spicePassword
    && (ports.rdpForward.Some? ==> ',' !in ports.rdpForward.value.0)
  }

  ghost predicate Tidy(segment: seq<Arg>) {
    forall a :: a in segment ==> TidyArg(a)
  }

  lemma TidyAppend(a: seq<Arg>, b: seq<Arg>)
    requires Tidy(a) && Tidy(b)
    ensures Tidy(a + b)
  {
  }

  // ---- Constants --------------------------------------------------------------------------

  lemma TidyFlags()
    ensures TidyFlag("-name") && TidyFlag("-m") && TidyFlag("-smp")
    ensures TidyFlag("-machine") && TidyFlag("-accel") && TidyFlag("-cpu")
  {
  }

  lemma TidyBootFlags()
    ensures TidyFlag("-bios") && TidyFlag("-global") && TidyFlag("-cdrom") && TidyFlag("-boot")
    ensures TidyFlag("-kernel") && TidyFlag("-initrd") && TidyFlag("-append")
  {
  }

  lemma TidyDisplayFlags()
    ensures TidyFlag("-rtc") && TidyFlag("-display") && TidyFlag("-vnc") && TidyFlag("-qmp")
  {
  }

  lemma PlainKeys()
    ensures PlainKey("if") && PlainKey("format") && PlainKey("unit") && PlainKey("readonly") && PlainKey("file")
        && PlainKey("ppi")
    ensures PlainKey("cache") && PlainKey("discard") && PlainKey("detect-zeroes") && PlainKey("aio")
    ensures PlainKey("serial") && PlainKey("media") && PlainKey("removable") && PlainKey("index")
    ensures PlainKey("free-page-reporting") && PlainKey("hostfwd") && PlainKey("ifname") && PlainKey("path")
    ensures PlainKey("host") && PlainKey("port") && PlainKey("server") && PlainKey("wait") && PlainKey("name")
    ensures PlainKey("addr") && PlainKey("disable-ticketing") && PlainKey("password") && PlainKey("data")
  {
  }

  lemma DriveValues()
    ensures ',' !in "pflash" && ',' !in "raw" && ',' !in "0"
    ensures ',' !in "1" && ',' !in "3" && ',' !in "on" && ',' !in "off"
    ensures ',' !in "none" && ',' !in "virtio" && ',' !in "ide" && ',' !in "cdrom" && ',' !in "qcow2"
    ensures ',' !in "writeback" && ',' !in "unmap" && ',' !in "io_uring" && ',' !in "virtua-disk0"
  {
  }

  lemma ChannelValues()
    ensures ',' !in "127.0.0.1" && ',' !in "org.qemu.guest_agent.0"
    ensures ',' !in "en0" && ',' !in "tcp:" && ',' !in ":" && ',' !in "-:3389"
    ensures ',' !in "fat:"
  {
  }

  /** A word that stands alone in an option. */
  predicate Stands(text: string) {
    TidyPlain(Word(text))
  }

  lemma DeviceWords()
    ensures Stands("qemu-xhci") && Stands("usb-kbd")
    ensures Stands("usb-tablet") && Stands("usb-ehci") && Stands("usb-storage")
    ensures Stands("nvme") && Stands("ich9-ahci") && Stands("ide-hd") && Stands("virtio-blk-pci") && Stands("iothread")
  {
  }

  lemma DisplayWords()
    ensures Stands("ramfb") && Stands("VGA") && Stands("qxl-vga")
    ensures Stands("cirrus-vga") && Stands("virtio-gpu-pci") && Stands("virtio-vga")
    ensures Stands("intel-hda") && Stands("hda-duplex") && Stands("spice") && Stands("secret")
  {
  }

  lemma NetworkWords()
    ensures Stands("vmnet-shared") && Stands("vmnet-bridged") && Stands("user") && Stands("e1000") && Stands("rtl8139")
    ensures Stands("virtio-net-device") && Stands("virtio-net-pci")
  {
  }

  lemma ChannelWords()
    ensures Stands("socket") && Stands("emulator") && Stands("file")
    ensures Stands("virtio-serial-pci") && Stands("virtserialport")
  {
  }

  lemma TpmWords()
    ensures Stands("tpm-crb-device") && Stands("tpm-tis-device") && Stands("tpm-tis")
  {
  }

  lemma TunedWords()
    ensures Stands("rng-builtin") && Stands("virtio-rng-pci") && Stands("virtio-balloon-pci")
  {
  }

  // ---- Segments ---------------------------------------------------------------------------

  lemma TidyMachine(vm: Vm, plan: Plan)
    ensures Tidy(NameArgs(vm)) && Tidy(MachineArgs(vm, plan))
  {
    hide TidyFlag;
    TidyFlags();
  }

  lemma TidyPflash(uefi: Uefi)
    requires ValidUefi(uefi)
    ensures Tidy(PflashArgs(uefi))
  {
    hide TidyFlag, PlainKey;
    TidyFlags();
    TidyBootFlags();
    PlainKeys();
    DriveValues();
  }

  lemma TidyDevices(devices: seq<Arg>)
    requires forall a :: a in devices ==> a.Options? && a.after == [] && |a.before| == 1 && TidyPlain(a.before[0])
    ensures Tidy(devices)
  {
  }

  lemma TidyUsb(plan: Plan)
    ensures Tidy(ArmUsb()) && Tidy(Pointer(plan))
  {
    hide TidyPlain;
    DeviceWords();
    TidyDevices(ArmUsb());
    TidyDevices(Pointer(plan));
  }

  lemma TidyFirmware(vm: Vm, ports: Ports, plan: Plan, host: Host)
    requires FirmwareArgs(vm, ports, plan, host).Ok?
    ensures Tidy(FirmwareArgs(vm, ports, plan, host).value)
  {
    hide PflashArgs, Tidy, ValidUefi, ArmUsb, Pointer;
    TidyUsb(plan);
    NothingIsTidy();
    TidyAppend([], Pointer(plan));
    if ports.uefi.Some? && ValidUefi(ports.uefi.value) {
      TidyPflash(ports.uefi.value);
      TidyAppend(PflashArgs(ports.uefi.value), ArmUsb());
      TidyAppend(PflashArgs(ports.uefi.value), Pointer(plan));
    }
    if host.firmware.Some? {
      TidyBios(host.firmware.value);
      TidyAppend([Raw("-bios", host.firmware.value)], ArmUsb());
    }
  }

  lemma NothingIsTidy()
    ensures Tidy([])
  {
  }

  lemma TidyBios(firmware: string)
    ensures Tidy([Raw("-bios", firmware)])
  {
    hide TidyFlag;
    TidyBootFlags();
  }

  lemma TidyTuning(t: Tuning)
    requires t.aio.Some? ==> ',' !in t.aio.value
    ensures forall p :: p in DriveOptions(t) ==> TidyPlain(p)
  {
    hide PlainKey;
    PlainKeys();
    DriveValues();
  }

  lemma TidyDisk(vm: Vm, t: Tuning)
    requires ValidPath(vm.diskPath) && (t.aio.Some? ==> ',' !in t.aio.value)
    ensures Tidy(DiskArgs(vm, t))
  {
    hide PlainKey, DriveOptions, VirtioRefs;
    PlainKeys();
    DriveValues();
    DeviceWords();
    TidyTuning(t);
  }

  lemma TidyStorage(vm: Vm, host: Host, plan: Plan)
    requires ValidPath(vm.diskPath)
    ensures var t := TuningFor(host.os, plan); Tidy(IothreadArgs(t) + DiskArgs(vm, t))
  {
    hide DiskArgs, Tidy;
    var t := TuningFor(host.os, plan);
    AioIsTidy(host, plan);
    TidyDisk(vm, t);
    TidyIothread(t);
    TidyAppend(IothreadArgs(t), DiskArgs(vm, t));
  }

  lemma AioIsTidy(host: Host, plan: Plan)
    ensures var t := TuningFor(host.os, plan); t.aio.Some? ==> ',' !in t.aio.value
  {
    DriveValues();
  }

  lemma TidyIothread(t: Tuning)
    ensures Tidy(IothreadArgs(t))
  {
    hide TidyPlain;
    DeviceWords();
  }

  lemma TidyIso(vm: Vm)
    requires vm.isoPath.Some? ==> ValidPath(vm.isoPath.value)
    requires vm.driverIsoPath.Some? ==> ValidPath(vm.driverIsoPath.value)
    ensures Tidy(IsoArgs(vm)) && Tidy(DriverArgs(vm))
  {
    hide PlainKey;
    PlainKeys();
    DriveValues();
    DeviceWords();
  }

  lemma TidyCds(vm: Vm)
    requires CdArgs(vm).Ok?
    ensures Tidy(CdArgs(vm).value)
  {
    hide PlainKey, IsoArgs, DriverArgs, TidyFlag;
    TidyIso(vm);
    PlainKeys();
    DriveValues();
    TidyBootFlags();
  }

  lemma TidyGpu(vm: Vm, plan: Plan)
    ensures Tidy(GpuArgs(vm, plan))
  {
    hide TidyPlain;
    DisplayWords();
  }

  lemma TidyForward(address: string, port: nat)
    requires ',' !in address
    ensures ',' !in "tcp:" + address + ":" + Decimal(port) + "-:3389"
  {
    ChannelValues();
    DecimalIsParsed(port);
  }

  lemma TidyNetwork(vm: Vm, ports: Ports, host: Host)
    requires ports.rdpForward.Some? ==> ',' !in ports.rdpForward.value.0
    ensures Tidy(NetworkArgs(vm, ports, host))
  {
    hide PlainKey;
    PlainKeys();
    NetworkWords();
    ChannelValues();
    if ports.rdpForward.Some? {
      TidyForward(ports.rdpForward.value.0, ports.rdpForward.value.1);
    }
  }

  lemma TidyTuned(vm: Vm, plan: Plan, host: Host)
    ensures Tidy(TunedDevices(vm, plan, host))
  {
    hide PlainKey, TidyFlag;
    PlainKeys();
    DriveValues();
    TunedWords();
    TidyBootFlags();
    TidyDisplayFlags();
  }

  lemma TidyKernel(vm: Vm, ports: Ports)
    ensures Tidy(KernelArgs(vm)) && Tidy(DisplayArgs(ports))
  {
    hide TidyFlag;
    TidyBootFlags();
    TidyDisplayFlags();
  }

  lemma TidyUnattend(vm: Vm, ports: Ports)
    requires UnattendArgs(vm, ports).Ok?
    ensures Tidy(UnattendArgs(vm, ports).value)
  {
    hide PlainKey;
    PlainKeys();
    DriveValues();
    ChannelValues();
    DeviceWords();
  }

  lemma TidyTpm(ports: Ports)
    requires TpmArgs(ports).Ok?
    ensures Tidy(TpmArgs(ports).value)
  {
    hide PlainKey;
    PlainKeys();
    DriveValues();
    ChannelWords();
    TpmWords();
  }

  lemma TidyAgent(ports: Ports)
    ensures Tidy(AgentArgs(ports))
  {
    hide PlainKey;
    PlainKeys();
    DriveValues();
    ChannelValues();
    ChannelWords();
    DecimalIsParsed(ports.qgaPort);
  }

  lemma TidySpice(ports: Ports, plan: Plan)
    requires ',' !in ports.spicePassword
    ensures Tidy(SpiceArgs(ports, plan))
  {
    hide PlainKey;
    PlainKeys();
    DriveValues();
    ChannelValues();
    DisplayWords();
    DecimalIsParsed(ports.spicePort);
  }

  lemma TidyAudio(plan: Plan)
    ensures Tidy(AudioArgs(plan))
  {
    hide TidyPlain;
    DisplayWords();
  }

  lemma TidySerial(ports: Ports)
    requires SerialArgs(ports).Ok?
    ensures Tidy(SerialArgs(ports).value)
  {
    hide PlainKey;
    PlainKeys();
    ChannelWords();
  }

  lemma SegmentIsTidy(vm: Vm, ports: Ports, plan: Plan, host: Host, k: nat)
    requires Segments(vm, ports, plan, host).Ok? && CommaFreeInputs(vm, ports) && k < 16
    ensures Tidy(Segments(vm, ports, plan, host).value[k])
  {
    hide Tidy, FirmwareArgs, DiskArgs, IothreadArgs, CdArgs, UnattendArgs, TpmArgs, SerialArgs, TuningFor;
    hide NameArgs, MachineArgs, GpuArgs, NetworkArgs, TunedDevices, KernelArgs;
    hide AgentArgs, SpiceArgs, AudioArgs, DisplayArgs;
    TidyMachine(vm, plan);
    TidyFirmware(vm, ports, plan, host);
    TidyStorage(vm, host, plan);
    TidyCds(vm);
    TidyGpu(vm, plan);
    TidyNetwork(vm, ports, host);
    TidyTuned(vm, plan, host);
    TidyKernel(vm, ports);
    TidyUnattend(vm, ports);
    TidyTpm(ports);
    TidyAgent(ports);
    TidySpice(ports, plan);
    TidyAudio(plan);
    TidySerial(ports);
  }

  lemma AllAreTidy(vm: Vm, ports: Ports, plan: Plan, host: Host)
    requires Build(vm, ports, plan, host).Ok? && CommaFreeInputs(vm, ports)
    ensures Tidy(Build(vm, ports, plan, host).value)
  {
    hide Segments, CommaFreeInputs, TidyArg, Flatten;
    var segments := Segments(vm, ports, plan, host).value;
    forall a | a in Build(vm, ports, plan, host).value
      ensures TidyArg(a)
    {
      FlattenMember(segments, a);
      var k :| 0 <= k < |segments| && a in segments[k];
      SegmentIsTidy(vm, ports, plan, host, k);
    }
  }

  // ---- The theorem --------------------------------------------------------------------------

  /** Every option of the command line is split by QEMU into exactly the parts it was made of. */
  lemma OptionsAreReadBack(vm: Vm, ports: Ports, plan: Plan, host: Host, a: Arg)
    requires Build(vm, ports, plan, host).Ok? && CommaFreeInputs(vm, ports)
    requires a in Build(vm, ports, plan, host).value && a.Options?
    ensures PartTexts(a) != [] && O.Split(ArgText(a)[1], "") == PartTexts(a)
  {
    hide Build, TidyArg, CleanArg, PartTexts, CommaFreeInputs;
    AllAreTidy(vm, ports, plan, host);
    TidyIsClean(a);
    CleanArgReadsBack(a);
  }

  /** Different identifiers have different titles. */
  lemma TitlesDiffer(a: set<Id>, b: set<Id>)
    requires a !! b
    ensures Titles(a) !! Titles(b)
  {
    hide Name;
    forall x, y | x in a && y in b && Title(x) == Title(y)
      ensures false
    {
      NamesAreDistinct(x, y);
    }
  }

  lemma ResolvedText(args: seq<Arg>)
    requires Tidy(args) && forall i :: 0 <= i < |args| ==> WellPlaced(args[i])
    requires forall i, id :: 0 <= i < |args| && id in RefsOf(args[i]) ==>
      exists j :: 0 <= j < i && id in DeclsOf(args[j])
    requires forall i, j :: 0 <= j < i < |args| ==> DeclsOf(args[j]) !! DeclsOf(args[i])
    ensures Resolved(ReadPairs(Words(args)))
  {
    hide Tidy, TidyArg, WellPlaced, RefsOf, DeclsOf, TextDecls, TextRefs, Words, ReadPairs, ArgText, Title;
    AreRead(args);
    var options := ReadPairs(Words(args));
    PairsAreSwitches(args);
    forall i, name | 0 <= i < |options| && name in TextRefs(options[i])
      ensures exists j :: 0 <= j < i && name in TextDecls(options[j])
    {
      assert name in Titles(RefsOf(args[i]));
      var id :| id in RefsOf(args[i]) && name == Title(id);
      var j :| 0 <= j < i && id in DeclsOf(args[j]);
      assert name in Titles(DeclsOf(args[j]));
    }
    forall i, j | 0 <= j < i < |options|
      ensures TextDecls(options[j]) !! TextDecls(options[i])
    {
      TitlesDiffer(DeclsOf(args[j]), DeclsOf(args[i]));
    }
  }

  lemma PairsAreSwitches(args: seq<Arg>)
    ensures |ReadPairs(Words(args))| == |args|
    ensures forall k :: 0 <= k < |args| ==> ReadPairs(Words(args))[k] == SwitchOf(args[k])
  {
    hide ArgText, ReadPairs, Words;
    if args == [] {
      PairsOfNothing();
    } else {
      PairsOfWords(args, 0);
    }
    forall k | 0 <= k < |args|
      ensures |ReadPairs(Words(args))| == |args| && ReadPairs(Words(args))[k] == SwitchOf(args[k])
    {
      PairsOfWords(args, k);
    }
  }

  lemma PairsOfNothing()
    ensures ReadPairs(Words([])) == []
  {
  }

  lemma AreRead(args: seq<Arg>)
    requires Tidy(args) && forall i :: 0 <= i < |args| ==> WellPlaced(args[i])
    ensures forall k :: 0 <= k < |args| ==>
      TextDecls(SwitchOf(args[k])) == Titles(DeclsOf(args[k])) && TextRefs(SwitchOf(args[k])) == Titles(RefsOf(args[k]))
  {
    hide TidyArg, WellPlaced, RefsOf, DeclsOf, TextDecls, TextRefs, SwitchOf, Titles;
    forall k | 0 <= k < |args|
      ensures TextDecls(SwitchOf(args[k])) == Titles(DeclsOf(args[k]))
      ensures TextRefs(SwitchOf(args[k])) == Titles(RefsOf(args[k]))
    {
      assert args[k] in args;
      ArgIsRead(args[k]);
    }
  }

  /**
    For every VM, plan and host: read the words of the command line back, two by two,
    split on commas and at '='. Every drive, back end, character device, secret... that
    an option names was declared by an earlier option of the kind QEMU looks it up in,
    and no name is declared twice.
   */
  lemma CommandLineResolves(vm: Vm, ports: Ports, plan: Plan, host: Host)
    requires Build(vm, ports, plan, host).Ok? && CommaFreeInputs(vm, ports)
    ensures Resolved(ReadPairs(Words(Build(vm, ports, plan, host).value)))
  {
    hide Build, Tidy, CommaFreeInputs, WellPlaced, RefsOf, DeclsOf, Resolved;
    AllAreTidy(vm, ports, plan, host);
    ReferencesResolve(vm, ports, plan, host);
    ResolvedText(Build(vm, ports, plan, host).value);
  }

  // ---- Boot order, kernel and audio, as they are read --------------------------------------------

  /** No two options of the command line carry the same boot index. */
  lemma BootIndicesAreReadOnce(vm: Vm, ports: Ports, plan: Plan, host: Host, i: nat, j: nat)
    requires Build(vm, ports, plan, host).Ok? && CommaFreeInputs(vm, ports)
    requires i < j < |ReadPairs(Words(Build(vm, ports, plan, host).value))|
    ensures var options := ReadPairs(Words(Build(vm, ports, plan, host).value));
      TextBoots(options[i]) !! TextBoots(options[j])
  {
    hide Build, TidyArg, CommaFreeInputs, WellPlaced, RefsOf, DeclsOf, Boots, TextBoots, Words, ReadPairs, SwitchOf;
    var args := Build(vm, ports, plan, host).value;
    AllAreTidy(vm, ports, plan, host);
    ReferencesResolve(vm, ports, plan, host);
    PairsAreSwitches(args);
    BootIndicesDiffer(vm, ports, plan, host, i, j);
    assert args[i] in args && args[j] in args;
    BootsAreRead(args[i]);
    BootsAreRead(args[j]);
    DecimalsDiffer(Boots(args[i]), Boots(args[j]), TextBoots(SwitchOf(args[i])), TextBoots(SwitchOf(args[j])));
  }

  lemma DecimalsDiffer(a: set<nat>, b: set<nat>, v: set<string>, w: set<string>)
    requires a !! b
    requires forall x :: x in v ==> exists n :: n in a && x == Decimal(n)
    requires forall x :: x in w ==> exists n :: n in b && x == Decimal(n)
    ensures v !! w
  {
    hide Decimal, Digits;
    forall x | x in v && x in w
      ensures false
    {
      var m :| m in a && x == Decimal(m);
      var n :| n in b && x == Decimal(n);
      DecimalIsParsed(m);
      DecimalIsParsed(n);
      assert false;
    }
  }

  lemma KernelSwitch(a: Arg)
    ensures ArgText(a)[0] == "-kernel" <==> IsKernel(a)
  {
  }

  /** The words hold -kernel exactly while an unattended Debian installation is recorded on the VM. */
  lemma KernelIsReadWhileInstalling(vm: Vm, ports: Ports, plan: Plan, host: Host)
    requires Build(vm, ports, plan, host).Ok?
    ensures var options := ReadPairs(Words(Build(vm, ports, plan, host).value));
      (exists i :: 0 <= i < |options| && options[i].0 == "-kernel") <==> Installer(vm)
  {
    hide Build, ArgText, IsKernel, Words, ReadPairs, Installer;
    var args := Build(vm, ports, plan, host).value;
    var options := ReadPairs(Words(args));
    PairsAreSwitches(args);
    KernelOnlyWhileInstalling(vm, ports, plan, host);
    forall i | 0 <= i < |options|
      ensures options[i].0 == "-kernel" <==> IsKernel(args[i])
    {
      KernelSwitch(args[i]);
    }
    if Installer(vm) {
      var a :| a in args && IsKernel(a);
      var i :| 0 <= i < |args| && args[i] == a;
      assert options[i].0 == "-kernel";
    }
  }

  lemma AudioSwitch(a: Arg)
    requires TidyArg(a)
    ensures ArgText(a)[0] == "-audiodev" <==> IsAudio(a)
    ensures IsSpice(a) ==> ArgText(a)[0] == "-spice"
  {
    hide TidyPlain;
  }

  /** For every plan of the ladder, -audiodev among the words comes with -spice. */
  lemma AudioIsReadWithSpice(vm: Vm, ports: Ports, gpuModel: string, preferred: string, plan: Plan, host: Host, i: nat)
    requires plan in Ladder(vm.architecture, gpuModel, preferred)
    requires Build(vm, ports, plan, host).Ok? && CommaFreeInputs(vm, ports)
    requires i < |ReadPairs(Words(Build(vm, ports, plan, host).value))|
    ensures var options := ReadPairs(Words(Build(vm, ports, plan, host).value));
      options[i].0 == "-audiodev" ==> exists j :: 0 <= j < |options| && options[j].0 == "-spice"
  {
    hide Build, TidyArg, ArgText, CommaFreeInputs, Words, ReadPairs, IsAudio, IsSpice, Ladder;
    var args := Build(vm, ports, plan, host).value;
    var options := ReadPairs(Words(args));
    AllAreTidy(vm, ports, plan, host);
    PairsAreSwitches(args);
    assert args[i] in args;
    AudioSwitch(args[i]);
    if options[i].0 == "-audiodev" {
      AudioComesWithSpice(vm, ports, gpuModel, preferred, plan, host, args[i]);
      var b :| b in args && IsSpice(b);
      var j :| 0 <= j < |args| && args[j] == b;
      AudioSwitch(b);
      assert options[j].0 == "-spice";
    }
  }
}
