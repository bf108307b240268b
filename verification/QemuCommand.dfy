/**
  `build_qemu_command`: the helpers push words onto one command, a flag and its value at a
  time, and stop at the first bad path. What they end up with is read back name by name.
 */
module QemuCommand {
  import opened Wrappers
  import opened Sequences
  import opened LaunchLadder
  import opened QemuArgs
  import opened QemuReading
  import opened QemuWords

  lemma {:induction false} FlattenAppend(a: seq<seq<Arg>>, b: seq<seq<Arg>>)
    ensures Flatten(a + b) == Flatten(a) + Flatten(b)
  {
    if a == [] {
      Neutral(b);
      Neutral(Flatten(b));
    } else {
      TailOfAppend(a, b);
      FlattenAppend(a[1..], b);
      Associative(a[0], Flatten(a[1..]), Flatten(b));
    }
  }

  lemma FlattenSnoc(done: seq<seq<Arg>>, segment: seq<Arg>)
    ensures Flatten(done + [segment]) == Flatten(done) + segment
  {
    FlattenAppend(done, [segment]);
    assert Flatten([segment]) == segment + [];
    Neutral(segment);
  }

  class Command {
    var words: seq<string>
    ghost var args: seq<Arg>

    ghost predicate Valid()
      reads this
    {
      words == Words(args)
    }

    constructor ()
      ensures Valid() && args == []
    {
      words, args := [], [];
    }

    /** `.arg(flag).arg(value)` */
    method Push(a: Arg)
      requires Valid()
      modifies this
      ensures Valid() && args == old(args) + [a]
    {
      hide ArgText;
      WordsSnoc(args, a);
      words := words + ArgText(a);
      args := args + [a];
    }

    method PushAll(segment: seq<Arg>)
      requires Valid()
      modifies this
      ensures Valid()
      ensures args == old(args) + segment
    {
      for i := 0 to |segment|
        invariant Valid() && args == old(args) + segment[..i]
      {
        Push(segment[i]);
        TakeNext(segment, i);
        Associative(old(args), segment[..i], [segment[i]]);
      }
      assert segment[..|segment|] == segment;
    }

    method AppendDisk(vm: Vm, t: Tuning)
      requires Valid()
      modifies this
      ensures Valid()
      ensures args == old(args) + DiskArgs(vm, t)
    {
      hide DriveOptions, VirtioRefs, Words, ArgText, DiskDrive;
      if vm.diskBus == "sata" || vm.diskBus == "nvme" {
        Push(DiskDrive(vm.diskPath, t));
        if vm.diskBus == "nvme" {
          Push(Options(Device, [Word("nvme")], None, [Refers(DriveKey, Disk0)],
                       [Pair("serial", "virtua-disk0"), BootIndex(1)]));
        } else {
          Push(Options(Device, [Word("ich9-ahci")], Some(Ahci), [], []));
          Push(Options(Device, [Word("ide-hd")], None, [Refers(DriveKey, Disk0), OnBus(Ahci)], [BootIndex(1)]));
        }
        return;
      }
      if vm.architecture == "arm64" {
        Push(DiskDrive(vm.diskPath, t));
        Push(Options(Device, [Word("virtio-blk-pci")], None, VirtioRefs(t), [BootIndex(1)]));
        return;
      }
      if t.iothread {
        Push(DiskDrive(vm.diskPath, t));
        Push(Options(Device, [Word("virtio-blk-pci")], None, VirtioRefs(t), []));
        return;
      }
      Push(Options(Drive, [Pair("file", vm.diskPath), Pair("if", "virtio"), Pair("format", "qcow2")]
                   + DriveOptions(t), None, [], []));
    }

    method AppendCdroms(vm: Vm) returns (r: Result<(), string>)
      requires Valid()
      modifies this
      ensures Valid()
      ensures match CdArgs(vm)
              case Ok(cds) => r == Ok(()) && args == old(args) + cds
              case Err(e) => r == Err(e)
    {
      if vm.isoPath.Some? && !ValidPath(vm.isoPath.value) {
        return Err("ISO");
      }
      if vm.driverIsoPath.Some? && !ValidPath(vm.driverIsoPath.value) {
        return Err("ISO pilotes");
      }
      ghost var before := args;
      if vm.architecture == "arm64" {
        PushAll(IsoArgs(vm));
        PushAll(DriverArgs(vm));
        Associative(before, IsoArgs(vm), DriverArgs(vm));
        return Ok(());
      }
      if vm.isoPath.Some? {
        Push(Raw("-cdrom", vm.isoPath.value));
        Push(Raw("-boot", "order=dc,menu=on"));
      }
      if vm.driverIsoPath.Some? {
        Push(Options(Drive, [Pair("file", vm.driverIsoPath.value), Pair("if", "ide"), Pair("index", "3"),
                             Pair("media", "cdrom"), Pair("readonly", "on")], None, [], []));
      }
      return Ok(());
    }

    /** One more segment of the command line; `done` are those before it. */
    method Add(ghost done: seq<seq<Arg>>, segment: seq<Arg>) returns (ghost next: seq<seq<Arg>>)
      requires Valid()
      requires args == Flatten(done)
      modifies this
      ensures Valid()
      ensures next == done + [segment] && args == Flatten(next)
    {
      FlattenSnoc(done, segment);
      PushAll(segment);
      next := done + [segment];
    }

    method FillMachine(vm: Vm, ports: Ports, plan: Plan, host: Host)
      returns (r: Result<(), string>, ghost done: seq<seq<Arg>>)
      requires Valid()
      requires args == []
      modifies this
      ensures Valid()
      ensures r.Ok? <==> FirmwareArgs(vm, ports, plan, host).Ok?
      ensures r.Err? ==> r.error == FirmwareArgs(vm, ports, plan, host).error
      ensures r.Ok? ==> args == Flatten(done)
      ensures r.Ok? ==>
                done == [NameArgs(vm), MachineArgs(vm, plan), FirmwareArgs(vm, ports, plan, host).value,
                         IothreadArgs(TuningFor(host.os, plan)) + DiskArgs(vm, TuningFor(host.os, plan))]
    {
      hide Flatten, FirmwareArgs, DiskArgs, IothreadArgs, CdArgs, UnattendArgs, TpmArgs, SerialArgs, TuningFor;
      hide NameArgs, MachineArgs, GpuArgs, NetworkArgs, TunedDevices, KernelArgs;
      hide AgentArgs, SpiceArgs, AudioArgs, DisplayArgs;
      var t := TuningFor(host.os, plan);
      NothingToFlatten();
      done := Add([], NameArgs(vm));
      done := Add(done, MachineArgs(vm, plan));
      var firmware := FirmwareArgs(vm, ports, plan, host);
      if firmware.Err? {
        return Err(firmware.error), done;
      }
      done := Add(done, firmware.value);
      ghost var before := args;
      PushAll(IothreadArgs(t));
      AppendDisk(vm, t);
      Associative(before, IothreadArgs(t), DiskArgs(vm, t));
      FlattenSnoc(done, IothreadArgs(t) + DiskArgs(vm, t));
      done := done + [IothreadArgs(t) + DiskArgs(vm, t)];
      r := Ok(());
    }

    method FillDevices(vm: Vm, ports: Ports, plan: Plan, host: Host, ghost before: seq<seq<Arg>>)
      returns (r: Result<(), string>, ghost done: seq<seq<Arg>>)
      requires Valid()
      requires args == Flatten(before)
      modifies this
      ensures Valid()
      ensures r.Ok? <==> CdArgs(vm).Ok?
      ensures r.Err? ==> r.error == CdArgs(vm).error
      ensures r.Ok? ==> args == Flatten(done)
      ensures r.Ok? ==>
                done == before + [CdArgs(vm).value, GpuArgs(vm, plan), NetworkArgs(vm, ports, host),
                                  TunedDevices(vm, plan, host), KernelArgs(vm)]
    {
      hide Flatten, FirmwareArgs, DiskArgs, IothreadArgs, CdArgs, UnattendArgs, TpmArgs, SerialArgs, TuningFor;
      hide NameArgs, MachineArgs, GpuArgs, NetworkArgs, TunedDevices, KernelArgs;
      hide AgentArgs, SpiceArgs, AudioArgs, DisplayArgs;
      done := before;
      r := AppendCdroms(vm);
      if r.Err? {
        return;
      }
      FlattenSnoc(done, CdArgs(vm).value);
      done := done + [CdArgs(vm).value];
      done := Add(done, GpuArgs(vm, plan));
      done := Add(done, NetworkArgs(vm, ports, host));
      done := Add(done, TunedDevices(vm, plan, host));
      done := Add(done, KernelArgs(vm));
    }

    method FillChannels(vm: Vm, ports: Ports, plan: Plan, ghost before: seq<seq<Arg>>)
      returns (r: Result<(), string>, ghost done: seq<seq<Arg>>)
      requires Valid()
      requires args == Flatten(before)
      modifies this
      ensures Valid()
      ensures match (UnattendArgs(vm, ports), TpmArgs(ports), SerialArgs(ports))
              case (Ok(unattend), Ok(tpm), Ok(serial)) =>
                r == Ok(()) && args == Flatten(done) && done == before +
                  [unattend, tpm, AgentArgs(ports), SpiceArgs(ports, plan), AudioArgs(plan), serial, DisplayArgs(ports)]
              case (Err(e), _, _) => r == Err(e)
              case (_, Err(e), _) => r == Err(e)
              case (_, _, Err(e)) => r == Err(e)
    {
      hide Flatten, FirmwareArgs, DiskArgs, IothreadArgs, CdArgs, UnattendArgs, TpmArgs, SerialArgs, TuningFor;
      hide NameArgs, MachineArgs, GpuArgs, NetworkArgs, TunedDevices, KernelArgs;
      hide AgentArgs, SpiceArgs, AudioArgs, DisplayArgs;
      done := before;
      var unattend := UnattendArgs(vm, ports);
      if unattend.Err? {
        return Err(unattend.error), done;
      }
      done := Add(done, unattend.value);
      var tpm := TpmArgs(ports);
      if tpm.Err? {
        return Err(tpm.error), done;
      }
      done := Add(done, tpm.value);
      done := Add(done, AgentArgs(ports));
      done := Add(done, SpiceArgs(ports, plan));
      done := Add(done, AudioArgs(plan));
      var serial := SerialArgs(ports);
      if serial.Err? {
        return Err(serial.error), done;
      }
      done := Add(done, serial.value);
      done := Add(done, DisplayArgs(ports));
      r := Ok(());
    }

    method Fill(vm: Vm, ports: Ports, plan: Plan, host: Host) returns (r: Result<(), string>)
      requires Valid()
      requires args == []
      modifies this
      ensures Valid()
      ensures match Build(vm, ports, plan, host)
              case Ok(all) => r == Ok(()) && words == Words(all)
              case Err(e) => r == Err(e)
      ensures r.Ok? && CommaFreeInputs(vm, ports) ==> Resolved(ReadPairs(words))
    {
      hide Flatten, FirmwareArgs, DiskArgs, IothreadArgs, CdArgs, UnattendArgs, TpmArgs, SerialArgs, TuningFor;
      hide NameArgs, MachineArgs, GpuArgs, NetworkArgs, TunedDevices, KernelArgs;
      hide AgentArgs, SpiceArgs, AudioArgs, DisplayArgs;
      hide Words, ReadPairs, Resolved, CommaFreeInputs;
      ghost var done: seq<seq<Arg>>;
      r, done := FillMachine(vm, ports, plan, host);
      if r.Err? {
        return;
      }
      r, done := FillDevices(vm, ports, plan, host, done);
      if r.Err? {
        return;
      }
      r, done := FillChannels(vm, ports, plan, done);
      if r.Ok? {
        assert done == Segments(vm, ports, plan, host).value;
        assert Build(vm, ports, plan, host) == Ok(args);
        if CommaFreeInputs(vm, ports) {
          CommandLineResolves(vm, ports, plan, host);
        }
      }
    }
  }

  lemma NothingToFlatten()
    ensures Flatten([]) == []
  {
  }
}
