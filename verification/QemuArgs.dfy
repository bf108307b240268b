/**
  The QEMU command line of a local VM. Each option string is kept as its parts;
  a part that names a drive, a network back end, a character device... carries
  the identifier itself, so that "every reference resolves" can be stated.
 */
module QemuArgs {
  import opened Wrappers
  import opened Sequences
  import opened Decimals
  import OptionStrings
  import opened LaunchLadder

  // ---- Arguments ---------------------------------------------------------------------

  datatype Id = Disk0 | Cd0 | Cd1 | Net0 | Rng | Io0 | TpmChr | Tpm | Qga0 | SpiceSecret | AudioSpice | Serial
    | Unattend | UnattendUsb | Ahci

  function Name(id: Id): string {
    match id
    case Disk0 => "virtua-disk0"
    case Cd0 => "virtua-cd0"
    case Cd1 => "virtua-cd1"
    case Net0 => "net0"
    case Rng => "virtua-rng"
    case Io0 => "virtua-io0"
    case TpmChr => "virtua-tpm-chr"
    case Tpm => "virtua-tpm"
    case Qga0 => "qga0"
    case SpiceSecret => "virtua-spice-secret"
    case AudioSpice => "audioSpice"
    case Serial => "virtua-serial"
    case Unattend => "virtua-unattend"
    case UnattendUsb => "virtua-unattend-usb"
    case Ahci => "virtua-ahci"
  }

  /** The options that open a name space of identifiers. */
  datatype Flag = Drive | Netdev | Chardev | Tpmdev | Audiodev | Object | Device | Spice

  function FlagText(f: Flag): string {
    match f
    case Drive => "-drive"
    case Netdev => "-netdev"
    case Chardev => "-chardev"
    case Tpmdev => "-tpmdev"
    case Audiodev => "-audiodev"
    case Object => "-object"
    case Device => "-device"
    case Spice => "-spice"
  }

  /** Where an identifier is declared. */
  function Home(id: Id): Flag {
    match id
    case Disk0 | Cd0 | Cd1 | Unattend => Drive
    case Net0 => Netdev
    case TpmChr | Qga0 | Serial => Chardev
    case Tpm => Tpmdev
    case AudioSpice => Audiodev
    case Rng | Io0 | SpiceSecret => Object
    case UnattendUsb | Ahci => Device
  }

  datatype RefKey = DriveKey | NetdevKey | ChardevKey | TpmdevKey | AudiodevKey | RngKey | IothreadKey | SecretKey

  function KeyText(k: RefKey): string {
    match k
    case DriveKey => "drive"
    case NetdevKey => "netdev"
    case ChardevKey => "chardev"
    case TpmdevKey => "tpmdev"
    case AudiodevKey => "audiodev"
    case RngKey => "rng"
    case IothreadKey => "iothread"
    case SecretKey => "password-secret"
  }

  /** The name space QEMU looks the value of a key up in. */
  function Space(k: RefKey): Flag {
    match k
    case DriveKey => Drive
    case NetdevKey => Netdev
    case ChardevKey => Chardev
    case TpmdevKey => Tpmdev
    case AudiodevKey => Audiodev
    case RngKey | IothreadKey | SecretKey => Object
  }

  datatype Plain = Word(text: string) | Pair(key: string, value: string) | BootIndex(n: nat)

  datatype Ref = Refers(key: RefKey, id: Id) | OnBus(id: Id)

  function PlainText(p: Plain): string {
    match p
    case Word(text) => text
    case Pair(key, value) => key + "=" + value
    case BootIndex(n) => "bootindex=" + Decimal(n)
  }

  function RefText(r: Ref): string {
    match r
    case Refers(key, id) => KeyText(key) + "=" + Name(id)
    case OnBus(id) => "bus=" + Name(id) + ".0"
  }

  /**
    An option string is its plain parts, the identifier it declares, those it
    refers to, and more plain parts, in this order. `SerialTo` is `-serial
    chardev:NAME`; `Raw` arguments are pushed as they are.
   */
  datatype Arg = Raw(flag: string, value: string)
    | Options(kind: Flag, before: seq<Plain>, id: Option<Id>, refs: seq<Ref>, after: seq<Plain>)
    | SerialTo(target: Id)

  function PlainTexts(parts: seq<Plain>): seq<string> {
    if parts == [] then [] else [PlainText(parts[0])] + PlainTexts(parts[1..])
  }

  function RefTexts(refs: seq<Ref>): seq<string> {
    if refs == [] then [] else [RefText(refs[0])] + RefTexts(refs[1..])
  }

  function PartTexts(a: Arg): seq<string>
    requires a.Options?
  {
    PlainTexts(a.before) + (if a.id.Some? then ["id=" + Name(a.id.value)] else []) + RefTexts(a.refs)
      + PlainTexts(a.after)
  }

  /** The two words pushed on the command line. */
  function ArgText(a: Arg): (words: seq<string>)
    ensures |words| == 2
  {
    match a
    case Raw(flag, value) => [flag, value]
    case Options(kind, _, _, _, _) => [FlagText(kind), OptionStrings.Join(PartTexts(a))]
    case SerialTo(id) => ["-serial", "chardev:" + Name(id)]
  }

  // ---- Inputs ------------------------------------------------------------------------

  datatype AutoInstall = AutoInstall(os: string, kernel: Option<string>, initrd: Option<string>, append: Option<string>)

  datatype Vm = Vm(id: string, architecture: string, cpu: nat, memoryMib: nat, diskPath: string, diskBus: string,
                   isoPath: Option<string>, driverIsoPath: Option<string>, guestOs: string,
                   network: string, networkModel: string, autoinstall: Option<AutoInstall>)

  datatype Uefi = Uefi(code: string, vars: string, smm: bool)

  datatype Tpm = CrbDevice | TisDevicePpiOff | TisDevice | Tis

  datatype Ports = Ports(vncDisplay: nat, spicePort: nat, spicePassword: string, qmpPort: nat, qgaPort: nat,
                         uefi: Option<Uefi>, tpmSocket: Option<string>, tpmDevice: Tpm, unattendDir: Option<string>,
                         serialLog: Option<string>, rdpForward: Option<(string, nat)>)

  /** The host: its OS, and QEMU's own ARM64 firmware when there is one. */
  datatype Host = Host(os: string, firmware: Option<string>)

  // ---- Segments of the command line ---------------------------------------------------

  predicate ValidPath(path: string) {
    ',' !in path && '\n' !in path && '\r' !in path
  }

  const KVM_HYPERV_FLAGS :=
    "hv_relaxed,hv_vapic,hv_spinlocks=0x1fff,hv_vpindex,hv_runtime,"
    + "hv_synic,hv_stimer,hv_time,hv_frequencies,hv_tlbflush,hv_ipi"

  const WHPX_V2_FLAGS := "+ssse3,+sse4.1,+sse4.2,+popcnt,+cx16,+lahf_lm"

  function MachineArgs(vm: Vm, plan: Plan): seq<Arg> {
    var windows, arm64 := vm.guestOs == "windows", vm.architecture == "arm64";
    var machine := (if arm64 then "virt" else if plan.accelerator == "whpx" then "q35,kernel-irqchip=off" else "q35")
                   + (if plan.tuned && windows && !arm64 && plan.accelerator == "kvm" then ",hpet=off" else "");
    var cpu := if plan.accelerator == TCG then "max"
               else if plan.accelerator == "whpx" then
                 (if plan.tuned then "qemu64," + WHPX_V2_FLAGS + ",-hypervisor" else "qemu64,-hypervisor")
               else if plan.accelerator == "kvm" && plan.tuned && windows && !arm64 then "host," + KVM_HYPERV_FLAGS
               else "host";
    [Raw("-machine", machine),
     Raw("-accel", if plan.accelerator == TCG then "tcg,thread=multi" else plan.accelerator),
     Raw("-cpu", cpu)]
  }

  function PflashArgs(uefi: Uefi): seq<Arg> {
    (if uefi.smm then [Raw("-machine", "smm=on"), Raw("-global", "driver=cfi.pflash01,property=secure,value=on")]
     else [])
    + [Options(Drive, [Pair("if", "pflash"), Pair("format", "raw"), Pair("unit", "0"), Pair("readonly", "on"),
                       Pair("file", uefi.code)], None, [], []),
       Options(Drive, [Pair("if", "pflash"), Pair("format", "raw"), Pair("unit", "1"), Pair("file", uefi.vars)],
               None, [], [])]
  }

  /** The input devices of an ARM64 guest. */
  function ArmUsb(): seq<Arg> {
    [Options(Device, [Word("qemu-xhci")], None, [], []),
     Options(Device, [Word("usb-kbd")], None, [], []),
     Options(Device, [Word("usb-tablet")], None, [], [])]
  }

  function Pointer(plan: Plan): seq<Arg> {
    if !plan.usbTablet then []
    else [Options(Device, [Word("usb-ehci")], None, [], []), Options(Device, [Word("usb-tablet")], None, [], [])]
  }

  function FirmwareArgs(vm: Vm, ports: Ports, plan: Plan, host: Host): Result<seq<Arg>, string> {
    if vm.architecture == "arm64" then
      if ports.uefi.Some? && plan.uefiVars then
        if ValidUefi(ports.uefi.value) then Ok(PflashArgs(ports.uefi.value) + ArmUsb()) else Err("firmware")
      else if host.firmware.Some? then Ok([Raw("-bios", host.firmware.value)] + ArmUsb())
      else Err("Firmware ARM64 QEMU absent")
    else if ports.uefi.Some? && !ValidUefi(ports.uefi.value) then Err("firmware")
    else Ok((if ports.uefi.Some? then PflashArgs(ports.uefi.value) else []) + Pointer(plan))
  }

  predicate ValidUefi(uefi: Uefi) {
    ValidPath(uefi.code) && ValidPath(uefi.vars)
  }

  datatype Tuning = Tuning(iothread: bool, aio: Option<string>)

  function TuningFor(os: string, plan: Plan): Tuning {
    if !plan.tuned then Tuning(false, None)
    else if os == "linux" && plan.accelerator == "kvm" then Tuning(true, Some("io_uring"))
    else if os == "linux" || os == "macos" then Tuning(true, None)
    else Tuning(false, None)
  }

  function DriveOptions(t: Tuning): seq<Plain> {
    [Pair("cache", "writeback"), Pair("discard", "unmap"), Pair("detect-zeroes", "unmap")]
    + (if t.aio.Some? then [Pair("aio", t.aio.value)] else [])
  }

  function DiskDrive(path: string, t: Tuning): Arg {
    Options(Drive, [Pair("file", path), Pair("if", "none")], Some(Disk0), [],
            [Pair("format", "qcow2")] + DriveOptions(t))
  }

  function DiskArgs(vm: Vm, t: Tuning): seq<Arg> {
    if vm.diskBus == "nvme" then
      [DiskDrive(vm.diskPath, t),
       Options(Device, [Word("nvme")], None, [Refers(DriveKey, Disk0)], [Pair("serial", "virtua-disk0"), BootIndex(1)])]
    else if vm.diskBus == "sata" then
      [DiskDrive(vm.diskPath, t),
       Options(Device, [Word("ich9-ahci")], Some(Ahci), [], []),
       Options(Device, [Word("ide-hd")], None, [Refers(DriveKey, Disk0), OnBus(Ahci)], [BootIndex(1)])]
    else if vm.architecture == "arm64" then
      [DiskDrive(vm.diskPath, t),
       Options(Device, [Word("virtio-blk-pci")], None, VirtioRefs(t), [BootIndex(1)])]
    else if t.iothread then
      [DiskDrive(vm.diskPath, t), Options(Device, [Word("virtio-blk-pci")], None, VirtioRefs(t), [])]
    else
      [Options(Drive, [Pair("file", vm.diskPath), Pair("if", "virtio"), Pair("format", "qcow2")] + DriveOptions(t),
               None, [], [])]
  }

  /** The discs of an ARM64 VM are USB drives, the installer first in the boot order. */
  function IsoArgs(vm: Vm): seq<Arg> {
    if vm.isoPath.None? then []
    else [Options(Drive, [Pair("file", vm.isoPath.value), Pair("if", "none")], Some(Cd0), [],
                  [Pair("media", "cdrom"), Pair("readonly", "on")]),
          Options(Device, [Word("usb-storage")], None, [Refers(DriveKey, Cd0)],
                  [Pair("removable", "on"), BootIndex(0)])]
  }

  function DriverArgs(vm: Vm): seq<Arg> {
    if vm.driverIsoPath.None? then []
    else [Options(Drive, [Pair("file", vm.driverIsoPath.value), Pair("if", "none")], Some(Cd1), [],
                  [Pair("media", "cdrom"), Pair("readonly", "on")]),
          Options(Device, [Word("usb-storage")], None, [Refers(DriveKey, Cd1)], [Pair("removable", "on")])]
  }

  /** A path of the VM record after `trim`; blank paths count as absent. `None` here means no disc. */
  function CdArgs(vm: Vm): Result<seq<Arg>, string> {
    if vm.isoPath.Some? && !ValidPath(vm.isoPath.value) then Err("ISO")
    else if vm.driverIsoPath.Some? && !ValidPath(vm.driverIsoPath.value) then Err("ISO pilotes")
    else if vm.architecture == "arm64" then
      Ok(IsoArgs(vm) + DriverArgs(vm))
    else
      Ok((if vm.isoPath.Some? then [Raw("-cdrom", vm.isoPath.value), Raw("-boot", "order=dc,menu=on")] else [])
         + (if vm.driverIsoPath.Some? then
              [Options(Drive, [Pair("file", vm.driverIsoPath.value), Pair("if", "ide"), Pair("index", "3"),
                               Pair("media", "cdrom"), Pair("readonly", "on")], None, [], [])]
            else []))
  }

  function GpuArgs(vm: Vm, plan: Plan): seq<Arg> {
    var arm64 := vm.architecture == "arm64";
    [Options(Device, [Word(
      if plan.gpuModel == "std" then (if arm64 then "ramfb" else "VGA")
      else if plan.gpuModel == "qxl" then "qxl-vga"
      else if plan.gpuModel == "cirrus" then "cirrus-vga"
      else if arm64 then "virtio-gpu-pci" else "virtio-vga")], None, [], [])]
  }

  function NetworkArgs(vm: Vm, ports: Ports, host: Host): seq<Arg> {
    if vm.network == "isolated" then []
    else
      var (backend, options) :=
        if vm.network == "vmnet-shared" && host.os == "macos" then ("vmnet-shared", [])
        else if vm.network == "vmnet-bridged" && host.os == "macos" then ("vmnet-bridged", [Pair("ifname", "en0")])
        else match ports.rdpForward
          case Some((address, port)) => ("user", [Pair("hostfwd", "tcp:" + address + ":" + Decimal(port) + "-:3389")])
          case None => ("user", []);
      var model := if vm.networkModel == "e1000" || vm.networkModel == "rtl8139" then vm.networkModel
                   else if vm.architecture == "amd64" then "e1000" else "virtio";
      var device := if model != "virtio" then model
                    else if vm.architecture == "arm64" && vm.guestOs != "windows" then "virtio-net-device"
                    else "virtio-net-pci";
      [Options(Netdev, [Word(backend)], Some(Net0), [], options),
       Options(Device, [Word(device)], None, [Refers(NetdevKey, Net0)], [])]
  }

  function TunedDevices(vm: Vm, plan: Plan, host: Host): seq<Arg> {
    if !plan.tuned then []
    else
      [Options(Object, [Word("rng-builtin")], Some(Rng), [], []),
       Options(Device, [Word("virtio-rng-pci")], None, [Refers(RngKey, Rng)], [])]
      + (if host.os == "linux" && plan.accelerator == "kvm" then
           [Options(Device, [Word("virtio-balloon-pci"), Pair("free-page-reporting", "on")], None, [], [])] else [])
      + (if vm.guestOs == "windows" && vm.architecture != "arm64" then
           [Raw("-rtc", "base=localtime,driftfix=slew")]
           + (if plan.accelerator == "kvm" then [Raw("-global", "kvm-pit.lost_tick_policy=delay")] else [])
         else [])
  }

  /** Quick create boots the Debian installer's kernel directly. */
  function KernelArgs(vm: Vm): seq<Arg> {
    match vm.autoinstall
    case Some(AutoInstall(_, Some(kernel), Some(initrd), append)) =>
      [Raw("-kernel", kernel), Raw("-initrd", initrd)] + (if append.Some? then [Raw("-append", append.value)] else [])
    case _ => []
  }

  function UnattendArgs(vm: Vm, ports: Ports): Result<seq<Arg>, string> {
    match ports.unattendDir
    case None => Ok([])
    case Some(dir) =>
      if !ValidPath(dir) then Err("autounattend")
      else
        var drive := Options(Drive, [Pair("if", "none")], Some(Unattend), [],
                             [Pair("format", "raw"), Pair("readonly", "on"), Pair("file", "fat:" + dir)]);
        if vm.architecture == "arm64" then
          Ok([drive, Options(Device, [Word("usb-storage")], None, [Refers(DriveKey, Unattend)],
                             [Pair("removable", "on")])])
        else
          Ok([drive,
              Options(Device, [Word("qemu-xhci")], Some(UnattendUsb), [], []),
              Options(Device, [Word("usb-storage")], None, [OnBus(UnattendUsb), Refers(DriveKey, Unattend)],
                      [Pair("removable", "on")])])
  }

  function TpmModel(t: Tpm): seq<Plain> {
    match t
    case CrbDevice => [Word("tpm-crb-device")]
    case TisDevicePpiOff => [Word("tpm-tis-device"), Pair("ppi", "off")]
    case TisDevice => [Word("tpm-tis-device")]
    case Tis => [Word("tpm-tis")]
  }

  function TpmArgs(ports: Ports): Result<seq<Arg>, string> {
    match ports.tpmSocket
    case None => Ok([])
    case Some(socket) =>
      if !ValidPath(socket) then Err("TPM")
      else Ok([Options(Chardev, [Word("socket")], Some(TpmChr), [], [Pair("path", socket)]),
               Options(Tpmdev, [Word("emulator")], Some(Id.Tpm), [Refers(ChardevKey, TpmChr)], []),
               Options(Device, TpmModel(ports.tpmDevice), None, [Refers(TpmdevKey, Id.Tpm)], [])])
  }

  function AgentArgs(ports: Ports): seq<Arg> {
    [Options(Chardev, [Word("socket"), Pair("host", "127.0.0.1"), Pair("port", Decimal(ports.qgaPort)),
                       Pair("server", "on"), Pair("wait", "off")], Some(Qga0), [], []),
     Options(Device, [Word("virtio-serial-pci")], None, [], []),
     Options(Device, [Word("virtserialport")], None, [Refers(ChardevKey, Qga0)],
             [Pair("name", "org.qemu.guest_agent.0")])]
  }

  function SpiceArgs(ports: Ports, plan: Plan): seq<Arg> {
    var common := [Pair("port", Decimal(ports.spicePort)), Pair("addr", "127.0.0.1"), Pair("disable-ticketing", "off")];
    match plan.spice
    case Secret =>
      [Options(Object, [Word("secret")], Some(SpiceSecret), [], [Pair("data", ports.spicePassword)]),
       Options(Spice, common, None, [Refers(SecretKey, SpiceSecret)], [])]
    case Inline => [Options(Spice, common + [Pair("password", ports.spicePassword)], None, [], [])]
    case Off => []
  }

  function AudioArgs(plan: Plan): seq<Arg> {
    if !plan.audio then []
    else [Options(Audiodev, [Word("spice")], Some(AudioSpice), [], []),
          Options(Device, [Word("intel-hda")], None, [], []),
          Options(Device, [Word("hda-duplex")], None, [Refers(AudiodevKey, AudioSpice)], [])]
  }

  function SerialArgs(ports: Ports): Result<seq<Arg>, string> {
    match ports.serialLog
    case None => Ok([])
    case Some(path) =>
      if !ValidPath(path) then Err("journal serie")
      else Ok([Options(Chardev, [Word("file")], Some(Serial), [], [Pair("path", path)]), SerialTo(Serial)])
  }

  function DisplayArgs(ports: Ports): seq<Arg> {
    [Raw("-display", "none"),
     Raw("-vnc", "127.0.0.1:" + Decimal(ports.vncDisplay) + ",share=force-shared"),
     Raw("-qmp", "tcp:127.0.0.1:" + Decimal(ports.qmpPort) + ",server=on,wait=off")]
  }

  function NameArgs(vm: Vm): seq<Arg> {
    var cpu := Decimal(if vm.cpu < 1 then 1 else vm.cpu);
    [Raw("-name", vm.id), Raw("-m", Decimal(vm.memoryMib)), Raw("-smp", cpu + ",sockets=1,cores=" + cpu + ",threads=1")]
  }

  function IothreadArgs(t: Tuning): seq<Arg> {
    if t.iothread then [Options(Object, [Word("iothread")], Some(Io0), [], [])] else []
  }

  // ---- The whole command line ------------------------------------------------------------

  function Flatten(segments: seq<seq<Arg>>): seq<Arg> {
    if segments == [] then [] else segments[0] + Flatten(segments[1..])
  }

  function Segments(vm: Vm, ports: Ports, plan: Plan, host: Host): (r: Result<seq<seq<Arg>>, string>)
    ensures r.Ok? ==> |r.value| == 16
  {
    var t := TuningFor(host.os, plan);
    match (FirmwareArgs(vm, ports, plan, host), CdArgs(vm), UnattendArgs(vm, ports), TpmArgs(ports), SerialArgs(ports))
    case (Ok(firmware), Ok(cds), Ok(unattend), Ok(tpm), Ok(serial)) =>
      Ok([NameArgs(vm), MachineArgs(vm, plan), firmware, IothreadArgs(t) + DiskArgs(vm, t), cds, GpuArgs(vm, plan),
          NetworkArgs(vm, ports, host), TunedDevices(vm, plan, host), KernelArgs(vm), unattend, tpm, AgentArgs(ports),
          SpiceArgs(ports, plan), AudioArgs(plan), serial, DisplayArgs(ports)])
    case (Err(e), _, _, _, _) => Err(e)
    case (_, Err(e), _, _, _) => Err(e)
    case (_, _, Err(e), _, _) => Err(e)
    case (_, _, _, Err(e), _) => Err(e)
    case (_, _, _, _, Err(e)) => Err(e)
  }

  function Build(vm: Vm, ports: Ports, plan: Plan, host: Host): Result<seq<Arg>, string> {
    match Segments(vm, ports, plan, host)
    case Ok(segments) => Ok(Flatten(segments))
    case Err(e) => Err(e)
  }

  // ---- References -------------------------------------------------------------------------

  function DeclsOf(a: Arg): set<Id> {
    if a.Options? && a.id.Some? then {a.id.value} else {}
  }

  function IdsOf(refs: seq<Ref>): set<Id> {
    if refs == [] then {} else {refs[0].id} + IdsOf(refs[1..])
  }

  function RefsOf(a: Arg): set<Id> {
    match a
    case Options(_, _, _, refs, _) => IdsOf(refs)
    case SerialTo(id) => {id}
    case Raw(_, _) => {}
  }

  /** Identifiers are declared, and looked up, in their own name space. */
  predicate WellPlaced(a: Arg) {
    match a
    case Options(kind, _, id, refs, _) =>
      (id.Some? ==> Home(id.value) == kind) && forall r :: r in refs ==> RefPlaced(r)
    case SerialTo(id) => Home(id) == Chardev
    case Raw(_, _) => true
  }

  predicate RefPlaced(r: Ref) {
    Home(r.id) == if r.Refers? then Space(r.key) else Device
  }

  function DeclaredAfter(before: set<Id>, args: seq<Arg>): set<Id>
    decreases |args|
  {
    if args == [] then before else DeclaredAfter(before + DeclsOf(args[0]), args[1..])
  }

  /** The argument can follow arguments that declared `before`: what it refers to is there, what it declares is not. */
  predicate Follows(a: Arg, before: set<Id>) {
    WellPlaced(a) && RefsOf(a) <= before && DeclsOf(a) !! before
  }

  predicate ResolvedAfter(before: set<Id>, args: seq<Arg>)
    decreases |args|
  {
    args == [] || (Follows(args[0], before) && ResolvedAfter(before + DeclsOf(args[0]), args[1..]))
  }

  lemma {:induction false} ResolvedAppend(before: set<Id>, a: seq<Arg>, b: seq<Arg>)
    ensures DeclaredAfter(before, a + b) == DeclaredAfter(DeclaredAfter(before, a), b)
    ensures ResolvedAfter(before, a + b) <==> ResolvedAfter(before, a) && ResolvedAfter(DeclaredAfter(before, a), b)
    decreases |a|
  {
    if a == [] {
      Neutral(b);
    } else {
      TailOfAppend(a, b);
      ResolvedAppend(before + DeclsOf(a[0]), a[1..], b);
    }
  }

  /** A segment that can follow `before` and adds only identifiers of `own`. */
  predicate Attaches(segment: seq<Arg>, before: set<Id>, own: set<Id>) {
    ResolvedAfter(before, segment) && before <= DeclaredAfter(before, segment) <= before + own
  }

  lemma NoArgument(before: set<Id>)
    ensures Attaches([], before, {})
  {
  }

  lemma One(a: Arg, before: set<Id>)
    requires Follows(a, before)
    ensures ResolvedAfter(before, [a]) && DeclaredAfter(before, [a]) == before + DeclsOf(a)
  {
    assert [a][1..] == [];
  }

  lemma Two(a: Arg, b: Arg, before: set<Id>)
    requires Follows(a, before) && Follows(b, before + DeclsOf(a))
    ensures ResolvedAfter(before, [a, b]) && DeclaredAfter(before, [a, b]) == before + DeclsOf(a) + DeclsOf(b)
  {
    hide Follows, DeclsOf;
    assert [a, b][1..] == [b];
    One(b, before + DeclsOf(a));
  }

  lemma Three(a: Arg, b: Arg, c: Arg, before: set<Id>)
    requires Follows(a, before) && Follows(b, before + DeclsOf(a)) && Follows(c, before + DeclsOf(a) + DeclsOf(b))
    ensures ResolvedAfter(before, [a, b, c])
    ensures DeclaredAfter(before, [a, b, c]) == before + DeclsOf(a) + DeclsOf(b) + DeclsOf(c)
  {
    hide Follows, DeclsOf;
    assert [a, b, c][1..] == [b, c];
    Two(b, c, before + DeclsOf(a));
  }

  function VirtioRefs(t: Tuning): (refs: seq<Ref>)
    ensures IdsOf(refs) == if t.iothread then {Disk0, Io0} else {Disk0}
    ensures forall r :: r in refs ==> RefPlaced(r)
  {
    if t.iothread then
      assert [Refers(DriveKey, Disk0), Refers(IothreadKey, Io0)][1..] == [Refers(IothreadKey, Io0)];
      [Refers(DriveKey, Disk0), Refers(IothreadKey, Io0)]
    else [Refers(DriveKey, Disk0)]
  }

  lemma DiskSegment(vm: Vm, t: Tuning, before: set<Id>)
    requires before !! {Disk0, Ahci} && (t.iothread ==> Io0 in before)
    ensures Attaches(DiskArgs(vm, t), before, {Disk0, Ahci})
  {
    hide DriveOptions, VirtioRefs;
    var args := DiskArgs(vm, t);
    if vm.diskBus == "nvme" {
      Two(args[0], args[1], before);
    } else if vm.diskBus == "sata" {
      Three(args[0], args[1], args[2], before);
    } else if vm.architecture == "arm64" || t.iothread {
      Two(args[0], args[1], before);
    } else {
      One(args[0], before);
    }
  }

  lemma FirmwareSegment(vm: Vm, ports: Ports, plan: Plan, host: Host, before: set<Id>)
    requires FirmwareArgs(vm, ports, plan, host).Ok?
    ensures Attaches(FirmwareArgs(vm, ports, plan, host).value, before, {})
  {
    PlainSegment(FirmwareArgs(vm, ports, plan, host).value, before);
  }

  /** Arguments without any identifier attach anywhere. */
  lemma {:induction false} PlainSegment(args: seq<Arg>, before: set<Id>)
    requires forall a :: a in args ==> a.Raw? || (a.Options? && a.id.None? && a.refs == [])
    ensures Attaches(args, before, {})
  {
    if args != [] {
      assert DeclsOf(args[0]) == {} && before + {} == before;
      PlainSegment(args[1..], before);
    }
  }

  lemma CdSegment(vm: Vm, before: set<Id>)
    requires CdArgs(vm).Ok? && before !! {Cd0, Cd1}
    ensures Attaches(CdArgs(vm).value, before, {Cd0, Cd1})
  {
    hide ResolvedAfter, DeclaredAfter, Follows;
    var args := CdArgs(vm).value;
    if vm.architecture == "arm64" {
      var installer := IsoArgs(vm);
      IsoSegment(vm, before);
      DriverSegment(vm, DeclaredAfter(before, installer));
      ResolvedAppend(before, installer, DriverArgs(vm));
    } else {
      PlainSegment(args, before);
    }
  }

  lemma IsoSegment(vm: Vm, before: set<Id>)
    requires Cd0 !in before
    ensures Attaches(IsoArgs(vm), before, {Cd0})
  {
    if vm.isoPath.Some? {
      Two(IsoArgs(vm)[0], IsoArgs(vm)[1], before);
    }
  }

  lemma DriverSegment(vm: Vm, before: set<Id>)
    requires Cd1 !in before
    ensures Attaches(DriverArgs(vm), before, {Cd1})
  {
    if vm.driverIsoPath.Some? {
      Two(DriverArgs(vm)[0], DriverArgs(vm)[1], before);
    }
  }

  lemma NetworkSegment(vm: Vm, ports: Ports, host: Host, before: set<Id>)
    requires Net0 !in before
    ensures Attaches(NetworkArgs(vm, ports, host), before, {Net0})
  {
    if vm.network != "isolated" {
      var args := NetworkArgs(vm, ports, host);
      Two(args[0], args[1], before);
    }
  }

  lemma TunedSegment(vm: Vm, plan: Plan, host: Host, before: set<Id>)
    requires Rng !in before
    ensures Attaches(TunedDevices(vm, plan, host), before, {Rng})
  {
    hide ResolvedAfter, DeclaredAfter;
    if plan.tuned {
      var args := TunedDevices(vm, plan, host);
      Two(args[0], args[1], before);
      PlainSegment(args[2..], DeclaredAfter(before, [args[0], args[1]]));
      ResolvedAppend(before, [args[0], args[1]], args[2..]);
      assert args == [args[0], args[1]] + args[2..];
    } else {
      NoArgument(before);
    }
  }

  lemma UnattendSegment(vm: Vm, ports: Ports, before: set<Id>)
    requires UnattendArgs(vm, ports).Ok? && before !! {Unattend, UnattendUsb}
    ensures Attaches(UnattendArgs(vm, ports).value, before, {Unattend, UnattendUsb})
  {
    if ports.unattendDir.Some? {
      var args := UnattendArgs(vm, ports).value;
      if vm.architecture == "arm64" {
        Two(args[0], args[1], before);
      } else {
        assert args[2].refs[1..] == [Refers(DriveKey, Unattend)];
        Three(args[0], args[1], args[2], before);
      }
    }
  }

  lemma TpmSegment(ports: Ports, before: set<Id>)
    requires TpmArgs(ports).Ok? && before !! {TpmChr, Id.Tpm}
    ensures Attaches(TpmArgs(ports).value, before, {TpmChr, Id.Tpm})
  {
    if ports.tpmSocket.Some? {
      var args := TpmArgs(ports).value;
      Three(args[0], args[1], args[2], before);
    }
  }

  lemma AgentSegment(ports: Ports, before: set<Id>)
    requires Qga0 !in before
    ensures Attaches(AgentArgs(ports), before, {Qga0})
  {
    var args := AgentArgs(ports);
    Three(args[0], args[1], args[2], before);
  }

  lemma SpiceSegment(ports: Ports, plan: Plan, before: set<Id>)
    requires SpiceSecret !in before
    ensures Attaches(SpiceArgs(ports, plan), before, {SpiceSecret})
  {
    var args := SpiceArgs(ports, plan);
    match plan.spice {
      case Secret => Two(args[0], args[1], before);
      case Inline => One(args[0], before);
      case Off =>
    }
  }

  lemma AudioSegment(plan: Plan, before: set<Id>)
    requires AudioSpice !in before
    ensures Attaches(AudioArgs(plan), before, {AudioSpice})
  {
    if plan.audio {
      var args := AudioArgs(plan);
      Three(args[0], args[1], args[2], before);
    }
  }

  lemma SerialSegment(ports: Ports, before: set<Id>)
    requires SerialArgs(ports).Ok? && Serial !in before
    ensures Attaches(SerialArgs(ports).value, before, {Serial})
  {
    if ports.serialLog.Some? {
      var args := SerialArgs(ports).value;
      Two(args[0], args[1], before);
    }
  }

  lemma IothreadSegment(t: Tuning, before: set<Id>)
    requires Io0 !in before
    ensures Attaches(IothreadArgs(t), before, {Io0})
    ensures t.iothread ==> Io0 in DeclaredAfter(before, IothreadArgs(t))
  {
    if t.iothread {
      One(IothreadArgs(t)[0], before);
    }
  }

  /** The segment that declares an identifier. */
  function SegmentOf(id: Id): nat {
    match id
    case Io0 | Disk0 | Ahci => 3
    case Cd0 | Cd1 => 4
    case Net0 => 6
    case Rng => 7
    case Unattend | UnattendUsb => 9
    case TpmChr | Tpm => 10
    case Qga0 => 11
    case SpiceSecret => 12
    case AudioSpice => 13
    case Serial => 14
  }

  ghost predicate Below(ids: set<Id>, k: nat) {
    forall id :: id in ids ==> SegmentOf(id) < k
  }

  lemma StorageSegment(vm: Vm, t: Tuning, before: set<Id>)
    requires before !! {Io0, Disk0, Ahci}
    ensures Attaches(IothreadArgs(t) + DiskArgs(vm, t), before, {Io0, Disk0, Ahci})
  {
    hide ResolvedAfter, DeclaredAfter, IothreadArgs, DiskArgs;
    IothreadSegment(t, before);
    DiskSegment(vm, t, DeclaredAfter(before, IothreadArgs(t)));
    ResolvedAppend(before, IothreadArgs(t), DiskArgs(vm, t));
  }

  lemma FirstSegments(vm: Vm, ports: Ports, plan: Plan, host: Host, k: nat, before: set<Id>)
    requires Segments(vm, ports, plan, host).Ok? && k < 8 && Below(before, k)
    ensures var segment := Segments(vm, ports, plan, host).value[k];
      ResolvedAfter(before, segment) && Below(DeclaredAfter(before, segment), k + 1)
  {
    hide ResolvedAfter, DeclaredAfter, FirmwareArgs, CdArgs, UnattendArgs, TpmArgs, SerialArgs, DiskArgs, IothreadArgs;
    hide NetworkArgs, TunedDevices, AgentArgs, SpiceArgs, AudioArgs, DisplayArgs, KernelArgs;
    match k {
      case 2 => FirmwareSegment(vm, ports, plan, host, before);
      case 3 => StorageSegment(vm, TuningFor(host.os, plan), before);
      case 4 => CdSegment(vm, before);
      case 6 => NetworkSegment(vm, ports, host, before);
      case 7 => TunedSegment(vm, plan, host, before);
      case _ => PlainSegment(Segments(vm, ports, plan, host).value[k], before);
    }
  }

  lemma LastSegments(vm: Vm, ports: Ports, plan: Plan, host: Host, k: nat, before: set<Id>)
    requires Segments(vm, ports, plan, host).Ok? && 8 <= k < |Segments(vm, ports, plan, host).value| && Below(before, k)
    ensures var segment := Segments(vm, ports, plan, host).value[k];
      ResolvedAfter(before, segment) && Below(DeclaredAfter(before, segment), k + 1)
  {
    hide ResolvedAfter, DeclaredAfter, FirmwareArgs, CdArgs, UnattendArgs, TpmArgs, SerialArgs, DiskArgs, IothreadArgs;
    hide NetworkArgs, TunedDevices, AgentArgs, SpiceArgs, AudioArgs, NameArgs, MachineArgs, GpuArgs;
    match k {
      case 9 => UnattendSegment(vm, ports, before);
      case 10 => TpmSegment(ports, before);
      case 11 => AgentSegment(ports, before);
      case 12 => SpiceSegment(ports, plan, before);
      case 13 => AudioSegment(plan, before);
      case 14 => SerialSegment(ports, before);
      case _ => PlainSegment(Segments(vm, ports, plan, host).value[k], before);
    }
  }

  lemma {:induction false} FlattenResolves(vm: Vm, ports: Ports, plan: Plan, host: Host, k: nat, before: set<Id>)
    requires Segments(vm, ports, plan, host).Ok? && k <= |Segments(vm, ports, plan, host).value|
    requires Below(before, k)
    ensures ResolvedAfter(before, Flatten(Segments(vm, ports, plan, host).value[k..]))
    decreases |Segments(vm, ports, plan, host).value| - k
  {
    hide Segments, Below;
    var segments := Segments(vm, ports, plan, host).value;
    if k < |segments| {
      if k < 8 {
        FirstSegments(vm, ports, plan, host, k, before);
      } else {
        LastSegments(vm, ports, plan, host, k, before);
      }
      FlattenResolves(vm, ports, plan, host, k + 1, DeclaredAfter(before, segments[k]));
      assert segments[k..][1..] == segments[k + 1..];
      ResolvedAppend(before, segments[k], Flatten(segments[k + 1..]));
    }
  }

  lemma {:induction false} ResolvedMeans(before: set<Id>, args: seq<Arg>, i: nat)
    requires ResolvedAfter(before, args) && i < |args|
    ensures WellPlaced(args[i]) && DeclsOf(args[i]) !! before
    ensures forall id :: id in RefsOf(args[i]) && id !in before ==> exists j :: 0 <= j < i && id in DeclsOf(args[j])
    ensures forall j :: 0 <= j < i ==> DeclsOf(args[j]) !! DeclsOf(args[i])
    decreases |args|
  {
    if i > 0 {
      var b := before + DeclsOf(args[0]);
      ResolvedMeans(b, args[1..], i - 1);
      forall id | id in RefsOf(args[i]) && id !in before
        ensures exists j :: 0 <= j < i && id in DeclsOf(args[j])
      {
        if id !in DeclsOf(args[0]) {
          var j :| 0 <= j < i - 1 && id in DeclsOf(args[1..][j]);
          assert id in DeclsOf(args[j + 1]);
        }
      }
      forall j | 0 <= j < i
        ensures DeclsOf(args[j]) !! DeclsOf(args[i])
      {
        if j > 0 {
          assert args[j] == args[1..][j - 1];
        }
      }
    }
  }

  /**
    For every VM, plan and host: each identifier a command line refers to is
    declared by exactly one argument, an earlier one, of the option QEMU looks it
    up in; and no identifier is declared twice.
   */
  lemma ReferencesResolve(vm: Vm, ports: Ports, plan: Plan, host: Host)
    requires Build(vm, ports, plan, host).Ok?
    ensures var args := Build(vm, ports, plan, host).value;
      && (forall i :: 0 <= i < |args| ==> WellPlaced(args[i]))
      && (forall i, id :: 0 <= i < |args| && id in RefsOf(args[i]) ==> exists j :: 0 <= j < i && id in DeclsOf(args[j]))
      && (forall i, j :: 0 <= j < i < |args| ==> DeclsOf(args[j]) !! DeclsOf(args[i]))
  {
    hide Segments, DeclsOf, RefsOf, WellPlaced, ResolvedAfter;
    var segments := Segments(vm, ports, plan, host).value;
    FlattenResolves(vm, ports, plan, host, 0, {});
    assert segments[0..] == segments;
    var args := Build(vm, ports, plan, host).value;
    forall i | 0 <= i < |args|
      ensures WellPlaced(args[i])
      ensures forall id :: id in RefsOf(args[i]) ==> exists j :: 0 <= j < i && id in DeclsOf(args[j])
      ensures forall j :: 0 <= j < i ==> DeclsOf(args[j]) !! DeclsOf(args[i])
    {
      ResolvedMeans({}, args, i);
    }
  }

  /** Different identifiers are different words, so a reference names one declaration only. */
  lemma NamesAreDistinct(a: Id, b: Id)
    requires Name(a) == Name(b)
    ensures a == b
  {
  }
}
