/**
  The launch ladder with the command lines it is really about: a plan that cannot be
  built ends the search, whatever QEMU would make of the plans after it.
 */
module QemuLadder {
  import opened Wrappers
  import opened LaunchLadder
  import opened QemuArgs

  predicate Builds(vm: Vm, ports: Ports, host: Host, plan: Plan) {
    Build(vm, ports, plan, host).Ok?
  }

  predicate ValidIfAny(path: Option<string>) {
    path.Some? ==> ValidPath(path.value)
  }

  /** The paths every plan of a VM puts on its command line. */
  predicate PathsValid(vm: Vm, ports: Ports) {
    && ValidIfAny(vm.isoPath) && ValidIfAny(vm.driverIsoPath)
    && ValidIfAny(ports.unattendDir) && ValidIfAny(ports.tpmSocket) && ValidIfAny(ports.serialLog)
  }

  predicate UefiValid(ports: Ports) {
    ports.uefi.Some? ==> ValidUefi(ports.uefi.value)
  }

  /** What boots the machine: on ARM64 the pflash pair for a plan that keeps it, else QEMU's own firmware. */
  predicate FirmwareFits(vm: Vm, ports: Ports, host: Host, uefiVars: bool) {
    if vm.architecture != "arm64" then UefiValid(ports)
    else if ports.uefi.Some? && uefiVars then ValidUefi(ports.uefi.value)
    else host.firmware.Some?
  }

  lemma PathsDecide(vm: Vm, ports: Ports)
    ensures PathsValid(vm, ports)
      <==> CdArgs(vm).Ok? && UnattendArgs(vm, ports).Ok? && TpmArgs(ports).Ok? && SerialArgs(ports).Ok?
  {
    hide ValidPath;
  }

  lemma FirmwareDecides(vm: Vm, ports: Ports, plan: Plan, host: Host)
    ensures FirmwareArgs(vm, ports, plan, host).Ok? <==> FirmwareFits(vm, ports, host, plan.uefiVars)
  {
    hide ValidUefi, PflashArgs, ArmUsb, Pointer;
  }

  /** A command line is built exactly when its paths hold no comma or line break and its firmware is there. */
  lemma BuildsExactly(vm: Vm, ports: Ports, host: Host, plan: Plan)
    ensures Builds(vm, ports, host, plan) <==> PathsValid(vm, ports) && FirmwareFits(vm, ports, host, plan.uefiVars)
  {
    hide FirmwareArgs, CdArgs, UnattendArgs, TpmArgs, SerialArgs, PathsValid, FirmwareFits;
    hide NameArgs, MachineArgs, DiskArgs, IothreadArgs, GpuArgs, NetworkArgs, TunedDevices, KernelArgs, AgentArgs;
    hide SpiceArgs, AudioArgs, DisplayArgs, Flatten;
    PathsDecide(vm, ports);
    FirmwareDecides(vm, ports, plan, host);
  }

  /** The first rung, and on ARM64 the one that gives up the UEFI variables, are on the ladder. */
  lemma RungsWithAndWithout(architecture: string, gpuModel: string, preferred: string)
    ensures var plans, base := Ladder(architecture, gpuModel, preferred), Base(architecture, gpuModel, preferred);
      && base in plans && base.uefiVars == (architecture == "arm64")
      && (architecture == "arm64" ==> base.(uefiVars := false) in plans)
  {
    hide LaunchPlans;
    var chain, base := AcceleratorChain(preferred), Base(architecture, gpuModel, preferred);
    var a := Accelerated(architecture, gpuModel, preferred);
    assert a[0] == base;
    AcceleratedRung(architecture, gpuModel, chain, base);
    if architecture == "arm64" {
      assert a[1] == base.(uefiVars := false);
      AcceleratedRung(architecture, gpuModel, chain, base.(uefiVars := false));
    }
  }

  /**
    Every plan of the ladder can be built exactly when all paths are valid and, on ARM64, QEMU's own
    firmware is there.
   */
  lemma LadderBuildsExactly(vm: Vm, ports: Ports, host: Host, gpuModel: string, preferred: string)
    ensures (forall p :: p in Ladder(vm.architecture, gpuModel, preferred) ==> Builds(vm, ports, host, p))
      <==> PathsValid(vm, ports) && UefiValid(ports) && (vm.architecture == "arm64" ==> host.firmware.Some?)
  {
    hide Ladder, Builds, PathsValid, ValidUefi;
    var base := Base(vm.architecture, gpuModel, preferred);
    RungsWithAndWithout(vm.architecture, gpuModel, preferred);
    BuildsExactly(vm, ports, host, base);
    BuildsExactly(vm, ports, host, base.(uefiVars := false));
    forall p | p in Ladder(vm.architecture, gpuModel, preferred)
      ensures Builds(vm, ports, host, p) <==> PathsValid(vm, ports) && FirmwareFits(vm, ports, host, p.uefiVars)
    {
      BuildsExactly(vm, ports, host, p);
    }
  }

  // ---- When the search misses a plan ----------------------------------------------------------

  /** The loop is told that a plan cannot be built exactly when `build_qemu_command` fails for it. */
  ghost predicate Faithful(vm: Vm, ports: Ports, host: Host, verdict: Plan -> Verdict) {
    forall p :: verdict(p).NotBuilt? <==> !Builds(vm, ports, host, p)
  }

  /** For every QEMU that refuses SPICE for all plans alike, the first plan it accepts is started. */
  ghost predicate NeverMisses(vm: Vm, ports: Ports, host: Host, gpuModel: string, preferred: string) {
    var plans := Ladder(vm.architecture, gpuModel, preferred);
    forall verdict: Plan -> Verdict | Faithful(vm, ports, host, verdict) && UniformAboutSpice(plans, verdict) ::
      Search(plans, 0, false, verdict) == Naive(plans, verdict)
  }

  /** Some plans of the ladder can be built and others cannot: one of the two firmwares of an ARM64 VM is unusable. */
  predicate HalfBuilt(vm: Vm, ports: Ports, host: Host) {
    && vm.architecture == "arm64" && PathsValid(vm, ports) && ports.uefi.Some?
    && (ValidUefi(ports.uefi.value) != host.firmware.Some?)
  }

  lemma NoneAccepted(plans: seq<Plan>, verdict: Plan -> Verdict)
    requires forall p :: p in plans ==> verdict(p).NotBuilt?
    ensures Search(plans, 0, false, verdict) == Naive(plans, verdict)
  {
    hide Search;
    assert forall k :: 0 <= k < |plans| ==> verdict(plans[k]).NotBuilt?;
    PrunedIsNaiveExactly(plans, verdict);
  }

  lemma MissesNothing(vm: Vm, ports: Ports, host: Host, gpuModel: string, preferred: string, verdict: Plan -> Verdict)
    requires !HalfBuilt(vm, ports, host) && Faithful(vm, ports, host, verdict)
    requires UniformAboutSpice(Ladder(vm.architecture, gpuModel, preferred), verdict)
    ensures var plans := Ladder(vm.architecture, gpuModel, preferred);
      Search(plans, 0, false, verdict) == Naive(plans, verdict)
  {
    hide Ladder, Builds, Search, Naive, HalfBuilt, UniformAboutSpice;
    var plans := Ladder(vm.architecture, gpuModel, preferred);
    var base := Base(vm.architecture, gpuModel, preferred);
    forall p | p in plans
      ensures Builds(vm, ports, host, p) <==> Builds(vm, ports, host, base)
    {
      SameAsBase(vm, ports, host, base, p);
    }
    if Builds(vm, ports, host, base) {
      PruningIsHarmless(plans, verdict);
    } else {
      NoneAccepted(plans, verdict);
    }
  }

  lemma SameAsBase(vm: Vm, ports: Ports, host: Host, base: Plan, p: Plan)
    requires !HalfBuilt(vm, ports, host)
    ensures Builds(vm, ports, host, p) <==> Builds(vm, ports, host, base)
  {
    hide Builds, PathsValid, ValidUefi;
    BuildsExactly(vm, ports, host, p);
    BuildsExactly(vm, ports, host, base);
  }

  /** A QEMU that only lacks SPICE audio. */
  ghost function WithoutAudio(vm: Vm, ports: Ports, host: Host): Plan -> Verdict {
    (p: Plan) => if !Builds(vm, ports, host, p) then NotBuilt else if p.audio then Refused else Accepted
  }

  /** A QEMU that accepts everything. */
  ghost function Willing(vm: Vm, ports: Ports, host: Host): Plan -> Verdict {
    (p: Plan) => if !Builds(vm, ports, host, p) then NotBuilt else Accepted
  }

  /**
    QEMU's own firmware is missing: the second kind of rung cannot be built, so the rungs
    without audio are never tried.
   */
  lemma MissingFirmwareGivesUp(vm: Vm, ports: Ports, host: Host, gpuModel: string, preferred: string)
    requires HalfBuilt(vm, ports, host) && host.firmware.None?
    ensures var plans := Ladder(vm.architecture, gpuModel, preferred);
      && Naive(plans, WithoutAudio(vm, ports, host)).Started?
      && Search(plans, 0, false, WithoutAudio(vm, ports, host)) == Failed
  {
    hide LaunchPlans, Builds, PathsValid, ValidUefi;
    var plans, base := Ladder("arm64", gpuModel, preferred), Base("arm64", gpuModel, preferred);
    var verdict := WithoutAudio(vm, ports, host);
    FirstRungs(gpuModel, AcceleratorChain(preferred));
    var quiet := base.(audio := false);
    assert Accelerated("arm64", gpuModel, preferred)[3] == quiet;
    AcceleratedRung("arm64", gpuModel, AcceleratorChain(preferred), quiet);
    BuildsExactly(vm, ports, host, base);
    BuildsExactly(vm, ports, host, base.(tuned := false));
    BuildsExactly(vm, ports, host, base.(uefiVars := false));
    BuildsExactly(vm, ports, host, quiet);
    assert verdict(quiet).Accepted?;
    assert Search(plans, 2, false, verdict) == Failed;
    assert Search(plans, 1, false, verdict) == Failed;
  }

  /**
    The pflash pair has an invalid path: the first rung cannot be built, so the rungs with QEMU's
    own firmware are never tried.
   */
  lemma InvalidUefiGivesUp(vm: Vm, ports: Ports, host: Host, gpuModel: string, preferred: string)
    requires HalfBuilt(vm, ports, host) && host.firmware.Some?
    ensures var plans := Ladder(vm.architecture, gpuModel, preferred);
      && Naive(plans, Willing(vm, ports, host)).Started?
      && Search(plans, 0, false, Willing(vm, ports, host)) == Failed
  {
    hide LaunchPlans, Builds, PathsValid, ValidUefi;
    var plans, base := Ladder("arm64", gpuModel, preferred), Base("arm64", gpuModel, preferred);
    var verdict := Willing(vm, ports, host);
    FirstRungs(gpuModel, AcceleratorChain(preferred));
    BuildsExactly(vm, ports, host, base);
    BuildsExactly(vm, ports, host, base.(uefiVars := false));
    assert verdict(plans[2]).Accepted? && plans[2] in plans;
    assert verdict(plans[0]).NotBuilt?;
  }

  /**
    The search starts the first plan QEMU accepts, and fails only if it accepts none,
    whatever QEMU it is, if and only if the ladder is not half built.
   */
  lemma SearchIsNaiveExactly(vm: Vm, ports: Ports, host: Host, gpuModel: string, preferred: string)
    ensures NeverMisses(vm, ports, host, gpuModel, preferred) <==> !HalfBuilt(vm, ports, host)
  {
    hide Ladder, Builds, Search, Naive, HalfBuilt;
    var plans := Ladder(vm.architecture, gpuModel, preferred);
    if !HalfBuilt(vm, ports, host) {
      forall verdict: Plan -> Verdict | Faithful(vm, ports, host, verdict) && UniformAboutSpice(plans, verdict)
        ensures Search(plans, 0, false, verdict) == Naive(plans, verdict)
      {
        MissesNothing(vm, ports, host, gpuModel, preferred, verdict);
      }
    } else if host.firmware.None? {
      MissingFirmwareGivesUp(vm, ports, host, gpuModel, preferred);
      assert Faithful(vm, ports, host, WithoutAudio(vm, ports, host));
    } else {
      InvalidUefiGivesUp(vm, ports, host, gpuModel, preferred);
      assert Faithful(vm, ports, host, Willing(vm, ports, host));
    }
  }
}
