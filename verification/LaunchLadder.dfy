/**
  Starting a VM: the ladder of launch plans, most capable first, and the search
  that tries them until QEMU accepts one. Once QEMU has refused "-spice", the
  search skips the remaining SPICE plans.
 */
module LaunchLadder {
  import opened Sequences

  datatype SpiceMode = Secret | Inline | Off

  datatype Plan = Plan(accelerator: string, spice: SpiceMode, audio: bool, usbTablet: bool,
                       gpuModel: string, uefiVars: bool, tuned: bool)

  const TCG := "tcg"

  /** `accelerator_chain`, from the accelerator the host offers. */
  function AcceleratorChain(preferred: string): (chain: seq<string>)
    ensures chain != [] && chain[0] == preferred && chain[|chain| - 1] == TCG
  {
    if preferred == TCG then [TCG] else [preferred, TCG]
  }

  function Base(architecture: string, gpuModel: string, preferred: string): Plan {
    Plan(preferred, Secret, true, true, gpuModel, architecture == "arm64", true)
  }

  function Accelerated(architecture: string, gpuModel: string, preferred: string): seq<Plan> {
    var base := Base(architecture, gpuModel, preferred);
    [base]
    + (if architecture == "arm64" then [base.(uefiVars := false)] else [])
    + [base.(spice := Inline),
       base.(audio := false),
       base.(spice := Off, audio := false),
       base.(spice := Off, audio := false, gpuModel := "std"),
       base.(spice := Off, audio := false, usbTablet := false, gpuModel := "std", uefiVars := false)]
  }

  /** The slower accelerators keep the pointer and the UEFI variables. */
  function Fallbacks(architecture: string, chain: seq<string>): seq<Plan> {
    if chain == [] then []
    else
      var plan := Plan(chain[0], Off, false, true, "std", architecture == "arm64", true);
      [plan] + (if architecture == "arm64" then [plan.(uefiVars := false)] else [])
        + Fallbacks(architecture, chain[1..])
  }

  /** Each plan tuned, then untuned. */
  function WithUntuned(plans: seq<Plan>): seq<Plan> {
    if plans == [] then [] else [plans[0], plans[0].(tuned := false)] + WithUntuned(plans[1..])
  }

  function LaunchPlans(architecture: string, gpuModel: string, chain: seq<string>): seq<Plan> {
    var preferred := if chain == [] then TCG else chain[0];
    WithUntuned(Accelerated(architecture, gpuModel, preferred)
                + Fallbacks(architecture, if chain == [] then [] else chain[1..]))
  }

  /** The ladder `start_local_vm` climbs, on a host that offers `preferred`. */
  function Ladder(architecture: string, gpuModel: string, preferred: string): seq<Plan> {
    LaunchPlans(architecture, gpuModel, AcceleratorChain(preferred))
  }

  // ---- The search ----------------------------------------------------------------------

  /** What one attempt gives; `NotBuilt` is a command line that cannot be built at all. */
  datatype Verdict = Accepted | RefusedSpice | Refused | NotSpawned | NotBuilt

  /** The plan QEMU runs with, by its place on the ladder. */
  datatype Launch = Started(index: nat) | Failed

  function Search(plans: seq<Plan>, i: nat, spiceGone: bool, verdict: Plan -> Verdict): (r: Launch)
    requires i <= |plans|
    ensures r.Started? ==> i <= r.index < |plans|
    decreases |plans| - i
  {
    if i == |plans| then Failed
    else if spiceGone && !plans[i].spice.Off? then Search(plans, i + 1, spiceGone, verdict)
    else
      match verdict(plans[i])
      case Accepted => Started(i)
      case NotBuilt => Failed
      case RefusedSpice => Search(plans, i + 1, true, verdict)
      case _ => Search(plans, i + 1, spiceGone, verdict)
  }

  method StartFirst(plans: seq<Plan>, verdict: Plan -> Verdict) returns (r: Launch)
    ensures r == Search(plans, 0, false, verdict)
  {
    var spiceUnavailable := false;
    var i := 0;
    while i < |plans|
      invariant i <= |plans|
      invariant Search(plans, 0, false, verdict) == Search(plans, i, spiceUnavailable, verdict)
    {
      var plan := plans[i];
      if !(spiceUnavailable && plan.spice != Off) {
        match verdict(plan) {
          case Accepted => return Started(i);
          case NotBuilt => return Failed;
          case RefusedSpice => spiceUnavailable := true;
          case Refused =>
          case NotSpawned =>
        }
      }
      i := i + 1;
    }
    return Failed;
  }

  // ---- Pruned search and naive search -------------------------------------------------

  /** The first plan of the ladder QEMU accepts. */
  function FirstAccepted(plans: seq<Plan>, verdict: Plan -> Verdict): (k: nat)
    ensures k <= |plans|
    ensures k < |plans| ==> verdict(plans[k]).Accepted?
    ensures forall j :: 0 <= j < k ==> !verdict(plans[j]).Accepted?
  {
    if plans == [] || verdict(plans[0]).Accepted? then 0 else 1 + FirstAccepted(plans[1..], verdict)
  }

  function Naive(plans: seq<Plan>, verdict: Plan -> Verdict): Launch {
    var k := FirstAccepted(plans, verdict);
    if k < |plans| then Started(k) else Failed
  }

  ghost predicate SpiceRefusedBefore(plans: seq<Plan>, k: nat, verdict: Plan -> Verdict)
    requires k <= |plans|
  {
    exists i :: 0 <= i < k && verdict(plans[i]).RefusedSpice?
  }

  ghost predicate Skipped(plans: seq<Plan>, k: nat, verdict: Plan -> Verdict)
    requires k < |plans|
  {
    !plans[k].spice.Off? && SpiceRefusedBefore(plans, k, verdict)
  }

  /** A plan before `k` that the search tries but cannot build a command line for. */
  ghost predicate AbortsBefore(plans: seq<Plan>, k: nat, verdict: Plan -> Verdict)
    requires k <= |plans|
  {
    exists j :: 0 <= j < k && verdict(plans[j]).NotBuilt? && !Skipped(plans, j, verdict)
  }

  lemma {:induction false} SearchFrom(plans: seq<Plan>, i: nat, verdict: Plan -> Verdict)
    requires i <= FirstAccepted(plans, verdict)
    requires !AbortsBefore(plans, i, verdict)
    ensures var k := FirstAccepted(plans, verdict);
      Search(plans, i, SpiceRefusedBefore(plans, i, verdict), verdict) == Naive(plans, verdict)
      <==> k == |plans| || (!Skipped(plans, k, verdict) && !AbortsBefore(plans, k, verdict))
    decreases |plans| - i
  {
    var k := FirstAccepted(plans, verdict);
    if i < k {
      if Skipped(plans, i, verdict) || !verdict(plans[i]).NotBuilt? {
        StepBefore(plans, i, verdict);
        SearchFrom(plans, i + 1, verdict);
      } else {
        assert AbortsBefore(plans, k, verdict);
      }
    }
  }

  /** One step of the search past a plan it skips or sees refused. */
  lemma StepBefore(plans: seq<Plan>, i: nat, verdict: Plan -> Verdict)
    requires i < |plans| && !verdict(plans[i]).Accepted?
    requires Skipped(plans, i, verdict) || !verdict(plans[i]).NotBuilt?
    requires !AbortsBefore(plans, i, verdict)
    ensures Search(plans, i, SpiceRefusedBefore(plans, i, verdict), verdict)
         == Search(plans, i + 1, SpiceRefusedBefore(plans, i + 1, verdict), verdict)
    ensures !AbortsBefore(plans, i + 1, verdict)
  {
    assert SpiceRefusedBefore(plans, i + 1, verdict)
      <==> SpiceRefusedBefore(plans, i, verdict) || verdict(plans[i]).RefusedSpice?;
  }

  /**
    The loop starts exactly the first plan QEMU accepts, and fails exactly when it
    accepts none, if and only if that plan is not a SPICE plan coming after a
    "-spice" refusal and no command line before it fails to build.
   */
  lemma PrunedIsNaiveExactly(plans: seq<Plan>, verdict: Plan -> Verdict)
    ensures var k := FirstAccepted(plans, verdict);
      Search(plans, 0, false, verdict) == Naive(plans, verdict)
      <==> k == |plans| || (!Skipped(plans, k, verdict) && !AbortsBefore(plans, k, verdict))
  {
    SearchFrom(plans, 0, verdict);
  }

  /** A QEMU that refuses "-spice" for one plan accepts no SPICE plan. */
  ghost predicate UniformAboutSpice(plans: seq<Plan>, verdict: Plan -> Verdict) {
    (exists p :: p in plans && verdict(p).RefusedSpice?) ==>
      forall p :: p in plans && !p.spice.Off? ==> !verdict(p).Accepted?
  }

  lemma PruningIsHarmless(plans: seq<Plan>, verdict: Plan -> Verdict)
    requires UniformAboutSpice(plans, verdict)
    requires forall p :: p in plans ==> !verdict(p).NotBuilt?
    ensures Search(plans, 0, false, verdict) == Naive(plans, verdict)
  {
    PrunedIsNaiveExactly(plans, verdict);
  }

  // ---- The rungs -------------------------------------------------------------------------

  lemma {:induction false} UntunedMembers(plans: seq<Plan>, p: Plan)
    ensures p in WithUntuned(plans) <==> exists q :: q in plans && (p == q || p == q.(tuned := false))
  {
    if plans != [] {
      UntunedMembers(plans[1..], p);
      FirstElement(plans);
    }
  }

  lemma {:induction false} UntunedAppend(a: seq<Plan>, b: seq<Plan>)
    ensures WithUntuned(a + b) == WithUntuned(a) + WithUntuned(b)
  {
    if a == [] {
      Neutral(b);
      Neutral(WithUntuned(b));
    } else {
      TailOfAppend(a, b);
      UntunedAppend(a[1..], b);
      Associative([a[0], a[0].(tuned := false)], WithUntuned(a[1..]), WithUntuned(b));
    }
  }

  /** The ladder is the accelerated rungs, then the fallback ones. */
  lemma TwoParts(architecture: string, gpuModel: string, chain: seq<string>)
    requires chain != []
    ensures LaunchPlans(architecture, gpuModel, chain)
         == WithUntuned(Accelerated(architecture, gpuModel, chain[0]))
           + WithUntuned(Fallbacks(architecture, chain[1..]))
  {
    UntunedAppend(Accelerated(architecture, gpuModel, chain[0]), Fallbacks(architecture, chain[1..]));
  }

  lemma AcceleratedRung(architecture: string, gpuModel: string, chain: seq<string>, p: Plan)
    requires chain != [] && p in Accelerated(architecture, gpuModel, chain[0])
    ensures p in LaunchPlans(architecture, gpuModel, chain)
  {
    hide Accelerated, Fallbacks;
    UntunedMembers(Accelerated(architecture, gpuModel, chain[0]), p);
    TwoParts(architecture, gpuModel, chain);
  }

  lemma FirstRungs(gpuModel: string, chain: seq<string>)
    requires chain != []
    ensures var plans, base := LaunchPlans("arm64", gpuModel, chain), Base("arm64", gpuModel, chain[0]);
      |plans| > 2 && plans[0] == base && plans[1] == base.(tuned := false) && plans[2] == base.(uefiVars := false)
  {
    var base := Base("arm64", gpuModel, chain[0]);
    var a := Accelerated("arm64", gpuModel, chain[0]);
    assert a[0] == base && a[1] == base.(uefiVars := false) && a == [a[0]] + ([a[1]] + a[2..]);
    UntunedAppend([a[0]], [a[1]] + a[2..]);
    UntunedAppend([a[1]], a[2..]);
    TwoParts("arm64", gpuModel, chain);
  }

  // ---- What the ladder gives up, and when ----------------------------------------------

  lemma {:induction false} FallbackMembers(architecture: string, chain: seq<string>, p: Plan)
    requires p in Fallbacks(architecture, chain)
    ensures p.accelerator in chain && !p.audio && p.spice.Off?
  {
    if p.accelerator != chain[0] {
      FallbackMembers(architecture, chain[1..], p);
    } else if p in Fallbacks(architecture, chain[1..]) {
      FallbackMembers(architecture, chain[1..], p);
    }
  }

  lemma AcceleratedPlan(architecture: string, gpuModel: string, preferred: string, p: Plan)
    requires p in Accelerated(architecture, gpuModel, preferred)
    ensures p.accelerator == preferred && (p.audio ==> !p.spice.Off?)
  {
  }

  lemma AcceleratedMembers(architecture: string, gpuModel: string, preferred: string, p: Plan)
    requires p in WithUntuned(Accelerated(architecture, gpuModel, preferred))
    ensures p.accelerator == preferred && (p.audio ==> !p.spice.Off?)
  {
    hide Accelerated;
    UntunedMembers(Accelerated(architecture, gpuModel, preferred), p);
    var q :| q in Accelerated(architecture, gpuModel, preferred) && (p == q || p == q.(tuned := false));
    AcceleratedPlan(architecture, gpuModel, preferred, q);
  }

  lemma FallbackRung(architecture: string, chain: seq<string>, p: Plan)
    requires p in WithUntuned(Fallbacks(architecture, chain))
    ensures p.accelerator in chain && !p.audio
  {
    hide Fallbacks;
    UntunedMembers(Fallbacks(architecture, chain), p);
    var q :| q in Fallbacks(architecture, chain) && (p == q || p == q.(tuned := false));
    FallbackMembers(architecture, chain, q);
  }

  /** SPICE audio is only asked for together with SPICE. */
  lemma AudioNeedsSpice(architecture: string, gpuModel: string, preferred: string, p: Plan)
    requires p in Ladder(architecture, gpuModel, preferred)
    ensures p.audio ==> !p.spice.Off?
  {
    hide Fallbacks, Accelerated, LaunchPlans, WithUntuned;
    var chain := AcceleratorChain(preferred);
    TwoParts(architecture, gpuModel, chain);
    if p in WithUntuned(Accelerated(architecture, gpuModel, preferred)) {
      AcceleratedMembers(architecture, gpuModel, preferred, p);
    } else {
      FallbackRung(architecture, chain[1..], p);
    }
  }

  /** The part of the ladder a rung belongs to follows from its accelerator. */
  lemma RungOf(architecture: string, gpuModel: string, preferred: string, i: nat)
    requires i < |Ladder(architecture, gpuModel, preferred)|
    ensures Ladder(architecture, gpuModel, preferred)[i].accelerator == preferred
      <==> i < |WithUntuned(Accelerated(architecture, gpuModel, preferred))|
  {
    hide Fallbacks, Accelerated, LaunchPlans, WithUntuned;
    var chain := AcceleratorChain(preferred);
    var a := WithUntuned(Accelerated(architecture, gpuModel, preferred));
    var p := Ladder(architecture, gpuModel, preferred)[i];
    TwoParts(architecture, gpuModel, chain);
    if i < |a| {
      AcceleratedMembers(architecture, gpuModel, preferred, p);
    } else {
      assert p == WithUntuned(Fallbacks(architecture, chain[1..]))[i - |a|];
      FallbackRung(architecture, chain[1..], p);
    }
  }

  /** A VM runs on a slower accelerator only when QEMU accepted none of the plans with the preferred one. */
  lemma EmulationIsTheLastResort(architecture: string, gpuModel: string, preferred: string, verdict: Plan -> Verdict,
                                 p: Plan)
    requires var plans := Ladder(architecture, gpuModel, preferred);
      && UniformAboutSpice(plans, verdict)
      && (forall q :: q in plans ==> !verdict(q).NotBuilt?)
      && p in plans && p.accelerator == preferred
    requires var plans := Ladder(architecture, gpuModel, preferred);
      var r := Search(plans, 0, false, verdict);
      r.Started? && plans[r.index].accelerator != preferred
    ensures !verdict(p).Accepted?
  {
    hide Ladder, Accelerated, Fallbacks, Search, WithUntuned;
    var plans := Ladder(architecture, gpuModel, preferred);
    PruningIsHarmless(plans, verdict);
    var i :| 0 <= i < |plans| && plans[i] == p;
    RungOf(architecture, gpuModel, preferred, i);
    RungOf(architecture, gpuModel, preferred, FirstAccepted(plans, verdict));
  }
}
