/**
  What the ladder offers: which plan a VM is started with, for every QEMU that accepts a plan
  exactly when it has the features the plan asks for.
 */
module LaunchFeatures {
  import opened Wrappers
  import opened Sequences
  import opened LaunchLadder

  /** The features a build of QEMU, on its host, has. */
  datatype Features = Features(accelerators: set<string>, spice: bool, secrets: bool, audio: bool,
                               gpus: set<string>, tablet: bool, uefiVars: bool, tuning: bool)

  predicate Takes(q: Features, p: Plan) {
    && p.accelerator in q.accelerators && p.gpuModel in q.gpus
    && (p.spice != Off ==> q.spice) && (p.spice == Secret ==> q.secrets) && (p.audio ==> q.audio)
    && (p.usbTablet ==> q.tablet) && (p.uefiVars ==> q.uefiVars) && (p.tuned ==> q.tuning)
  }

  /** It accepts exactly what it has the features for, and complains of "-spice" only when it has no SPICE. */
  ghost predicate Behaves(q: Features, plans: seq<Plan>, verdict: Plan -> Verdict) {
    forall p :: p in plans ==>
      && !verdict(p).NotBuilt? && (verdict(p).Accepted? <==> Takes(q, p)) && (verdict(p).RefusedSpice? ==> !q.spice)
  }

  /** The loop starts the VM with this plan; with None it gives up. */
  ghost predicate StartsWith(plans: seq<Plan>, verdict: Plan -> Verdict, plan: Option<Plan>) {
    match Search(plans, 0, false, verdict)
    case Started(i) => plan == Some(plans[i])
    case Failed => plan == None
  }

  // ---- The first rung ---------------------------------------------------------------------------

  function Rungs(architecture: string, gpuModel: string, preferred: string): seq<Plan> {
    Accelerated(architecture, gpuModel, preferred) + Fallbacks(architecture, AcceleratorChain(preferred)[1..])
  }

  predicate AllTuned(rungs: seq<Plan>) {
    forall k :: 0 <= k < |rungs| ==> rungs[k].tuned
  }

  /** The first rung that is taken, untuned if need be. */
  predicate FirstTaken(q: Features, rungs: seq<Plan>, k: nat) {
    && k <= |rungs| && (k < |rungs| ==> Takes(q, rungs[k].(tuned := false)))
    && forall j :: 0 <= j < k ==> !Takes(q, rungs[j].(tuned := false))
  }

  lemma {:induction false} FirstOfRungs(q: Features, rungs: seq<Plan>, verdict: Plan -> Verdict, k: nat)
    requires AllTuned(rungs) && FirstTaken(q, rungs, k)
    requires forall p :: p in WithUntuned(rungs) ==> (verdict(p).Accepted? <==> Takes(q, p))
    ensures var plans := WithUntuned(rungs);
      var i := FirstAccepted(plans, verdict);
      && (k == |rungs| ==> i == |plans|)
      && (k < |rungs| ==> i < |plans| && plans[i] == rungs[k].(tuned := q.tuning))
  {
    hide FirstAccepted, Takes, WithUntuned, FirstTaken, AllTuned;
    TakenFirst(q, rungs, k);
    if rungs == [] {
      NoneAccepted(verdict);
    } else {
      var plans, rest := WithUntuned(rungs), WithUntuned(rungs[1..]);
      TunedRest(rungs);
      UntunedFirst(rungs);
      TunedOrNot(q, rungs[0]);
      assert plans[0] in plans && plans[1] in plans;
      if k == 0 {
        FirstOfTwo(plans, verdict);
      } else {
        TakenLater(q, rungs, k);
        FirstOfRungs(q, rungs[1..], verdict, k - 1);
        SkipTwo(plans, rest, verdict);
      }
    }
  }

  lemma NoneAccepted(verdict: Plan -> Verdict)
    ensures FirstAccepted([], verdict) == 0 && WithUntuned([]) == []
  {
  }

  lemma TakenFirst(q: Features, rungs: seq<Plan>, k: nat)
    requires FirstTaken(q, rungs, k)
    ensures k <= |rungs| && (rungs != [] && k == 0 ==> Takes(q, rungs[0].(tuned := false)))
  {
  }

  lemma TunedRest(rungs: seq<Plan>)
    requires AllTuned(rungs) && rungs != []
    ensures rungs[0].tuned && AllTuned(rungs[1..])
  {
  }

  lemma UntunedFirst(rungs: seq<Plan>)
    requires rungs != [] && rungs[0].tuned
    ensures var plans, rest := WithUntuned(rungs), WithUntuned(rungs[1..]);
      |plans| == 2 + |rest| && plans[0] == rungs[0] && plans[1] == rungs[0].(tuned := false)
      && plans[1..][1..] == rest && forall p :: p in rest ==> p in plans
  {
  }

  /** A tuned plan is taken when the plan without tuning is, and QEMU has it. */
  lemma TunedOrNot(q: Features, p: Plan)
    requires p.tuned
    ensures Takes(q, p) <==> Takes(q, p.(tuned := false)) && q.tuning
    ensures p.(tuned := true) == p
  {
  }

  lemma TakenLater(q: Features, rungs: seq<Plan>, k: nat)
    requires 0 < k && FirstTaken(q, rungs, k)
    ensures rungs != [] && FirstTaken(q, rungs[1..], k - 1) && !Takes(q, rungs[0].(tuned := false))
  {
    hide Takes;
    forall j | 0 <= j < k - 1
      ensures !Takes(q, rungs[1..][j].(tuned := false))
    {
      assert rungs[1..][j] == rungs[j + 1];
    }
  }

  lemma FirstOfTwo(plans: seq<Plan>, verdict: Plan -> Verdict)
    requires |plans| >= 2 && verdict(plans[1]).Accepted?
    ensures FirstAccepted(plans, verdict) == if verdict(plans[0]).Accepted? then 0 else 1
  {
    assert plans[1..][0] == plans[1];
  }

  lemma SkipTwo(plans: seq<Plan>, rest: seq<Plan>, verdict: Plan -> Verdict)
    requires |plans| >= 2 && plans[1..][1..] == rest && !verdict(plans[0]).Accepted? && !verdict(plans[1]).Accepted?
    ensures FirstAccepted(plans, verdict) == 2 + FirstAccepted(rest, verdict)
    ensures forall i :: 0 <= i < |rest| ==> plans[i + 2] == rest[i]
  {
    assert plans[1..][0] == plans[1];
  }

  /** The slower rungs: none below software emulation. */
  lemma FallbacksAre(architecture: string, preferred: string)
    ensures var slow := Plan(TCG, Off, false, true, "std", architecture == "arm64", true);
      Fallbacks(architecture, AcceleratorChain(preferred)[1..])
      == if preferred == TCG then [] else [slow] + if architecture == "arm64" then [slow.(uefiVars := false)] else []
  {
    var chain := AcceleratorChain(preferred)[1..];
    if preferred != TCG {
      assert chain == [TCG] && chain[1..] == [];
      Neutral([Plan(TCG, Off, false, true, "std", architecture == "arm64", true)]);
    }
  }

  lemma LadderIsRungs(architecture: string, gpuModel: string, preferred: string)
    ensures Ladder(architecture, gpuModel, preferred) == WithUntuned(Rungs(architecture, gpuModel, preferred))
  {
    hide Accelerated, Fallbacks, WithUntuned;
  }

  lemma RungsAreTuned(architecture: string, gpuModel: string, preferred: string)
    ensures AllTuned(Rungs(architecture, gpuModel, preferred))
  {
    hide Rungs;
    var r := Rungs(architecture, gpuModel, preferred);
    if architecture == "arm64" {
      ArmRungsAre(gpuModel, preferred);
      assert |r| > 7 ==> r[7].tuned && r[8].tuned;
    } else {
      RungsAre(architecture, gpuModel, preferred);
    }
    forall k | 0 <= k < |r|
      ensures r[k].tuned
    {
      assert k in {0, 1, 2, 3, 4, 5, 6, 7, 8};
    }
  }

  lemma BehavesUniformly(q: Features, plans: seq<Plan>, verdict: Plan -> Verdict)
    requires Behaves(q, plans, verdict)
    ensures UniformAboutSpice(plans, verdict)
  {
  }

  lemma StartsFirstTaken(q: Features, architecture: string, gpuModel: string, preferred: string,
                         verdict: Plan -> Verdict, k: nat)
    requires Behaves(q, Ladder(architecture, gpuModel, preferred), verdict)
    requires FirstTaken(q, Rungs(architecture, gpuModel, preferred), k)
    ensures var rungs := Rungs(architecture, gpuModel, preferred);
      StartsWith(Ladder(architecture, gpuModel, preferred), verdict, Picked(q, rungs, k))
  {
    hide Rungs, Ladder, Search, FirstTaken, AllTuned, Takes, UniformAboutSpice;
    TakenFirst(q, Rungs(architecture, gpuModel, preferred), k);
    BehavesUniformly(q, Ladder(architecture, gpuModel, preferred), verdict);
    var plans := Ladder(architecture, gpuModel, preferred);
    LadderIsRungs(architecture, gpuModel, preferred);
    RungsAreTuned(architecture, gpuModel, preferred);
    FirstOfRungs(q, Rungs(architecture, gpuModel, preferred), verdict, k);
    PruningIsHarmless(plans, verdict);
  }

  // ---- What is offered --------------------------------------------------------------------------

  /** SPICE with the password passed as a secret, else on the command line if audio works, else none. */
  function Console(q: Features): SpiceMode {
    if !q.spice then Off else if q.secrets then Secret else if q.audio then Inline else Off
  }

  /** The firmware variables of an ARM64 VM can be kept. */
  predicate KeepsUefi(q: Features, architecture: string) {
    architecture == "arm64" ==> q.uefiVars
  }

  /** The plan a VM is started with. */
  function Offered(q: Features, architecture: string, gpuModel: string, preferred: string): Option<Plan> {
    var arm64 := architecture == "arm64";
    if preferred in q.accelerators && gpuModel in q.gpus && q.tablet && KeepsUefi(q, architecture) then
      Some(Plan(preferred, Console(q), q.spice && q.audio, true, gpuModel, arm64, q.tuning))
    else if preferred in q.accelerators && gpuModel in q.gpus && q.tablet && q.spice && q.secrets && q.audio then
      Some(Plan(preferred, Secret, true, true, gpuModel, false, q.tuning))
    else if preferred in q.accelerators && "std" in q.gpus then
      if q.tablet && KeepsUefi(q, architecture) then Some(Plan(preferred, Off, false, true, "std", arm64, q.tuning))
      else Some(Plan(preferred, Off, false, false, "std", false, q.tuning))
    else if preferred != TCG && TCG in q.accelerators && "std" in q.gpus && q.tablet then
      Some(Plan(TCG, Off, false, true, "std", arm64 && q.uefiVars, q.tuning))
    else None
  }

  /** The plans of the ladder, before tuning is given up, on a host that is not ARM64. */
  lemma RungsAre(architecture: string, gpuModel: string, preferred: string)
    requires architecture != "arm64"
    ensures var base := Plan(preferred, Secret, true, true, gpuModel, false, true);
      var r := Rungs(architecture, gpuModel, preferred);
      && |r| == (if preferred == TCG then 6 else 7)
      && r[0] == base && r[1] == base.(spice := Inline) && r[2] == base.(audio := false)
      && r[3] == base.(spice := Off, audio := false) && r[4] == base.(spice := Off, audio := false, gpuModel := "std")
      && r[5] == base.(spice := Off, audio := false, usbTablet := false, gpuModel := "std")
      && (preferred != TCG ==> r[6] == Plan(TCG, Off, false, true, "std", false, true))
  {
    hide Fallbacks;
    FallbacksAre(architecture, preferred);
  }

  lemma ArmRungsAre(gpuModel: string, preferred: string)
    ensures var base := Plan(preferred, Secret, true, true, gpuModel, true, true);
      var r := Rungs("arm64", gpuModel, preferred);
      && |r| == (if preferred == TCG then 7 else 9)
      && r[0] == base && r[1] == base.(uefiVars := false) && r[2] == base.(spice := Inline)
      && r[3] == base.(audio := false) && r[4] == base.(spice := Off, audio := false)
      && r[5] == base.(spice := Off, audio := false, gpuModel := "std")
      && r[6] == base.(spice := Off, audio := false, usbTablet := false, gpuModel := "std", uefiVars := false)
      && (preferred != TCG ==> r[7] == Plan(TCG, Off, false, true, "std", true, true))
      && (preferred != TCG ==> r[8] == Plan(TCG, Off, false, true, "std", false, true))
  {
    hide Fallbacks;
    FallbacksAre("arm64", preferred);
  }

  /** `k` is the place of the first of these answers that is a yes. */
  predicate FirstYes(answers: seq<bool>, k: nat) {
    k <= |answers| && (k < |answers| ==> answers[k]) && forall j :: 0 <= j < k ==> !answers[j]
  }

  function Answers(q: Features, rungs: seq<Plan>): (a: seq<bool>)
    ensures |a| == |rungs|
  {
    seq(|rungs|, i requires 0 <= i < |rungs| => Takes(q, rungs[i].(tuned := false)))
  }

  lemma TakenExactly(q: Features, rungs: seq<Plan>, k: nat)
    ensures FirstTaken(q, rungs, k) <==> FirstYes(Answers(q, rungs), k)
  {
    hide Takes;
    forall j | 0 <= j < |rungs|
      ensures Answers(q, rungs)[j] <==> Takes(q, rungs[j].(tuned := false))
    {
    }
  }

  lemma {:induction false} FirstIndex(answers: seq<bool>) returns (k: nat)
    ensures FirstYes(answers, k)
  {
    if answers == [] || answers[0] {
      k := 0;
    } else {
      k := FirstIndex(answers[1..]);
      k := k + 1;
      assert forall j :: 1 <= j < k ==> answers[j] == answers[1..][j - 1];
    }
  }

  /** The plan of the first rung taken. */
  function Picked(q: Features, rungs: seq<Plan>, k: nat): Option<Plan> {
    if k < |rungs| then Some(rungs[k].(tuned := q.tuning)) else None
  }

  /** What the rungs with the graphics asked for ask for. */
  lemma WhatRungsAsk(q: Features, gpuModel: string, preferred: string)
    ensures var base := Plan(preferred, Secret, true, true, gpuModel, false, false);
      var has := preferred in q.accelerators && gpuModel in q.gpus;
      && (Takes(q, base) <==> has && q.tablet && q.spice && q.secrets && q.audio)
      && (Takes(q, base.(spice := Inline)) <==> has && q.tablet && q.spice && q.audio)
      && (Takes(q, base.(audio := false)) <==> has && q.tablet && q.spice && q.secrets)
      && (Takes(q, base.(spice := Off, audio := false)) <==> has && q.tablet)
  {
  }

  lemma WhatStandardRungsAsk(q: Features, accelerator: string)
    ensures Takes(q, Plan(accelerator, Off, false, true, "std", false, false))
      <==> accelerator in q.accelerators && "std" in q.gpus && q.tablet
    ensures Takes(q, Plan(accelerator, Off, false, false, "std", false, false))
      <==> accelerator in q.accelerators && "std" in q.gpus
  {
  }

  lemma OfferedOnRungs(q: Features, architecture: string, gpuModel: string, preferred: string, k: nat)
    requires architecture != "arm64" && FirstTaken(q, Rungs(architecture, gpuModel, preferred), k)
    ensures Offered(q, architecture, gpuModel, preferred) == Picked(q, Rungs(architecture, gpuModel, preferred), k)
  {
    hide Rungs, FirstTaken, Takes;
    RungsAre(architecture, gpuModel, preferred);
    WhatRungsAsk(q, gpuModel, preferred);
    WhatStandardRungsAsk(q, preferred);
    WhatStandardRungsAsk(q, TCG);
    AnswersAt(q, Rungs(architecture, gpuModel, preferred), k);
  }

  lemma OfferedOnArmRungs(q: Features, gpuModel: string, preferred: string, k: nat)
    requires FirstTaken(q, Rungs("arm64", gpuModel, preferred), k)
    ensures Offered(q, "arm64", gpuModel, preferred) == Picked(q, Rungs("arm64", gpuModel, preferred), k)
  {
    hide Rungs, FirstTaken;
    ArmRungsAre(gpuModel, preferred);
    AnswersAt(q, Rungs("arm64", gpuModel, preferred), k);
  }

  /** What the first rung taken says of each rung, one by one. */
  lemma AnswersAt(q: Features, rungs: seq<Plan>, k: nat)
    requires FirstTaken(q, rungs, k)
    ensures k <= |rungs| && (k < |rungs| ==> Takes(q, rungs[k].(tuned := false)))
    ensures 0 < k ==> !Takes(q, rungs[0].(tuned := false))
    ensures 1 < k ==> !Takes(q, rungs[1].(tuned := false))
    ensures 2 < k ==> !Takes(q, rungs[2].(tuned := false))
    ensures 3 < k ==> !Takes(q, rungs[3].(tuned := false))
    ensures 4 < k ==> !Takes(q, rungs[4].(tuned := false))
    ensures 5 < k ==> !Takes(q, rungs[5].(tuned := false))
    ensures 6 < k ==> !Takes(q, rungs[6].(tuned := false))
    ensures 7 < k ==> !Takes(q, rungs[7].(tuned := false))
    ensures 8 < k ==> !Takes(q, rungs[8].(tuned := false))
  {
    hide Takes;
  }

  /**
    For every architecture, graphics model and accelerator, and every QEMU that behaves by
    its features: the VM is started with the plan above, and given up only if there is none.
   */
  lemma StartsAsOffered(q: Features, architecture: string, gpuModel: string, preferred: string,
                        verdict: Plan -> Verdict)
    requires Behaves(q, Ladder(architecture, gpuModel, preferred), verdict)
    ensures StartsWith(Ladder(architecture, gpuModel, preferred), verdict,
                       Offered(q, architecture, gpuModel, preferred))
  {
    hide Rungs, Ladder, FirstTaken, Behaves, StartsWith, Offered;
    var k := FirstIndex(Answers(q, Rungs(architecture, gpuModel, preferred)));
    TakenExactly(q, Rungs(architecture, gpuModel, preferred), k);
    if architecture == "arm64" {
      OfferedOnArmRungs(q, gpuModel, preferred, k);
    } else {
      OfferedOnRungs(q, architecture, gpuModel, preferred, k);
    }
    StartsFirstTaken(q, architecture, gpuModel, preferred, verdict, k);
  }

  /** The preferred accelerator is kept whenever QEMU has it and standard graphics, whatever else it lacks. */
  lemma AcceleratorIsKept(q: Features, architecture: string, gpuModel: string, preferred: string,
                          verdict: Plan -> Verdict)
    requires Behaves(q, Ladder(architecture, gpuModel, preferred), verdict)
    requires Takes(q, Plan(preferred, Off, false, false, "std", false, false))
    ensures exists p ::
        StartsWith(Ladder(architecture, gpuModel, preferred), verdict, Some(p)) && p.accelerator == preferred
  {
    hide Ladder, Behaves, StartsWith;
    StartsAsOffered(q, architecture, gpuModel, preferred, verdict);
    assert Offered(q, architecture, gpuModel, preferred).Some?;
  }

  /**
    A QEMU that lacks SPICE alone starts the VM with the graphics asked for, the tablet and the
    preferred accelerator.
   */
  lemma WithoutSpice(q: Features, architecture: string, gpuModel: string, preferred: string, verdict: Plan -> Verdict)
    requires Behaves(q, Ladder(architecture, gpuModel, preferred), verdict)
    requires preferred in q.accelerators && gpuModel in q.gpus && q.tablet && q.uefiVars && !q.spice
    ensures StartsWith(Ladder(architecture, gpuModel, preferred), verdict,
                       Some(Plan(preferred, Off, false, true, gpuModel, architecture == "arm64", q.tuning)))
  {
    hide Ladder, Behaves, StartsWith;
    StartsAsOffered(q, architecture, gpuModel, preferred, verdict);
  }

  /** A QEMU that lacks the preferred accelerator alone emulates, with the tablet and the firmware variables. */
  lemma WithoutAccelerator(q: Features, architecture: string, gpuModel: string, preferred: string,
                           verdict: Plan -> Verdict)
    requires Behaves(q, Ladder(architecture, gpuModel, preferred), verdict)
    requires preferred !in q.accelerators && "tcg" in q.accelerators && "std" in q.gpus && q.tablet && q.uefiVars
    ensures StartsWith(Ladder(architecture, gpuModel, preferred), verdict,
                       Some(Plan("tcg", Off, false, true, "std", architecture == "arm64", q.tuning)))
  {
    hide Ladder, Behaves, StartsWith;
    StartsAsOffered(q, architecture, gpuModel, preferred, verdict);
  }

  /** A QEMU that has everything starts the VM with everything. */
  lemma WithEverything(q: Features, architecture: string, gpuModel: string, preferred: string, verdict: Plan -> Verdict)
    requires Behaves(q, Ladder(architecture, gpuModel, preferred), verdict)
    requires preferred in q.accelerators && gpuModel in q.gpus && q.spice && q.secrets && q.audio
    requires q.tablet && q.uefiVars && q.tuning
    ensures StartsWith(Ladder(architecture, gpuModel, preferred), verdict,
                       Some(Plan(preferred, Secret, true, true, gpuModel, architecture == "arm64", true)))
  {
    hide Ladder, Behaves, StartsWith;
    StartsAsOffered(q, architecture, gpuModel, preferred, verdict);
  }
}
