/** What the crash watcher guarantees over whole histories of marks, ticks and polls. */
module CrashHistory {
  import opened Wrappers
  import opened Sequences
  import opened CrashWatcher

  /** The last successful listing of a family. */
  function LastListing(events: seq<Event>, k: Kind): Option<States> {
    if events == [] then None
    else
      var e := events[|events| - 1];
      if ListingOf(e, k).Some? then Some(StatesOf(k, ListingOf(e, k).value)) else LastListing(events[..|events| - 1], k)
  }

  function Reference(v: View, k: Kind): Option<States> {
    if k in v.last then Some(v.last[k]) else None
  }

  lemma StepReference(v: View, e: Event, k: Kind)
    ensures Reference(Step(v, e), k)
         == if ListingOf(e, k).Some? then Some(StatesOf(k, ListingOf(e, k).value)) else Reference(v, k)
  {
  }

  /**
    After any history of full, partial and failed polls, the reference of each family is exactly its
    last successful listing.
   */
  lemma {:induction false} ReferenceIsLastListing(events: seq<Event>, k: Kind)
    ensures Reference(Run(INITIAL, events), k) == LastListing(events, k)
  {
    if events != [] {
      var n := |events| - 1;
      ReferenceIsLastListing(events[..n], k);
      StepReference(Run(INITIAL, events[..n]), events[n], k);
    }
  }

  /** Guests of a family that an event shows stopped, told from the listings alone. */
  predicate StoppedAt(events: seq<Event>, e: Event, g: Guest) {
    var listing, last := ListingOf(e, g.kind), LastListing(events, g.kind);
    listing.Some? && last.Some? &&
    (var states := StatesOf(g.kind, listing.value);
     g in states && g in last.value && last.value[g] == "running" && !IsLive(states[g]))
  }

  /** Expiry of the last mark of `g` that no stop has used up since; ticks that prune are not looked at. */
  function MarkExpiry(events: seq<Event>, g: Guest): Option<int> {
    if events == [] then None
    else
      var before, e := events[..|events| - 1], events[|events| - 1];
      if e.Mark? && e.guest == g then Some(e.now + e.ttl)
      else if StoppedAt(before, e, g) then None
      else MarkExpiry(before, g)
  }

  /** The clock does not go back. */
  predicate Monotone(events: seq<Event>) {
    forall i, j :: 0 <= i < j < |events| ==> events[i].now <= events[j].now
  }

  predicate NotAfter(events: seq<Event>, now: int) {
    forall i :: 0 <= i < |events| ==> events[i].now <= now
  }

  lemma StoppedIsStoppedAt(events: seq<Event>, e: Event, g: Guest)
    ensures StoppedAt(events, e, g)
      <==> ListingOf(e, g.kind).Some?
           && g in Stopped(Run(INITIAL, events), g.kind, StatesOf(g.kind, ListingOf(e, g.kind).value))
  {
    ReferenceIsLastListing(events, g.kind);
  }

  lemma StepMarks(v: View, e: Event, g: Guest, now: int)
    requires e.now <= now
    ensures Expected(Step(v, e), g, now)
      <==> if e.Mark? && e.guest == g then e.now + e.ttl > now
           else Expected(v, g, now)
                && !(ListingOf(e, g.kind).Some?
                     && g in Stopped(v, g.kind, StatesOf(g.kind, ListingOf(e, g.kind).value)))
  {
    match e {
      case Mark(_, _, _) =>
      case Begin(_) =>
      case Poll(_, vm, lxc) =>
        var w := Read(v, VmKind, vm);
        assert lxc.Some? ==>
          Stopped(w, LxcKind, StatesOf(LxcKind, lxc.value)) == Stopped(v, LxcKind, StatesOf(LxcKind, lxc.value));
    }
  }

  /** Pruning expired marks at every tick never changes what a later stop finds. */
  lemma {:induction false} MarksArePreserved(events: seq<Event>, g: Guest, now: int)
    requires NotAfter(events, now)
    ensures Expected(Run(INITIAL, events), g, now) <==> MarkExpiry(events, g).Some? && MarkExpiry(events, g).value > now
  {
    hide Step, Stopped, StoppedAt, LastListing;
    if events != [] {
      var n := |events| - 1;
      MarksArePreserved(events[..n], g, now);
      StoppedIsStoppedAt(events[..n], events[n], g);
      StepMarks(Run(INITIAL, events[..n]), events[n], g, now);
    }
  }

  /**
    A guest is diagnosed at an event if and only if the last successful listing of
    its family had it running, the new one has it in a state that is not live, and
    no unexpired mark is left.
   */
  lemma DiagnosedExactly(events: seq<Event>, e: Event, g: Guest)
    requires NotAfter(events, e.now)
    ensures g in Diagnosed(Run(INITIAL, events), e, g.kind)
      <==> StoppedAt(events, e, g) && !(MarkExpiry(events, g).Some? && MarkExpiry(events, g).value > e.now)
  {
    StoppedIsStoppedAt(events, e, g);
    MarksArePreserved(events, g, e.now);
  }

  // ---- Two diagnoses ----------------------------------------------------------------------

  predicate SeenRunning(e: Event, g: Guest) {
    ListingOf(e, g.kind).Some? && g in StatesOf(g.kind, ListingOf(e, g.kind).value)
    && StatesOf(g.kind, ListingOf(e, g.kind).value)[g] == "running"
  }

  predicate DiagnosedAt(events: seq<Event>, i: nat, g: Guest)
    requires i < |events|
  {
    g in Diagnosed(Run(INITIAL, events[..i]), events[i], g.kind)
  }

  /** A reference that has the guest running comes from a poll after any poll that showed it stopped. */
  lemma {:induction false} RunningSince(events: seq<Event>, i: nat, n: nat, g: Guest)
    requires i < n <= |events|
    requires ListingOf(events[i], g.kind).Some? && !SeenRunning(events[i], g)
    requires LastListing(events[..n], g.kind).Some?
    requires g in LastListing(events[..n], g.kind).value && LastListing(events[..n], g.kind).value[g] == "running"
    ensures exists m :: i < m < n && SeenRunning(events[m], g)
    decreases n
  {
    var last := events[..n];
    assert last[|last| - 1] == events[n - 1] && last[..|last| - 1] == events[..n - 1];
    if ListingOf(events[n - 1], g.kind).Some? {
      assert SeenRunning(events[n - 1], g);
    } else {
      RunningSince(events, i, n - 1, g);
    }
  }

  /** Between two diagnoses of a guest there is always a poll that saw it running. */
  lemma RunningBetweenDiagnoses(events: seq<Event>, i: nat, j: nat, g: Guest)
    requires i < j < |events| && DiagnosedAt(events, i, g) && DiagnosedAt(events, j, g)
    ensures exists m :: i < m < j && SeenRunning(events[m], g)
  {
    ReferenceIsLastListing(events[..j], g.kind);
    RunningSince(events, i, j, g);
  }

  // ---- Stutters and independence ------------------------------------------------------------

  /** What an event says about one family: its own marks and its own successful listings. */
  function Projection(e: Event, k: Kind): seq<Event> {
    match e
    case Mark(g, _, _) => if g.kind == k then [e] else []
    case Begin(_) => []
    case Poll(now, vm, lxc) =>
      if ListingOf(e, k).None? then []
      else if k.VmKind? then [Poll(now, vm, None)] else [Poll(now, None, lxc)]
  }

  function Project(events: seq<Event>, k: Kind): seq<Event> {
    if events == [] then [] else Project(events[..|events| - 1], k) + Projection(events[|events| - 1], k)
  }

  /** The diagnoses of a family, in order: when, and whom. */
  function Report(v: View, events: seq<Event>, k: Kind): seq<(int, set<Guest>)> {
    if events == [] then []
    else
      var n := |events| - 1;
      Report(v, events[..n], k) + ReportOf(Run(v, events[..n]), events[n], k)
  }

  function ReportOf(v: View, e: Event, k: Kind): seq<(int, set<Guest>)> {
    if ListingOf(e, k).Some? then [(e.now, Diagnosed(v, e, k))] else []
  }

  /** The two views look the same to one family from `now` on. */
  ghost predicate Alike(v: View, w: View, k: Kind, now: int) {
    Reference(v, k) == Reference(w, k)
    && forall g: Guest, t: int :: g.kind == k && t >= now ==> (Expected(v, g, t) <==> Expected(w, g, t))
  }

  lemma AlikeStep(v: View, w: View, e: Event, k: Kind)
    requires Alike(v, w, k, e.now)
    ensures var p := Projection(e, k);
      if p == [] then Alike(Step(v, e), w, k, e.now) else Alike(Step(v, e), Step(w, p[0]), k, e.now)
  {
    var p := Projection(e, k);
    StepReference(v, e, k);
    forall g: Guest, t: int | g.kind == k && t >= e.now
      ensures Expected(Step(v, e), g, t) <==> if p == [] then Expected(w, g, t) else Expected(Step(w, p[0]), g, t)
    {
      StepMarks(v, e, g, t);
      if p != [] {
        StepMarks(w, p[0], g, t);
        if ListingOf(e, k).Some? {
          assert Stopped(v, k, StatesOf(k, ListingOf(e, k).value)) == Stopped(w, k, StatesOf(k, ListingOf(e, k).value));
        }
      }
    }
    if p != [] {
      StepReference(w, p[0], k);
    }
  }

  lemma AlikeDiagnoses(v: View, w: View, e: Event, k: Kind)
    requires Alike(v, w, k, e.now) && ListingOf(e, k).Some?
    ensures Projection(e, k) != [] && Diagnosed(v, e, k) == Diagnosed(w, Projection(e, k)[0], k)
  {
    var p := Projection(e, k)[0];
    var states := StatesOf(k, ListingOf(e, k).value);
    assert ListingOf(p, k) == ListingOf(e, k) && p.now == e.now;
    assert Stopped(v, k, states) == Stopped(w, k, states);
    InOneFamily(v, k, states);
  }

  lemma InOneFamily(v: View, k: Kind, states: States)
    requires InFamily(states, k)
    ensures forall g :: g in Stopped(v, k, states) ==> g.kind == k
  {
  }

  lemma ProjectionShape(e: Event, k: Kind)
    ensures |Projection(e, k)| <= 1
    ensures Projection(e, k) != [] ==>
      Projection(e, k)[0].now == e.now && ListingOf(Projection(e, k)[0], k) == ListingOf(e, k)
    ensures Projection(e, k) == [] ==> ListingOf(e, k).None?
  {
  }

  lemma LaterAlike(v: View, w: View, k: Kind, now: int)
    requires Alike(v, w, k, now)
    ensures forall later :: later >= now ==> Alike(v, w, k, later)
  {
  }

  lemma NothingAlike(k: Kind)
    ensures forall now :: Alike(INITIAL, INITIAL, k, now)
  {
  }

  lemma RunSnoc(v: View, events: seq<Event>, e: Event, k: Kind)
    ensures Run(v, events + [e]) == Step(Run(v, events), e)
    ensures Report(v, events + [e], k) == Report(v, events, k) + ReportOf(Run(v, events), e, k)
  {
    assert (events + [e])[..|events|] == events;
  }

  lemma ProjectedRun(before: seq<Event>, e: Event, k: Kind)
    ensures var w, p := Run(INITIAL, Project(before, k)), Projection(e, k);
      var after := Project(before + [e], k);
      && Run(INITIAL, after) == (if p == [] then w else Step(w, p[0]))
      && Report(INITIAL, after, k) == Report(INITIAL, Project(before, k), k)
         + if p == [] then [] else ReportOf(w, p[0], k)
  {
    hide Step, Projection, ReportOf;
    ProjectionShape(e, k);
    var p := Projection(e, k);
    assert (before + [e])[..|before|] == before;
    if p == [] {
      Neutral(Project(before, k));
      Neutral(Report(INITIAL, Project(before, k), k));
    } else {
      assert p == [p[0]];
      RunSnoc(INITIAL, Project(before, k), p[0], k);
    }
  }

  /** One event, seen and projected. */
  lemma AlikeAfter(v: View, w: View, e: Event, k: Kind)
    requires Alike(v, w, k, e.now)
    ensures var p := Projection(e, k);
      && Alike(Step(v, e), if p == [] then w else Step(w, p[0]), k, e.now)
      && ReportOf(v, e, k) == if p == [] then [] else ReportOf(w, p[0], k)
  {
    hide Step, Alike, Diagnosed, Projection;
    AlikeStep(v, w, e, k);
    ProjectionShape(e, k);
    if ListingOf(e, k).Some? {
      AlikeDiagnoses(v, w, e, k);
    }
  }

  lemma {:induction false} AlikeRuns(events: seq<Event>, k: Kind, now: int)
    requires Monotone(events) && NotAfter(events, now)
    ensures Alike(Run(INITIAL, events), Run(INITIAL, Project(events, k)), k, now)
  {
    hide Step, Alike, Projection, ReportOf, Report;
    if events == [] {
      NothingAlike(k);
    } else {
      var n := |events| - 1;
      var before, e := events[..n], events[n];
      AlikeRuns(before, k, e.now);
      LastElement(events);
      ProjectedRun(before, e, k);
      AlikeAfter(Run(INITIAL, before), Run(INITIAL, Project(before, k)), e, k);
      LaterAlike(Run(INITIAL, events), Run(INITIAL, Project(events, k)), k, e.now);
    }
  }

  /**
    Failed polls are stutters, families do not interfere, and ticks that prune change
    nothing: what is reported of a family depends on its own marks and listings alone.
   */
  lemma {:induction false} FamiliesAreIndependent(events: seq<Event>, k: Kind)
    requires Monotone(events)
    ensures Report(INITIAL, events, k) == Report(INITIAL, Project(events, k), k)
  {
    hide Step, Alike, Projection, ReportOf;
    if events != [] {
      var n := |events| - 1;
      var before, e := events[..n], events[n];
      FamiliesAreIndependent(before, k);
      AlikeRuns(before, k, e.now);
      LastElement(events);
      ProjectedRun(before, e, k);
      AlikeAfter(Run(INITIAL, before), Run(INITIAL, Project(before, k)), e, k);
    }
  }
}
