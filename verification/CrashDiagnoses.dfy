/** Whom the crash watcher diagnoses, told from the listings and the marks as they came. */
module CrashDiagnoses {
  import opened Wrappers
  import opened CrashWatcher
  import opened CrashHistory

  /** The listing of a family that an event brings. */
  function Brought(e: Event, k: Kind): Option<Listing> {
    match e
    case Poll(_, vm, lxc) => if k.VmKind? then vm else lxc
    case _ => None
  }

  /** The last entry with this name says so; an entry without a state says "unknown". */
  ghost predicate Says(listing: Listing, name: string, state: string) {
    exists j :: 0 <= j < |listing| && listing[j].0 == name && listing[j].1 in {Some(state), None}
                && (listing[j].1.None? ==> state == "unknown") && NamedLast(listing, j)
  }

  predicate NamedLast(listing: Listing, j: nat)
    requires j < |listing|
  {
    forall k :: j < k < |listing| ==> listing[k].0 != listing[j].0
  }

  /** The last listing of the family so far. */
  ghost predicate LastBrought(events: seq<Event>, k: Kind, listing: Listing) {
    exists m :: 0 <= m < |events| && Brought(events[m], k) == Some(listing)
                && forall n :: m < n < |events| ==> Brought(events[n], k).None?
  }

  /** The last listing had the guest running; this one has it in a state that is not live. */
  ghost predicate ShowsStopped(events: seq<Event>, e: Event, g: Guest) {
    exists before, after, state ::
      && LastBrought(events, g.kind, before) && Brought(e, g.kind) == Some(after)
      && Says(before, g.name, "running") && Says(after, g.name, state)
      && state != "running" && state != "paused" && state != "suspended" && state != "frozen"
  }

  /** A stop was announced, the announcement has not run out, and no stop has used it up since. */
  ghost predicate Announced(events: seq<Event>, g: Guest, now: int) {
    exists m :: 0 <= m < |events| && events[m].Mark? && events[m].guest == g && events[m].now + events[m].ttl > now
                && Standing(events, m, g)
  }

  ghost predicate Standing(events: seq<Event>, m: nat, g: Guest) {
    forall n :: m < n < |events| ==>
      !(events[n].Mark? && events[n].guest == g) && !ShowsStopped(events[..n], events[n], g)
  }

  lemma {:induction false} SaysExactly(k: Kind, listing: Listing, name: string, state: string)
    ensures Says(listing, name, state) <==>
      Guest(k, name) in StatesOf(k, listing) && StatesOf(k, listing)[Guest(k, name)] == state
  {
    if listing != [] {
      var n := |listing| - 1;
      var rest := listing[..n];
      SaysExactly(k, rest, name, state);
      if listing[n].0 == name {
        assert NamedLast(listing, n);
      } else {
        forall j | 0 <= j < n && listing[j].0 == name
          ensures NamedLast(listing, j) <==> NamedLast(rest, j)
        {
          NamedLastOfRest(listing, j);
        }
        assert Says(rest, name, state) <==> Says(listing, name, state) by {
          SaysOfRest(listing, name, state);
        }
      }
    }
  }

  lemma NamedLastOfRest(listing: Listing, j: nat)
    requires j < |listing| - 1 && listing[|listing| - 1].0 != listing[j].0
    ensures NamedLast(listing, j) <==> NamedLast(listing[..|listing| - 1], j)
  {
    var rest := listing[..|listing| - 1];
    if NamedLast(rest, j) {
      forall k | j < k < |listing|
        ensures listing[k].0 != listing[j].0
      {
        assert k < |rest| ==> rest[k] == listing[k];
      }
    }
  }

  lemma SaysOfRest(listing: Listing, name: string, state: string)
    requires listing != [] && listing[|listing| - 1].0 != name
    ensures Says(listing[..|listing| - 1], name, state) <==> Says(listing, name, state)
  {
    hide NamedLast;
    var rest := listing[..|listing| - 1];
    if Says(rest, name, state) {
      var j :| 0 <= j < |rest| && rest[j].0 == name && rest[j].1 in {Some(state), None}
               && (rest[j].1.None? ==> state == "unknown") && NamedLast(rest, j);
      NamedLastOfRest(listing, j);
      assert listing[j] == rest[j];
    }
    if Says(listing, name, state) {
      var j :| 0 <= j < |listing| && listing[j].0 == name && listing[j].1 in {Some(state), None}
               && (listing[j].1.None? ==> state == "unknown") && NamedLast(listing, j);
      NamedLastOfRest(listing, j);
      assert listing[j] == rest[j];
    }
  }

  lemma {:induction false} LastBroughtExactly(events: seq<Event>, k: Kind)
    ensures LastListing(events, k).None? ==> forall listing :: !LastBrought(events, k, listing)
    ensures LastListing(events, k).Some? ==>
      exists listing :: LastBrought(events, k, listing) && LastListing(events, k) == Some(StatesOf(k, listing))
  {
    hide StatesOf;
    if events != [] {
      var n := |events| - 1;
      LastBroughtExactly(events[..n], k);
      if Brought(events[n], k).Some? {
        assert LastBrought(events, k, Brought(events[n], k).value);
      } else {
        forall listing
          ensures LastBrought(events, k, listing) <==> LastBrought(events[..n], k, listing)
        {
          BroughtBefore(events, k, listing);
        }
      }
    }
  }

  lemma BroughtBefore(events: seq<Event>, k: Kind, listing: Listing)
    requires events != [] && Brought(events[|events| - 1], k).None?
    ensures LastBrought(events, k, listing) <==> LastBrought(events[..|events| - 1], k, listing)
  {
    hide LastBrought;
    if LastBrought(events, k, listing) {
      BroughtEarlier(events, k, listing);
    }
    if LastBrought(events[..|events| - 1], k, listing) {
      BroughtStill(events, k, listing);
    }
  }

  lemma BroughtStill(events: seq<Event>, k: Kind, listing: Listing)
    requires events != [] && Brought(events[|events| - 1], k).None?
    requires LastBrought(events[..|events| - 1], k, listing)
    ensures LastBrought(events, k, listing)
  {
    hide Brought;
    var rest := events[..|events| - 1];
    var m :| 0 <= m < |rest| && Brought(rest[m], k) == Some(listing)
             && forall n :: m < n < |rest| ==> Brought(rest[n], k).None?;
    assert events[m] == rest[m] && forall n :: m < n < |rest| ==> events[n] == rest[n];
  }

  lemma BroughtEarlier(events: seq<Event>, k: Kind, listing: Listing)
    requires events != [] && Brought(events[|events| - 1], k).None?
    requires LastBrought(events, k, listing)
    ensures LastBrought(events[..|events| - 1], k, listing)
  {
    hide Brought;
    var rest := events[..|events| - 1];
    var m :| 0 <= m < |events| && Brought(events[m], k) == Some(listing)
             && forall n :: m < n < |events| ==> Brought(events[n], k).None?;
    assert rest[m] == events[m] && forall n :: m < n < |rest| ==> rest[n] == events[n];
  }

  lemma OneLastBrought(events: seq<Event>, k: Kind, a: Listing, b: Listing)
    requires LastBrought(events, k, a) && LastBrought(events, k, b)
    ensures a == b
  {
    hide Brought;
  }

  lemma ShowsStoppedExactly(events: seq<Event>, e: Event, g: Guest)
    ensures ShowsStopped(events, e, g) <==> StoppedAt(events, e, g)
  {
    hide Says, LastBrought, StatesOf, LastListing;
    LastBroughtExactly(events, g.kind);
    assert Brought(e, g.kind) == ListingOf(e, g.kind);
    if ShowsStopped(events, e, g) {
      var before, after, state :|
        && LastBrought(events, g.kind, before) && Brought(e, g.kind) == Some(after)
        && Says(before, g.name, "running") && Says(after, g.name, state)
        && state != "running" && state != "paused" && state != "suspended" && state != "frozen";
      var listing :| LastBrought(events, g.kind, listing)
        && LastListing(events, g.kind) == Some(StatesOf(g.kind, listing));
      OneLastBrought(events, g.kind, before, listing);
      SaysExactly(g.kind, before, g.name, "running");
      SaysExactly(g.kind, after, g.name, state);
    }
    if StoppedAt(events, e, g) {
      var before :| LastBrought(events, g.kind, before)
        && LastListing(events, g.kind) == Some(StatesOf(g.kind, before));
      var after := ListingOf(e, g.kind).value;
      var state := StatesOf(g.kind, after)[g];
      SaysExactly(g.kind, before, g.name, "running");
      SaysExactly(g.kind, after, g.name, state);
    }
  }

  lemma {:induction false} AnnouncedExactly(events: seq<Event>, g: Guest, now: int)
    ensures Announced(events, g, now) <==> MarkExpiry(events, g).Some? && MarkExpiry(events, g).value > now
  {
    hide ShowsStopped, StoppedAt;
    if events != [] {
      var n := |events| - 1;
      var before, e := events[..n], events[n];
      AnnouncedExactly(before, g, now);
      ShowsStoppedExactly(before, e, g);
      AnnouncedSnoc(events, g, now);
    }
  }

  lemma AnnouncedSnoc(events: seq<Event>, g: Guest, now: int)
    requires events != []
    ensures var n := |events| - 1;
      var e := events[n];
      Announced(events, g, now) <==>
        if e.Mark? && e.guest == g then e.now + e.ttl > now
        else Announced(events[..n], g, now) && !ShowsStopped(events[..n], e, g)
  {
    hide ShowsStopped;
    var n := |events| - 1;
    var before := events[..n];
    assert forall k :: 0 <= k <= n ==> before[..k] == events[..k];
    if Announced(events, g, now) {
      var m :| 0 <= m < |events| && events[m].Mark? && events[m].guest == g && events[m].now + events[m].ttl > now
               && Standing(events, m, g);
      if m < n {
        assert before[m] == events[m] && Standing(before, m, g);
      }
    }
    if events[n].Mark? && events[n].guest == g && events[n].now + events[n].ttl > now {
      assert Standing(events, n, g);
    } else if Announced(before, g, now) && !ShowsStopped(before, events[n], g)
              && !(events[n].Mark? && events[n].guest == g) {
      var m :| 0 <= m < |before| && before[m].Mark? && before[m].guest == g && before[m].now + before[m].ttl > now
               && Standing(before, m, g);
      assert events[m] == before[m] && Standing(events, m, g);
    }
  }

  /**
    After any history a guest is diagnosed exactly when the last listing of its family had
    it running, this one has it in none of the four live states, and no announcement of
    its stop is left.
   */
  lemma DiagnosedFromListings(events: seq<Event>, e: Event, g: Guest)
    requires NotAfter(events, e.now)
    ensures g in Diagnosed(Run(INITIAL, events), e, g.kind)
      <==> ShowsStopped(events, e, g) && !Announced(events, g, e.now)
  {
    hide ShowsStopped, StoppedAt, Announced, Run;
    DiagnosedExactly(events, e, g);
    ShowsStoppedExactly(events, e, g);
    AnnouncedExactly(events, g, e.now);
  }
}
