/**
  The automatic restarts of the crash watcher. Every restart that was tried is
  counted in the event table, and a guest that was restarted too often within a
  sliding window is left stopped. The table stamps its rows in whole seconds, the
  start of a guest is awaited, and old rows are pruned by an independent timer.
 */
module CrashRestarts {
  import opened Wrappers
  import opened Sequences
  import opened CrashWatcher

  datatype RowKind = Crash | Restart | RestartFailed | GaveUp

  datatype Row = Row(guest: Guest, kind: RowKind, at: int, attempt: Option<nat>)

  /** `retentionDays` of zero turns pruning off; both numeric settings are read as positive numbers. */
  datatype Settings = Settings(maxAttempts: nat, windowMinutes: nat, retentionDays: nat)

  /**
    `Stop`: a guest is found stopped; `clean` if libvirt reports a clean shutdown, `policy`
    if the guest is to be restarted. `Started`: the awaited start returned or failed.
    Times are in milliseconds.
   */
  datatype Activity =
    | Stop(guest: Guest, now: int, clean: bool, policy: bool)
    | Started(now: int, ok: bool)
    | PruneRows(now: int)

  /** `pending` is the start being awaited, with its attempt number. */
  datatype Table = Table(rows: seq<Row>, pending: Option<(Guest, nat)>)

  const EMPTY := Table([], None)

  function SecondOf(ms: int): int {
    ms / 1000
  }

  function Window(s: Settings): int {
    60 * if s.windowMinutes > 1 then s.windowMinutes else 1
  }

  function Retention(s: Settings): int {
    86400 * s.retentionDays
  }

  predicate Tried(r: Row, g: Guest, cutoff: int) {
    r.guest == g && (r.kind.Restart? || r.kind.RestartFailed?) && r.at > cutoff
  }

  /** `countRecentRestarts`, with the cutoff worked out. */
  function Count(rows: seq<Row>, g: Guest, cutoff: int): nat {
    if rows == [] then 0
    else Count(rows[..|rows| - 1], g, cutoff) + if Tried(rows[|rows| - 1], g, cutoff) then 1 else 0
  }

  function Keep(rows: seq<Row>, cutoff: int): seq<Row> {
    if rows == [] then []
    else Keep(rows[..|rows| - 1], cutoff) + if rows[|rows| - 1].at < cutoff then [] else [rows[|rows| - 1]]
  }

  function Counted(s: Settings, t: Table, g: Guest, now: int): nat {
    Count(t.rows, g, SecondOf(now) - Window(s))
  }

  /** Whether an event starts a guest. */
  predicate Starts(s: Settings, t: Table, e: Activity) {
    e.Stop? && t.pending.None? && !e.clean && e.policy && Counted(s, t, e.guest, e.now) < s.maxAttempts
  }

  function Do(s: Settings, t: Table, e: Activity): Table {
    match e
    case Stop(g, now, clean, policy) =>
      if t.pending.Some? || clean then t
      else
        var crashed := Table(t.rows + [Row(g, Crash, SecondOf(now), None)], None);
        var tried := Counted(s, t, g, now);
        if !policy then crashed
        else if tried >= s.maxAttempts then
          Table(crashed.rows + [Row(g, GaveUp, SecondOf(now), Some(tried))], None)
        else Table(crashed.rows, Some((g, tried + 1)))
    case Started(now, ok) =>
      if t.pending.None? then t
      else
        var (g, attempt) := t.pending.value;
        Table(t.rows + [Row(g, if ok then Restart else RestartFailed, SecondOf(now), Some(attempt))], None)
    case PruneRows(now) =>
      if s.retentionDays == 0 then t else t.(rows := Keep(t.rows, SecondOf(now) - Retention(s)))
  }

  function After(s: Settings, events: seq<Activity>): Table {
    if events == [] then EMPTY else Do(s, After(s, events[..|events| - 1]), events[|events| - 1])
  }

  // ---- The handler ---------------------------------------------------------------------

  class Handler {
    var settings: Settings
    var rows: seq<Row>
    var pending: Option<(Guest, nat)>

    ghost function State(): Table
      reads this
    {
      Table(rows, pending)
    }

    constructor (s: Settings)
      ensures settings == s && State() == EMPTY
    {
      settings, rows, pending := s, [], None;
    }

    method Record(g: Guest, kind: RowKind, now: int, attempt: Option<nat>)
      modifies this`rows
      ensures rows == old(rows) + [Row(g, kind, SecondOf(now), attempt)]
    {
      rows := rows + [Row(g, kind, SecondOf(now), attempt)];
    }

    /** Up to the awaited start. */
    method HandleUnexpectedStop(g: Guest, now: int, clean: bool, policy: bool) returns (start: bool)
      requires pending.None?
      modifies this`rows, this`pending
      ensures State() == Do(settings, old(State()), Stop(g, now, clean, policy))
      ensures start == Starts(settings, old(State()), Stop(g, now, clean, policy))
    {
      if clean {
        return false;
      }
      Record(g, Crash, now, None);
      if !policy {
        return false;
      }
      var alreadyTried := CountRecentRestarts(rows, g, now, settings);
      CountSnoc(old(rows), Row(g, Crash, SecondOf(now), None), g, SecondOf(now) - Window(settings));
      if alreadyTried >= settings.maxAttempts {
        Record(g, GaveUp, now, Some(alreadyTried));
        return false;
      }
      pending := Some((g, alreadyTried + 1));
      return true;
    }

    /** After the awaited start. */
    method StartReturned(now: int, ok: bool)
      requires pending.Some?
      modifies this`rows, this`pending
      ensures State() == Do(settings, old(State()), Started(now, ok))
    {
      var (g, attempt) := pending.value;
      Record(g, if ok then Restart else RestartFailed, now, Some(attempt));
      pending := None;
    }

    method Prune(now: int)
      modifies this`rows
      ensures State() == Do(settings, old(State()), PruneRows(now))
    {
      if settings.retentionDays == 0 {
        return;
      }
      rows := Keep(rows, SecondOf(now) - Retention(settings));
    }
  }

  /** One pass over the table. */
  method CountRecentRestarts(rows: seq<Row>, g: Guest, now: int, s: Settings) returns (n: nat)
    ensures n == Count(rows, g, SecondOf(now) - Window(s))
    ensures n <= |rows|
  {
    hide SecondOf, Window, Tried;
    var cutoff := SecondOf(now) - Window(s);
    n := 0;
    var i := 0;
    while i < |rows|
      invariant n <= i <= |rows|
      invariant n == Count(rows[..i], g, cutoff)
    {
      CountSnoc(rows[..i], rows[i], g, cutoff);
      TakeNext(rows, i);
      if Tried(rows[i], g, cutoff) {
        n := n + 1;
      }
      i := i + 1;
    }
    assert rows[..i] == rows;
  }

  // ---- Counting ------------------------------------------------------------------------

  lemma CountSnoc(rows: seq<Row>, r: Row, g: Guest, cutoff: int)
    ensures Count(rows + [r], g, cutoff) == Count(rows, g, cutoff) + if Tried(r, g, cutoff) then 1 else 0
  {
    assert (rows + [r])[..|rows|] == rows;
  }

  lemma {:induction false} CountLess(rows: seq<Row>, g: Guest, low: int, high: int)
    requires low <= high
    ensures Count(rows, g, high) <= Count(rows, g, low)
  {
    if rows != [] {
      CountLess(rows[..|rows| - 1], g, low, high);
    }
  }

  /** Pruning lowers a count, and only a count that reaches behind the retention. */
  lemma {:induction false} CountKept(rows: seq<Row>, limit: int, g: Guest, cutoff: int)
    ensures Count(Keep(rows, limit), g, cutoff) <= Count(rows, g, cutoff)
    ensures limit <= cutoff + 1 ==> Count(Keep(rows, limit), g, cutoff) == Count(rows, g, cutoff)
  {
    if rows != [] {
      var n := |rows| - 1;
      CountKept(rows[..n], limit, g, cutoff);
      CountSnoc(Keep(rows[..n], limit), rows[n], g, cutoff);
      Neutral(Keep(rows[..n], limit));
    }
  }

  /** How often an event history starts `g` in the closed window `[from, until]`. */
  function StartsBetween(s: Settings, events: seq<Activity>, g: Guest, from: int, until: int): nat {
    if events == [] then 0
    else
      var before, e := events[..|events| - 1], events[|events| - 1];
      StartsBetween(s, before, g, from, until)
      + if Starts(s, After(s, before), e) && e.guest == g && from <= e.now <= until then 1 else 0
  }

  predicate Ordered(events: seq<Activity>) {
    forall i, j :: 0 <= i < j < |events| ==> events[i].now <= events[j].now
  }

  predicate Until(events: seq<Activity>, now: int) {
    forall i :: 0 <= i < |events| ==> events[i].now <= now
  }

  // ---- The limit -----------------------------------------------------------------------

  /** How far back the count can be relied on, in seconds: the window, or the retention where that is shorter. */
  function Horizon(s: Settings): int {
    if s.retentionDays == 0 || Window(s) <= Retention(s) then Window(s) else Retention(s) + 1
  }

  function Awaited(t: Table, g: Guest): nat {
    if t.pending.Some? && t.pending.value.0 == g then 1 else 0
  }

  lemma {:induction false} WindowShrinks(s: Settings, events: seq<Activity>, g: Guest, from: int, until: int,
                                         later: int, sooner: int)
    requires from <= later && (sooner <= until || Until(events, until))
    ensures StartsBetween(s, events, g, later, sooner) <= StartsBetween(s, events, g, from, until)
  {
    hide Starts;
    if events != [] {
      WindowShrinks(s, events[..|events| - 1], g, from, until, later, sooner);
    }
  }

  lemma {:induction false} NothingLater(s: Settings, events: seq<Activity>, g: Guest, from: int, until: int)
    requires Until(events, until)
    ensures forall end ::
        end >= until ==> StartsBetween(s, events, g, from, end) == StartsBetween(s, events, g, from, until)
  {
    hide Starts;
    if events != [] {
      NothingLater(s, events[..|events| - 1], g, from, until);
    }
  }

  lemma AfterSnoc(s: Settings, before: seq<Activity>, e: Activity, g: Guest, from: int, until: int)
    ensures After(s, before + [e]) == Do(s, After(s, before), e)
    ensures StartsBetween(s, before + [e], g, from, until) == StartsBetween(s, before, g, from, until)
      + if Starts(s, After(s, before), e) && e.guest == g && from <= e.now <= until then 1 else 0
  {
    assert (before + [e])[..|before|] == before;
  }

  /** What one event does to a count that the retention does not touch. */
  lemma CountAfter(s: Settings, t: Table, e: Activity, g: Guest, cutoff: int)
    requires cutoff >= SecondOf(e.now) - Horizon(s)
    ensures Count(Do(s, t, e).rows, g, cutoff) + Awaited(Do(s, t, e), g)
         == Count(t.rows, g, cutoff)
          + (if Starts(s, t, e) && e.guest == g then 1 else 0)
          + (if e.Started? && SecondOf(e.now) <= cutoff then 0 else Awaited(t, g))
  {
    hide Count, Keep, SecondOf, Counted;
    match e {
      case Stop(h, now, clean, policy) =>
        var r := Row(h, Crash, SecondOf(now), None);
        CountSnoc(t.rows, r, g, cutoff);
        var tried := Counted(s, t, h, now);
        CountSnoc(t.rows + [r], Row(h, GaveUp, SecondOf(now), Some(tried)), g, cutoff);
      case Started(now, ok) =>
        if t.pending.Some? {
          var (h, attempt) := t.pending.value;
          CountSnoc(t.rows, Row(h, if ok then Restart else RestartFailed, SecondOf(now), Some(attempt)), g, cutoff);
        }
      case PruneRows(now) =>
        CountKept(t.rows, SecondOf(now) - Retention(s), g, cutoff);
    }
  }

  /** Every start within the horizon is still counted, or being awaited. */
  lemma {:induction false} StartsAreCounted(s: Settings, events: seq<Activity>, g: Guest, now: int, cutoff: int)
    requires Ordered(events) && Until(events, now) && cutoff >= SecondOf(now) - Horizon(s)
    ensures StartsBetween(s, events, g, 1000 * (cutoff + 1), now)
         <= Count(After(s, events).rows, g, cutoff) + Awaited(After(s, events), g)
  {
    hide Do, Starts, Count;
    if events != [] {
      var n := |events| - 1;
      var before, e := events[..n], events[n];
      var from := 1000 * (cutoff + 1);
      StartsAreCounted(s, before, g, e.now, cutoff);
      NothingLater(s, before, g, from, e.now);
      CountAfter(s, After(s, before), e, g, cutoff);
      if e.Started? && SecondOf(e.now) <= cutoff {
        NoneSince(s, before, g, from, e.now);
      }
    }
  }

  lemma {:induction false} NoneSince(s: Settings, events: seq<Activity>, g: Guest, from: int, until: int)
    requires until < from
    ensures StartsBetween(s, events, g, from, until) == 0
  {
    hide Starts;
    if events != [] {
      NoneSince(s, events[..|events| - 1], g, from, until);
    }
  }

  /** What the horizon reaches back to from within a window starts before the window. */
  lemma ReachesBack(from: int, now: int, until: int, horizon: int)
    requires from <= now <= until && SecondOf(until) - SecondOf(from) < horizon
    ensures 1000 * (SecondOf(now) - horizon + 1) <= from
  {
  }

  /** In no run does a window that the horizon covers hold more than `maxAttempts` starts of a guest. */
  lemma {:induction false} LimitHolds(s: Settings, events: seq<Activity>, g: Guest, from: int, until: int)
    requires Ordered(events) && SecondOf(until) - SecondOf(from) < Horizon(s)
    ensures StartsBetween(s, events, g, from, until) <= s.maxAttempts
  {
    hide SecondOf, Do, Count, Window, Retention;
    if events != [] {
      var n := |events| - 1;
      var before, e := events[..n], events[n];
      LimitHolds(s, before, g, from, until);
      var t := After(s, before);
      if Starts(s, t, e) && e.guest == g && from <= e.now <= until {
        var cutoff := SecondOf(e.now) - Horizon(s);
        StartsAreCounted(s, before, g, e.now, cutoff);
        ReachesBack(from, e.now, until, Horizon(s));
        WindowShrinks(s, before, g, 1000 * (cutoff + 1), e.now, from, until);
        CountLess(t.rows, g, SecondOf(e.now) - Window(s), cutoff);
      }
    }
  }

  /** The window is respected in every run: with the starts timed in milliseconds. */
  ghost predicate Limited(s: Settings, g: Guest, from: int, until: int) {
    forall events | Ordered(events) :: StartsBetween(s, events, g, from, until) <= s.maxAttempts
  }

  /** `n` crashes at `at`, each restarted at once. */
  function Crashes(g: Guest, at: int, n: nat): seq<Activity> {
    if n == 0 then [] else Crashes(g, at, n - 1) + [Stop(g, at, false, true), Started(at, true)]
  }

  predicate AllAt(rows: seq<Row>, second: int) {
    forall i :: 0 <= i < |rows| ==> rows[i].at == second
  }

  lemma OneRestart(s: Settings, t: Table, g: Guest, at: int)
    requires t.pending.None? && AllAt(t.rows, SecondOf(at)) && Counted(s, t, g, at) < s.maxAttempts
    ensures Starts(s, t, Stop(g, at, false, true))
    ensures var u := Do(s, Do(s, t, Stop(g, at, false, true)), Started(at, true));
      u.pending.None? && AllAt(u.rows, SecondOf(at)) && Counted(s, u, g, at) == Counted(s, t, g, at) + 1
  {
    hide SecondOf, Count, Keep;
    var n := Counted(s, t, g, at);
    var crash, restart := Row(g, Crash, SecondOf(at), None), Row(g, Restart, SecondOf(at), Some(n + 1));
    CountSnoc(t.rows, crash, g, SecondOf(at) - Window(s));
    CountSnoc(t.rows + [crash], restart, g, SecondOf(at) - Window(s));
  }

  lemma OneMoreRestart(s: Settings, before: seq<Activity>, g: Guest, at: int, until: int)
    requires at <= until
    requires var t := After(s, before);
      t.pending.None? && AllAt(t.rows, SecondOf(at)) && Counted(s, t, g, at) < s.maxAttempts
    ensures var t, u := After(s, before), After(s, before + [Stop(g, at, false, true), Started(at, true)]);
      u.pending.None? && AllAt(u.rows, SecondOf(at)) && Counted(s, u, g, at) == Counted(s, t, g, at) + 1
    ensures StartsBetween(s, before + [Stop(g, at, false, true), Started(at, true)], g, at, until)
         == StartsBetween(s, before, g, at, until) + 1
  {
    hide SecondOf, Do, Starts, Counted, AllAt, After, StartsBetween;
    var crash, started := Stop(g, at, false, true), Started(at, true);
    Associative(before, [crash], [started]);
    assert [crash] + [started] == [crash, started];
    AfterSnoc(s, before, crash, g, at, until);
    AfterSnoc(s, before + [crash], started, g, at, until);
    OneRestart(s, After(s, before), g, at);
    OnlyStopsStart(s, After(s, before + [crash]), started);
  }

  lemma {:induction false} CrashesRestart(s: Settings, g: Guest, at: int, n: nat, until: int)
    requires n <= s.maxAttempts && at <= until
    ensures var t := After(s, Crashes(g, at, n));
      t.pending.None? && AllAt(t.rows, SecondOf(at)) && Counted(s, t, g, at) == n
    ensures StartsBetween(s, Crashes(g, at, n), g, at, until) == n
  {
    if n == 0 {
      NothingCounted(s, g, at);
    } else {
      hide SecondOf, Do, Starts, Counted, AllAt, After, StartsBetween;
      CrashesRestart(s, g, at, n - 1, until);
      OneMoreRestart(s, Crashes(g, at, n - 1), g, at, until);
    }
  }

  lemma NothingCounted(s: Settings, g: Guest, now: int)
    ensures Counted(s, EMPTY, g, now) == 0
  {
  }

  lemma OnlyStopsStart(s: Settings, t: Table, e: Activity)
    ensures Starts(s, t, e) ==> e.Stop?
  {
  }

  lemma {:induction false} AllAtOnce(g: Guest, at: int, n: nat)
    ensures forall i :: 0 <= i < |Crashes(g, at, n)| ==> Crashes(g, at, n)[i].now == at
  {
    if n > 0 {
      AllAtOnce(g, at, n - 1);
    }
  }

  lemma {:induction false} OldRowsAreNotCounted(rows: seq<Row>, second: int, g: Guest, cutoff: int)
    requires AllAt(rows, second) && second <= cutoff
    ensures Count(rows, g, cutoff) == 0
  {
    if rows != [] {
      OldRowsAreNotCounted(rows[..|rows| - 1], second, g, cutoff);
    }
  }

  lemma {:induction false} OldRowsArePruned(rows: seq<Row>, second: int, cutoff: int)
    requires AllAt(rows, second) && second < cutoff
    ensures Keep(rows, cutoff) == []
  {
    if rows != [] {
      OldRowsArePruned(rows[..|rows| - 1], second, cutoff);
    }
  }

  /** The run that breaks the limit: a full budget, the pruning timer, one more crash. */
  function Overrun(s: Settings, g: Guest, from: int, until: int): seq<Activity> {
    Crashes(g, from, s.maxAttempts) + [PruneRows(until)] + [Stop(g, until, false, true)]
  }

  lemma OverrunStarts(s: Settings, g: Guest, from: int, until: int)
    requires s.maxAttempts > 0 && from <= until && SecondOf(until) - SecondOf(from) >= Horizon(s)
    ensures Ordered(Overrun(s, g, from, until))
    ensures StartsBetween(s, Overrun(s, g, from, until), g, from, until) == s.maxAttempts + 1
  {
    hide Count, Keep, SecondOf;
    var before := Crashes(g, from, s.maxAttempts);
    CrashesRestart(s, g, from, s.maxAttempts, until);
    AllAtOnce(g, from, s.maxAttempts);
    var t := After(s, before);
    var prune, crash := PruneRows(until), Stop(g, until, false, true);
    AfterSnoc(s, before, prune, g, from, until);
    AfterSnoc(s, before + [prune], crash, g, from, until);
    var cutoff := SecondOf(until) - Window(s);
    if Horizon(s) == Window(s) {
      CountKept(t.rows, SecondOf(until) - Retention(s), g, cutoff);
      OldRowsAreNotCounted(t.rows, SecondOf(from), g, cutoff);
    } else {
      OldRowsArePruned(t.rows, SecondOf(from), SecondOf(until) - Retention(s));
      NothingCounted(s, g, until);
    }
  }

  /**
    Exactly the windows that the limit covers: those whose ends, cut to whole seconds, are
    less than the horizon apart. A window of the configured length that starts within a
    second is not among them, nor is one that reaches behind the retention.
   */
  lemma LimitHoldsExactly(s: Settings, g: Guest, from: int, until: int)
    requires s.maxAttempts > 0 && from <= until
    ensures Limited(s, g, from, until) <==> SecondOf(until) - SecondOf(from) < Horizon(s)
  {
    if SecondOf(until) - SecondOf(from) < Horizon(s) {
      forall events | Ordered(events)
        ensures StartsBetween(s, events, g, from, until) <= s.maxAttempts
      {
        LimitHolds(s, events, g, from, until);
      }
    } else {
      OverrunStarts(s, g, from, until);
      assert StartsBetween(s, Overrun(s, g, from, until), g, from, until) > s.maxAttempts;
    }
  }

  // ---- What the table says -----------------------------------------------------------------

  /** However the events fall, the window never counts more than `maxAttempts`. */
  lemma {:induction false} CountIsBounded(s: Settings, events: seq<Activity>, g: Guest, now: int, cutoff: int)
    requires Ordered(events) && Until(events, now) && cutoff >= SecondOf(now) - Window(s)
    ensures Count(After(s, events).rows, g, cutoff) + Awaited(After(s, events), g) <= s.maxAttempts
  {
    hide Do, Starts, Count;
    if events == [] {
      OldRowsAreNotCounted([], cutoff, g, cutoff);
    } else {
      var n := |events| - 1;
      CountIsBounded(s, events[..n], g, events[n].now, cutoff);
      CountGrows(s, After(s, events[..n]), events[n], g, cutoff);
    }
  }

  lemma CountGrows(s: Settings, t: Table, e: Activity, g: Guest, cutoff: int)
    requires cutoff >= SecondOf(e.now) - Window(s)
    requires Count(t.rows, g, cutoff) + Awaited(t, g) <= s.maxAttempts
    ensures Count(Do(s, t, e).rows, g, cutoff) + Awaited(Do(s, t, e), g) <= s.maxAttempts
  {
    hide Count, Keep, SecondOf;
    match e {
      case Stop(h, now, clean, policy) =>
        var r := Row(h, Crash, SecondOf(now), None);
        CountSnoc(t.rows, r, g, cutoff);
        CountSnoc(t.rows + [r], Row(h, GaveUp, SecondOf(now), Some(Counted(s, t, h, now))), g, cutoff);
        CountLess(t.rows, h, SecondOf(now) - Window(s), cutoff);
      case Started(now, ok) =>
        if t.pending.Some? {
          var (h, attempt) := t.pending.value;
          CountSnoc(t.rows, Row(h, if ok then Restart else RestartFailed, SecondOf(now), Some(attempt)), g, cutoff);
        }
      case PruneRows(now) =>
        CountKept(t.rows, SecondOf(now) - Retention(s), g, cutoff);
    }
  }

  /** A recorded attempt is numbered 1 to `maxAttempts`; a guest is given up at `maxAttempts` exactly. */
  predicate Numbered(s: Settings, r: Row) {
    match r.kind
    case Crash => r.attempt.None?
    case GaveUp => r.attempt == Some(s.maxAttempts)
    case _ => r.attempt.Some? && 1 <= r.attempt.value <= s.maxAttempts
  }

  lemma {:induction false} KeptAreRows(rows: seq<Row>, cutoff: int)
    ensures forall r :: r in Keep(rows, cutoff) ==> r in rows
  {
    if rows != [] {
      KeptAreRows(rows[..|rows| - 1], cutoff);
    }
  }

  lemma {:induction false} AttemptsAreNumbered(s: Settings, events: seq<Activity>)
    requires Ordered(events)
    ensures forall r :: r in After(s, events).rows ==> Numbered(s, r)
    ensures var p := After(s, events).pending; p.Some? ==> 1 <= p.value.1 <= s.maxAttempts
  {
    hide Count, SecondOf;
    if events != [] {
      var n := |events| - 1;
      var e, t := events[n], After(s, events[..n]);
      AttemptsAreNumbered(s, events[..n]);
      KeptAreRows(t.rows, SecondOf(e.now) - Retention(s));
      if e.Stop? {
        CountIsBounded(s, events[..n], e.guest, e.now, SecondOf(e.now) - Window(s));
      }
    }
  }
}
