/** The restart limit in the minutes and days of the settings, and what an event leaves in the table. */
module CrashLimits {
  import opened Wrappers
  import opened Sequences
  import opened CrashWatcher
  import opened CrashRestarts

  // ---- The limit on the clock -------------------------------------------------------------------

  /** A start of a guest is what makes the handler await one. */
  lemma StartsAreAwaited(s: Settings, t: Table, e: Activity)
    ensures Starts(s, t, e) <==> t.pending.None? && Do(s, t, e).pending.Some?
    ensures Starts(s, t, e) ==> Do(s, t, e).pending.value.0 == e.guest
  {
  }

  lemma SecondsApart(from: int, until: int)
    requires from <= until
    ensures 1000 * (SecondOf(until) - SecondOf(from)) > until - from - 1000
    ensures 1000 * (SecondOf(until) - SecondOf(from)) < until - from + 1000
  {
  }

  /**
    While the table is kept long enough: a window of the configured minutes, but for its
    last second, holds at most `maxAttempts` starts of a guest in every run; and a run
    exceeds it in a window of the configured minutes.
   */
  lemma LimitInMinutes(s: Settings, g: Guest, from: int, until: int)
    requires s.windowMinutes >= 1 && (s.retentionDays == 0 || 1440 * s.retentionDays >= s.windowMinutes)
    requires s.maxAttempts > 0 && from <= until
    ensures until - from <= 60_000 * s.windowMinutes - 1000 ==> Limited(s, g, from, until)
    ensures until - from >= 60_000 * s.windowMinutes ==> !Limited(s, g, from, until)
  {
    hide SecondOf, Limited;
    SecondsApart(from, until);
    LimitHoldsExactly(s, g, from, until);
  }

  /** Where the table is pruned earlier: a window of the retention's days, and none a second longer. */
  lemma LimitInDays(s: Settings, g: Guest, from: int, until: int)
    requires s.windowMinutes >= 1 && 0 < 1440 * s.retentionDays < s.windowMinutes
    requires s.maxAttempts > 0 && from <= until
    ensures until - from <= 86_400_000 * s.retentionDays ==> Limited(s, g, from, until)
    ensures until - from >= 86_400_000 * s.retentionDays + 1000 ==> !Limited(s, g, from, until)
  {
    hide SecondOf, Limited;
    SecondsApart(from, until);
    LimitHoldsExactly(s, g, from, until);
  }

  // ---- Events -----------------------------------------------------------------------------------

  /** The restarts of a guest tried within the last minutes, failed ones included; a minute at least. */
  predicate TriedLately(r: Row, g: Guest, now: int, minutes: nat) {
    && r.guest == g && r.kind in {Restart, RestartFailed}
    && r.at > now / 1000 - 60 * (if minutes >= 1 then minutes else 1)
  }

  function Lately(rows: seq<Row>, g: Guest, now: int, minutes: nat): set<nat> {
    set i: nat | i < |rows| && TriedLately(rows[i], g, now, minutes)
  }

  lemma {:induction false} CountedExactly(rows: seq<Row>, g: Guest, now: int, s: Settings)
    ensures Count(rows, g, SecondOf(now) - Window(s)) == |Lately(rows, g, now, s.windowMinutes)|
  {
    hide TriedLately, Tried;
    if rows != [] {
      var n := |rows| - 1;
      CountedExactly(rows[..n], g, now, s);
      TriedExactly(rows[n], g, now, s);
      assert Lately(rows, g, now, s.windowMinutes)
          == Lately(rows[..n], g, now, s.windowMinutes)
             + if TriedLately(rows[n], g, now, s.windowMinutes) then {n} else {};
    }
  }

  lemma TriedExactly(r: Row, g: Guest, now: int, s: Settings)
    ensures Tried(r, g, SecondOf(now) - Window(s)) <==> TriedLately(r, g, now, s.windowMinutes)
  {
  }

  /**
    A clean stop is none of the watcher's business. Any other is recorded, and a guest that
    is to be restarted is started exactly when fewer than `maxAttempts` restarts of it were
    tried in the last `windowMinutes` minutes; else it is given up.
   */
  lemma StopOutcome(s: Settings, t: Table, g: Guest, now: int, clean: bool, policy: bool)
    ensures var u := Do(s, t, Stop(g, now, clean, policy));
      var crashed := t.rows + [Row(g, Crash, now / 1000, None)];
      var tried := |Lately(t.rows, g, now, s.windowMinutes)|;
      if t.pending.Some? || clean then u == t
      else if !policy then u == Table(crashed, None)
      else if tried < s.maxAttempts then u == Table(crashed, Some((g, tried + 1)))
      else u == Table(crashed + [Row(g, GaveUp, now / 1000, Some(tried))], None)
  {
    hide Count, Lately, Window;
    CountedExactly(t.rows, g, now, s);
  }

  /** An awaited start is recorded when it returns, failed or not. */
  lemma StartOutcome(s: Settings, t: Table, now: int, ok: bool)
    ensures var u := Do(s, t, Started(now, ok));
      if t.pending.None? then u == t
      else u == Table(t.rows + [Row(t.pending.value.0, if ok then Restart else RestartFailed, now / 1000,
                                    Some(t.pending.value.1))], None)
  {
  }

  /** Pruning takes exactly the rows older than the retention, and none without a retention. */
  lemma PruneOutcome(s: Settings, t: Table, now: int, r: Row)
    ensures var u := Do(s, t, PruneRows(now));
      var kept := s.retentionDays == 0 || r.at >= now / 1000 - 86_400 * s.retentionDays;
      u.pending == t.pending && multiset(u.rows)[r] == if kept then multiset(t.rows)[r] else 0
  {
    hide Keep;
    if s.retentionDays != 0 {
      KeepExactly(t.rows, SecondOf(now) - Retention(s), r);
    }
  }

  lemma {:induction false} KeepExactly(rows: seq<Row>, cutoff: int, r: Row)
    ensures multiset(Keep(rows, cutoff))[r] == if r.at < cutoff then 0 else multiset(rows)[r]
  {
    if rows != [] {
      KeepExactly(rows[..|rows| - 1], cutoff, r);
      LastElement(rows);
    }
  }
}
