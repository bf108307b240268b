/**
  What becomes of a request: when it is sent, what a 401 leads to, and what a refresh that
  ends well gives it.
 */
module TokenRetries {
  import opened Wrappers
  import opened TokenRefresh

  /** The access token is there and has not expired. */
  predicate Fresh(w: World, now: int) {
    w.access.Some? && now < w.expiresAt
  }

  /** The refresh in flight, after a request that needs one. */
  predicate Refreshing(w: World, g: World) {
    if w.phase.Idle? then g.phase == (if w.refresh.Some? then Installing(w.refresh.value) else Loading)
    else g.phase == w.phase
  }

  /** Only request `i` and the refresh in flight differ. */
  predicate OnlyRequest(w: World, i: nat, g: World) {
    && g == w.(phase := g.phase, requests := g.requests) && |g.requests| == |w.requests|
    && forall j :: 0 <= j < |w.requests| && j != i ==> g.requests[j] == w.requests[j]
  }

  /** The request is sent with the current token if that is fresh, and waits for a refresh if not. */
  predicate SentOrWaiting(w: World, i: nat, now: int, retry: bool, sends: nat, g: World)
    requires i < |g.requests|
  {
    if Fresh(w, now) then g.requests[i] == Request(Sent(w.access, retry), sends + 1) && g.phase == w.phase
    else g.requests[i] == Request(Waiting(BeforeSend(retry)), sends) && Refreshing(w, g)
  }

  lemma CallOutcome(w: World, now: int)
    ensures var g := Step(w, Call(now));
      && |g.requests| == |w.requests| + 1 && g.requests[..|w.requests|] == w.requests
      && g == w.(phase := g.phase, requests := g.requests)
      && SentOrWaiting(w, |w.requests|, now, true, 0, g)
  {
  }

  /**
    A request rejected on its first sending is not over: if its token is the current one it
    waits for a refresh, which starts if none is in flight; if not it is sent again, or waits
    because the current token has expired. Any other answer ends a request.
   */
  lemma ResponseOutcome(w: World, i: nat, unauthorized: bool, now: int)
    requires i < |w.requests| && w.requests[i].progress.Sent?
    ensures var g := Step(w, Respond(i, unauthorized, now));
      var p, sends := w.requests[i].progress, w.requests[i].sends;
      && OnlyRequest(w, i, g)
      && (if !unauthorized || !p.retry then g.requests[i] == Request(Done, sends) && g.phase == w.phase
          else if p.token == w.access then g.requests[i] == Request(Waiting(BeforeRetry), sends) && Refreshing(w, g)
          else SentOrWaiting(w, i, now, false, sends, g))
  {
  }

  /** A request whose refresh failed is over; else it goes on where it was: it is sent, or asks for the token again. */
  lemma ResumeOutcome(w: World, i: nat, now: int)
    requires i < |w.requests| && w.requests[i].progress.Woken?
    ensures var g := Step(w, Resume(i, now));
      var p, sends := w.requests[i].progress, w.requests[i].sends;
      && OnlyRequest(w, i, g)
      && (if !p.ok then g.requests[i] == Request(Done, sends) && g.phase == w.phase
          else match p.stage
               case BeforeSend(retry) => g.requests[i] == Request(Sent(w.access, retry), sends + 1)
                 && g.phase == w.phase
               case BeforeRetry => SentOrWaiting(w, i, now, false, sends, g))
  {
  }

  /** When a refresh is over every request that waited goes on, and no other changes. */
  lemma OverOutcome(w: World)
    requires w.phase.Settled?
    ensures var g := Step(w, Finally);
      && g.phase.Idle? && g == w.(phase := Idle, requests := g.requests) && |g.requests| == |w.requests|
      && forall j :: 0 <= j < |w.requests| ==>
           g.requests[j] == if w.requests[j].progress.Waiting?
                            then Request(Woken(w.phase.ok, w.requests[j].progress.stage), w.requests[j].sends)
                            else w.requests[j]
  {
  }

  /** A refresh starts exactly when a request needs one: at a call, a 401 or a resumption. */
  lemma RefreshStartsExactly(w: World, e: Event)
    requires w.phase.Idle?
    ensures !Step(w, e).phase.Idle? <==>
      match e
      case Call(now) => !Fresh(w, now)
      case Respond(i, unauthorized, now) =>
        && i < |w.requests| && unauthorized
        && (w.requests[i].progress == Sent(w.access, true)
            || (w.requests[i].progress.Sent? && w.requests[i].progress.retry && !Fresh(w, now)))
      case Resume(i, now) =>
        i < |w.requests| && w.requests[i].progress == Woken(true, BeforeRetry) && !Fresh(w, now)
      case _ => false
  {
  }

  // ---- The end of a refresh --------------------------------------------------------------------

  /** The token to refresh with: the keychain's if it works and has one, else the one stored beside it. */
  lemma LoadOutcome(w: World, ok: bool)
    requires w.phase.Loading?
    ensures var g := Step(w, Loaded(ok));
      var token := if ok && w.keychain.Some? then w.keychain else w.local;
      && g == w.(refresh := token, phase := g.phase)
      && (token.Some? ==> g.phase == Installing(token.value)) && (token.None? ==> g.phase == Settled(false))
  {
  }

  /** A new token is stored in the keychain, and nowhere else, or beside it if the keychain fails. */
  lemma SaveOutcome(w: World, ok: bool)
    requires w.phase.Saving?
    ensures var g := Step(w, Saved(ok));
      && g == w.(keychain := g.keychain, local := g.local, phase := Settled(true))
      && (ok ==> g.keychain == Some(w.phase.token) && g.local.None?)
      && (!ok ==> g.keychain == w.keychain && g.local == Some(w.phase.token))
  {
  }

  /** A refused client forgets its tokens, in memory and beside the keychain, and in it unless the keychain fails. */
  lemma ClearOutcome(w: World, ok: bool)
    requires w.phase.Clearing?
    ensures var g := Step(w, Cleared(ok));
      && g == w.(keychain := g.keychain, local := None, refresh := None, access := None, phase := Settled(false))
      && g.keychain == if ok then None else w.keychain
  {
  }

  /**
    A refresh fails for want of a token, without the server, or once the server has refused the
    token; else it does not.
   */
  lemma RefreshFailsExactly(w: World, e: Event)
    requires !w.phase.Settled?
    ensures Step(w, e).phase == Settled(false)
      <==> (w.phase.Loading? && e.Loaded? && w.local.None? && (w.keychain.None? || !e.ok))
           || (w.phase.Posted? && e.Unreachable?) || (w.phase.Clearing? && e.Cleared?)
    ensures Step(w, e).phase.Clearing? && !w.phase.Clearing? ==> w.phase == Answered(Refused)
    ensures Step(w, e).phase == Answered(Refused) && w.phase != Answered(Refused) ==>
      w.phase.Posted? && e.Serve? && (!e.accept || w.phase.token in w.rotated)
    ensures Step(w, e).phase == Settled(true) <==> w.phase.Saving? && e.Saved?
  {
    hide WakeAll, Max;
  }

  /** The server was asked for tokens, and gave these. */
  predicate Issued(events: seq<Event>, access: string, expiresIn: int) {
    exists k :: 0 <= k < |events| && events[k].Serve? && events[k].accept
                && events[k].access == access && events[k].expiresIn == expiresIn
  }

  /** They were put in use then, for their life time less ten seconds, and for five seconds at least. */
  predicate InUse(events: seq<Event>, access: Option<string>, expiresAt: int) {
    exists k, m :: 0 <= k < |events| && events[k].Serve? && events[k].accept && access == Some(events[k].access)
                   && 0 <= m < |events| && events[m].Parsed?
                   && expiresAt == events[m].now
                     + 1000 * (if events[k].expiresIn > 15 then events[k].expiresIn - 10 else 5)
  }

  /** The refresh token in memory is also stored. */
  predicate Stored(u: World) {
    u.refresh.Some? && (u.keychain == u.refresh || u.local == u.refresh)
  }

  /** A refresh under way for request `i`, `events` after it was asked for. */
  predicate Underway(u: World, i: nat, events: seq<Event>) {
    && i < |u.requests| && u.requests[i] == Request(Waiting(BeforeRetry), 1) && !u.phase.Idle?
    && match u.phase
       case Answered(r) => r.Pair? ==> Issued(events, r.access, r.expiresIn)
       case Reading(r) => r.Pair? ==> Issued(events, r.access, r.expiresIn)
       case Saving(t) => u.refresh == Some(t) && InUse(events, u.access, u.expiresAt)
       case Settled(ok) => ok ==> InUse(events, u.access, u.expiresAt) && Stored(u)
       case _ => true
  }

  lemma IssuedLater(events: seq<Event>, e: Event, access: string, expiresIn: int)
    requires Issued(events, access, expiresIn)
    ensures Issued(events + [e], access, expiresIn)
  {
    var k :| 0 <= k < |events| && events[k].Serve? && events[k].accept
             && events[k].access == access && events[k].expiresIn == expiresIn;
    assert (events + [e])[k] == events[k];
  }

  lemma InUseLater(events: seq<Event>, e: Event, access: Option<string>, expiresAt: int)
    requires InUse(events, access, expiresAt)
    ensures InUse(events + [e], access, expiresAt)
  {
    var k, m :| 0 <= k < |events| && events[k].Serve? && events[k].accept && access == Some(events[k].access)
             && 0 <= m < |events| && events[m].Parsed?
             && expiresAt == events[m].now + 1000 * (if events[k].expiresIn > 15 then events[k].expiresIn - 10 else 5);
    assert (events + [e])[k] == events[k] && (events + [e])[m] == events[m];
  }

  lemma PutInUse(events: seq<Event>, now: int, access: string, expiresIn: int)
    requires Issued(events, access, expiresIn)
    ensures InUse(events + [Parsed(now)], Some(access), now + Max(5, expiresIn - 10) * 1000)
  {
    var all := events + [Parsed(now)];
    var k :| 0 <= k < |events| && events[k].Serve? && events[k].accept
             && events[k].access == access && events[k].expiresIn == expiresIn;
    assert all[k] == events[k] && all[|events|] == Parsed(now);
  }

  /** The other requests do not touch this one, nor the tokens. */
  lemma OthersLeave(u: World, e: Event, i: nat)
    requires e.Call? || e.Respond? || e.Lose? || e.Resume?
    requires i < |u.requests| && u.requests[i].progress.Waiting? && !u.phase.Idle?
    ensures var g := Step(u, e);
      i < |g.requests| && g.requests[i] == u.requests[i] && g == u.(requests := g.requests)
  {
  }

  lemma UnderwayStep(u: World, e: Event, i: nat, events: seq<Event>)
    requires Underway(u, i, events) && !e.Finally?
    ensures Underway(Step(u, e), i, events + [e])
  {
    hide Issued, InUse, Max;
    if e.Call? || e.Respond? || e.Lose? || e.Resume? {
      OthersLeave(u, e, i);
    }
    match u.phase {
      case Answered(r) =>
        if r.Pair? {
          IssuedLater(events, e, r.access, r.expiresIn);
        }
      case Reading(r) =>
        if r.Pair? {
          IssuedLater(events, e, r.access, r.expiresIn);
          if e.Parsed? {
            PutInUse(events, e.now, r.access, r.expiresIn);
          }
        }
      case Posted(_) =>
        if e.Serve? && e.accept {
          assert Issued(events + [e], e.access, e.expiresIn) by {
            JustIssued(events, e);
          }
        }
      case Saving(_) => InUseLater(events, e, u.access, u.expiresAt);
      case Settled(ok) =>
        if ok {
          InUseLater(events, e, u.access, u.expiresAt);
        }
      case _ =>
    }
  }

  lemma JustIssued(events: seq<Event>, e: Event)
    requires e.Serve? && e.accept
    ensures Issued(events + [e], e.access, e.expiresIn)
  {
    assert (events + [e])[|events|] == e;
  }

  lemma {:induction false} StaysUnderway(w: World, i: nat, events: seq<Event>)
    requires Underway(w, i, []) && forall k :: 0 <= k < |events| ==> !events[k].Finally?
    ensures Underway(Run(w, events), i, events)
  {
    hide Step, Underway;
    if events != [] {
      var n := |events| - 1;
      StaysUnderway(w, i, events[..n]);
      UnderwayStep(Run(w, events[..n]), events[n], i, events[..n]);
      assert events[..n] + [events[n]] == events;
    }
  }

  /** No answer of the server to the refresh is there yet. */
  predicate Unanswered(p: Phase) {
    p.Idle? || p.Loading? || p.Installing? || p.Posted?
  }

  /**
    A request rejected with the current token: whatever happens until the refresh it waits
    for ends well, the server has issued an access token meanwhile, the refresh token that
    came with it is stored, and the request is sent again, with that access token. It only
    waits for another refresh if that token has expired by then.
   */
  lemma RetriedWithNewToken(w: World, i: nat, now: int, events: seq<Event>, later: int)
    requires i < |w.requests| && w.requests[i] == Request(Sent(w.access, true), 1) && Unanswered(w.phase)
    requires forall k :: 0 <= k < |events| ==> !events[k].Finally?
    requires Run(Step(w, Respond(i, true, now)), events).phase == Settled(true)
    ensures var u := Run(Step(w, Respond(i, true, now)), events);
      var g := Step(Step(u, Finally), Resume(i, later));
      && InUse(events, u.access, u.expiresAt) && Stored(u)
      && i < |g.requests|
      && (if later < u.expiresAt then g.requests[i] == Request(Sent(u.access, false), 2)
          else g.requests[i] == Request(Waiting(BeforeSend(false)), 1) && !g.phase.Idle?)
  {
    hide Step, Run, Issued;
    ResponseOutcome(w, i, true, now);
    var r := Step(w, Respond(i, true, now));
    StaysUnderway(r, i, events);
    var u := Run(r, events);
    OverOutcome(u);
    ResumeOutcome(Step(u, Finally), i, later);
  }

  // ---- No 401 is final without a failed refresh ---------------------------------------------------

  /** Rejected once, and waiting for a refresh, or about to go on after one that ended well. */
  predicate RejectedOnce(r: Request) {
    r.sends == 1 && (r.progress.Waiting? || (r.progress.Woken? && r.progress.ok))
  }

  /** A refresh ended badly at one of these events. */
  predicate RefreshFailed(w: World, events: seq<Event>) {
    exists k :: 0 <= k < |events| && events[k].Finally? && Run(w, events[..k]).phase == Settled(false)
  }

  lemma FailedLater(w: World, events: seq<Event>)
    requires events != []
    requires RefreshFailed(w, events[..|events| - 1])
             || (events[|events| - 1].Finally? && Run(w, events[..|events| - 1]).phase == Settled(false))
    ensures RefreshFailed(w, events)
  {
    var n := |events| - 1;
    if RefreshFailed(w, events[..n]) {
      var k :| 0 <= k < n && events[..n][k].Finally? && Run(w, events[..n][..k]).phase == Settled(false);
      assert events[..n][..k] == events[..k] && events[k].Finally?;
    } else {
      assert events[n].Finally? && Run(w, events[..n]).phase == Settled(false);
    }
  }

  lemma RejectedStep(u: World, e: Event, i: nat)
    requires i < |u.requests| && (RejectedOnce(u.requests[i]) || u.requests[i].sends >= 2)
    ensures i < |Step(u, e).requests|
    ensures RejectedOnce(Step(u, e).requests[i]) || Step(u, e).requests[i].sends >= 2
      || (e.Finally? && u.phase == Settled(false))
  {
  }

  /** A request that was rejected once ends without a second sending only through a refresh that failed. */
  lemma {:induction false} EndsOnlyThroughFailedRefresh(w: World, events: seq<Event>, i: nat)
    requires i < |w.requests| && RejectedOnce(w.requests[i])
    ensures i < |Run(w, events).requests|
    ensures RefreshFailed(w, events) || RejectedOnce(Run(w, events).requests[i])
        || Run(w, events).requests[i].sends >= 2
    ensures Run(w, events).requests[i] == Request(Done, 1) ==> RefreshFailed(w, events)
  {
    hide Step, RefreshFailed;
    if events != [] {
      var n := |events| - 1;
      EndsOnlyThroughFailedRefresh(w, events[..n], i);
      var u := Run(w, events[..n]);
      StillThere(u, events[n], i);
      if RefreshFailed(w, events[..n]) || (events[n].Finally? && u.phase == Settled(false)) {
        FailedLater(w, events);
      } else {
        RejectedStep(u, events[n], i);
      }
    }
  }

  lemma StillThere(u: World, e: Event, i: nat)
    requires i < |u.requests|
    ensures i < |Step(u, e).requests|
  {
  }
}
