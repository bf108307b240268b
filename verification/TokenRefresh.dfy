/**
  The desktop client's token refresh: any number of concurrent requests, one refresh
  at a time, and a server that revokes a refresh token as soon as it is used. Every
  stretch of code between two awaits is one step; the steps interleave freely.
 */
module TokenRefresh {
  import opened Wrappers
  import opened Sequences

  /** Refresh tokens are numbered in the order the server draws them; access tokens are any strings. */
  datatype Reply = Refused | Pair(access: string, refresh: nat, expiresIn: int)

  /** Where the refresh in flight is waiting; `Settled` until its `finally` has run. */
  datatype Phase = Idle | Loading | Installing(token: nat) | Posted(token: nat) | Answered(reply: Reply)
    | Clearing | Reading(reply: Reply) | Saving(token: nat) | Settled(ok: bool)

  /** What a request does once the refresh it awaits is over. */
  datatype Stage = BeforeSend(retry: bool) | BeforeRetry

  datatype Progress =
    | Waiting(stage: Stage)
    | Woken(ok: bool, stage: Stage)
    | Sent(token: Option<string>, retry: bool)
    | Done

  datatype Request = Request(progress: Progress, sends: nat)

  /**
    The client's variables, the two places where it stores its refresh token, and what
    the server remembers: the tokens it has rotated and how many it has drawn.
   */
  datatype World = World(access: Option<string>, refresh: Option<nat>, expiresAt: int, phase: Phase,
                         requests: seq<Request>,
                         keychain: Option<nat>, local: Option<nat>, rotated: set<nat>, minted: nat)

  /**
    `ok` tells whether the keychain worked. `Serve` is the server handling the refresh
    posted; it may refuse any token, and refuses a rotated one always. `Unreachable` is
    a connection that fails before the server sees the refresh.
   */
  datatype Event =
    | Call(now: int) | Respond(i: nat, unauthorized: bool, now: int) | Lose(i: nat) | Resume(i: nat, now: int)
    | Loaded(ok: bool) | Installed | Serve(accept: bool, access: string, expiresIn: int) | Unreachable
    | Arrive | Parsed(now: int) | Saved(ok: bool) | Cleared(ok: bool) | Finally

  function StartRefresh(w: World): World {
    if !w.phase.Idle? then w
    else w.(phase := if w.refresh.Some? then Installing(w.refresh.value) else Loading)
  }

  function Put(w: World, i: nat, p: Progress): World
    requires i < |w.requests|
  {
    w.(requests := w.requests[i := w.requests[i].(progress := p)])
  }

  function Send(w: World, i: nat, retry: bool): World
    requires i < |w.requests|
  {
    w.(requests := w.requests[i := Request(Sent(w.access, retry), w.requests[i].sends + 1)])
  }

  predicate NeedsRefresh(w: World, now: int) {
    w.access.None? || now >= w.expiresAt
  }

  /** `request` up to its first await. */
  function Enter(w: World, i: nat, now: int, retry: bool): World
    requires i < |w.requests|
  {
    if NeedsRefresh(w, now) then Put(StartRefresh(w), i, Waiting(BeforeSend(retry))) else Send(w, i, retry)
  }

  function OnResponse(w: World, i: nat, unauthorized: bool, now: int): World
    requires i < |w.requests| && w.requests[i].progress.Sent?
  {
    var p := w.requests[i].progress;
    if !unauthorized || !p.retry then Put(w, i, Done)
    else if p.token == w.access then Put(StartRefresh(w), i, Waiting(BeforeRetry))
    else Enter(w, i, now, false)
  }

  function OnResume(w: World, i: nat, now: int): World
    requires i < |w.requests| && w.requests[i].progress.Woken?
  {
    var p := w.requests[i].progress;
    if !p.ok then Put(w, i, Done)
    else if p.stage.BeforeSend? then Send(w, i, p.stage.retry)
    else Enter(w, i, now, false)
  }

  function LoadedToken(w: World, ok: bool): Option<nat> {
    if ok && w.keychain.Some? then w.keychain else w.local
  }

  function Answer(w: World, accept: bool, access: string, expiresIn: int): World
    requires w.phase.Posted?
  {
    var t := w.phase.token;
    if t in w.rotated || !accept then w.(phase := Answered(Refused))
    else w.(rotated := w.rotated + {t}, minted := w.minted + 1, phase := Answered(Pair(access, w.minted, expiresIn)))
  }

  function Max(a: int, b: int): int {
    if a >= b then a else b
  }

  /** `applyTokens` up to its await. */
  function Apply(w: World, now: int): World
    requires w.phase.Reading? && w.phase.reply.Pair?
  {
    var r := w.phase.reply;
    w.(access := Some(r.access), refresh := Some(r.refresh), phase := Saving(r.refresh),
       expiresAt := now + Max(5, r.expiresIn - 10) * 1000)
  }

  function Wake(p: Progress, ok: bool): Progress {
    if p.Waiting? then Woken(ok, p.stage) else p
  }

  function WakeAll(requests: seq<Request>, ok: bool): seq<Request> {
    seq(|requests|, i requires 0 <= i < |requests| => requests[i].(progress := Wake(requests[i].progress, ok)))
  }

  /** An event that cannot occur leaves everything as it is. */
  function Step(w: World, e: Event): World {
    match e
    case Call(now) => Enter(w.(requests := w.requests + [Request(Done, 0)]), |w.requests|, now, true)
    case Respond(i, unauthorized, now) =>
      if i < |w.requests| && w.requests[i].progress.Sent? then OnResponse(w, i, unauthorized, now) else w
    case Lose(i) => if i < |w.requests| && w.requests[i].progress.Sent? then Put(w, i, Done) else w
    case Resume(i, now) => if i < |w.requests| && w.requests[i].progress.Woken? then OnResume(w, i, now) else w
    case Loaded(ok) =>
      if !w.phase.Loading? then w
      else
        var t := LoadedToken(w, ok);
        w.(refresh := t, phase := if t.None? then Settled(false) else Installing(t.value))
    case Installed => if w.phase.Installing? then w.(phase := Posted(w.phase.token)) else w
    case Serve(accept, access, expiresIn) => if w.phase.Posted? then Answer(w, accept, access, expiresIn) else w
    case Unreachable => if w.phase.Posted? then w.(phase := Settled(false)) else w
    case Arrive =>
      if !w.phase.Answered? then w
      else if w.phase.reply.Refused? then w.(phase := Clearing) else w.(phase := Reading(w.phase.reply))
    case Parsed(now) => if w.phase.Reading? && w.phase.reply.Pair? then Apply(w, now) else w
    case Saved(ok) =>
      if !w.phase.Saving? then w
      else if ok then w.(keychain := Some(w.phase.token), local := None, phase := Settled(true))
      else w.(local := Some(w.phase.token), phase := Settled(true))
    case Cleared(ok) =>
      if !w.phase.Clearing? then w
      else w.(keychain := if ok then None else w.keychain, local := None, refresh := None, access := None,
              phase := Settled(false))
    case Finally => if w.phase.Settled? then w.(phase := Idle, requests := WakeAll(w.requests, w.phase.ok)) else w
  }

  function Run(w: World, events: seq<Event>): World {
    if events == [] then w else Step(Run(w, events[..|events| - 1]), events[|events| - 1])
  }

  // ---- The client -----------------------------------------------------------------------

  class Client {
    var accessToken: Option<string>
    var refreshToken: Option<nat>
    var accessExpiresAt: int
    var refreshInFlight: Phase
    var requests: seq<Request>
    var keychain: Option<nat>
    var local: Option<nat>

    /** The client within a world of which the server's part is given. */
    ghost function In(w: World): World
      reads this
    {
      World(accessToken, refreshToken, accessExpiresAt, refreshInFlight, requests, keychain, local, w.rotated, w.minted)
    }

    method RefreshAccessToken(ghost w: World)
      requires In(w) == w
      modifies this`refreshInFlight
      ensures In(w) == StartRefresh(w)
    {
      if refreshInFlight.Idle? {
        if refreshToken.None? {
          refreshInFlight := Loading;
        } else {
          refreshInFlight := Installing(refreshToken.value);
        }
      }
    }

    method Transmit(i: nat, retry: bool, ghost w: World)
      requires In(w) == w && i < |requests|
      modifies this`requests
      ensures In(w) == Send(w, i, retry)
    {
      requests := requests[i := Request(Sent(accessToken, retry), requests[i].sends + 1)];
    }

    method Suspend(i: nat, stage: Stage, ghost w: World)
      requires In(w) == w && i < |requests|
      modifies this`refreshInFlight, this`requests
      ensures In(w) == Put(StartRefresh(w), i, Waiting(stage))
    {
      RefreshAccessToken(w);
      requests := requests[i := requests[i].(progress := Waiting(stage))];
    }

    method Begin(i: nat, now: int, retry: bool, ghost w: World)
      requires In(w) == w && i < |requests|
      modifies this`refreshInFlight, this`requests
      ensures In(w) == Enter(w, i, now, retry)
    {
      if accessToken.None? || now >= accessExpiresAt {
        Suspend(i, BeforeSend(retry), w);
      } else {
        Transmit(i, retry, w);
      }
    }

    method NewRequest(now: int, ghost w: World)
      requires In(w) == w
      modifies this`refreshInFlight, this`requests
      ensures In(w) == Step(w, Call(now))
    {
      requests := requests + [Request(Done, 0)];
      Begin(|requests| - 1, now, true, In(w));
    }

    method HandleResponse(i: nat, unauthorized: bool, now: int, ghost w: World)
      requires In(w) == w && i < |requests| && requests[i].progress.Sent?
      modifies this`refreshInFlight, this`requests
      ensures In(w) == Step(w, Respond(i, unauthorized, now))
    {
      var sent := requests[i].progress;
      if unauthorized && sent.retry {
        if sent.token == accessToken {
          Suspend(i, BeforeRetry, w);
        } else {
          Begin(i, now, false, w);
        }
      } else {
        requests := requests[i := requests[i].(progress := Done)];
      }
    }

    /** The refresh a request waited for is over. */
    method Continue(i: nat, now: int, ghost w: World)
      requires In(w) == w && i < |requests| && requests[i].progress.Woken?
      modifies this`refreshInFlight, this`requests
      ensures In(w) == Step(w, Resume(i, now))
    {
      var woken := requests[i].progress;
      if !woken.ok {
        requests := requests[i := requests[i].(progress := Done)];
      } else if woken.stage.BeforeSend? {
        Transmit(i, woken.stage.retry, w);
      } else {
        Begin(i, now, false, w);
      }
    }

    method TokenLoaded(ok: bool, ghost w: World)
      requires In(w) == w && refreshInFlight.Loading?
      modifies this`refreshInFlight, this`refreshToken
      ensures In(w) == Step(w, Loaded(ok))
    {
      refreshToken := if ok && keychain.Some? then keychain else local;
      if refreshToken.None? {
        refreshInFlight := Settled(false);
      } else {
        refreshInFlight := Installing(refreshToken.value);
      }
    }

    method HandleReply(ghost w: World)
      requires In(w) == w && refreshInFlight.Answered?
      modifies this`refreshInFlight
      ensures In(w) == Step(w, Arrive)
    {
      if refreshInFlight.reply.Refused? {
        refreshInFlight := Clearing;
      } else {
        refreshInFlight := Reading(refreshInFlight.reply);
      }
    }

    method ApplyTokens(now: int, ghost w: World)
      requires In(w) == w && refreshInFlight.Reading? && refreshInFlight.reply.Pair?
      modifies this
      ensures In(w) == Step(w, Parsed(now))
    {
      var tokens := refreshInFlight.reply;
      accessToken := Some(tokens.access);
      refreshToken := Some(tokens.refresh);
      accessExpiresAt := now + Max(5, tokens.expiresIn - 10) * 1000;
      refreshInFlight := Saving(tokens.refresh);
    }

    method TokenSaved(ok: bool, ghost w: World)
      requires In(w) == w && refreshInFlight.Saving?
      modifies this
      ensures In(w) == Step(w, Saved(ok))
    {
      if ok {
        keychain, local := Some(refreshInFlight.token), None;
      } else {
        local := Some(refreshInFlight.token);
      }
      refreshInFlight := Settled(true);
    }

    method TokenCleared(ok: bool, ghost w: World)
      requires In(w) == w && refreshInFlight.Clearing?
      modifies this
      ensures In(w) == Step(w, Cleared(ok))
    {
      if ok {
        keychain := None;
      }
      local := None;
      refreshToken, accessToken := None, None;
      refreshInFlight := Settled(false);
    }

    method RefreshOver(ghost w: World)
      requires In(w) == w && refreshInFlight.Settled?
      modifies this`refreshInFlight, this`requests
      ensures In(w) == Step(w, Finally)
    {
      var ok := refreshInFlight.ok;
      refreshInFlight := Idle;
      requests := WakeAll(requests, ok);
    }
  }

  // ---- No rotated token is ever sent ------------------------------------------------------

  /** The server has rotated the token the client still holds, and the new pair is on its way. */
  predicate Rotating(w: World) {
    (w.phase.Answered? || w.phase.Reading?) && w.phase.reply.Pair?
  }

  predicate Usable(w: World, t: Option<nat>) {
    t.Some? ==> t.value < w.minted && t.value !in w.rotated
  }

  /** The tokens the refresh in flight carries. */
  predicate PhaseUsable(w: World) {
    match w.phase
    case Loading => w.refresh.None?
    case Installing(t) => w.refresh == Some(t)
    case Posted(t) => w.refresh == Some(t)
    case Answered(r) => r.Pair? ==> Usable(w, Some(r.refresh))
    case Reading(r) => r.Pair? && Usable(w, Some(r.refresh))
    case Saving(t) => w.refresh == Some(t)
    case _ => true
  }

  /** `saves`: so far the keychain took every token it was given. */
  predicate Usables(w: World, saves: bool) {
    && PhaseUsable(w)
    && (forall t :: t in w.rotated ==> t < w.minted)
    && (!Rotating(w) ==> Usable(w, w.refresh))
    && (w.refresh.None? ==> Usable(w, w.keychain) && Usable(w, w.local))
    && (saves && !Rotating(w) && !w.phase.Saving? ==> Usable(w, w.keychain))
  }

  predicate IsSaveFailure(e: Event) {
    e.Saved? && !e.ok
  }

  predicate IsClearFailure(e: Event) {
    e.Cleared? && !e.ok
  }

  lemma UsablesStart(w: World, saves: bool)
    requires Usables(w, saves)
    ensures Usables(StartRefresh(w), saves)
  {
  }

  lemma UsablesRequests(w: World, requests: seq<Request>, saves: bool)
    requires Usables(w, saves)
    ensures Usables(w.(requests := requests), saves)
  {
  }

  /** A request touches the tokens only by starting a refresh. */
  lemma OnlyRequestsChange(w: World, e: Event)
    requires e.Call? || e.Respond? || e.Lose? || e.Resume?
    ensures var u := Step(w, e); u == w.(requests := u.requests) || u == StartRefresh(w).(requests := u.requests)
  {
  }

  lemma UsablesStep(w: World, e: Event, saves: bool)
    requires Usables(w, saves) && (saves ==> !IsSaveFailure(e)) && (!saves ==> !IsClearFailure(e))
    ensures Usables(Step(w, e), saves)
  {
    if e.Call? || e.Respond? || e.Lose? || e.Resume? {
      hide Usables, Step;
      OnlyRequestsChange(w, e);
      UsablesStart(w, saves);
      UsablesRequests(w, Step(w, e).requests, saves);
      UsablesRequests(StartRefresh(w), Step(w, e).requests, saves);
    } else {
      RefreshStep(w, e, saves);
    }
  }

  lemma RefreshStep(w: World, e: Event, saves: bool)
    requires !(e.Call? || e.Respond? || e.Lose? || e.Resume?)
    requires Usables(w, saves) && (saves ==> !IsSaveFailure(e)) && (!saves ==> !IsClearFailure(e))
    ensures Usables(Step(w, e), saves)
  {
    hide Max, WakeAll;
  }

  /** The refresh token that a refresh in flight is about to send, or has sent, was not rotated before. */
  predicate NothingRotatedSent(w: World) {
    (w.phase.Installing? || w.phase.Posted?) ==> w.phase.token !in w.rotated
  }

  /** The keychain never failed to save, or never failed to clear. */
  predicate Reliable(events: seq<Event>) {
    (forall i :: 0 <= i < |events| ==> !IsSaveFailure(events[i]))
      || (forall i :: 0 <= i < |events| ==> !IsClearFailure(events[i]))
  }

  /** The client starts with nothing in flight, and with stored tokens that the server has drawn and not rotated. */
  predicate Initial(w: World) {
    && w.phase.Idle? && w.requests == [] && (forall t :: t in w.rotated ==> t < w.minted)
    && Usable(w, w.refresh) && Usable(w, w.keychain) && Usable(w, w.local)
  }

  lemma {:induction false} UsablesRun(w: World, events: seq<Event>, saves: bool)
    requires Initial(w)
    requires saves ==> forall i :: 0 <= i < |events| ==> !IsSaveFailure(events[i])
    requires !saves ==> forall i :: 0 <= i < |events| ==> !IsClearFailure(events[i])
    ensures Usables(Run(w, events), saves)
  {
    if events != [] {
      UsablesRun(w, events[..|events| - 1], saves);
      UsablesStep(Run(w, events[..|events| - 1]), events[|events| - 1], saves);
    }
  }

  /** In every interleaving, no token that the server has rotated is ever sent to it. */
  lemma NeverSendsRotated(w: World, events: seq<Event>)
    requires Initial(w) && Reliable(events)
    ensures NothingRotatedSent(Run(w, events))
  {
    if forall i :: 0 <= i < |events| ==> !IsSaveFailure(events[i]) {
      UsablesRun(w, events, true);
    } else {
      UsablesRun(w, events, false);
    }
  }

  lemma RunSnoc(w: World, done: seq<Event>, e: Event)
    ensures Run(w, done + [e]) == Step(Run(w, done), e)
  {
    assert (done + [e])[..|done|] == done;
  }

  lemma FourSteps(w: World, done: seq<Event>, a: Event, b: Event, c: Event, d: Event)
    ensures Run(w, done + [a, b, c, d]) == Step(Step(Step(Step(Run(w, done), a), b), c), d)
  {
    hide Step, Run;
    RunSnoc(w, done, a);
    RunSnoc(w, done + [a], b);
    RunSnoc(w, done + [a] + [b], c);
    RunSnoc(w, done + [a] + [b] + [c], d);
    assert done + [a, b, c, d] == done + [a] + [b] + [c] + [d];
  }

  /** A client whose only token is in the keychain. */
  const STORED := World(None, None, 0, Idle, [], Some(0), None, {}, 1)

  /**
    A first refresh whose token the keychain fails to save; a second one, refused, whose
    clearing fails too; and a third, which loads the first token back, rotated as it is.
   */
  function KeychainFailures(): seq<Event> {
    [Call(0), Loaded(true), Installed, Serve(true, "first", 900)]
    + [Arrive, Parsed(0), Saved(false), Finally]
    + [Call(900000), Installed, Serve(false, "", 0), Arrive]
    + [Cleared(false), Finally, Call(900001), Loaded(true)]
  }

  const ASKING := Request(Waiting(BeforeSend(true)), 0)
  const WOKEN := Request(Woken(true, BeforeSend(true)), 0)

  const ROTATED := World(None, Some(0), 0, Answered(Pair("first", 1, 900)), [ASKING], Some(0), None, {0}, 2)
  const UNSAVED := World(Some("first"), Some(1), 890000, Idle, [WOKEN], Some(0), Some(1), {0}, 2)
  const REFUSED := World(Some("first"), Some(1), 890000, Clearing, [WOKEN, ASKING], Some(0), Some(1), {0}, 2)

  lemma FirstFour()
    ensures Step(Step(Step(Step(STORED, Call(0)), Loaded(true)), Installed), Serve(true, "first", 900)) == ROTATED
  {
    assert Step(STORED, Call(0)) == STORED.(phase := Loading, requests := [ASKING]);
  }

  lemma NextFour()
    ensures Step(Step(Step(Step(ROTATED, Arrive), Parsed(0)), Saved(false)), Finally) == UNSAVED
  {
    assert WakeAll([ASKING], true) == [WOKEN];
  }

  lemma RefusedFour()
    ensures Step(Step(Step(Step(UNSAVED, Call(900000)), Installed), Serve(false, "", 0)), Arrive) == REFUSED
  {
    assert Step(UNSAVED, Call(900000)) == UNSAVED.(phase := Installing(1), requests := [WOKEN, ASKING]);
  }

  lemma LastFour()
    ensures var w := Step(Step(Step(Step(REFUSED, Cleared(false)), Finally), Call(900001)), Loaded(true));
      w.phase == Installing(0) && w.rotated == {0}
  {
    var w := Step(Step(REFUSED, Cleared(false)), Finally);
    assert w.phase.Idle? && w.refresh.None? && w.access.None? && w.keychain == Some(0) && w.rotated == {0};
    assert Step(w, Call(900001)).phase.Loading?;
  }

  lemma KeychainFailuresResend()
    ensures Initial(STORED) && !NothingRotatedSent(Run(STORED, KeychainFailures()))
  {
    hide Step, Run;
    var first := [Call(0), Loaded(true), Installed, Serve(true, "first", 900)];
    var second := [Arrive, Parsed(0), Saved(false), Finally];
    var third := [Call(900000), Installed, Serve(false, "", 0), Arrive];
    NoSteps(STORED);
    Neutral(first);
    FourSteps(STORED, [], Call(0), Loaded(true), Installed, Serve(true, "first", 900));
    FirstFour();
    FourSteps(STORED, first, Arrive, Parsed(0), Saved(false), Finally);
    NextFour();
    FourSteps(STORED, first + second, Call(900000), Installed, Serve(false, "", 0), Arrive);
    RefusedFour();
    FourSteps(STORED, first + second + third, Cleared(false), Finally, Call(900001), Loaded(true));
    LastFour();
  }

  lemma NoSteps(w: World)
    ensures Run(w, []) == w
  {
  }

  /** The keychain fails to save only if it may, and to clear only if it may. */
  predicate Permitted(events: seq<Event>, saveMayFail: bool, clearMayFail: bool) {
    forall i :: 0 <= i < |events| ==>
      (IsSaveFailure(events[i]) ==> saveMayFail) && (IsClearFailure(events[i]) ==> clearMayFail)
  }

  /** No run of the client, from any start and under these failures, sends a rotated token. */
  ghost predicate NeverResends(saveMayFail: bool, clearMayFail: bool) {
    forall w, events | Initial(w) && Permitted(events, saveMayFail, clearMayFail) :: NothingRotatedSent(Run(w, events))
  }

  /** The client's own concurrency never makes it send a rotated token; only a keychain that can fail both ways does. */
  lemma NeverSendsRotatedExactly(saveMayFail: bool, clearMayFail: bool)
    ensures NeverResends(saveMayFail, clearMayFail) <==> !(saveMayFail && clearMayFail)
  {
    hide Run, Initial, NothingRotatedSent;
    if saveMayFail && clearMayFail {
      KeychainFailuresResend();
      assert Permitted(KeychainFailures(), true, true);
    } else {
      forall w, events | Initial(w) && Permitted(events, saveMayFail, clearMayFail)
        ensures NothingRotatedSent(Run(w, events))
      {
        assert Reliable(events);
        NeverSendsRotated(w, events);
      }
    }
  }

  // ---- Requests -------------------------------------------------------------------------

  /** How often a request can have been sent, by where it is. */
  predicate SendsFit(r: Request) {
    match r.progress
    case Waiting(BeforeSend(retry)) => r.sends == if retry then 0 else 1
    case Waiting(BeforeRetry) => r.sends == 1
    case Woken(_, BeforeSend(retry)) => r.sends == if retry then 0 else 1
    case Woken(_, BeforeRetry) => r.sends == 1
    case Sent(_, retry) => r.sends == if retry then 1 else 2
    case Done => r.sends <= 2
  }

  predicate RequestsFit(w: World) {
    forall i :: 0 <= i < |w.requests| ==>
      SendsFit(w.requests[i]) && (w.requests[i].progress.Waiting? ==> !w.phase.Idle?)
  }

  lemma OneRequestFits(w: World, i: nat, p: Progress, sends: nat)
    requires RequestsFit(w) && i < |w.requests| && SendsFit(Request(p, sends)) && (p.Waiting? ==> !w.phase.Idle?)
    ensures RequestsFit(w.(requests := w.requests[i := Request(p, sends)]))
  {
  }

  lemma StartedFits(w: World)
    requires RequestsFit(w)
    ensures RequestsFit(StartRefresh(w)) && !StartRefresh(w).phase.Idle? && StartRefresh(w).requests == w.requests
  {
  }

  lemma EnterFits(w: World, i: nat, now: int, retry: bool)
    requires RequestsFit(w) && i < |w.requests| && w.requests[i].sends == if retry then 0 else 1
    ensures RequestsFit(Enter(w, i, now, retry))
  {
    hide RequestsFit, NeedsRefresh, StartRefresh;
    var sends := w.requests[i].sends;
    StartedFits(w);
    OneRequestFits(StartRefresh(w), i, Waiting(BeforeSend(retry)), sends);
    OneRequestFits(w, i, Sent(w.access, retry), sends + 1);
  }

  lemma ResponseFits(w: World, i: nat, unauthorized: bool, now: int)
    requires RequestsFit(w) && i < |w.requests| && w.requests[i].progress.Sent?
    ensures RequestsFit(OnResponse(w, i, unauthorized, now))
  {
    hide StartRefresh, Enter;
    var r := w.requests[i];
    assert SendsFit(r);
    if !unauthorized || !r.progress.retry {
      OneRequestFits(w, i, Done, r.sends);
    } else {
      StartedFits(w);
      OneRequestFits(StartRefresh(w), i, Waiting(BeforeRetry), r.sends);
      EnterFits(w, i, now, false);
    }
  }

  lemma ResumeFits(w: World, i: nat, now: int)
    requires RequestsFit(w) && i < |w.requests| && w.requests[i].progress.Woken?
    ensures RequestsFit(OnResume(w, i, now))
  {
    hide Enter;
    var r := w.requests[i];
    assert SendsFit(r);
    if !r.progress.ok {
      OneRequestFits(w, i, Done, r.sends);
    } else if r.progress.stage.BeforeSend? {
      OneRequestFits(w, i, Sent(w.access, r.progress.stage.retry), r.sends + 1);
    } else {
      EnterFits(w, i, now, false);
    }
  }

  lemma NewFits(w: World)
    requires RequestsFit(w)
    ensures RequestsFit(w.(requests := w.requests + [Request(Done, 0)]))
  {
  }

  lemma WokenFit(w: World)
    requires RequestsFit(w) && w.phase.Settled?
    ensures RequestsFit(w.(phase := Idle, requests := WakeAll(w.requests, w.phase.ok)))
  {
  }

  lemma RequestsFitStep(w: World, e: Event)
    requires RequestsFit(w)
    ensures RequestsFit(Step(w, e))
  {
    hide Enter, OnResponse, OnResume, WakeAll, Max, LoadedToken;
    match e {
      case Call(now) =>
        NewFits(w);
        EnterFits(w.(requests := w.requests + [Request(Done, 0)]), |w.requests|, now, true);
      case Respond(i, unauthorized, now) =>
        if i < |w.requests| && w.requests[i].progress.Sent? {
          ResponseFits(w, i, unauthorized, now);
        }
      case Lose(i) =>
        if i < |w.requests| && w.requests[i].progress.Sent? {
          OneRequestFits(w, i, Done, w.requests[i].sends);
        }
      case Resume(i, now) =>
        if i < |w.requests| && w.requests[i].progress.Woken? {
          ResumeFits(w, i, now);
        }
      case Finally =>
        if w.phase.Settled? {
          WokenFit(w);
        }
      case _ =>
    }
  }

  /** In every interleaving each request is sent at most twice, and none waits for a refresh that is not in flight. */
  lemma {:induction false} SentAtMostTwice(w: World, events: seq<Event>)
    requires w.requests == []
    ensures forall i :: 0 <= i < |Run(w, events).requests| ==> Run(w, events).requests[i].sends <= 2
    ensures forall i :: 0 <= i < |Run(w, events).requests| ==>
      Run(w, events).requests[i].progress.Waiting? ==> !Run(w, events).phase.Idle?
    ensures RequestsFit(Run(w, events))
  {
    hide Step;
    if events != [] {
      SentAtMostTwice(w, events[..|events| - 1]);
      RequestsFitStep(Run(w, events[..|events| - 1]), events[|events| - 1]);
    }
  }

  /** A refresh starts only if the access token is absent, expired, or the one just rejected. */
  lemma RefreshStartsWhenNeeded(w: World, e: Event)
    requires w.phase.Idle? && !Step(w, e).phase.Idle?
    ensures e.Call? || e.Respond? || e.Resume?
    ensures NeedsRefresh(w, e.now)
      || (e.Respond? && e.unauthorized && e.i < |w.requests| && w.requests[e.i].progress == Sent(w.access, true))
  {
  }

  // ---- The session ------------------------------------------------------------------------

  /** The client has a token to refresh with, in memory or stored, was refused none, and is erasing nothing. */
  predicate SessionKept(w: World) {
    !w.phase.Clearing? && !(w.phase.Answered? && w.phase.reply.Refused?)
    && (w.refresh.Some? || w.keychain.Some? || w.local.Some?)
  }

  lemma SessionKeptStep(w: World, e: Event, saves: bool)
    requires SessionKept(w) && Usables(w, saves) && (e.Serve? ==> e.accept)
    ensures SessionKept(Step(w, e))
  {
    hide Max, WakeAll;
  }

  /** While the server accepts every token that it has not rotated, no interleaving erases the session. */
  lemma {:induction false} SessionSurvives(w: World, events: seq<Event>)
    requires Initial(w) && SessionKept(w) && Reliable(events)
    requires forall i :: 0 <= i < |events| ==> events[i].Serve? ==> events[i].accept
    ensures SessionKept(Run(w, events))
  {
    hide Step, Usables;
    if events != [] {
      var before := events[..|events| - 1];
      SessionSurvives(w, before);
      var saves := forall i :: 0 <= i < |events| ==> !IsSaveFailure(events[i]);
      UsablesRun(w, before, saves);
      SessionKeptStep(Run(w, before), events[|events| - 1], saves);
    }
  }

  // ---- One rotation for one access token -----------------------------------------------------

  predicate Rotates(w: World, e: Event) {
    w.phase.Posted? && e.Serve? && e.accept && w.phase.token !in w.rotated
  }

  /** How often the server rotated while `token` was the client's access token. */
  function Rotations(w: World, events: seq<Event>, token: string): nat {
    if events == [] then 0
    else
      var before, e := events[..|events| - 1], events[|events| - 1];
      Rotations(w, before, token) + if Rotates(Run(w, before), e) && Run(w, before).access == Some(token) then 1 else 0
  }

  /** The server never issues the same access token twice, nor the one the client started with. */
  predicate NewTokens(w: World, events: seq<Event>) {
    && (forall i :: 0 <= i < |events| && events[i].Serve? ==> w.access != Some(events[i].access))
    && (forall i, j :: 0 <= i < j < |events| && events[i].Serve? && events[j].Serve? ==>
        events[i].access != events[j].access)
  }

  predicate IssuedIn(w: World, events: seq<Event>, token: string) {
    w.access == Some(token) || exists i :: 0 <= i < |events| && events[i].Serve? && events[i].access == token
  }

  predicate Coming(w: World, token: string) {
    Rotating(w) && w.phase.reply.access == token
  }

  /** `n` rotations so far while `token` was in use; `known`: it was issued already. */
  predicate OnceReplaced(w: World, token: string, n: nat, known: bool) {
    && n <= 1
    && (w.access == Some(token) || Coming(w, token) ==> known)
    && (n == 1 ==> known && !Coming(w, token) && (w.access == Some(token) ==> Rotating(w)))
  }

  lemma OnceReplacedStep(w: World, e: Event, token: string, n: nat, known: bool)
    requires OnceReplaced(w, token, n, known)
    requires e.Serve? && known ==> e.access != token
    ensures OnceReplaced(Step(w, e), token, n + if Rotates(w, e) && w.access == Some(token) then 1 else 0,
                         known || (e.Serve? && e.access == token))
  {
    hide Max, WakeAll;
  }

  /** However many requests are rejected with one access token, the server rotates once for it. */
  lemma {:induction false} RotatesOnce(w: World, events: seq<Event>, token: string)
    requires w.phase.Idle? && NewTokens(w, events)
    ensures Rotations(w, events, token) <= 1
    ensures OnceReplaced(Run(w, events), token, Rotations(w, events, token), IssuedIn(w, events, token))
  {
    hide Step, OnceReplaced;
    if events == [] {
      NotReplaced(w, token, IssuedIn(w, events, token));
    } else {
      var n := |events| - 1;
      var before, e := events[..n], events[n];
      RotatesOnce(w, before, token);
      IssuedSnoc(w, events, token);
      OnceReplacedStep(Run(w, before), e, token, Rotations(w, before, token), IssuedIn(w, before, token));
      AtMostOnce(Run(w, events), token, Rotations(w, events, token), IssuedIn(w, events, token));
    }
  }

  lemma NotReplaced(w: World, token: string, known: bool)
    requires w.phase.Idle? && (w.access == Some(token) ==> known)
    ensures OnceReplaced(w, token, 0, known)
  {
  }

  lemma AtMostOnce(w: World, token: string, n: nat, known: bool)
    requires OnceReplaced(w, token, n, known)
    ensures n <= 1
  {
  }

  lemma IssuedSnoc(w: World, events: seq<Event>, token: string)
    requires events != []
    ensures var n := |events| - 1;
      IssuedIn(w, events, token) <==> IssuedIn(w, events[..n], token) || (events[n].Serve? && events[n].access == token)
  {
    var n := |events| - 1;
    if IssuedIn(w, events[..n], token) && w.access != Some(token) {
      var i :| 0 <= i < n && events[..n][i].Serve? && events[..n][i].access == token;
      assert events[i].Serve?;
    }
    if IssuedIn(w, events, token) && w.access != Some(token) {
      var i :| 0 <= i < |events| && events[i].Serve? && events[i].access == token;
      assert i < n ==> events[..n][i].Serve?;
    }
  }
}
