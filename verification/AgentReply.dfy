/**
  The guest agent client: `read_reply` frames the agent's byte stream into lines
  and returns the first one its caller accepts; `qga_call` uses it twice, once to
  find the answer to its own guest-sync and once for the answer to its request.
 */
module AgentReply {
  import opened Wrappers
  import opened Sequences
  import opened Words
  import Lines

  const LF: Byte := 10

  /** What one `read` on the socket gives. */
  datatype Read = Data(bytes: seq<Byte>) | Quiet | Closed | Broken

  datatype Failure = TimedOut | Disconnected | ReadError

  type Reply<T> = Result<T, Failure>

  /** First line the caller accepts; `decode` is lossy UTF-8, trimming and JSON. */
  function FirstAccepted<V>(lines: seq<seq<Byte>>, decode: seq<Byte> -> Option<V>, accept: V -> bool): (r: Option<V>)
    ensures r.Some? <==> exists k :: 0 <= k < |lines| && Accepts(lines[k], decode, accept)
  {
    if lines == [] then None
    else if Accepts(lines[0], decode, accept) then decode(lines[0])
    else FirstAccepted(lines[1..], decode, accept)
  }

  predicate Accepts<V>(line: seq<Byte>, decode: seq<Byte> -> Option<V>, accept: V -> bool) {
    decode(line).Some? && accept(decode(line).value)
  }

  lemma {:induction false} FirstAcceptedAppend<V>(a: seq<seq<Byte>>, b: seq<seq<Byte>>,
                                                 decode: seq<Byte> -> Option<V>, accept: V -> bool)
    ensures FirstAccepted(a + b, decode, accept)
         == if FirstAccepted(a, decode, accept).Some? then FirstAccepted(a, decode, accept)
            else FirstAccepted(b, decode, accept)
  {
    if a == [] {
      Neutral(b);
    } else {
      TailOfAppend(a, b);
      FirstAcceptedAppend(a[1..], b, decode, accept);
    }
  }

  /** The bytes of the first `n` reads. */
  ghost function Received(script: nat -> Read, n: nat): seq<Byte>
  {
    if n == 0 then []
    else Received(script, n - 1) + (if script(n - 1).Data? then script(n - 1).bytes else [])
  }

  predicate Ends(read: Read) {
    read.Closed? || read.Broken?
  }

  /** Index of the read that ends the stream, or `limit` when the deadline passes first. */
  ghost function Stop(script: nat -> Read, from: nat, limit: nat): (n: nat)
    requires from <= limit
    ensures from <= n <= limit
    ensures n < limit ==> Ends(script(n))
    ensures forall k :: from <= k < n ==> !Ends(script(k))
    decreases limit - from
  {
    if from == limit || Ends(script(from)) then from else Stop(script, from + 1, limit)
  }

  ghost function Failed(script: nat -> Read, stop: nat, limit: nat): Failure {
    if stop >= limit then TimedOut else if script(stop).Closed? then Disconnected else ReadError
  }

  /**
    What a reader that saw the whole stream at once would answer: the first
    accepted line of everything received before the stream ended or the deadline
    passed, else the reason it gave up.
   */
  ghost function WholeStream<V>(script: nat -> Read, limit: nat, decode: seq<Byte> -> Option<V>,
                                accept: V -> bool): Reply<V>
  {
    var stop := Stop(script, 0, limit);
    match FirstAccepted(Lines.Complete(Received(script, stop), LF), decode, accept)
    case Some(v) => Ok(v)
    case None => Err(Failed(script, stop, limit))
  }

  /** The pending bytes hold all that still matters of what was received. */
  ghost predicate Stands<V>(pending: seq<Byte>, received: seq<Byte>, decode: seq<Byte> -> Option<V>,
                            accept: V -> bool) {
    && FirstAccepted(Lines.Complete(pending, LF), decode, accept)
      == FirstAccepted(Lines.Complete(received, LF), decode, accept)
    && Lines.Rest(pending, LF) == Lines.Rest(received, LF)
  }

  lemma FirstAcceptedStream<V>(a: seq<Byte>, b: seq<Byte>, decode: seq<Byte> -> Option<V>, accept: V -> bool)
    ensures FirstAccepted(Lines.Complete(a + b, LF), decode, accept)
         == if FirstAccepted(Lines.Complete(a, LF), decode, accept).Some?
            then FirstAccepted(Lines.Complete(a, LF), decode, accept)
            else FirstAccepted(Lines.Complete(Lines.Rest(a, LF) + b, LF), decode, accept)
  {
    Lines.CompleteAppend(a, b, LF);
    FirstAcceptedAppend(Lines.Complete(a, LF), Lines.Complete(Lines.Rest(a, LF) + b, LF), decode, accept);
  }

  lemma StandsAfterRead<V>(pending: seq<Byte>, received: seq<Byte>, chunk: seq<Byte>,
                           decode: seq<Byte> -> Option<V>, accept: V -> bool)
    requires Stands(pending, received, decode, accept)
    ensures Stands(pending + chunk, received + chunk, decode, accept)
  {
    FirstAcceptedStream(pending, chunk, decode, accept);
    FirstAcceptedStream(received, chunk, decode, accept);
    Lines.CompleteAppend(pending, chunk, LF);
    Lines.CompleteAppend(received, chunk, LF);
  }

  lemma FirstAcceptedLine<V>(line: seq<Byte>, after: seq<Byte>, decode: seq<Byte> -> Option<V>, accept: V -> bool)
    requires LF !in line
    ensures FirstAccepted(Lines.Complete(line + [LF] + after, LF), decode, accept)
         == if Accepts(line, decode, accept) then decode(line)
           else FirstAccepted(Lines.Complete(after, LF), decode, accept)
    ensures Lines.Rest(line + [LF] + after, LF) == Lines.Rest(after, LF)
  {
    Lines.FirstLine(line, after, LF);
    TailOfAppend([line], Lines.Complete(after, LF));
    Neutral(Lines.Complete(after, LF));
  }

  /** An accepted line stays the first one whatever arrives later. */
  lemma {:induction false} AcceptedStays<V>(script: nat -> Read, i: nat, n: nat,
                                            decode: seq<Byte> -> Option<V>, accept: V -> bool)
    requires i <= n
    requires FirstAccepted(Lines.Complete(Received(script, i), LF), decode, accept).Some?
    ensures FirstAccepted(Lines.Complete(Received(script, n), LF), decode, accept)
         == FirstAccepted(Lines.Complete(Received(script, i), LF), decode, accept)
    decreases n - i
  {
    if i < n {
      AcceptedStays(script, i, n - 1, decode, accept);
      FirstAcceptedStream(Received(script, n - 1),
                          if script(n - 1).Data? then script(n - 1).bytes else [], decode, accept);
    }
  }

  function Position(s: seq<Byte>): (i: nat)
    ensures i <= |s| && LF !in s[..i]
    ensures i < |s| ==> s[i] == LF
    ensures i == |s| ==> LF !in s
  {
    if s == [] || s[0] == LF then 0
    else
      var i := 1 + Position(s[1..]);
      assert s[..i] == [s[0]] + s[1..][..i - 1];
      i
  }

  lemma GivesUp<V>(script: nat -> Read, i: nat, limit: nat, decode: seq<Byte> -> Option<V>, accept: V -> bool)
    requires i <= Stop(script, 0, limit) && (i == limit || Ends(script(i)))
    requires FirstAccepted(Lines.Complete(Received(script, i), LF), decode, accept).None?
    ensures WholeStream(script, limit, decode, accept) == Err(Failed(script, i, limit))
  {
    assert Stop(script, 0, limit) == i;
  }

  ghost predicate InProgress<V>(script: nat -> Read, i: nat, limit: nat, pending: seq<Byte>,
                                decode: seq<Byte> -> Option<V>, accept: V -> bool)
  {
    i <= Stop(script, 0, limit) && Stands(pending, Received(script, i), decode, accept)
  }

  lemma Continues<V>(script: nat -> Read, i: nat, limit: nat, pending: seq<Byte>,
                     decode: seq<Byte> -> Option<V>, accept: V -> bool)
    requires InProgress(script, i, limit, pending, decode, accept) && i < limit && !Ends(script(i))
    ensures InProgress(script, i + 1, limit, if script(i).Data? then pending + script(i).bytes else pending, decode,
                       accept)
  {
    hide Stands;
    Neutral(Received(script, i));
    if script(i).Data? {
      StandsAfterRead(pending, Received(script, i), script(i).bytes, decode, accept);
    }
  }

  lemma Accepted<V>(script: nat -> Read, i: nat, limit: nat, decode: seq<Byte> -> Option<V>, accept: V -> bool)
    requires i <= Stop(script, 0, limit)
    requires FirstAccepted(Lines.Complete(Received(script, i), LF), decode, accept).Some?
    ensures WholeStream(script, limit, decode, accept)
         == Ok(FirstAccepted(Lines.Complete(Received(script, i), LF), decode, accept).value)
  {
    AcceptedStays(script, i, Stop(script, 0, limit), decode, accept);
  }

  lemma SplitLine(s: seq<Byte>)
    requires LF in s
    ensures s == s[..Position(s)] + [LF] + s[Position(s) + 1..]
  {
  }

  /** Take whole lines off the front of `buffer` until one is accepted or none is left. */
  method Drain<V(0)>(buffer: seq<Byte>, decode: seq<Byte> -> Option<V>, accept: V -> bool)
    returns (found: Option<V>, pending: seq<Byte>)
    ensures found == FirstAccepted(Lines.Complete(buffer, LF), decode, accept)
    ensures found.None? ==> LF !in pending && Lines.Rest(pending, LF) == Lines.Rest(buffer, LF)
  {
    pending := buffer;
    while LF in pending
      invariant Stands(pending, buffer, decode, accept)
      decreases |pending|
    {
      var end := Position(pending);
      SplitLine(pending);
      FirstAcceptedLine(pending[..end], pending[end + 1..], decode, accept);
      var value := decode(pending[..end]);
      pending := pending[end + 1..];
      if value.Some? && accept(value.value) {
        return value, pending;
      }
    }
    Lines.NoSeparator(pending, LF);
    found := None;
  }

  /** `script(i)` is the i-th read; the clock has passed the deadline once `limit` reads are done. */
  method ReadReply<V(0)>(script: nat -> Read, limit: nat, decode: seq<Byte> -> Option<V>, accept: V -> bool)
    returns (reply: Reply<V>)
    ensures reply == WholeStream(script, limit, decode, accept)
  {
    var pending: seq<Byte> := [];
    var i := 0;
    while true
      invariant InProgress(script, i, limit, pending, decode, accept)
      decreases limit - i
    {
      var found;
      found, pending := Drain(pending, decode, accept);
      if found.Some? {
        Accepted(script, i, limit, decode, accept);
        return Ok(found.value);
      }
      Lines.NoSeparator(pending, LF);
      if i >= limit {
        GivesUp(script, i, limit, decode, accept);
        return Err(TimedOut);
      }
      var read := script(i);
      if read.Closed? {
        GivesUp(script, i, limit, decode, accept);
        return Err(Disconnected);
      } else if read.Broken? {
        GivesUp(script, i, limit, decode, accept);
        return Err(ReadError);
      }
      Continues(script, i, limit, pending, decode, accept);
      if read.Data? {
        pending := pending + read.bytes;
      }
      i := i + 1;
    }
  }

  /** A finite run of reads, then the same answer for ever. */
  function Script(run: seq<Read>, ending: Read): nat -> Read {
    (i: nat) => if i < |run| then run[i] else ending
  }

  /** The bytes such a run delivers, whatever the cuts and the silences between them. */
  function Bytes(run: seq<Read>): seq<Byte> {
    if run == [] then []
    else Bytes(run[..|run| - 1]) + (if run[|run| - 1].Data? then run[|run| - 1].bytes else [])
  }

  predicate Flowing(run: seq<Read>) {
    forall k :: 0 <= k < |run| ==> !Ends(run[k])
  }

  lemma {:induction false} ScriptReceives(run: seq<Read>, ending: Read, n: nat)
    requires n <= |run|
    ensures Received(Script(run, ending), n) == Bytes(run[..n])
  {
    if n > 0 {
      ScriptReceives(run, ending, n - 1);
      assert run[..n][..n - 1] == run[..n - 1];
    }
  }

  /** The outcome is a function of the bytes delivered and of how the stream ended, not of the cuts. */
  lemma CutsDoNotMatter<V>(run: seq<Read>, ending: Read, limit: nat, decode: seq<Byte> -> Option<V>, accept: V -> bool)
    requires Flowing(run) && Ends(ending) && |run| < limit
    ensures WholeStream(Script(run, ending), limit, decode, accept)
         == match FirstAccepted(Lines.Complete(Bytes(run), LF), decode, accept)
            case Some(v) => Ok(v)
            case None => Err(if ending.Closed? then Disconnected else ReadError)
  {
    var script := Script(run, ending);
    assert forall k :: 0 <= k < |run| ==> script(k) == run[k];
    assert script(|run|) == ending;
    assert Stop(script, 0, limit) == |run|;
    ScriptReceives(run, ending, |run|);
    assert run[..|run|] == run;
  }

  /** A reply delivered before the deadline is returned, whatever follows it. */
  lemma DeliveredInTime<V>(run: seq<Read>, ending: Read, limit: nat, decode: seq<Byte> -> Option<V>, accept: V -> bool)
    requires Flowing(run) && |run| <= limit
    requires FirstAccepted(Lines.Complete(Bytes(run), LF), decode, accept).Some?
    ensures WholeStream(Script(run, ending), limit, decode, accept)
         == Ok(FirstAccepted(Lines.Complete(Bytes(run), LF), decode, accept).value)
  {
    var script := Script(run, ending);
    var stop := Stop(script, 0, limit);
    assert forall k :: 0 <= k < |run| ==> script(k) == run[k];
    ScriptReceives(run, ending, |run|);
    assert run[..|run|] == run;
    AcceptedStays(script, |run|, stop, decode, accept);
  }

  // ---- Calls ----------------------------------------------------------------

  datatype Json = Number(n: nat) | Other(text: string)

  /** The fields of a reply the client looks at; `error` holds its `desc`, when it has one. */
  datatype AgentValue = AgentValue(ret: Option<Json>, error: Option<Option<string>>)

  datatype CallError = NoAgent | Agent(desc: string) | Transport(failure: Failure)

  function IsSync(id: nat): AgentValue -> bool {
    (v: AgentValue) => v.ret == Some(Number(id))
  }

  function IsReply(): AgentValue -> bool {
    (v: AgentValue) => v.ret.Some? || v.error.Some?
  }

  function Answer(v: AgentValue): Result<Json, CallError>
    requires IsReply()(v)
  {
    match v.error
    case Some(desc) => Err(Agent(if desc.Some? then desc.value else "erreur"))
    case None => Ok(v.ret.value)
  }

  /** `sync` is what the socket gives after guest-sync was written, `answer` after the request was. */
  ghost function Call(sync: nat -> Read, syncLimit: nat, answer: nat -> Read, limit: nat,
                      id: nat, decode: seq<Byte> -> Option<AgentValue>): Result<Json, CallError>
  {
    match WholeStream(sync, syncLimit, decode, IsSync(id))
    case Err(_) => Err(NoAgent)
    case Ok(_) =>
      match WholeStream(answer, limit, decode, IsReply())
      case Err(failure) => Err(Transport(failure))
      case Ok(v) => AcceptedValue(answer, limit, decode, IsReply()); Answer(v)
  }

  lemma {:induction false} FirstAcceptedIsAccepted<V>(lines: seq<seq<Byte>>, decode: seq<Byte> -> Option<V>,
                                                      accept: V -> bool)
    requires FirstAccepted(lines, decode, accept).Some?
    ensures accept(FirstAccepted(lines, decode, accept).value)
  {
    if !Accepts(lines[0], decode, accept) {
      FirstAcceptedIsAccepted(lines[1..], decode, accept);
    }
  }

  lemma AcceptedValue<V>(script: nat -> Read, limit: nat, decode: seq<Byte> -> Option<V>, accept: V -> bool)
    ensures WholeStream(script, limit, decode, accept).Ok? ==> accept(WholeStream(script, limit, decode, accept).value)
  {
    var lines := Lines.Complete(Received(script, Stop(script, 0, limit)), LF);
    if FirstAccepted(lines, decode, accept).Some? {
      FirstAcceptedIsAccepted(lines, decode, accept);
    }
  }

  method QgaCall(sync: nat -> Read, syncLimit: nat, answer: nat -> Read, limit: nat,
                 id: nat, decode: seq<Byte> -> Option<AgentValue>) returns (r: Result<Json, CallError>)
    ensures r == Call(sync, syncLimit, answer, limit, id, decode)
  {
    var synced := ReadReply(sync, syncLimit, decode, IsSync(id));
    if synced.Err? {
      return Err(NoAgent);
    }
    var reply := ReadReply(answer, limit, decode, IsReply());
    if reply.Err? {
      return Err(Transport(reply.error));
    }
    AcceptedValue(answer, limit, decode, IsReply());
    if reply.value.error.Some? {
      var desc := reply.value.error.value;
      return Err(Agent(if desc.Some? then desc.value else "erreur"));
    }
    return Ok(reply.value.ret.value);
  }

  lemma {:induction false} SkipsRefused<V>(stale: seq<seq<Byte>>, line: seq<Byte>, decode: seq<Byte> -> Option<V>,
                                           accept: V -> bool)
    requires forall k :: 0 <= k < |stale| ==> !Accepts(stale[k], decode, accept)
    requires Accepts(line, decode, accept)
    ensures FirstAccepted(stale + [line], decode, accept) == decode(line)
  {
    if stale == [] {
      Neutral([line]);
    } else {
      TailOfAppend(stale, [line]);
      SkipsRefused(stale[1..], line, decode, accept);
    }
  }

  /**
    With an agent that answers in order and a sync id no queued reply carries,
    the call returns the answer to its own request: the replies still queued for
    an earlier client are skipped, however they and ours are cut into reads.
   */
  lemma OwnReply(stale: seq<seq<Byte>>, syncLine: seq<Byte>, own: seq<Byte>, more: seq<Byte>,
                 sync: seq<Read>, answer: seq<Read>, ending: Read, syncLimit: nat, limit: nat,
                 id: nat, decode: seq<Byte> -> Option<AgentValue>)
    requires Lines.Unbroken(stale, LF) && LF !in syncLine && LF !in own
    requires forall k :: 0 <= k < |stale| ==> !Accepts(stale[k], decode, IsSync(id))
    requires Accepts(syncLine, decode, IsSync(id)) && Accepts(own, decode, IsReply())
    requires Flowing(sync) && |sync| <= syncLimit && Bytes(sync) == Lines.Terminated(stale + [syncLine], LF)
    requires Flowing(answer) && |answer| <= limit && Bytes(answer) == own + [LF] + more
    ensures Call(Script(sync, ending), syncLimit, Script(answer, ending), limit, id, decode)
        == Answer(decode(own).value)
  {
    Lines.FramingRoundTrip(stale + [syncLine], LF);
    SkipsRefused(stale, syncLine, decode, IsSync(id));
    DeliveredInTime(sync, ending, syncLimit, decode, IsSync(id));
    FirstAcceptedLine(own, more, decode, IsReply());
    DeliveredInTime(answer, ending, limit, decode, IsReply());
  }

  lemma BytesOfOne(bytes: seq<Byte>)
    ensures Bytes([Data(bytes)]) == bytes
  {
    assert [Data(bytes)][..0] == [];
    Neutral(bytes);
  }

  lemma OneRead<V>(stream: seq<Byte>, ending: Read, decode: seq<Byte> -> Option<V>, accept: V -> bool)
    requires FirstAccepted(Lines.Complete(stream, LF), decode, accept).Some?
    ensures WholeStream(Script([Data(stream)], ending), 1, decode, accept)
         == Ok(FirstAccepted(Lines.Complete(stream, LF), decode, accept).value)
  {
    BytesOfOne(stream);
    DeliveredInTime([Data(stream)], ending, 1, decode, accept);
  }

  /** The fresh id is what this rests on: a queued reply that carries it makes the call return the wrong answer. */
  lemma ReusedSyncIdMisleads(syncLine: seq<Byte>, own: seq<Byte>, ending: Read,
                             id: nat, decode: seq<Byte> -> Option<AgentValue>)
    requires LF !in syncLine && decode(syncLine) == Some(AgentValue(Some(Number(id)), None))
    ensures Call(Script([Data(syncLine + [LF])], ending), 1,
                 Script([Data(syncLine + [LF] + own + [LF])], ending), 1, id, decode) == Ok(Number(id))
  {
    FirstAcceptedLine(syncLine, [], decode, IsSync(id));
    Neutral(syncLine + [LF]);
    OneRead(syncLine + [LF], ending, decode, IsSync(id));
    FirstAcceptedLine(syncLine, own + [LF], decode, IsReply());
    Associative(syncLine + [LF], own, [LF]);
    OneRead(syncLine + [LF] + own + [LF], ending, decode, IsReply());
  }

  // ---- What comes back, line by line -----------------------------------------------------

  /** Line `k` is the first that decodes to a value the caller accepts. */
  predicate FirstAt<V>(lines: seq<seq<Byte>>, k: nat, decode: seq<Byte> -> Option<V>, accept: V -> bool) {
    && k < |lines| && decode(lines[k]).Some? && accept(decode(lines[k]).value)
    && forall j :: 0 <= j < k ==> decode(lines[j]).None? || !accept(decode(lines[j]).value)
  }

  lemma {:induction false} FirstAtExactly<V>(lines: seq<seq<Byte>>, k: nat, decode: seq<Byte> -> Option<V>,
                                             accept: V -> bool)
    requires FirstAt(lines, k, decode, accept)
    ensures FirstAccepted(lines, decode, accept) == decode(lines[k])
  {
    if k > 0 {
      assert forall j :: 0 <= j < k - 1 ==> lines[1..][j] == lines[j + 1];
      FirstAtExactly(lines[1..], k - 1, decode, accept);
    }
  }

  lemma NoneAccepted<V>(lines: seq<seq<Byte>>, decode: seq<Byte> -> Option<V>, accept: V -> bool)
    requires forall j :: 0 <= j < |lines| ==> decode(lines[j]).None? || !accept(decode(lines[j]).value)
    ensures FirstAccepted(lines, decode, accept) == None
  {
  }

  /** A reply of the agent: it has a `return` or an `error`. */
  predicate Replies(line: seq<Byte>, decode: seq<Byte> -> Option<AgentValue>) {
    decode(line).Some? && (decode(line).value.ret.Some? || decode(line).value.error.Some?)
  }

  /** The answer to a guest-sync: it returns the number that was sent. */
  predicate Syncs(line: seq<Byte>, id: nat, decode: seq<Byte> -> Option<AgentValue>) {
    decode(line).Some? && decode(line).value.ret == Some(Number(id))
  }

  /** What a reply means to the caller: an error first, by its `desc` if it has one. */
  predicate Means(v: AgentValue, r: Result<Json, CallError>) {
    match v.error
    case Some(Some(desc)) => r == Err(Agent(desc))
    case Some(None) => r == Err(Agent("erreur"))
    case None => v.ret.Some? && r == Ok(v.ret.value)
  }

  /** The lines a run of reads delivers. */
  function LinesOf(run: seq<Read>): seq<seq<Byte>> {
    Lines.Complete(Bytes(run), LF)
  }

  /**
    Once a line answers the guest-sync in time, the call returns what the first reply
    after its request means, whatever lies before that line and after that reply.
   */
  lemma CallMeans(sync: seq<Read>, answer: seq<Read>, ending: Read, syncLimit: nat, limit: nat, id: nat,
                  decode: seq<Byte> -> Option<AgentValue>, s: nat, k: nat)
    requires Flowing(sync) && |sync| <= syncLimit && Flowing(answer) && |answer| <= limit
    requires s < |LinesOf(sync)| && Syncs(LinesOf(sync)[s], id, decode)
    requires k < |LinesOf(answer)| && Replies(LinesOf(answer)[k], decode)
    requires forall j :: 0 <= j < k ==> !Replies(LinesOf(answer)[j], decode)
    ensures Means(decode(LinesOf(answer)[k]).value,
                  Call(Script(sync, ending), syncLimit, Script(answer, ending), limit, id, decode))
  {
    hide WholeStream, FirstAccepted, Lines.Complete, Bytes, Syncs;
    Synced(sync, ending, syncLimit, id, decode, s);
    FirstAtExactly(LinesOf(answer), k, decode, IsReply());
    DeliveredInTime(answer, ending, limit, decode, IsReply());
  }

  lemma Synced(sync: seq<Read>, ending: Read, syncLimit: nat, id: nat, decode: seq<Byte> -> Option<AgentValue>, s: nat)
    requires Flowing(sync) && |sync| <= syncLimit && s < |LinesOf(sync)| && Syncs(LinesOf(sync)[s], id, decode)
    ensures WholeStream(Script(sync, ending), syncLimit, decode, IsSync(id)).Ok?
  {
    hide WholeStream, Lines.Complete, Bytes;
    assert Accepts(LinesOf(sync)[s], decode, IsSync(id));
    DeliveredInTime(sync, ending, syncLimit, decode, IsSync(id));
  }

  /** An agent that never answers the guest-sync, until the socket ends or the time is over, is no agent. */
  lemma NoSyncNoAgent(sync: seq<Read>, ending: Read, answer: nat -> Read, syncLimit: nat, limit: nat, id: nat,
                      decode: seq<Byte> -> Option<AgentValue>)
    requires Flowing(sync) && (if Ends(ending) then |sync| < syncLimit else |sync| == syncLimit)
    requires forall j :: 0 <= j < |LinesOf(sync)| ==> !Syncs(LinesOf(sync)[j], id, decode)
    ensures Call(Script(sync, ending), syncLimit, answer, limit, id, decode) == Err(NoAgent)
  {
    NoneAccepted(LinesOf(sync), decode, IsSync(id));
    NothingAccepted(sync, ending, syncLimit, decode, IsSync(id));
  }

  /** One that answers it, and then nothing, gives the failure of the socket, or the timeout. */
  lemma NoReplyFails(sync: seq<Read>, answer: seq<Read>, ending: Read, syncLimit: nat, limit: nat, id: nat,
                     decode: seq<Byte> -> Option<AgentValue>, s: nat)
    requires Flowing(sync) && |sync| <= syncLimit && s < |LinesOf(sync)| && Syncs(LinesOf(sync)[s], id, decode)
    requires Flowing(answer) && (if Ends(ending) then |answer| < limit else |answer| == limit)
    requires forall j :: 0 <= j < |LinesOf(answer)| ==> !Replies(LinesOf(answer)[j], decode)
    ensures Call(Script(sync, ending), syncLimit, Script(answer, ending), limit, id, decode)
         == Err(Transport(match ending
                          case Closed => Disconnected
                          case Broken => ReadError
                          case _ => TimedOut))
  {
    hide WholeStream, Lines.Complete, Bytes, Syncs;
    Synced(sync, ending, syncLimit, id, decode, s);
    NoneAccepted(LinesOf(answer), decode, IsReply());
    NothingAccepted(answer, ending, limit, decode, IsReply());
  }

  lemma NothingAccepted<V>(run: seq<Read>, ending: Read, limit: nat, decode: seq<Byte> -> Option<V>, accept: V -> bool)
    requires Flowing(run) && (if Ends(ending) then |run| < limit else |run| == limit)
    requires FirstAccepted(LinesOf(run), decode, accept) == None
    ensures WholeStream(Script(run, ending), limit, decode, accept)
         == Err(match ending
                case Closed => Disconnected
                case Broken => ReadError
                case _ => TimedOut)
  {
    var script := Script(run, ending);
    assert forall k :: 0 <= k < |run| ==> script(k) == run[k];
    if Ends(ending) {
      CutsDoNotMatter(run, ending, limit, decode, accept);
    } else {
      assert Stop(script, 0, limit) == limit;
      ScriptReceives(run, ending, |run|);
      assert run[..|run|] == run;
    }
  }
}
