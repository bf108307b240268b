/**
  One call to the privileged runner: the socket handlers of `callRunner`. The
  runner answers with one JSON object per line; a request gets any number of
  progress messages and one final reply, mixed with lines for other requests,
  and the text arrives cut anywhere.
 */
module RunnerCall {
  import opened Wrappers
  import opened Sequences
  import Lines

  const NEWLINE: char := '\n'

  /** The `ok` member of a reply as JavaScript tests it. */
  datatype Status = Undefined | Truthy | Falsy

  datatype Message = Message(id: string, status: Status, progress: Option<string>, result: string,
                             error: Option<string>)

  datatype Outcome = Resolved(result: string) | Rejected(reason: string)

  datatype Event = Data(chunk: string) | Timeout(action: string) | SocketError(message: string) | Close

  /** Blank lines, and lines that are not JSON objects, parse to None. */
  type Parser = string -> Option<Message>

  /** What the caller of `callRunner` sees: how the promise settled, and the progress it was told. */
  datatype View = View(outcome: Option<Outcome>, progress: seq<string>)

  predicate Mine(line: string, id: string, parse: Parser) {
    parse(line).Some? && parse(line).value.id == id
  }

  predicate IsProgress(line: string, id: string, parse: Parser) {
    Mine(line, id, parse) && parse(line).value.progress.Some? && parse(line).value.status.Undefined?
  }

  predicate IsFinal(line: string, id: string, parse: Parser) {
    Mine(line, id, parse) && !IsProgress(line, id, parse)
  }

  function Final(m: Message): Outcome {
    if m.status.Truthy? then Resolved(m.result)
    else Rejected(if m.error.Some? then m.error.value else "Runner error")
  }

  // ---- What a call must return, stated on the whole text -------------------------

  /** Index of the first final reply with this id. */
  function FirstFinal(lines: seq<string>, id: string, parse: Parser): (k: nat)
    ensures k <= |lines|
    ensures forall j :: 0 <= j < k ==> !IsFinal(lines[j], id, parse)
    ensures k < |lines| ==> IsFinal(lines[k], id, parse)
  {
    if lines == [] || IsFinal(lines[0], id, parse) then 0 else 1 + FirstFinal(lines[1..], id, parse)
  }

  /** The progress messages with this id, in order. */
  function Progresses(lines: seq<string>, id: string, parse: Parser): seq<string> {
    if lines == [] then []
    else
      var line := lines[|lines| - 1];
      Progresses(lines[..|lines| - 1], id, parse)
      + (if IsProgress(line, id, parse) then [parse(line).value.progress.value] else [])
  }

  function Whole(lines: seq<string>, id: string, parse: Parser): View {
    var k := FirstFinal(lines, id, parse);
    View(if k < |lines| then Some(Final(parse(lines[k]).value)) else None, Progresses(lines[..k], id, parse))
  }

  function Reason(e: Event): string
    requires !e.Data?
  {
    match e
    case Timeout(action) => "Runner timeout for action: " + action
    case SocketError(message) => "Runner connection error: " + message
    case Close => "Runner connection closed unexpectedly"
  }

  /** The text received before the socket timed out, failed or closed. */
  function Text(events: seq<Event>): string {
    if events == [] || !events[0].Data? then [] else events[0].chunk + Text(events[1..])
  }

  function Ending(events: seq<Event>): (e: Option<Event>)
    ensures e.Some? ==> !e.value.Data?
  {
    if events == [] then None else if events[0].Data? then Ending(events[1..]) else Some(events[0])
  }

  // ---- The handlers ----------------------------------------------------------------

  function ReadLine(v: View, line: string, id: string, parse: Parser): View {
    if v.outcome.Some? then v
    else if IsProgress(line, id, parse) then v.(progress := v.progress + [parse(line).value.progress.value])
    else if IsFinal(line, id, parse) then v.(outcome := Some(Final(parse(line).value)))
    else v
  }

  function ReadLines(v: View, lines: seq<string>, id: string, parse: Parser): View {
    if lines == [] then v
    else ReadLine(ReadLines(v, lines[..|lines| - 1], id, parse), lines[|lines| - 1], id, parse)
  }

  datatype Client = Client(buffer: string, view: View)

  function Handle(c: Client, e: Event, id: string, parse: Parser): Client {
    match e
    case Data(chunk) =>
      Client(Lines.Rest(c.buffer + chunk, NEWLINE),
             ReadLines(c.view, Lines.Complete(c.buffer + chunk, NEWLINE), id, parse))
    case _ =>
      if c.view.outcome.Some? then c else c.(view := c.view.(outcome := Some(Rejected(Reason(e)))))
  }

  function Run(c: Client, events: seq<Event>, id: string, parse: Parser): Client
    decreases |events|
  {
    if events == [] then c else Run(Handle(c, events[0], id, parse), events[1..], id, parse)
  }

  /** `callRunner`'s promise executor: the locals its handlers close over are the fields. */
  class Call {
    var id: string
    var parse: Parser
    var buffer: string
    var settled: bool
    var outcome: Option<Outcome>
    var progress: seq<string>

    ghost predicate Valid()
      reads this
    {
      settled <==> outcome.Some?
    }

    ghost function State(): Client
      reads this
    {
      Client(buffer, View(outcome, progress))
    }

    constructor (id: string, parse: Parser)
      ensures Valid() && State() == Client("", View(None, []))
      ensures this.id == id && this.parse == parse
    {
      this.id, this.parse := id, parse;
      buffer, settled, outcome, progress := "", false, None, [];
    }

    /** A promise settles once; later calls of resolve or reject change nothing. */
    method Settle(o: Outcome)
      requires settled ==> outcome.Some?
      modifies this`settled, this`outcome
      ensures Valid() && settled
      ensures outcome == if old(outcome).Some? then old(outcome) else Some(o)
    {
      settled := true;
      if outcome.None? {
        outcome := Some(o);
      }
    }

    /** One complete line: progress while the call is open, or the final reply. */
    method OnLine(line: string)
      requires Valid()
      modifies this`settled, this`outcome, this`progress
      ensures Valid() && View(outcome, progress) == ReadLine(old(View(outcome, progress)), line, id, parse)
    {
      var parsed := parse(line);
      if parsed.Some? && parsed.value.id == id {
        if parsed.value.progress.Some? && parsed.value.status.Undefined? {
          if !settled {
            progress := progress + [parsed.value.progress.value];
          }
        } else {
          Settle(Final(parsed.value));
        }
      }
    }

    method OnData(chunk: string)
      requires Valid()
      modifies this`buffer, this`settled, this`outcome, this`progress
      ensures Valid() && State() == Handle(old(State()), Data(chunk), id, parse)
    {
      hide ReadLine;
      buffer := buffer + chunk;
      var lines := Lines.Complete(buffer, NEWLINE);
      buffer := Lines.Rest(buffer, NEWLINE);
      ghost var before, left := View(outcome, progress), buffer;
      var i := 0;
      while i < |lines|
        invariant i <= |lines| && Valid() && buffer == left
        invariant View(outcome, progress) == ReadLines(before, lines[..i], id, parse)
      {
        assert lines[..i + 1][..i] == lines[..i];
        OnLine(lines[i]);
        i := i + 1;
      }
      assert lines[..i] == lines;
    }

    /** The timeout, the socket's `error` and its `close`. */
    method OnEnd(e: Event)
      requires Valid() && !e.Data?
      modifies this`buffer, this`settled, this`outcome, this`progress
      ensures Valid() && State() == Handle(old(State()), e, id, parse)
    {
      if !settled {
        Settle(Rejected(Reason(e)));
      }
    }
  }

  // ---- Whole runs --------------------------------------------------------------------

  lemma {:induction false} ReadLinesAppend(v: View, a: seq<string>, b: seq<string>, id: string, parse: Parser)
    ensures ReadLines(v, a + b, id, parse) == ReadLines(ReadLines(v, a, id, parse), b, id, parse)
  {
    if b == [] {
      Neutral(a);
    } else {
      assert (a + b)[..|a + b| - 1] == a + b[..|b| - 1];
      ReadLinesAppend(v, a, b[..|b| - 1], id, parse);
    }
  }

  lemma {:induction false} SettledStays(v: View, lines: seq<string>, id: string, parse: Parser)
    requires v.outcome.Some?
    ensures ReadLines(v, lines, id, parse) == v
  {
    if lines != [] {
      SettledStays(v, lines[..|lines| - 1], id, parse);
    }
  }

  lemma {:induction false} FirstFinalOfPrefix(lines: seq<string>, n: nat, id: string, parse: Parser)
    requires n <= |lines|
    ensures FirstFinal(lines[..n], id, parse)
         == if FirstFinal(lines, id, parse) < n then FirstFinal(lines, id, parse) else n
  {
    var k, m := FirstFinal(lines, id, parse), FirstFinal(lines[..n], id, parse);
    if m < n {
      assert IsFinal(lines[..n][m], id, parse);
    }
    if k < n {
      assert IsFinal(lines[..n][k], id, parse);
    }
  }

  /** What one more line adds to the whole: nothing after a final reply, the reply or its progress before. */
  lemma WholeSnoc(lines: seq<string>, id: string, parse: Parser)
    requires lines != []
    ensures var n := |lines| - 1; Whole(lines, id, parse) == ReadLine(Whole(lines[..n], id, parse), lines[n], id, parse)
  {
    hide IsFinal, IsProgress, Final;
    var n := |lines| - 1;
    FirstFinalOfPrefix(lines, n, id, parse);
    var k := FirstFinal(lines, id, parse);
    if k <= n {
      assert lines[..n][..k] == lines[..k];
      LastIsFinal(lines, id, parse);
    } else {
      assert lines[..n][..n] == lines[..n] && lines[..k] == lines;
      NoProgressInFinal(lines[n], id, parse);
    }
  }

  lemma LastIsFinal(lines: seq<string>, id: string, parse: Parser)
    requires lines != [] && FirstFinal(lines, id, parse) < |lines|
    ensures IsFinal(lines[FirstFinal(lines, id, parse)], id, parse)
    ensures var line := lines[FirstFinal(lines, id, parse)]; !IsProgress(line, id, parse) && parse(line).Some?
  {
  }

  lemma NoProgressInFinal(line: string, id: string, parse: Parser)
    ensures IsFinal(line, id, parse) ==> !IsProgress(line, id, parse)
  {
  }

  /** Reading line by line gives the first final reply, and exactly the progress before it. */
  lemma {:induction false} LinesAreRead(lines: seq<string>, id: string, parse: Parser)
    ensures ReadLines(View(None, []), lines, id, parse) == Whole(lines, id, parse)
  {
    if lines != [] {
      hide Whole, ReadLine;
      LinesAreRead(lines[..|lines| - 1], id, parse);
      WholeSnoc(lines, id, parse);
    }
  }

  lemma {:induction false} EndedStays(c: Client, events: seq<Event>, id: string, parse: Parser)
    requires c.view.outcome.Some?
    ensures Run(c, events, id, parse).view == c.view
    decreases |events|
  {
    if events != [] {
      if events[0].Data? {
        SettledStays(c.view, Lines.Complete(c.buffer + events[0].chunk, NEWLINE), id, parse);
      }
      EndedStays(Handle(c, events[0], id, parse), events[1..], id, parse);
    }
  }

  ghost function Started(text: string, id: string, parse: Parser): Client {
    Client(Lines.Rest(text, NEWLINE), ReadLines(View(None, []), Lines.Complete(text, NEWLINE), id, parse))
  }

  lemma DataContinues(text: string, chunk: string, id: string, parse: Parser)
    ensures Handle(Started(text, id, parse), Data(chunk), id, parse) == Started(text + chunk, id, parse)
  {
    Lines.CompleteAppend(text, chunk, NEWLINE);
    ReadLinesAppend(View(None, []), Lines.Complete(text, NEWLINE),
                    Lines.Complete(Lines.Rest(text, NEWLINE) + chunk, NEWLINE), id, parse);
  }

  lemma {:induction false} RunContinues(text: string, events: seq<Event>, id: string, parse: Parser)
    ensures var reached := Started(text + Text(events), id, parse).view;
      Run(Started(text, id, parse), events, id, parse).view
      == if Ending(events).None? || reached.outcome.Some? then reached
         else View(Some(Rejected(Reason(Ending(events).value))), reached.progress)
    decreases |events|
  {
    if events == [] {
      Neutral(text);
    } else if events[0].Data? {
      DataContinues(text, events[0].chunk, id, parse);
      RunContinues(text + events[0].chunk, events[1..], id, parse);
      Associative(text, events[0].chunk, Text(events[1..]));
    } else {
      Neutral(text);
      var c := Handle(Started(text, id, parse), events[0], id, parse);
      EndedStays(c, events[1..], id, parse);
    }
  }

  /**
    For every sequence of socket events the caller sees the first final reply
    carrying its id and exactly the progress with its id before that reply, both
    read off the concatenated text; without such a reply, the failure that ended
    the socket. Nothing that happens afterwards is seen.
   */
  lemma CallSeesWholeText(events: seq<Event>, id: string, parse: Parser)
    ensures var whole := Whole(Lines.Complete(Text(events), NEWLINE), id, parse);
      Run(Client("", View(None, [])), events, id, parse).view
      == if Ending(events).None? || whole.outcome.Some? then whole
         else View(Some(Rejected(Reason(Ending(events).value))), whole.progress)
  {
    RunContinues("", events, id, parse);
    Neutral(Text(events));
    LinesAreRead(Lines.Complete(Text(events), NEWLINE), id, parse);
  }

  // ---- What the caller is told ---------------------------------------------------------

  /** A message to this call that only reports progress: it has a `progress` and no `ok`. */
  predicate Reports(line: string, id: string, parse: Parser) {
    && parse(line).Some? && parse(line).value.id == id
    && parse(line).value.progress.Some? && parse(line).value.status == Undefined
  }

  /** The first message to this call that is none is at `k`. */
  predicate AnsweredAt(lines: seq<string>, k: nat, id: string, parse: Parser) {
    && k < |lines| && parse(lines[k]).Some? && parse(lines[k]).value.id == id && !Reports(lines[k], id, parse)
    && Unanswered(lines, k, id, parse)
  }

  predicate Unanswered(lines: seq<string>, k: nat, id: string, parse: Parser)
    requires k <= |lines|
  {
    forall j :: 0 <= j < k && parse(lines[j]).Some? && parse(lines[j]).value.id == id ==> Reports(lines[j], id, parse)
  }

  /** The progress reported to this call, in order. */
  function Told(lines: seq<string>, id: string, parse: Parser): seq<string> {
    if lines == [] then []
    else
      var n := |lines| - 1;
      Told(lines[..n], id, parse) + if Reports(lines[n], id, parse) then [parse(lines[n]).value.progress.value] else []
  }

  lemma {:induction false} ToldIsProgress(lines: seq<string>, id: string, parse: Parser)
    ensures Told(lines, id, parse) == Progresses(lines, id, parse)
  {
    if lines != [] {
      ToldIsProgress(lines[..|lines| - 1], id, parse);
    }
  }

  lemma FinalExactly(line: string, id: string, parse: Parser)
    ensures IsFinal(line, id, parse)
      <==> parse(line).Some? && parse(line).value.id == id && !Reports(line, id, parse)
  {
  }

  /** The lines a socket carried before it ended. */
  function Carried(events: seq<Event>): seq<string> {
    Lines.Complete(Text(events), NEWLINE)
  }

  /**
    The first message to this call that is not mere progress decides: with `ok` the call
    resolves to its result; without, it is rejected with its error, or with "Runner error".
    The caller was told exactly the progress before it, and learns nothing from what follows.
   */
  lemma AnswerDecides(events: seq<Event>, id: string, parse: Parser, k: nat)
    requires AnsweredAt(Carried(events), k, id, parse)
    ensures var m := parse(Carried(events)[k]).value;
      var view := Run(Client("", View(None, [])), events, id, parse).view;
      && (m.status == Truthy ==> view.outcome == Some(Resolved(m.result)))
      && (m.status != Truthy && m.error.Some? ==> view.outcome == Some(Rejected(m.error.value)))
      && (m.status != Truthy && m.error.None? ==> view.outcome == Some(Rejected("Runner error")))
      && view.progress == Told(Carried(events)[..k], id, parse)
  {
    hide IsFinal, IsProgress, Reports, Run, Told;
    var lines := Carried(events);
    CallSeesWholeText(events, id, parse);
    forall j | 0 <= j < |lines|
      ensures IsFinal(lines[j], id, parse)
        <==> parse(lines[j]).Some? && parse(lines[j]).value.id == id && !Reports(lines[j], id, parse)
    {
      FinalExactly(lines[j], id, parse);
    }
    assert FirstFinal(lines, id, parse) == k;
    ToldIsProgress(lines[..k], id, parse);
  }

  /** Without such a message the call is rejected with what ended the socket, and is open until then. */
  lemma EndingDecides(events: seq<Event>, id: string, parse: Parser)
    requires Unanswered(Carried(events), |Carried(events)|, id, parse)
    ensures var view := Run(Client("", View(None, [])), events, id, parse).view;
      && view.progress == Told(Carried(events), id, parse)
      && view.outcome == match Ending(events)
                         case None => None
                         case Some(Timeout(action)) => Some(Rejected("Runner timeout for action: " + action))
                         case Some(SocketError(message)) => Some(Rejected("Runner connection error: " + message))
                         case Some(Close) => Some(Rejected("Runner connection closed unexpectedly"))
                         case Some(Data(_)) => None
  {
    hide IsFinal, IsProgress, Reports, Run, Told;
    var lines := Carried(events);
    CallSeesWholeText(events, id, parse);
    forall j | 0 <= j < |lines|
      ensures IsFinal(lines[j], id, parse)
        <==> parse(lines[j]).Some? && parse(lines[j]).value.id == id && !Reports(lines[j], id, parse)
    {
      FinalExactly(lines[j], id, parse);
    }
    assert FirstFinal(lines, id, parse) == |lines|;
    assert lines[..|lines|] == lines;
    ToldIsProgress(lines, id, parse);
  }
}
