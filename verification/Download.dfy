/**
  Resumable downloads. An attempt asks for the rest of what the temporary file
  already holds, appends what arrives and publishes the file when the response
  ends; it may be cut at any read or write and tried again any number of times.
 */
module Download {
  import opened Wrappers
  import opened Sequences
  import opened Words
  import Lines

  datatype Disk = Disk(temp: Option<seq<Byte>>, dest: Option<seq<Byte>>)

  /** The response's status: not a success, 206 Partial Content, or another success (200). */
  datatype Status = Refused | Partial | Whole

  /** How reading stops; a failed write may still have stored part of the last buffer. */
  datatype End = Eof | ReadError | WriteError(stored: seq<Byte>)

  /** Moving the file into place: rename, else copy and remove, which can stop anywhere. */
  datatype Publish = Moved | CopyFailed(copied: nat) | Unmoved

  datatype Attempt = Attempt(status: Status, chunks: seq<seq<Byte>>, end: End, publish: Publish)

  function Already(d: Disk): nat {
    if d.temp.Some? then |d.temp.value| else 0
  }

  predicate Resumed(d: Disk, a: Attempt) {
    Already(d) > 0 && a.status.Partial?
  }

  /** The temporary file once reading has stopped. */
  function Written(d: Disk, a: Attempt): seq<Byte> {
    (if Resumed(d, a) then d.temp.value else [])
    + Lines.Join(a.chunks) + (if a.end.WriteError? then a.end.stored else [])
  }

  function Step(d: Disk, a: Attempt): Disk {
    if a.status.Refused? then d
    else
      var content := Written(d, a);
      if !a.end.Eof? then d.(temp := Some(content))
      else
        match a.publish
        case Moved => Disk(None, Some(content))
        case CopyFailed(n) => Disk(Some(content), Some(content[..if n < |content| then n else |content|]))
        case Unmoved => d.(temp := Some(content))
  }

  /**
    A fixed remote body, and a server that answers 206 with the body from the
    offset asked for (never an empty range: that is a 416), or 200 with all of it,
    or a refusal. The response only ends normally once all of it was delivered.
   */
  predicate Honest(body: seq<Byte>, d: Disk, a: Attempt) {
    a.status.Refused?
    || (var offset := if Resumed(d, a) then Already(d) else 0;
        && (Resumed(d, a) ==> offset < |body|)
        && offset <= |body|
        && Lines.Join(a.chunks) + (if a.end.WriteError? then a.end.stored else []) <= body[offset..]
        && (a.end.Eof? ==> Lines.Join(a.chunks) == body[offset..]))
  }

  predicate Consistent(body: seq<Byte>, d: Disk) {
    d.temp.Some? ==> d.temp.value <= body
  }

  class Downloader {
    var temp: Option<seq<Byte>>
    var dest: Option<seq<Byte>>

    function State(): Disk
      reads this
    {
      Disk(temp, dest)
    }

    /** `received` is what the progress events report. */
    method Run(a: Attempt) returns (published: bool, received: nat)
      modifies this
      ensures State() == Step(old(State()), a)
      ensures published <==> !a.status.Refused? && a.end.Eof? && a.publish.Moved?
      ensures !a.status.Refused? && !a.end.WriteError? ==> received == |Written(old(State()), a)|
    {
      var already := Already(State());
      if a.status.Refused? {
        return false, 0;
      }
      var resumed := already > 0 && a.status.Partial?;
      var file := if resumed then temp.value else [];
      received := if resumed then already else 0;
      temp := Some(file);
      ghost var start := file;
      var i := 0;
      Neutral(file);
      while i < |a.chunks|
        invariant i <= |a.chunks| && dest == old(dest)
        invariant temp == Some(start + Lines.Join(a.chunks[..i])) && received == |temp.value|
      {
        assert a.chunks[..i + 1][..i] == a.chunks[..i];
        Associative(start, Lines.Join(a.chunks[..i]), a.chunks[i]);
        temp := Some(temp.value + a.chunks[i]);
        received := received + |a.chunks[i]|;
        i := i + 1;
      }
      assert a.chunks[..i] == a.chunks;
      Neutral(temp.value);
      match a.end {
        case ReadError => published := false;
        case WriteError(stored) =>
          temp := Some(temp.value + stored);
          published := false;
        case Eof =>
          match a.publish {
            case Moved =>
              dest := temp;
              temp := None;
              published := true;
            case CopyFailed(n) =>
              dest := Some(temp.value[..if n < |temp.value| then n else |temp.value|]);
              published := false;
            case Unmoved => published := false;
          }
      }
    }
  }

  // ---- Runs --------------------------------------------------------------------------

  function After(d: Disk, run: seq<Attempt>): Disk {
    if run == [] then d else Step(After(d, run[..|run| - 1]), run[|run| - 1])
  }

  /** Every attempt of the run is honest in the state it starts from. */
  predicate HonestRun(body: seq<Byte>, d: Disk, run: seq<Attempt>) {
    run == []
    || (HonestRun(body, d, run[..|run| - 1]) && Honest(body, After(d, run[..|run| - 1]), run[|run| - 1]))
  }

  /** One attempt keeps the temporary file a prefix of the body, and publishes nothing else than the body. */
  lemma StepKeepsPrefix(body: seq<Byte>, d: Disk, a: Attempt)
    requires Consistent(body, d) && Honest(body, d, a)
    ensures Consistent(body, Step(d, a))
    ensures a.status.Refused? || Written(d, a) <= body
    ensures !a.status.Refused? && a.end.Eof? ==> Written(d, a) == body
    ensures Step(d, a).dest == d.dest || Step(d, a).dest == Some(body)
         || (a.end.Eof? && a.publish.CopyFailed? && a.publish.copied < |body|)
  {
    if !a.status.Refused? {
      var offset := if Resumed(d, a) then Already(d) else 0;
      var start := if Resumed(d, a) then d.temp.value else [];
      var tail := if a.end.WriteError? then a.end.stored else [];
      assert start == body[..offset];
      Associative(start, Lines.Join(a.chunks), tail);
      Neutral(Lines.Join(a.chunks));
      SplitAt(body, offset);
      PrefixAfter(start, Lines.Join(a.chunks) + tail, body[offset..]);
    }
  }

  lemma PrefixAfter(a: seq<Byte>, b: seq<Byte>, c: seq<Byte>)
    requires b <= c
    ensures a + b <= a + c
  {
  }

  /** The attempt gets everything, and then copies only a part that is not what the destination should hold. */
  predicate BreaksOff(body: seq<Byte>, dest: Option<seq<Byte>>, a: Attempt) {
    && !a.status.Refused? && a.end.Eof? && a.publish.CopyFailed? && a.publish.copied < |body|
    && dest != Some(body[..a.publish.copied])
  }

  /** What a reader may find at the destination: what was there before, or the whole body. */
  predicate Fitting(body: seq<Byte>, before: Option<seq<Byte>>, dest: Option<seq<Byte>>) {
    dest == before || dest == Some(body)
  }

  /** One attempt leaves the destination as it was, or publishes the whole body, exactly when no copy breaks off. */
  lemma StepIsSafeExactly(body: seq<Byte>, d: Disk, a: Attempt, before: Option<seq<Byte>>)
    requires Consistent(body, d) && Honest(body, d, a) && Fitting(body, before, d.dest)
    ensures Fitting(body, before, Step(d, a).dest) <==> !BreaksOff(body, before, a)
  {
    hide Written, Honest, Consistent;
    StepKeepsPrefix(body, d, a);
    if !a.status.Refused? && a.end.Eof? {
      assert Written(d, a) == body;
    }
  }

  predicate NothingBreaksOff(body: seq<Byte>, dest: Option<seq<Byte>>, run: seq<Attempt>) {
    forall k :: 0 <= k < |run| ==> !BreaksOff(body, dest, run[k])
  }

  predicate AlwaysWhole(body: seq<Byte>, d: Disk, run: seq<Attempt>) {
    forall k :: 0 <= k <= |run| ==> Fitting(body, d.dest, After(d, run[..k]).dest)
  }

  lemma AlwaysWholeSnoc(body: seq<Byte>, d: Disk, run: seq<Attempt>)
    requires run != []
    ensures AlwaysWhole(body, d, run)
      <==> AlwaysWhole(body, d, run[..|run| - 1]) && Fitting(body, d.dest, After(d, run).dest)
  {
    hide Fitting, After;
    var before := run[..|run| - 1];
    assert run[..|run|] == run;
    assert forall k :: 0 <= k < |run| ==> before[..k] == run[..k];
  }

  /**
    Over any number of attempts cut anywhere, the temporary file is a prefix of the
    body; and at every moment the destination holds what it held before or the whole
    body, if and only if no copy breaks off.
   */
  lemma {:induction false} RunIsSafeExactly(body: seq<Byte>, d: Disk, run: seq<Attempt>)
    requires Consistent(body, d) && HonestRun(body, d, run)
    ensures Consistent(body, After(d, run))
    ensures AlwaysWhole(body, d, run) <==> NothingBreaksOff(body, d.dest, run)
  {
    hide BreaksOff, Step, Honest;
    if run != [] {
      var before, last := run[..|run| - 1], run[|run| - 1];
      RunIsSafeExactly(body, d, before);
      StepKeepsPrefix(body, After(d, before), last);
      AlwaysWholeSnoc(body, d, run);
      if AlwaysWhole(body, d, before) {
        assert before[..|before|] == before;
        StepIsSafeExactly(body, After(d, before), last, d.dest);
      } else {
        var k :| 0 <= k < |before| && BreaksOff(body, d.dest, before[k]);
        assert run[k] == before[k];
      }
    } else {
      assert run[..0] == [];
    }
  }

  /** A copy that stops half-way, after the rename failed, does publish a truncated file: the condition is needed. */
  lemma BrokenCopyPublishesPart(body: seq<Byte>, n: nat)
    requires n < |body|
    ensures var a := Attempt(Whole, [body], Eof, CopyFailed(n));
      HonestRun(body, Disk(None, None), [a]) && After(Disk(None, None), [a]).dest == Some(body[..n])
  {
    var a := Attempt(Whole, [body], Eof, CopyFailed(n));
    OneChunk(body);
    Neutral(body);
    assert Written(Disk(None, None), a) == body;
    assert Honest(body, Disk(None, None), a);
    OneAttempt(body, Disk(None, None), a);
  }

  lemma OneChunk(body: seq<Byte>)
    ensures Lines.Join([body]) == body && body[0..] == body
  {
    assert [body][..0] == [];
    assert Lines.Join([body]) == [] + body;
  }

  lemma OneAttempt(body: seq<Byte>, d: Disk, a: Attempt)
    ensures After(d, [a]) == Step(d, a) && (HonestRun(body, d, [a]) <==> Honest(body, d, a))
  {
    assert [a][..0] == [];
  }

  /** How much of the body an attempt starts with: what is there, when a 206 resumes it. */
  function StartsAt(d: Disk, a: Attempt): nat {
    if a.status.Partial? && d.temp.Some? then |d.temp.value| else 0
  }

  /** How much it delivers and stores. */
  function Delivered(a: Attempt): nat {
    |Lines.Join(a.chunks)| + if a.end.WriteError? then |a.end.stored| else 0
  }

  /**
    What an attempt leaves: a refusal nothing new; a cut one the bytes it started with and
    those it got; a whole one the body, in its place if the move went well, in part if a
    copy broke off, and in the temporary file unless it was moved.
   */
  lemma AttemptOutcome(body: seq<Byte>, d: Disk, a: Attempt)
    requires Consistent(body, d) && Honest(body, d, a)
    ensures StartsAt(d, a) + Delivered(a) <= |body| || a.status.Refused?
    ensures Step(d, a) ==
      if a.status.Refused? then d
      else if !a.end.Eof? then Disk(Some(body[..StartsAt(d, a) + Delivered(a)]), d.dest)
      else match a.publish
           case Moved => Disk(None, Some(body))
           case CopyFailed(n) => Disk(Some(body), Some(body[..if n < |body| then n else |body|]))
           case Unmoved => Disk(Some(body), d.dest)
  {
    hide Consistent;
    StepKeepsPrefix(body, d, a);
    if !a.status.Refused? {
      PrefixIs(body, Written(d, a));
      WrittenLength(d, a);
      StartIs(d, a);
    }
  }

  lemma PrefixIs(body: seq<Byte>, content: seq<Byte>)
    requires content <= body
    ensures |content| <= |body| && content == body[..|content|]
  {
  }

  lemma WrittenLength(d: Disk, a: Attempt)
    ensures |Written(d, a)| == (if Resumed(d, a) then Already(d) else 0) + Delivered(a)
  {
  }

  lemma StartIs(d: Disk, a: Attempt)
    ensures StartsAt(d, a) == if Resumed(d, a) then Already(d) else 0
  {
  }

  /** Resuming never loses bytes: only a 200 starts over. */
  lemma ResumeNeverShrinks(body: seq<Byte>, d: Disk, a: Attempt)
    requires Consistent(body, d) && Honest(body, d, a) && !a.status.Whole?
    ensures Step(d, a).temp.Some? ==> Already(d) <= Already(Step(d, a))
    ensures Step(d, a).temp.None? && d.temp.Some? ==> Step(d, a).dest == Some(body)
  {
    StepKeepsPrefix(body, d, a);
  }

  // ---- A complete file that was not published -------------------------------------------

  predicate Publishes(a: Attempt) {
    !a.status.Refused? && a.end.Eof? && a.publish.Moved?
  }

  /**
    The temporary file already holds the whole body, its publication failed. The next
    attempt publishes it exactly when the server answers 200, everything arrives again
    and the move succeeds; any other answer leaves everything as it is.
   */
  lemma CompleteFileExactly(body: seq<Byte>, d: Disk, a: Attempt)
    requires body != [] && d.temp == Some(body) && Honest(body, d, a)
    ensures Step(d, a).temp.None? <==> a.status.Whole? && a.end.Eof? && a.publish.Moved?
    ensures Step(d, a).temp.None? ==> Step(d, a).dest == Some(body)
    ensures !a.status.Whole? ==> Step(d, a) == d
  {
    StepKeepsPrefix(body, d, a);
  }

  /** The first attempts of a run none of which is answered with a 200. */
  lemma {:induction false} StuckWithout200(body: seq<Byte>, d: Disk, run: seq<Attempt>)
    requires body != [] && d.temp == Some(body) && HonestRun(body, d, run)
    requires forall k :: 0 <= k < |run| ==> !run[k].status.Whole?
    ensures After(d, run) == d && forall k :: 0 <= k < |run| ==> !Publishes(run[k])
  {
    if run != [] {
      StuckWithout200(body, d, run[..|run| - 1]);
      CompleteFileExactly(body, d, run[|run| - 1]);
    }
  }

  lemma {:induction false} HonestPrefix(body: seq<Byte>, d: Disk, run: seq<Attempt>, n: nat)
    requires HonestRun(body, d, run) && n <= |run|
    ensures HonestRun(body, d, run[..n])
    decreases |run|
  {
    if n < |run| {
      HonestPrefix(body, d, run[..|run| - 1], n);
      assert run[..|run| - 1][..n] == run[..n];
    } else {
      assert run[..n] == run;
    }
  }

  /** Only an attempt that publishes takes the temporary file away. */
  lemma {:induction false} GoneIsPublished(d: Disk, run: seq<Attempt>)
    requires d.temp.Some? && After(d, run).temp.None?
    ensures exists k :: 0 <= k < |run| && Publishes(run[k])
  {
    hide Written;
    var before, last := run[..|run| - 1], run[|run| - 1];
    if After(d, before).temp.None? {
      GoneIsPublished(d, before);
      var k :| 0 <= k < |before| && Publishes(before[k]);
      assert run[k] == before[k];
    } else {
      assert Publishes(last);
    }
  }

  /** The file has been moved into place at some moment of the run. */
  predicate IsPublished(d: Disk, run: seq<Attempt>) {
    exists k :: 0 <= k <= |run| && After(d, run[..k]).temp.None?
  }

  lemma PublishedExactly(d: Disk, run: seq<Attempt>)
    requires d.temp.Some?
    ensures IsPublished(d, run) <==> exists k :: 0 <= k < |run| && Publishes(run[k])
  {
    if IsPublished(d, run) {
      var k :| 0 <= k <= |run| && After(d, run[..k]).temp.None?;
      GoneIsPublished(d, run[..k]);
      var j :| 0 <= j < k && Publishes(run[..k][j]);
      assert run[j] == run[..k][j];
    }
    forall k | 0 <= k < |run| && Publishes(run[k])
      ensures IsPublished(d, run)
    {
      assert run[..k + 1][..k] == run[..k] && run[..k + 1][k] == run[k];
      assert After(d, run[..k + 1]).temp.None?;
    }
  }

  /**
    A complete file is moved into place by a run if and only if the run is answered 200
    at some point and an attempt from there on, that one or a later resumption, reads to
    the end and moves: a server that always honours the range is asked in vain for ever.
   */
  lemma CompleteFileIsPublishedExactly(body: seq<Byte>, d: Disk, run: seq<Attempt>)
    requires body != [] && d.temp == Some(body) && HonestRun(body, d, run)
    ensures IsPublished(d, run)
      <==> exists j, k :: 0 <= j <= k < |run| && run[j].status.Whole? && Publishes(run[k])
  {
    hide IsPublished, After, HonestRun;
    PublishedExactly(d, run);
    forall k | 0 <= k < |run| && Publishes(run[k])
      ensures exists j :: 0 <= j <= k && run[j].status.Whole?
    {
      var until := run[..k + 1];
      assert until[k] == run[k];
      HonestPrefix(body, d, run, k + 1);
      if forall j :: 0 <= j <= k ==> !run[j].status.Whole? {
        StuckWithout200(body, d, until);
      }
    }
  }

  /** The run in which a 200 is cut and the next attempt, a resumption, publishes. */
  lemma Cut200ThenResumed(first: Byte, rest: seq<Byte>)
    requires rest != []
    ensures var body, d := [first] + rest, Disk(Some([first] + rest), None);
      var run := [Attempt(Whole, [[first]], ReadError, Unmoved), Attempt(Partial, [rest], Eof, Moved)];
      HonestRun(body, d, run) && After(d, run) == Disk(None, Some(body))
  {
    var body, d := [first] + rest, Disk(Some([first] + rest), None);
    var cut, resumed := Attempt(Whole, [[first]], ReadError, Unmoved), Attempt(Partial, [rest], Eof, Moved);
    OneChunk([first]);
    OneChunk(rest);
    OneAttempt(body, d, cut);
    var part := Disk(Some([first]), None);
    assert body[0..] == body && [first] + [] == [first] && [first] <= body;
    assert Step(d, cut) == part && Honest(body, d, cut);
    assert body[1..] == rest && rest + [] == rest && [first] + rest + [] == body;
    assert Step(part, resumed) == Disk(None, Some(body)) && Honest(body, part, resumed);
    assert [cut, resumed][..1] == [cut];
  }
}
