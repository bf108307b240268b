/**
  Line framing. A stream is cut into the lines ended by a separator and the
  unterminated rest; both readers of the repository (the guest agent client and
  the runner client) keep exactly that rest between two reads.
 */
module Lines {
  import opened Sequences

  /** The lines of `s` that are terminated by `sep`, without it. */
  function Complete<T(==)>(s: seq<T>, sep: T): seq<seq<T>>
  {
    if s == [] then []
    else
      var before := s[..|s| - 1];
      if s[|s| - 1] == sep then Complete(before, sep) + [Rest(before, sep)] else Complete(before, sep)
  }

  /** What follows the last `sep`. */
  function Rest<T(==)>(s: seq<T>, sep: T): (r: seq<T>)
    ensures sep !in r
    ensures sep !in s ==> r == s
  {
    if s == [] || s[|s| - 1] == sep then [] else Rest(s[..|s| - 1], sep) + [s[|s| - 1]]
  }

  /** The concatenation of the chunks a stream arrives in. */
  function Join<T>(chunks: seq<seq<T>>): seq<T>
  {
    if chunks == [] then [] else Join(chunks[..|chunks| - 1]) + chunks[|chunks| - 1]
  }

  /** The stream that carries `lines`, each ended by `sep`. */
  function Terminated<T>(lines: seq<seq<T>>, sep: T): seq<T>
  {
    if lines == [] then [] else Terminated(lines[..|lines| - 1], sep) + lines[|lines| - 1] + [sep]
  }

  predicate Unbroken<T(==)>(lines: seq<seq<T>>, sep: T) {
    forall k :: 0 <= k < |lines| ==> sep !in lines[k]
  }

  lemma {:induction false} NoSeparator<T>(s: seq<T>, sep: T)
    requires sep !in s
    ensures Complete(s, sep) == []
  {
    if s != [] {
      NoSeparator(s[..|s| - 1], sep);
    }
  }

  lemma {:induction false} CompleteIsUnbroken<T>(s: seq<T>, sep: T)
    ensures Unbroken(Complete(s, sep), sep)
  {
    if s != [] {
      CompleteIsUnbroken(s[..|s| - 1], sep);
    }
  }

  lemma Snoc<T>(s: seq<T>, x: T, sep: T)
    ensures Complete(s + [x], sep) == if x == sep then Complete(s, sep) + [Rest(s, sep)] else Complete(s, sep)
    ensures Rest(s + [x], sep) == if x == sep then [] else Rest(s, sep) + [x]
  {
    assert (s + [x])[..|s|] == s;
  }

  /** Framing is incremental: only the unterminated rest of what came before matters. */
  lemma {:induction false} CompleteAppend<T>(a: seq<T>, b: seq<T>, sep: T)
    ensures Complete(a + b, sep) == Complete(a, sep) + Complete(Rest(a, sep) + b, sep)
    ensures Rest(a + b, sep) == Rest(Rest(a, sep) + b, sep)
  {
    var r := Rest(a, sep);
    if b == [] {
      assert a + b == a && r + b == r;
      NoSeparator(r, sep);
      assert Complete(a, sep) + [] == Complete(a, sep);
    } else {
      var c, x := b[..|b| - 1], b[|b| - 1];
      CompleteAppend(a, c, sep);
      LastElement(b);
      Associative(a, c, [x]);
      Associative(r, c, [x]);
      Snoc(a + c, x, sep);
      Snoc(r + c, x, sep);
      Associative(Complete(a, sep), Complete(r + c, sep), [Rest(r + c, sep)]);
    }
  }

  /** The first line of a stream, and what is left to frame after it. */
  lemma FirstLine<T>(line: seq<T>, after: seq<T>, sep: T)
    requires sep !in line
    ensures Complete(line + [sep] + after, sep) == [line] + Complete(after, sep)
    ensures Rest(line + [sep] + after, sep) == Rest(after, sep)
  {
    var a := line + [sep];
    assert a[..|a| - 1] == line;
    NoSeparator(line, sep);
    CompleteAppend(a, after, sep);
    assert [] + after == after;
  }

  lemma OneLine<T>(line: seq<T>, sep: T)
    requires sep !in line
    ensures Complete([] + (line + [sep]), sep) == [line] && Rest([] + (line + [sep]), sep) == []
  {
    assert [] + (line + [sep]) == line + [sep];
    Snoc(line, sep, sep);
    NoSeparator(line, sep);
  }

  /** Writing lines and framing the stream are inverse. */
  lemma {:induction false} FramingRoundTrip<T>(lines: seq<seq<T>>, sep: T)
    requires Unbroken(lines, sep)
    ensures Complete(Terminated(lines, sep), sep) == lines
    ensures Rest(Terminated(lines, sep), sep) == []
  {
    if lines != [] {
      var n := |lines| - 1;
      var line, t := lines[n], Terminated(lines[..n], sep);
      FramingRoundTrip(lines[..n], sep);
      Associative(t, line, [sep]);
      CompleteAppend(t, line + [sep], sep);
      OneLine(line, sep);
      LastElement(lines);
    }
  }
}
