/** `str::replace` with a one-character pattern. */
module Replace {
  import opened Sequences

  function ReplaceChar(s: string, c: char, to: string): string {
    if s == "" then "" else (if s[0] == c then to else [s[0]]) + ReplaceChar(s[1..], c, to)
  }

  lemma {:induction false} ReplaceAppend(a: string, b: string, c: char, to: string)
    ensures ReplaceChar(a + b, c, to) == ReplaceChar(a, c, to) + ReplaceChar(b, c, to)
  {
    if a == "" {
      Neutral(b);
      Neutral(ReplaceChar(b, c, to));
    } else {
      TailOfAppend(a, b);
      ReplaceAppend(a[1..], b, c, to);
      Associative(if a[0] == c then to else [a[0]], ReplaceChar(a[1..], c, to), ReplaceChar(b, c, to));
    }
  }

  lemma {:induction false} ReplaceAbsent(s: string, c: char, to: string)
    requires c !in s
    ensures ReplaceChar(s, c, to) == s
  {
    if s != "" {
      ReplaceAbsent(s[1..], c, to);
      FirstElement(s);
    }
  }

  lemma ReplaceOne(c: char, to: string)
    ensures ReplaceChar([c], c, to) == to
  {
    assert [c][1..] == "";
    Neutral(to);
  }
}
