/**
  QEMU option strings: `a,b,c`. QEMU splits them on commas, and reads two commas
  in a row as one literal comma.
 */
module OptionStrings {
  import opened Sequences

  function Join(parts: seq<string>): string {
    if parts == [] then "" else if |parts| == 1 then parts[0] else parts[0] + "," + Join(parts[1..])
  }

  /** QEMU's reading of the rest `s` of an option string, `current` being the part under way. */
  function Split(s: string, current: string): (parts: seq<string>)
    ensures parts != []
    decreases |s|
  {
    if s == "" then [current]
    else if s[0] != ',' then Split(s[1..], current + [s[0]])
    else if |s| > 1 && s[1] == ',' then Split(s[2..], current + ",")
    else [current] + Split(s[1..], "")
  }

  /** The value of the first key of a part. */
  function Key(part: string): string {
    if part == "" || part[0] == '=' then "" else [part[0]] + Key(part[1..])
  }

  function Value(part: string): string {
    if part == "" then "" else if part[0] == '=' then part[1..] else Value(part[1..])
  }

  predicate CommaFree(parts: seq<string>) {
    forall k :: 0 <= k < |parts| ==> ',' !in parts[k]
  }

  predicate NoneEmpty(parts: seq<string>) {
    forall k :: 0 <= k < |parts| ==> parts[k] != ""
  }

  lemma {:induction false} SplitPlain(part: string, rest: string, current: string)
    requires ',' !in part
    ensures Split(part + rest, current) == Split(rest, current + part)
  {
    if part == "" {
      Neutral(rest);
      Neutral(current);
    } else {
      TailOfAppend(part, rest);
      SplitPlain(part[1..], rest, current + [part[0]]);
      Associative(current, [part[0]], part[1..]);
      FirstElement(part);
    }
  }

  lemma {:induction false} SplitJoin(parts: seq<string>)
    requires parts != [] && CommaFree(parts) && NoneEmpty(parts)
    ensures Split(Join(parts), "") == parts
  {
    if |parts| == 1 {
      Neutral(parts[0]);
      SplitPlain(parts[0], "", "");
      assert parts == [parts[0]];
    } else {
      var rest := Join(parts[1..]);
      Associative(parts[0], ",", rest);
      SplitPlain(parts[0], "," + rest, "");
      Neutral(parts[0]);
      FirstOfJoin(parts[1..]);
      TailOfAppend(",", rest);
      Neutral(rest);
      SplitJoin(parts[1..]);
      FirstElement(parts);
    }
  }

  lemma FirstOfJoin(parts: seq<string>)
    requires parts != [] && CommaFree(parts) && NoneEmpty(parts)
    ensures Join(parts) != "" && Join(parts)[0] != ','
  {
    assert Join(parts)[0] == parts[0][0];
  }

  // ---- Only comma-free parts survive ----------------------------------------------------

  function Length(parts: seq<string>): nat {
    if parts == [] then 0 else |parts[0]| + Length(parts[1..])
  }

  function Commas(parts: seq<string>): nat {
    if parts == [] then 0 else Count(parts[0]) + Commas(parts[1..])
  }

  function Count(s: string): nat {
    if s == "" then 0 else Count(s[..|s| - 1]) + (if s[|s| - 1] == ',' then 1 else 0)
  }

  lemma {:induction false} JoinLength(parts: seq<string>)
    requires parts != []
    ensures |Join(parts)| + 1 == Length(parts) + |parts|
  {
    if |parts| > 1 {
      JoinLength(parts[1..]);
    }
  }

  lemma CountSnoc(s: string, c: char)
    ensures Count(s + [c]) == Count(s) + (if c == ',' then 1 else 0)
  {
    assert (s + [c])[..|s|] == s;
  }

  /** Each literal comma of the parts read costs two characters of text. */
  lemma {:induction false} SplitLength(s: string, current: string)
    ensures |s| + |current| + 1 + Count(current)
         == Length(Split(s, current)) + |Split(s, current)| + Commas(Split(s, current))
    decreases |s|
  {
    if s == "" {
    } else if s[0] != ',' {
      CountSnoc(current, s[0]);
      SplitLength(s[1..], current + [s[0]]);
    } else if |s| > 1 && s[1] == ',' {
      CountSnoc(current, ',');
      SplitLength(s[2..], current + ",");
    } else {
      SplitLength(s[1..], "");
      var rest := Split(s[1..], "");
      TailOfAppend([current], rest);
      Neutral(rest);
    }
  }

  lemma {:induction false} NoCommas(parts: seq<string>)
    requires Commas(parts) == 0
    ensures CommaFree(parts)
  {
    if parts != [] {
      CountZero(parts[0]);
      NoCommas(parts[1..]);
    }
  }

  lemma {:induction false} CountZero(s: string)
    requires Count(s) == 0
    ensures ',' !in s
  {
    if s != "" {
      CountZero(s[..|s| - 1]);
      LastElement(s);
    }
  }

  /** QEMU reads back the parts that were joined if and only if none of them holds a comma. */
  lemma OptionsRoundTripExactly(parts: seq<string>)
    requires parts != [] && NoneEmpty(parts)
    ensures Split(Join(parts), "") == parts <==> CommaFree(parts)
  {
    if CommaFree(parts) {
      SplitJoin(parts);
    } else if Split(Join(parts), "") == parts {
      SplitLength(Join(parts), "");
      JoinLength(parts);
      NoCommas(parts);
    }
  }

  lemma {:induction false} KeyAndValue(key: string, value: string)
    requires '=' !in key
    ensures Key(key + "=" + value) == key && Value(key + "=" + value) == value
  {
    var part := key + "=" + value;
    if key == "" {
      assert part[1..] == value;
    } else {
      assert part[1..] == key[1..] + "=" + value;
      KeyAndValue(key[1..], value);
      FirstElement(key);
    }
  }
}
