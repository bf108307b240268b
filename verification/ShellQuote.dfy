/**
  The remote Incus command line: every argument is quoted for the shell that
  receives the line, which splits it again by the token rules of the POSIX.1-2017
  Shell Command Language, sections 2.2.1 (escape), 2.2.2 (single quotes) and
  2.2.3 (double quotes).
 */
module ShellQuote {
  import opened Wrappers
  import opened Sequences
  import opened Replace

  function Quote(value: string): string {
    "'" + ReplaceChar(value, '\'', "'\\''") + "'"
  }

  function Join(parts: seq<string>): string {
    if parts == [] then ""
    else if |parts| == 1 then parts[0]
    else parts[0] + " " + Join(parts[1..])
  }

  function QuoteAll(args: seq<string>): seq<string> {
    if args == [] then [] else [Quote(args[0])] + QuoteAll(args[1..])
  }

  const PREFIX: seq<string> :=
    ["sudo", "-n", "env", "INCUS_REMOTE=local", "INCUS_PROJECT=default", "incus"]

  function Spaced(words: seq<string>): string {
    if words == [] then "" else words[0] + " " + Spaced(words[1..])
  }

  /** The line sent over ssh. */
  function CommandLine(args: seq<string>): string {
    Spaced(PREFIX) + Join(QuoteAll(args))
  }

  // ---- The shell --------------------------------------------------------------------

  datatype Mode = Unquoted | Single | Double

  /** Characters with a meaning of their own outside quotes; a line that needs one is not plain words. */
  predicate Special(c: char) {
    || c == '|' || c == '&' || c == ';' || c == '<' || c == '>' || c == '(' || c == ')' || c == '$' || c == '`'
    || c == '*' || c == '?' || c == '[' || c == '#' || c == '~' || c == '\n'
  }

  predicate Blank(c: char) {
    c == ' ' || c == '\t'
  }

  function Append(word: Option<string>, s: string): Option<string> {
    Some((if word.Some? then word.value else "") + s)
  }

  /** What the next characters do: `n` of them are consumed, or a blank ends a field, or the line is refused. */
  datatype Move = Go(n: nat, mode: Mode, word: Option<string>) | EndField(field: string) | Refuse(reason: string)

  function Next(s: string, mode: Mode, word: Option<string>): (m: Move)
    requires s != ""
    ensures m.Go? ==> 1 <= m.n <= |s|
  {
    var c, rest := s[0], s[1..];
    match mode
    case Single =>
      if c == '\'' then Go(1, Unquoted, word) else Go(1, Single, Append(word, [c]))
    case Double =>
      if c == '"' then Go(1, Unquoted, word)
      else if c == '$' || c == '`' then Refuse("expansion")
      else if c == '\\' && rest != "" && rest[0] == '\n' then Go(2, Double, word)
      else if c == '\\' && rest != "" && rest[0] in {'$', '`', '"', '\\'} then Go(2, Double, Append(word, [rest[0]]))
      else Go(1, Double, Append(word, [c]))
    case Unquoted =>
      if Blank(c) then if word.None? then Go(1, Unquoted, None) else EndField(word.value)
      else if c == '\'' then Go(1, Single, Append(word, ""))
      else if c == '"' then Go(1, Double, Append(word, ""))
      else if c == '\\' then
        if rest == "" then Refuse("nothing escaped")
        else if rest[0] == '\n' then Go(2, Unquoted, word)
        else Go(2, Unquoted, Append(word, [rest[0]]))
      else if Special(c) then Refuse("not a plain word")
      else Go(1, Unquoted, Append(word, [c]))
  }

  /** The fields the shell makes of `s`; `word` is the field being built, None between fields. */
  function Fields(s: string, mode: Mode, word: Option<string>): Result<seq<string>, string>
    decreases |s|
  {
    if s == "" then
      if mode != Unquoted then Err("unterminated quote")
      else Ok(if word.Some? then [word.value] else [])
    else
      match Next(s, mode, word)
      case Go(n, m, w) => Fields(s[n..], m, w)
      case EndField(field) =>
        var others := Fields(s[1..], Unquoted, None);
        if others.Ok? then Ok([field] + others.value) else others
      case Refuse(reason) => Err(reason)
  }

  // ---- Quoting is transparent ------------------------------------------------------

  lemma {:induction false} InsideQuotes(value: string, rest: string, word: string)
    ensures Fields(ReplaceChar(value, '\'', "'\\''") + rest, Single, Some(word))
        == Fields(rest, Single, Some(word + value))
  {
    if value == "" {
      Neutral(rest);
      Neutral(word);
    } else {
      var c, tail := value[0], ReplaceChar(value[1..], '\'', "'\\''") + rest;
      Associative(if c == '\'' then "'\\''" else [c], ReplaceChar(value[1..], '\'', "'\\''"), rest);
      QuotedChar(c, tail, word);
      InsideQuotes(value[1..], rest, word + [c]);
      Associative(word, [c], value[1..]);
      FirstElement(value);
    }
  }

  lemma QuotedChar(c: char, tail: string, word: string)
    ensures Fields((if c == '\'' then "'\\''" else [c]) + tail, Single, Some(word))
        == Fields(tail, Single, Some(word + [c]))
  {
    if c == '\'' {
      var s := "'\\''" + tail;
      assert s[1..][0] == '\\' && s[1..][1..][0] == '\'' && s[1..][1..][1..][0] == '\'';
      assert s[1..][2..][1..] == tail && s[1..][2..][0] == '\'';
      Neutral(word + [c]);
      assert Fields(s, Single, Some(word)) == Fields(s[1..], Unquoted, Some(word));
      assert Fields(s[1..], Unquoted, Some(word)) == Fields(s[1..][2..], Unquoted, Some(word + [c]));
    } else {
      TailOfAppend([c], tail);
      Neutral(tail);
    }
  }

  /** A quoted argument is exactly that argument, appended to the field being built. */
  lemma QuoteIsTransparent(value: string, rest: string, word: Option<string>)
    ensures Fields(Quote(value) + rest, Unquoted, word) == Fields(rest, Unquoted, Append(word, value))
  {
    var body := ReplaceChar(value, '\'', "'\\''");
    var w := Append(word, "").value;
    assert Quote(value) + rest == ['\''] + (body + (['\''] + rest));
    TailOfAppend(['\''], body + (['\''] + rest));
    InsideQuotes(value, ['\''] + rest, w);
    TailOfAppend(['\''], rest);
    Neutral(rest);
    Neutral(body + (['\''] + rest));
    assert Append(word, value).value == w + value;
  }

  lemma {:induction false} QuotedArguments(args: seq<string>)
    ensures Fields(Join(QuoteAll(args)), Unquoted, None) == Ok(args)
  {
    if args != [] {
      var q, rest := Quote(args[0]), QuoteAll(args[1..]);
      assert QuoteAll(args)[1..] == rest;
      FirstElement(args);
      Neutral(args[0]);
      if |args| == 1 {
        QuoteIsTransparent(args[0], "", None);
        Neutral(q);
        assert QuoteAll(args) == [q];
        assert Fields(q, Unquoted, None) == Fields("", Unquoted, Append(None, args[0]));
        assert args == [args[0]];
      } else {
        assert rest != [];
        QuotedArguments(args[1..]);
        Associative(q, " ", Join(rest));
        QuoteIsTransparent(args[0], " " + Join(rest), None);
        TailOfAppend(" ", Join(rest));
        Neutral(Join(rest));
      }
    }
  }

  predicate PlainChar(c: char) {
    !Special(c) && !Blank(c) && c != '\'' && c != '"' && c != '\\'
  }

  predicate Plain(word: string) {
    forall k :: 0 <= k < |word| ==> PlainChar(word[k])
  }

  lemma {:induction false} PlainWord(s: string, rest: string, word: Option<string>)
    requires Plain(s)
    ensures Fields(s + rest, Unquoted, word) == Fields(rest, Unquoted, if s == "" then word else Append(word, s))
  {
    if s == "" {
      Neutral(rest);
    } else {
      TailOfAppend(s, rest);
      PlainWord(s[1..], rest, Append(word, [s[0]]));
      FirstElement(s);
      Associative(if word.Some? then word.value else "", [s[0]], s[1..]);
      assert Append(Append(word, [s[0]]), s[1..]) == Append(word, s);
      if s[1..] == "" {
        assert s == [s[0]];
      }
      assert Fields(s + rest, Unquoted, word) == Fields(s[1..] + rest, Unquoted, Append(word, [s[0]]));
    }
  }

  lemma {:induction false} SpacedWords(words: seq<string>, line: string)
    requires forall k :: 0 <= k < |words| ==> words[k] != "" && Plain(words[k])
    requires Fields(line, Unquoted, None).Ok?
    ensures Fields(Spaced(words) + line, Unquoted, None) == Ok(words + Fields(line, Unquoted, None).value)
  {
    var found := Fields(line, Unquoted, None).value;
    if words == [] {
      Neutral(line);
      Neutral(found);
    } else {
      var rest := Spaced(words[1..]) + line;
      SpacedWords(words[1..], line);
      assert Spaced(words) + line == words[0] + (" " + rest);
      PlainWord(words[0], " " + rest, None);
      TailOfAppend(" ", rest);
      Neutral(rest);
      Neutral(words[0]);
      FirstElement(words);
      Associative([words[0]], words[1..], found);
    }
  }

  /** The remote shell runs exactly the fixed words followed by the caller's arguments, whatever they contain. */
  lemma CommandLineIsTheArguments(args: seq<string>)
    ensures Fields(CommandLine(args), Unquoted, None) == Ok(PREFIX + args)
  {
    QuotedArguments(args);
    PrefixIsPlain();
    SpacedWords(PREFIX, Join(QuoteAll(args)));
  }

  lemma PrefixIsPlain()
    ensures forall k :: 0 <= k < |PREFIX| ==> PREFIX[k] != "" && Plain(PREFIX[k])
  {
    assert Plain("sudo") && Plain("-n") && Plain("env") && Plain("incus");
    RemoteIsPlain();
    ProjectIsPlain();
  }

  lemma RemoteIsPlain()
    ensures Plain("INCUS_REMOTE=local")
  {
  }

  lemma ProjectIsPlain()
    ensures Plain("INCUS_PROJECT=default")
  {
  }
}
