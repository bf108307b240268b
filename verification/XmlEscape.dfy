/** The four replaces of `xml_escape`, applied one after the other. */
module XmlEscape {
  import opened Wrappers
  import opened Sequences
  import opened Replace

  function Escape(value: string): string {
    ReplaceChar(ReplaceChar(ReplaceChar(ReplaceChar(value, '&', "&amp;"), '<', "&lt;"), '>', "&gt;"), '"', "&quot;")
  }

  function Entity(c: char): (e: string)
    ensures e != ""
  {
    if c == '&' then "&amp;" else if c == '<' then "&lt;" else if c == '>' then "&gt;" else if c == '"' then "&quot;"
      else [c]
  }

  /** All four substitutions at once. */
  function Substitute(value: string): string {
    if value == "" then "" else Entity(value[0]) + Substitute(value[1..])
  }

  predicate StartsWith(s: string, prefix: string) {
    |prefix| <= |s| && s[..|prefix|] == prefix
  }

  /** Left-to-right entity decoding; markup that should have been escaped is an error. */
  function Unescape(s: string): Option<string>
    decreases |s|
  {
    if s == "" then Some("")
    else if StartsWith(s, "&amp;") then Prepend('&', Unescape(s[5..]))
    else if StartsWith(s, "&lt;") then Prepend('<', Unescape(s[4..]))
    else if StartsWith(s, "&gt;") then Prepend('>', Unescape(s[4..]))
    else if StartsWith(s, "&quot;") then Prepend('"', Unescape(s[6..]))
    else if s[0] in {'&', '<', '>', '"'} then None
    else Prepend(s[0], Unescape(s[1..]))
  }

  function Prepend(c: char, s: Option<string>): Option<string> {
    if s.Some? then Some([c] + s.value) else None
  }

  lemma EscapeAppend(a: string, b: string)
    ensures Escape(a + b) == Escape(a) + Escape(b)
  {
    ReplaceAppend(a, b, '&', "&amp;");
    var a1, b1 := ReplaceChar(a, '&', "&amp;"), ReplaceChar(b, '&', "&amp;");
    ReplaceAppend(a1, b1, '<', "&lt;");
    var a2, b2 := ReplaceChar(a1, '<', "&lt;"), ReplaceChar(b1, '<', "&lt;");
    ReplaceAppend(a2, b2, '>', "&gt;");
    ReplaceAppend(ReplaceChar(a2, '>', "&gt;"), ReplaceChar(b2, '>', "&gt;"), '"', "&quot;");
  }

  /** No replace touches what an earlier one produced. */
  lemma EscapeOne(c: char)
    ensures Escape([c]) == Entity(c)
  {
    hide ReplaceChar;
    if c == '&' {
      ReplaceOne(c, "&amp;");
      ReplaceAbsent("&amp;", '<', "&lt;");
      ReplaceAbsent("&amp;", '>', "&gt;");
      ReplaceAbsent("&amp;", '"', "&quot;");
    } else if c == '<' {
      ReplaceAbsent([c], '&', "&amp;");
      ReplaceOne(c, "&lt;");
      ReplaceAbsent("&lt;", '>', "&gt;");
      ReplaceAbsent("&lt;", '"', "&quot;");
    } else {
      ReplaceAbsent([c], '&', "&amp;");
      ReplaceAbsent([c], '<', "&lt;");
      if c == '>' {
        ReplaceOne(c, "&gt;");
        ReplaceAbsent("&gt;", '"', "&quot;");
      } else {
        ReplaceAbsent([c], '>', "&gt;");
        if c == '"' {
          ReplaceOne(c, "&quot;");
        } else {
          ReplaceAbsent([c], '"', "&quot;");
        }
      }
    }
  }

  /** Four sequential replaces are one simultaneous substitution. */
  lemma {:induction false} EscapeIsSubstitution(value: string)
    ensures Escape(value) == Substitute(value)
  {
    if value != "" {
      FirstElement(value);
      EscapeAppend([value[0]], value[1..]);
      EscapeOne(value[0]);
      EscapeIsSubstitution(value[1..]);
    }
  }

  lemma Differs(s: string, prefix: string, k: nat)
    requires k < |prefix| && k < |s| && s[k] != prefix[k]
    ensures !StartsWith(s, prefix)
  {
  }

  lemma UnescapeEntity(c: char, rest: string)
    ensures Unescape(Entity(c) + rest) == Prepend(c, Unescape(rest))
  {
    var e := Entity(c);
    var s := e + rest;
    assert StartsWith(s, e) && s[|e|..] == rest && s[0] == e[0];
    if c == '&' || c == '<' || c == '>' || c == '"' {
      assert s[1] == e[1];
      if c != '&' {
        Differs(s, "&amp;", 1);
        if c != '<' {
          Differs(s, "&lt;", 1);
          if c != '>' {
            Differs(s, "&gt;", 1);
          }
        }
      }
    } else {
      Differs(s, "&amp;", 0);
      Differs(s, "&lt;", 0);
      Differs(s, "&gt;", 0);
      Differs(s, "&quot;", 0);
    }
  }

  /** Decoding the escaped text gives back the value, for every value. */
  lemma {:induction false} RoundTrip(value: string)
    ensures Unescape(Escape(value)) == Some(value)
  {
    EscapeIsSubstitution(value);
    if value != "" {
      EscapeIsSubstitution(value[1..]);
      UnescapeEntity(value[0], Substitute(value[1..]));
      RoundTrip(value[1..]);
      FirstElement(value);
    }
  }
}
