/**
  The base64 codec of the guest agent client. The decoder keeps the sextets in a
  32-bit accumulator that is shifted left for ever: its high bits fall off, and
  the output is right because only the low ones are ever taken.
 */
module Base64 {
  import opened Wrappers
  import opened Sequences
  import opened Words

  const UPPER: string := "ABCDEFGHIJKLMNOPQRSTUVWXYZ"
  const LOWER: string := "abcdefghijklmnopqrstuvwxyz"
  const DIGITS: string := "0123456789"
  const B64: string := UPPER + LOWER + DIGITS + "+/"

  // ---- One character -------------------------------------------------------------

  datatype Symbol = Sextet(value: nat) | Skipped | Invalid

  /** How the decoder reads one character. */
  function Classify(c: char): (r: Symbol)
    ensures r.Sextet? ==> r.value < 64
  {
    if 'A' <= c <= 'Z' then Sextet(c as int - 65)
    else if 'a' <= c <= 'z' then Sextet(c as int - 97 + 26)
    else if '0' <= c <= '9' then Sextet(c as int - 48 + 52)
    else if c == '+' then Sextet(62)
    else if c == '/' then Sextet(63)
    else if c == '=' || c == '\r' || c == '\n' || c == ' ' then Skipped
    else Invalid
  }

  lemma Upper(i: nat)
    requires i < 26
    ensures UPPER[i] as int == 65 + i
  {
  }

  lemma Lower(i: nat)
    requires i < 26
    ensures LOWER[i] as int == 97 + i
  {
  }

  lemma Digit(i: nat)
    requires i < 10
    ensures DIGITS[i] as int == 48 + i
  {
  }

  lemma LetterIsInverse(i: nat)
    requires i < 64
    ensures Classify(B64[i]) == Sextet(i)
  {
    if i < 26 {
      Upper(i);
    } else if i < 52 {
      Lower(i - 26);
    } else if i < 62 {
      Digit(i - 52);
    }
  }

  // ---- Encoding ----------------------------------------------------------------------

  /** The 24-bit group of one to three bytes; missing bytes read as zero. */
  function Group(chunk: seq<Byte>): (n: U32)
    requires 1 <= |chunk| <= 3
    ensures n < 0x100_0000
  {
    var b0: int, b1: int, b2: int := chunk[0], if |chunk| > 1 then chunk[1] else 0, if |chunk| > 2 then chunk[2] else 0;
    0x1_0000 * b0 + 0x100 * b1 + b2
  }

  /** `(n >> (18 - 6 * i)) & 63`. */
  function Take(n: U32, i: nat): (v: nat)
    requires i < 4
    ensures v < 64
  {
    (if i == 0 then n / 0x4_0000 else if i == 1 then n / 0x1000 else if i == 2 then n / 0x40 else n) % 64
  }

  function Char(chunk: seq<Byte>, i: nat): char
    requires 1 <= |chunk| <= 3 && i < 4
  {
    if i <= |chunk| then B64[Take(Group(chunk), i)] else '='
  }

  function EncodeGroup(chunk: seq<Byte>): (s: string)
    requires 1 <= |chunk| <= 3
    ensures |s| == 4
  {
    [Char(chunk, 0), Char(chunk, 1), Char(chunk, 2), Char(chunk, 3)]
  }

  function Encode(input: seq<Byte>): string {
    if input == [] then ""
    else if |input| <= 3 then EncodeGroup(input)
    else EncodeGroup(input[..3]) + Encode(input[3..])
  }

  /** The output length of section 4 of RFC 4648: four characters per started group of three bytes. */
  lemma {:induction false} EncodedLength(input: seq<Byte>)
    ensures |Encode(input)| == 4 * ((|input| + 2) / 3)
  {
    hide Take, Group, Char;
    if |input| > 3 {
      EncodedLength(input[3..]);
    }
  }

  // ---- Decoding ----------------------------------------------------------------------

  /** Bits still waiting in the accumulator between two characters. */
  type Waiting = n: nat | n in {0, 2, 4, 6}

  /** `(buffer << 6) | value` on 32 bits: the six high bits are lost, the six low ones are free. */
  function Shifted(buffer: U32, value: nat): U32
    requires value < 64
  {
    64 * buffer % WORD + value
  }

  /** `(buffer >> bits) as u8`. */
  function LowByte(buffer: U32, bits: Waiting): Byte {
    (if bits == 0 then buffer else if bits == 2 then buffer / 4 else if bits == 4 then buffer / 16
     else buffer / 64) % 256
  }

  function Decode(s: string, buffer: U32, bits: Waiting): Result<seq<Byte>, string> {
    if s == "" then Ok([])
    else
      match Classify(s[0])
      case Skipped => Decode(s[1..], buffer, bits)
      case Invalid => Err("base64 invalide")
      case Sextet(value) =>
        var next := Shifted(buffer, value);
        if bits < 2 then Decode(s[1..], next, bits + 6)
        else Prepend(LowByte(next, bits - 2), Decode(s[1..], next, bits - 2))
  }

  function Prepend(b: Byte, r: Result<seq<Byte>, string>): Result<seq<Byte>, string> {
    if r.Ok? then Ok([b] + r.value) else r
  }

  // ---- The high bits of the accumulator never matter --------------------------------

  function Low(buffer: U32, bits: Waiting): nat {
    buffer % (if bits == 0 then 1 else if bits == 2 then 4 else if bits == 4 then 16 else 64)
  }

  lemma Multiples(d: int, k: int)
    requires d > 0
    ensures k >= 1 ==> d * k >= d
    ensures k <= -1 ==> d * k <= -d
  {
  }

  lemma Division(n: int, d: int, q: int, r: int)
    requires n == d * q + r && 0 <= r < d
    ensures n / d == q && n % d == r
  {
    var k := q - n / d;
    assert d * k == d * q - d * (n / d);
    assert d * k == n % d - r;
    Multiples(d, k);
  }

  lemma ShiftedValue(b: U32, v: nat)
    requires v < 64
    ensures Shifted(b, v) == 64 * (b % 0x400_0000) + v
  {
    var q, r := b / 0x400_0000, b % 0x400_0000;
    Division(64 * b, 0x1_0000_0000, q, 64 * r);
  }

  lemma LowBits(c: nat, b: U32, v: nat)
    requires v < 64 && c == b % 0x400_0000
    ensures c % 4 == b % 4 && c % 16 == b % 16 && c % 64 == b % 64
    ensures (64 * c + v) % 64 == v && (64 * c + v) % 16 == v % 16 && (64 * c + v) % 4 == v % 4
  {
    var q := b / 0x400_0000;
    Division(b, 4, 0x100_0000 * q + c / 4, c % 4);
    Division(b, 16, 0x40_0000 * q + c / 16, c % 16);
    Division(b, 64, 0x10_0000 * q + c / 64, c % 64);
    Division(64 * c + v, 64, c, v);
    Division(64 * c + v, 16, 4 * c + v / 16, v % 16);
    Division(64 * c + v, 4, 16 * c + v / 4, v % 4);
  }

  lemma ByteOfShifted(c: nat, v: nat)
    requires v < 64
    ensures (64 * c + v) % 256 == 64 * (c % 4) + v
    ensures (64 * c + v) / 4 % 256 == 16 * (c % 16) + v / 4
    ensures (64 * c + v) / 16 % 256 == 4 * (c % 64) + v / 16
  {
    Division(64 * c + v, 256, c / 4, 64 * (c % 4) + v);
    Division(64 * c + v, 4, 16 * c + v / 4, v % 4);
    Division(16 * c + v / 4, 256, c / 16, 16 * (c % 16) + v / 4);
    Division(64 * c + v, 16, 4 * c + v / 16, v % 16);
    Division(4 * c + v / 16, 256, c / 64, 4 * (c % 64) + v / 16);
  }

  /** After a shift only the sextet and the six bits before it can be seen. */
  lemma ShiftedParts(b: U32, v: nat)
    requires v < 64
    ensures Low(Shifted(b, v), 6) == v && Low(Shifted(b, v), 4) == v % 16 && Low(Shifted(b, v), 2) == v % 4
    ensures LowByte(Shifted(b, v), 0) == 64 * Low(b, 2) + v
    ensures LowByte(Shifted(b, v), 2) == 16 * Low(b, 4) + v / 4
    ensures LowByte(Shifted(b, v), 4) == 4 * Low(b, 6) + v / 16
  {
    var c := b % 0x400_0000;
    ShiftedValue(b, v);
    LowBits(c, b, v);
    ByteOfShifted(c, v);
  }

  lemma ShiftKeepsLow(b1: U32, b2: U32, bits: Waiting, v: nat)
    requires Low(b1, bits) == Low(b2, bits) && v < 64
    ensures bits < 2 ==> Low(Shifted(b1, v), bits + 6) == Low(Shifted(b2, v), bits + 6)
    ensures bits >= 2 ==> Low(Shifted(b1, v), bits - 2) == Low(Shifted(b2, v), bits - 2)
    ensures bits >= 2 ==> LowByte(Shifted(b1, v), bits - 2) == LowByte(Shifted(b2, v), bits - 2)
  {
    ShiftedParts(b1, v);
    ShiftedParts(b2, v);
  }

  lemma {:induction false} HighBitsFallOff(s: string, b1: U32, b2: U32, bits: Waiting)
    requires Low(b1, bits) == Low(b2, bits)
    ensures Decode(s, b1, bits) == Decode(s, b2, bits)
  {
    if s != "" {
      match Classify(s[0]) {
        case Invalid =>
        case Skipped => HighBitsFallOff(s[1..], b1, b2, bits);
        case Sextet(value) =>
          var v := value;
          ShiftKeepsLow(b1, b2, bits, v);
          HighBitsFallOff(s[1..], Shifted(b1, v), Shifted(b2, v), if bits < 2 then bits + 6 else bits - 2);
      }
    }
  }

  // ---- Round trip -------------------------------------------------------------------

  lemma Sextets(b0: Byte, b1: Byte, b2: Byte)
    ensures var n := 0x1_0000 * (b0 as int) + 0x100 * (b1 as int) + b2;
      && n < 0x100_0000
      && Take(n, 0) == b0 / 4
      && Take(n, 1) == 16 * (b0 as int % 4) + b1 / 16
      && Take(n, 2) == 4 * (b1 as int % 16) + b2 / 64
      && Take(n, 3) == b2 % 64
  {
    var x: int, y: int, z: int := b0, b1, b2;
    var n := 0x1_0000 * x + 0x100 * y + z;
    Division(n, 0x4_0000, x / 4, 0x1_0000 * (x % 4) + 0x100 * y + z);
    Division(n, 0x1000, 16 * x + y / 16, 0x100 * (y % 16) + z);
    Division(16 * x + y / 16, 64, x / 4, 16 * (x % 4) + y / 16);
    Division(n, 0x40, 0x400 * x + 4 * y + z / 64, z % 64);
    Division(0x400 * x + 4 * y + z / 64, 64, 16 * x + y / 16, 4 * (y % 16) + z / 64);
    Division(n, 64, 0x400 * x + 4 * y + z / 64, z % 64);
  }

  /** The accumulator after the first `k` letters of a group. */
  function Accumulated(n: U32, buffer: U32, k: nat): U32
    requires k <= 4
  {
    if k == 0 then buffer else Shifted(Accumulated(n, buffer, k - 1), Take(n, k - 1))
  }

  lemma Recombine(b0: int, b1: int, b2: int)
    requires 0 <= b0 < 256 && 0 <= b1 < 256 && 0 <= b2 < 256
    ensures 4 * (b0 / 4) + (16 * (b0 % 4) + b1 / 16) / 16 == b0
    ensures 16 * ((16 * (b0 % 4) + b1 / 16) % 16) + (4 * (b1 % 16) + b2 / 64) / 4 == b1
    ensures 64 * ((4 * (b1 % 16) + b2 / 64) % 4) + b2 % 64 == b2
  {
    Division(16 * (b0 % 4) + b1 / 16, 16, b0 % 4, b1 / 16);
    Division(4 * (b1 % 16) + b2 / 64, 4, b1 % 16, b2 / 64);
  }

  lemma GroupBytes(b: U32, chunk: seq<Byte>)
    requires 1 <= |chunk| <= 3
    ensures var n := Group(chunk);
      && LowByte(Accumulated(n, b, 2), 4) == chunk[0]
      && (|chunk| > 1 ==> LowByte(Accumulated(n, b, 3), 2) == chunk[1])
      && (|chunk| > 2 ==> LowByte(Accumulated(n, b, 4), 0) == chunk[2])
  {
    hide Take, Shifted, LowByte, Low;
    var n := Group(chunk);
    var b0, b1, b2 := chunk[0], if |chunk| > 1 then chunk[1] else 0, if |chunk| > 2 then chunk[2] else 0;
    Sextets(b0, b1, b2);
    Recombine(b0, b1, b2);
    assert Accumulated(n, b, 1) == Shifted(b, Take(n, 0));
    assert Accumulated(n, b, 2) == Shifted(Accumulated(n, b, 1), Take(n, 1));
    assert Accumulated(n, b, 3) == Shifted(Accumulated(n, b, 2), Take(n, 2));
    assert Accumulated(n, b, 4) == Shifted(Accumulated(n, b, 3), Take(n, 3));
    ShiftedParts(b, Take(n, 0));
    ShiftedParts(Accumulated(n, b, 1), Take(n, 1));
    ShiftedParts(Accumulated(n, b, 2), Take(n, 2));
    ShiftedParts(Accumulated(n, b, 3), Take(n, 3));
  }

  /** Decoding one letter of the alphabet, then the rest. */
  lemma DecodeLetter(i: nat, rest: string, buffer: U32, bits: Waiting)
    requires i < 64
    ensures Decode([B64[i]] + rest, buffer, bits)
         == var next := Shifted(buffer, i);
            if bits < 2 then Decode(rest, next, bits + 6)
              else Prepend(LowByte(next, bits - 2), Decode(rest, next, bits - 2))
  {
    LetterIsInverse(i);
    assert ([B64[i]] + rest)[1..] == rest;
  }

  lemma DecodePadding(rest: string, buffer: U32, bits: Waiting)
    ensures Decode("=" + rest, buffer, bits) == Decode(rest, buffer, bits)
  {
    assert ("=" + rest)[1..] == rest;
  }

  lemma DecodeTwo(n: U32, rest: string, buffer: U32)
    ensures Decode([B64[Take(n, 0)]] + ([B64[Take(n, 1)]] + rest), buffer, 0)
         == Prepend(LowByte(Accumulated(n, buffer, 2), 4), Decode(rest, Accumulated(n, buffer, 2), 4))
  {
    hide Take, Shifted, LowByte, Classify;
    assert Accumulated(n, buffer, 1) == Shifted(buffer, Take(n, 0));
    assert Accumulated(n, buffer, 2) == Shifted(Accumulated(n, buffer, 1), Take(n, 1));
    DecodeLetter(Take(n, 0), [B64[Take(n, 1)]] + rest, buffer, 0);
    DecodeLetter(Take(n, 1), rest, Accumulated(n, buffer, 1), 6);
  }

  lemma DecodeThird(n: U32, rest: string, buffer: U32)
    ensures Decode([B64[Take(n, 2)]] + rest, Accumulated(n, buffer, 2), 4)
         == Prepend(LowByte(Accumulated(n, buffer, 3), 2), Decode(rest, Accumulated(n, buffer, 3), 2))
  {
    hide Take, Shifted, LowByte, Classify;
    DecodeLetter(Take(n, 2), rest, Accumulated(n, buffer, 2), 4);
  }

  lemma DecodeFourth(n: U32, rest: string, buffer: U32)
    ensures Decode([B64[Take(n, 3)]] + rest, Accumulated(n, buffer, 3), 2)
         == Prepend(LowByte(Accumulated(n, buffer, 4), 0), Decode(rest, 0, 0))
  {
    hide Take, Shifted, LowByte, Classify;
    DecodeLetter(Take(n, 3), rest, Accumulated(n, buffer, 3), 2);
    HighBitsFallOff(rest, Accumulated(n, buffer, 4), 0, 0);
  }

  lemma DecodeEqualsTwice(buffer: U32)
    ensures Decode("", 0, 0) == Ok([])
    ensures Decode("=" + ("=" + ""), buffer, 4) == Ok([]) && Decode("=" + "", buffer, 2) == Ok([])
  {
    DecodePadding("=" + "", buffer, 4);
    DecodePadding("", buffer, 4);
    DecodePadding("", buffer, 2);
  }

  /** A group decodes to its own bytes, whatever the accumulator held before. */
  lemma DecodeGroup(chunk: seq<Byte>, rest: string, buffer: U32)
    requires 1 <= |chunk| <= 3
    requires |chunk| < 3 ==> rest == ""
    requires Decode(rest, 0, 0).Ok?
    ensures Decode(EncodeGroup(chunk) + rest, buffer, 0) == Ok(chunk + Decode(rest, 0, 0).value)
  {
    hide Take, Shifted, LowByte, Group, Classify, Decode;
    var n := Group(chunk);
    var c0, c1, c2, c3 := Char(chunk, 0), Char(chunk, 1), Char(chunk, 2), Char(chunk, 3);
    FourFirst(c0, c1, c2, c3, rest);
    DecodeTwo(n, [c2] + ([c3] + rest), buffer);
    GroupBytes(buffer, chunk);
    if |chunk| == 1 {
      DecodeEqualsTwice(Accumulated(n, buffer, 2));
      assert chunk == [chunk[0]];
    } else {
      DecodeThird(n, [c3] + rest, buffer);
      if |chunk| == 2 {
        DecodeEqualsTwice(Accumulated(n, buffer, 3));
        assert chunk + [] == [chunk[0]] + ([chunk[1]] + []);
      } else {
        DecodeFourth(n, rest, buffer);
        var tail := Decode(rest, 0, 0).value;
        assert chunk + tail == [chunk[0]] + ([chunk[1]] + ([chunk[2]] + tail));
      }
    }
  }

  lemma FourFirst(c0: char, c1: char, c2: char, c3: char, rest: string)
    ensures [c0, c1, c2, c3] + rest == [c0] + ([c1] + ([c2] + ([c3] + rest)))
  {
  }

  /** Decoding inverts encoding, for every byte sequence. */
  lemma {:induction false} RoundTrip(input: seq<Byte>)
    ensures Decode(Encode(input), 0, 0) == Ok(input)
  {
    if input != [] {
      if |input| <= 3 {
        Neutral(EncodeGroup(input));
        Neutral(input);
        DecodeGroup(input, "", 0);
      } else {
        RoundTrip(input[3..]);
        DecodeGroup(input[..3], Encode(input[3..]), 0);
        SplitAt(input, 3);
      }
    }
  }

  // ---- What the decoder ignores and refuses ------------------------------------------

  /** The text without CR, LF, space and '='. */
  function Strip(s: string): string {
    if s == "" then "" else (if Classify(s[0]).Skipped? then "" else [s[0]]) + Strip(s[1..])
  }

  lemma {:induction false} SkippedNeverMatters(s: string, buffer: U32, bits: Waiting)
    ensures Decode(s, buffer, bits) == Decode(Strip(s), buffer, bits)
  {
    if s != "" {
      match Classify(s[0]) {
        case Skipped =>
          SkippedNeverMatters(s[1..], buffer, bits);
          Neutral(Strip(s[1..]));
        case Invalid =>
          TailOfAppend([s[0]], Strip(s[1..]));
        case Sextet(value) =>
          TailOfAppend([s[0]], Strip(s[1..]));
          Neutral(Strip(s[1..]));
          SkippedNeverMatters(s[1..], Shifted(buffer, value), if bits < 2 then bits + 6 else bits - 2);
      }
    }
  }

  /**
    The decoder fails exactly on a character outside the alphabet and the skipped ones, else it
    yields 3 bytes for 4 letters.
   */
  lemma {:induction false} DecodeFailsExactly(s: string, buffer: U32, bits: Waiting)
    ensures Decode(s, buffer, bits).Err? <==> exists k :: 0 <= k < |s| && Classify(s[k]).Invalid?
    ensures Decode(s, buffer, bits).Ok? ==> |Decode(s, buffer, bits).value| == (bits + 6 * |Strip(s)|) / 8
  {
    if s != "" {
      var tail := s[1..];
      assert forall k :: 1 <= k < |s| ==> s[k] == tail[k - 1];
      match Classify(s[0]) {
        case Invalid =>
        case Skipped => DecodeFailsExactly(tail, buffer, bits);
        case Sextet(value) =>
          DecodeFailsExactly(tail, Shifted(buffer, value), if bits < 2 then bits + 6 else bits - 2);
      }
    }
  }

  /** As in section 4 of RFC 4648: the letters of a group, read as one number, are its bytes followed by zero bits. */
  lemma GroupIsBigEndian(chunk: seq<Byte>)
    requires 1 <= |chunk| <= 3
    ensures var n := Group(chunk);
      && 0x4_0000 * Take(n, 0) + 0x1000 * Take(n, 1) + 0x40 * Take(n, 2) + Take(n, 3) == n
      && (|chunk| == 1 ==> Take(n, 2) == 0 && Take(n, 3) == 0 && n / 0x1_0000 == chunk[0])
      && (|chunk| == 2 ==> Take(n, 3) == 0 && n / 0x100 == 0x100 * (chunk[0] as int) + chunk[1])
  {
    Sextets(chunk[0], if |chunk| > 1 then chunk[1] else 0, if |chunk| > 2 then chunk[2] else 0);
  }

  // ---- The loops -----------------------------------------------------------------------

  method EncodeChunk(chunk: seq<Byte>) returns (s: string)
    requires 1 <= |chunk| <= 3
    ensures s == EncodeGroup(chunk)
  {
    hide Take;
    var n := Group(chunk);
    s := "";
    for i := 0 to 4
      invariant s == EncodeGroup(chunk)[..i]
    {
      if i <= |chunk| {
        s := s + [B64[Take(n, i)]];
      } else {
        s := s + ['='];
      }
    }
  }

  method EncodeBytes(input: seq<Byte>) returns (out: string)
    ensures out == Encode(input)
  {
    hide EncodeGroup;
    out := "";
    var at := 0;
    assert input[0..] == input;
    Neutral(Encode(input));
    while at < |input|
      invariant at <= |input|
      invariant out + Encode(input[at..]) == Encode(input)
    {
      var chunk := input[at..if at + 3 <= |input| then at + 3 else |input|];
      var group := EncodeChunk(chunk);
      NextGroup(input, at);
      Associative(out, group, Encode(input[at + |chunk|..]));
      out := out + group;
      at := at + |chunk|;
    }
    Neutral(out);
  }

  lemma NextGroup(input: seq<Byte>, at: nat)
    requires at < |input|
    ensures var chunk := input[at..if at + 3 <= |input| then at + 3 else |input|];
      Encode(input[at..]) == EncodeGroup(chunk) + Encode(input[at + |chunk|..])
  {
    hide EncodeGroup;
    var rest := input[at..];
    if |rest| <= 3 {
      Neutral(EncodeGroup(rest));
      assert input[at..|input|] == rest && input[|input|..] == [];
    } else {
      assert rest[..3] == input[at..at + 3];
      assert rest[3..] == input[at + 3..];
    }
  }

  method DecodeText(input: string) returns (r: Result<seq<Byte>, string>)
    ensures r == Decode(input, 0, 0)
  {
    var out: seq<Byte> := [];
    var buffer: U32 := 0;
    var bits: nat := 0;
    var i := 0;
    AfterNothing(input);
    while i < |input|
      invariant i <= |input| && bits in {0, 2, 4, 6}
      invariant Decode(input, 0, 0) == After(out, Decode(input[i..], buffer, bits))
    {
      ghost var rest := input[i..];
      assert rest[0] == input[i] && rest[1..] == input[i + 1..];
      match Classify(input[i]) {
        case Skipped =>
        case Invalid => return Err("base64 invalide");
        case Sextet(value) =>
          buffer := Shifted(buffer, value);
          bits := bits + 6;
          if bits >= 8 {
            bits := bits - 8;
            AfterPrepend(out, LowByte(buffer, bits), Decode(input[i + 1..], buffer, bits));
            out := out + [LowByte(buffer, bits)];
          }
      }
      i := i + 1;
    }
    Neutral(out);
    return Ok(out);
  }

  ghost function After(out: seq<Byte>, r: Result<seq<Byte>, string>): Result<seq<Byte>, string> {
    if r.Ok? then Ok(out + r.value) else r
  }

  lemma AfterNothing(input: string)
    ensures After([], Decode(input[0..], 0, 0)) == Decode(input, 0, 0)
  {
    assert input[0..] == input;
    var r := Decode(input, 0, 0);
    if r.Ok? {
      Neutral(r.value);
    }
  }

  lemma AfterPrepend(out: seq<Byte>, b: Byte, r: Result<seq<Byte>, string>)
    ensures After(out, Prepend(b, r)) == After(out + [b], r)
  {
    if r.Ok? {
      Associative(out, [b], r.value);
    }
  }
}
