/**
  The one-file initramfs archive quick create appends to the Debian installer:
  a `newc` writer, and the reader of the Linux "initramfs buffer format" it is for.
 */
module CpioNewc {
  import opened Wrappers
  import opened Sequences
  import opened Words

  const MAGIC: seq<Byte> := [0x30, 0x37, 0x30, 0x37, 0x30, 0x31]  // "070701"

  const TRAILER: seq<Byte> := [0x54, 0x52, 0x41, 0x49, 0x4c, 0x45, 0x52, 0x21, 0x21, 0x21]  // "TRAILER!!!"

  const REGULAR: U32 := 0x81a4  // 0o100644

  // ---- Hexadecimal fields ------------------------------------------------------------

  function HexDigit(d: nat): Byte
    requires d < 16
  {
    if d < 10 then 48 + d else 87 + d
  }

  function DigitValue(b: Byte): Option<nat> {
    if 48 <= b <= 57 then Some(b as int - 48)
    else if 97 <= b <= 102 then Some(b as int - 87)
    else if 65 <= b <= 70 then Some(b as int - 55)
    else None
  }

  /** `{n:0width x}` when `n` fits. */
  function Hex(n: nat, width: nat): (s: seq<Byte>)
    ensures |s| == width
  {
    if width == 0 then [] else Hex(n / 16, width - 1) + [HexDigit(n % 16)]
  }

  function ParseHex(s: seq<Byte>): Option<nat> {
    if s == [] then Some(0)
    else
      match (ParseHex(s[..|s| - 1]), DigitValue(s[|s| - 1]))
      case (Some(high), Some(low)) => Some(16 * high + low)
      case _ => None
  }

  function Power16(k: nat): nat {
    if k == 0 then 1 else 16 * Power16(k - 1)
  }

  lemma {:induction false} HexRoundTrip(n: nat, width: nat)
    requires n < Power16(width)
    ensures ParseHex(Hex(n, width)) == Some(n)
  {
    if width > 0 {
      HexRoundTrip(n / 16, width - 1);
      var s := Hex(n, width);
      assert s[..width - 1] == Hex(n / 16, width - 1);
    }
  }

  function Fields(values: seq<U32>): (s: seq<Byte>)
    ensures |s| == 8 * |values|
  {
    if values == [] then [] else Hex(values[0], 8) + Fields(values[1..])
  }

  function ParseFields(s: seq<Byte>, count: nat): (r: Option<seq<nat>>)
    requires |s| >= 8 * count
    ensures r.Some? ==> |r.value| == count
  {
    if count == 0 then Some([])
    else
      match (ParseHex(s[..8]), ParseFields(s[8..], count - 1))
      case (Some(v), Some(rest)) => Some([v] + rest)
      case _ => None
  }

  lemma {:induction false} FieldsRoundTrip(values: seq<U32>, after: seq<Byte>)
    ensures ParseFields(Fields(values) + after, |values|) == Some(values)
  {
    if values != [] {
      var first, rest := Hex(values[0], 8), Fields(values[1..]) + after;
      Associative(first, Fields(values[1..]), after);
      assert (first + rest)[..8] == first && (first + rest)[8..] == rest;
      assert Power16(8) == WORD;
      HexRoundTrip(values[0], 8);
      FieldsRoundTrip(values[1..], after);
      FirstElement(values);
    }
  }

  // ---- Writing ----------------------------------------------------------------------

  function Zeros(n: nat): (s: seq<Byte>)
    ensures |s| == n
  {
    if n == 0 then [] else Zeros(n - 1) + [0]
  }

  /** Bytes missing to the next multiple of four. */
  function Missing(length: nat): (n: nat)
    ensures n < 4 && (length + n) % 4 == 0
  {
    (4 - length % 4) % 4
  }

  function Padded(s: seq<Byte>): (p: seq<Byte>)
    ensures |p| % 4 == 0
  {
    s + Zeros(Missing(|s|))
  }

  /** Lengths are cast to u32, and the name's NUL is added on 32 bits. */
  function NameSize(name: seq<Byte>): U32 {
    (|name| % WORD + 1) % WORD
  }

  function HeaderFields(ino: U32, mode: U32, name: seq<Byte>, data: seq<Byte>): (f: seq<U32>)
    ensures |f| == 13
  {
    [ino, mode, 0, 0, 1, 0, |data| % WORD, 0, 0, 0, 0, NameSize(name), 0]
  }

  function Header(ino: U32, mode: U32, name: seq<Byte>, data: seq<Byte>): (s: seq<Byte>)
    ensures |s| == 110
  {
    MAGIC + Fields(HeaderFields(ino, mode, name, data))
  }

  function Entry(ino: U32, mode: U32, name: seq<Byte>, data: seq<Byte>): (s: seq<Byte>)
    ensures |s| % 4 == 0 && |s| > 110
  {
    Padded(Padded(Header(ino, mode, name, data) + name + [0]) + data)
  }

  function Archive(name: seq<Byte>, data: seq<Byte>): seq<Byte> {
    Entry(1, REGULAR, name, data) + Entry(0, 0, TRAILER, [])
  }

  // ---- Reading ----------------------------------------------------------------------

  datatype File = File(mode: nat, name: seq<Byte>, data: seq<Byte>)

  /** A C string: what precedes the first NUL. */
  function CString(s: seq<Byte>): (name: seq<Byte>)
    ensures 0 !in name && |name| <= |s|
    ensures 0 !in s ==> name == s
  {
    if s == [] || s[0] == 0 then [] else [s[0]] + CString(s[1..])
  }

  function Align(n: nat): (m: nat)
    ensures n <= m < n + 4 && m % 4 == 0
  {
    n + Missing(n)
  }

  /** The file an entry holds and the bytes after it; None when the entry is malformed. */
  function ReadEntry(s: seq<Byte>): (r: Option<(File, seq<Byte>)>)
    ensures r.Some? ==> |r.value.1| < |s|
    ensures r.Some? ==> 0 !in r.value.0.name
  {
    if |s| < 110 || s[..6] != MAGIC then None
    else
      match ParseFields(s[6..], 13)
      case None => None
      case Some(fields) =>
        var size, nameSize := fields[6], fields[11];
        var body := Align(110 + nameSize);
        var end := Align(body + size);
        if nameSize == 0 || end > |s| || s[110 + nameSize - 1] != 0 then None
        else Some((File(fields[1], CString(s[110..110 + nameSize - 1]), s[body..body + size]), s[end..]))
  }

  /** The files up to the trailer, which must end the archive. */
  function ReadArchive(s: seq<Byte>): Result<seq<File>, string>
    decreases |s|
  {
    match ReadEntry(s)
    case None => Err("malformed entry")
    case Some((file, rest)) =>
      if file.name == TRAILER then (if rest == [] then Ok([]) else Err("data after the trailer"))
      else
        match ReadArchive(rest)
        case Ok(files) => Ok([file] + files)
        case Err(e) => Err(e)
  }

  predicate Fits(name: seq<Byte>, data: seq<Byte>) {
    |name| + 1 < WORD && |data| < WORD
  }

  lemma HeaderIsRead(ino: U32, mode: U32, name: seq<Byte>, data: seq<Byte>, after: seq<Byte>)
    ensures var s := Header(ino, mode, name, data) + after;
      s[..6] == MAGIC && ParseFields(s[6..], 13) == Some(HeaderFields(ino, mode, name, data))
  {
    var f := HeaderFields(ino, mode, name, data);
    assert (Header(ino, mode, name, data) + after)[6..] == Fields(f) + after;
    FieldsRoundTrip(f, after);
  }

  lemma Parts(h: seq<Byte>, name: seq<Byte>, pad: seq<Byte>, data: seq<Byte>, z: seq<Byte>, after: seq<Byte>)
    ensures var p := h + name + [0] + pad;
      var s := p + data + z + after;
      && s[..|h|] == h && s[|h|..|h| + |name|] == name && s[|h| + |name|] == 0
      && s[|p|..|p| + |data|] == data
      && s[|p| + |data| + |z|..] == after
  {
  }

  /** Where the parts of an entry that fits lie. */
  lemma EntryLayout(ino: U32, mode: U32, name: seq<Byte>, data: seq<Byte>, after: seq<Byte>)
    ensures var s := Entry(ino, mode, name, data) + after;
      var body := Align(110 + |name| + 1);
      var end := Align(body + |data|);
      && end <= |s|
      && s[..6] == MAGIC && ParseFields(s[6..], 13) == Some(HeaderFields(ino, mode, name, data))
      && s[110..110 + |name|] == name && s[110 + |name|] == 0
      && s[body..body + |data|] == data && s[end..] == after
  {
    hide Fields, ParseFields, ParseHex, Hex, Missing, Header, Zeros;
    var h := Header(ino, mode, name, data);
    var q := h + name + [0];
    var p := Padded(q);
    var s := Entry(ino, mode, name, data) + after;
    Parts(h, name, Zeros(Missing(|q|)), data, Zeros(Missing(|p + data|)), after);
    SplitAt(s, 110);
    HeaderIsRead(ino, mode, name, data, s[110..]);
  }

  lemma FieldsOfFit(ino: U32, mode: U32, name: seq<Byte>, data: seq<Byte>)
    requires Fits(name, data)
    ensures var f := HeaderFields(ino, mode, name, data); f[1] == mode && f[6] == |data| && f[11] == |name| + 1
  {
  }

  /** An entry that fits is read back, and nothing but it. */
  lemma EntryIsRead(ino: U32, mode: U32, name: seq<Byte>, data: seq<Byte>, after: seq<Byte>)
    requires Fits(name, data) && 0 !in name
    ensures ReadEntry(Entry(ino, mode, name, data) + after) == Some((File(mode, name, data), after))
  {
    hide Fields, ParseFields, ParseHex, Hex, Align, Header, Zeros, Entry, CString, HeaderFields;
    FieldsOfFit(ino, mode, name, data);
    EntryLayout(ino, mode, name, data, after);
  }

  /** What any successful read of a header says about the file. */
  lemma ReadIsBounded(ino: U32, mode: U32, name: seq<Byte>, data: seq<Byte>, after: seq<Byte>)
    ensures var r := ReadEntry(Entry(ino, mode, name, data) + after);
      r.Some? ==> |r.value.0.data| == |data| % WORD && |r.value.0.name| < NameSize(name)
  {
    hide Fields, ParseFields, ParseHex, Hex, Missing;
    var h := Header(ino, mode, name, data);
    var tail := Zeros(Missing(|h + name + [0]|)) + data + Zeros(Missing(|Padded(h + name + [0]) + data|)) + after;
    assert Entry(ino, mode, name, data) + after == h + (name + [0] + tail);
    HeaderIsRead(ino, mode, name, data, name + [0] + tail);
  }

  /** Each entry starts on a multiple of four, and so do its data. */
  lemma ArchiveIsAligned(ino: U32, mode: U32, name: seq<Byte>, data: seq<Byte>)
    ensures var body := Align(110 + |name| + 1);
      body % 4 == 0 && Entry(ino, mode, name, data)[body..body + |data|] == data
    ensures |Archive(name, data)| % 4 == 0
  {
    hide Entry, ParseFields, Align;
    EntryLayout(ino, mode, name, data, []);
    Neutral(Entry(ino, mode, name, data));
  }

  /**
    The reader gets back exactly one file, with this name and these data, if and
    only if both lengths fit their 32-bit fields, the name holds no NUL and it is
    not the trailer's name.
   */
  lemma ArchiveRoundTrip(name: seq<Byte>, data: seq<Byte>)
    ensures ReadArchive(Archive(name, data)) == Ok([File(REGULAR, name, data)])
      <==> Fits(name, data) && 0 !in name && name != TRAILER
  {
    hide Fields, ParseFields, ParseHex, Hex, Missing, ReadEntry, Entry;
    var last := Entry(0, 0, TRAILER, []);
    assert 0 !in TRAILER;
    EntryIsRead(0, 0, TRAILER, [], []);
    Neutral(last);
    assert ReadArchive(last) == Ok([]);
    if Fits(name, data) && 0 !in name {
      EntryIsRead(1, REGULAR, name, data, last);
      Neutral([File(REGULAR, name, data)]);
    } else {
      ReadIsBounded(1, REGULAR, name, data, last);
      match ReadEntry(Archive(name, data)) {
        case None =>
        case Some((file, rest)) =>
          if ReadArchive(rest).Ok? {
            TailOfAppend([file], ReadArchive(rest).value);
          }
      }
    }
  }

  // ---- The loops ----------------------------------------------------------------------

  method Pad(out: seq<Byte>) returns (padded: seq<Byte>)
    ensures padded == Padded(out)
  {
    padded := out;
    ghost var added := 0;
    while |padded| % 4 != 0
      invariant added <= Missing(|out|) && padded == out + Zeros(added)
      decreases Missing(|out|) - added
    {
      Associative(out, Zeros(added), [0]);
      padded := padded + [0];
      added := added + 1;
    }
  }

  method AppendEntry(out: seq<Byte>, ino: U32, mode: U32, name: seq<Byte>, data: seq<Byte>) returns (r: seq<Byte>)
    requires |out| % 4 == 0
    ensures r == out + Entry(ino, mode, name, data)
  {
    var fields := [ino, mode, 0, 0, 1, 0, |data| % WORD, 0, 0, 0, 0, NameSize(name), 0];
    r := AppendFields(out + MAGIC, fields);
    ghost var h := Header(ino, mode, name, data);
    Associative(out, MAGIC, Fields(fields));
    assert fields == HeaderFields(ino, mode, name, data);
    r := r + name + [0];
    Associative(out, h, name);
    Associative(out, h + name, [0]);
    PaddedAfter(out, h + name + [0]);
    r := Pad(r);
    Associative(out, Padded(h + name + [0]), data);
    PaddedAfter(out, Padded(h + name + [0]) + data);
    r := Pad(r + data);
  }

  method AppendFields(out: seq<Byte>, fields: seq<U32>) returns (r: seq<Byte>)
    ensures r == out + Fields(fields)
  {
    r := out;
    var i := 0;
    while i < |fields|
      invariant i <= |fields|
      invariant r + Fields(fields[i..]) == out + Fields(fields)
    {
      assert fields[i..][1..] == fields[i + 1..];
      Associative(r, Hex(fields[i], 8), Fields(fields[i + 1..]));
      r := r + Hex(fields[i], 8);
      i := i + 1;
    }
    Neutral(r);
  }

  /** Padding counts from the start of the archive, which is aligned. */
  lemma PaddedAfter(out: seq<Byte>, s: seq<Byte>)
    requires |out| % 4 == 0
    ensures Padded(out + s) == out + Padded(s)
  {
    assert (|out| + |s|) % 4 == |s| % 4;
    Associative(out, s, Zeros(Missing(|s|)));
  }

  method WriteArchive(name: seq<Byte>, data: seq<Byte>) returns (out: seq<Byte>)
    ensures out == Archive(name, data)
  {
    out := AppendEntry([], 1, REGULAR, name, data);
    Neutral(Entry(1, REGULAR, name, data));
    out := AppendEntry(out, 0, 0, TRAILER, []);
  }
}
