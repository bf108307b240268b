/**
  The command line as QEMU reads it: a flat list of words, taken two by two, whose
  option strings are split on commas and whose parts are split at the first '='.
 */
module QemuWords {
  import opened Wrappers
  import opened Sequences
  import opened Decimals
  import opened QemuArgs
  import opened QemuOptions
  import O = OptionStrings

  // ---- Writing ---------------------------------------------------------------------------

  /** The words pushed for a list of arguments. */
  function Words(args: seq<Arg>): seq<string> {
    if args == [] then [] else Words(args[..|args| - 1]) + ArgText(args[|args| - 1])
  }

  lemma WordsSnoc(args: seq<Arg>, a: Arg)
    ensures Words(args + [a]) == Words(args) + ArgText(a)
  {
    hide ArgText;
    assert (args + [a])[..|args|] == args;
  }

  // ---- Reading ---------------------------------------------------------------------------

  /** A flag and the word after it. */
  type Switch = (string, string)

  function ReadPairs(words: seq<string>): seq<Switch> {
    if |words| < 2 then [] else ReadPairs(words[..|words| - 2]) + [(words[|words| - 2], words[|words| - 1])]
  }

  const OPTION_FLAGS: set<string> :=
    {"-drive", "-netdev", "-chardev", "-tpmdev", "-audiodev", "-object", "-device", "-spice"}

  /** The option in which the value of a key is looked up, for the keys that name something. */
  function Named(key: string): Option<string> {
    if key == "drive" then Some("-drive")
    else if key == "netdev" then Some("-netdev")
    else if key == "chardev" then Some("-chardev")
    else if key == "tpmdev" then Some("-tpmdev")
    else if key == "audiodev" then Some("-audiodev")
    else if key == "rng" || key == "iothread" || key == "password-secret" then Some("-object")
    else if key == "bus" then Some("-device")
    else None
  }

  /** A bus is the device that owns it and a number. */
  function Owner(part: string): string {
    var value := O.Value(part);
    if O.Key(part) == "bus" && |value| >= 2 then value[..|value| - 2] else value
  }

  /** What an option declares: its own name space, and the value of `id=`. */
  function TextDecls(o: Switch): set<(string, string)> {
    if o.0 !in OPTION_FLAGS then {}
    else set part | part in O.Split(o.1, "") && '=' in part && O.Key(part) == "id" :: (o.0, O.Value(part))
  }

  const SERIAL := "chardev:"

  /** What an option refers to. */
  function TextRefs(o: Switch): set<(string, string)> {
    if o.0 == "-serial" then (if SERIAL <= o.1 then {("-chardev", o.1[|SERIAL|..])} else {})
    else if o.0 !in OPTION_FLAGS then {}
    else set part | part in O.Split(o.1, "") && '=' in part && Named(O.Key(part)).Some? ::
           (Named(O.Key(part)).value, Owner(part))
  }

  /** Every name an option refers to was declared by an earlier option, and no name is declared twice. */
  predicate Resolved(options: seq<Switch>) {
    && (forall i, name :: 0 <= i < |options| && name in TextRefs(options[i]) ==>
         exists j :: 0 <= j < i && name in TextDecls(options[j]))
    && (forall i, j :: 0 <= j < i < |options| ==> TextDecls(options[j]) !! TextDecls(options[i]))
  }

  // ---- Words and pairs ---------------------------------------------------------------------

  lemma {:induction false} PairsOfWords(args: seq<Arg>, i: nat)
    requires i < |args|
    ensures |ReadPairs(Words(args))| == |args|
    ensures ReadPairs(Words(args))[i] == (ArgText(args[i])[0], ArgText(args[i])[1])
  {
    hide ArgText, PartTexts;
    var n := |args| - 1;
    var before, last := args[..n], ArgText(args[n]);
    assert Words(args) == Words(before) + last;
    assert (Words(before) + last)[..|Words(before) + last| - 2] == Words(before);
    if n == 0 {
      assert Words(before) == [];
    } else {
      PairsOfWords(before, if i < n then i else 0);
    }
  }

  // ---- Parts that name nothing ---------------------------------------------------------------

  /** The keys of the plain parts. */
  predicate PlainKey(key: string) {
    PlainKey0(key) || PlainKey1(key) || PlainKey2(key) || PlainKey3(key) || PlainKey4(key) || PlainKey5(key)
  }

  predicate PlainKey0(key: string) {
    key in {"if", "format", "unit", "readonly", "file", "ppi"}
  }

  predicate PlainKey1(key: string) {
    key in {"cache", "discard", "detect-zeroes", "aio"}
  }

  predicate PlainKey2(key: string) {
    key in {"serial", "media", "removable", "index"}
  }

  predicate PlainKey3(key: string) {
    key in {"free-page-reporting", "hostfwd", "ifname", "path"}
  }

  predicate PlainKey4(key: string) {
    key in {"host", "port", "server", "wait", "name"}
  }

  predicate PlainKey5(key: string) {
    key in {"addr", "disable-ticketing", "password", "data"}
  }

  lemma NamesNothing0(key: string)
    requires PlainKey0(key)
    ensures key != "id" && Named(key).None? && '=' !in key && ',' !in key
  {
  }

  lemma NamesNothing1(key: string)
    requires PlainKey1(key)
    ensures key != "id" && Named(key).None? && '=' !in key && ',' !in key
  {
  }

  lemma NamesNothing2(key: string)
    requires PlainKey2(key)
    ensures key != "id" && Named(key).None? && '=' !in key && ',' !in key
  {
  }

  lemma NamesNothing3(key: string)
    requires PlainKey3(key)
    ensures key != "id" && Named(key).None? && '=' !in key && ',' !in key
  {
  }

  lemma NamesNothing4(key: string)
    requires PlainKey4(key)
    ensures key != "id" && Named(key).None? && '=' !in key && ',' !in key
  {
  }

  lemma NamesNothing5(key: string)
    requires PlainKey5(key)
    ensures key != "id" && Named(key).None? && '=' !in key && ',' !in key
  {
  }

  /** Only a boot index has the key of a boot index. */
  lemma PlainKeysAreNoBoot(key: string)
    requires PlainKey(key)
    ensures key != "bootindex"
  {
  }

  lemma PlainKeysNameNothing(key: string)
    requires PlainKey(key)
    ensures key != "id" && Named(key).None? && '=' !in key && ',' !in key
  {
    hide PlainKey0, PlainKey1, PlainKey2, PlainKey3, PlainKey4, PlainKey5, Named;
    if PlainKey0(key) {
      NamesNothing0(key);
    } else if PlainKey1(key) {
      NamesNothing1(key);
    } else if PlainKey2(key) {
      NamesNothing2(key);
    } else if PlainKey3(key) {
      NamesNothing3(key);
    } else if PlainKey4(key) {
      NamesNothing4(key);
    } else if PlainKey5(key) {
      NamesNothing5(key);
    }
  }

  predicate Unsplit(text: string) {
    forall k :: 0 <= k < |text| ==> text[k] != ',' && text[k] != '='
  }

  /** A part that is read back as it is, and neither declares nor refers to anything. */
  predicate TidyPlain(p: Plain) {
    match p
    case Word(text) => text != "" && Unsplit(text)
    case Pair(key, value) => PlainKey(key) && ',' !in value
    case BootIndex(_) => true
  }

  predicate TidyFlag(flag: string) {
    flag !in OPTION_FLAGS && flag != "-serial"
  }

  predicate TidyArg(a: Arg) {
    match a
    case Raw(flag, _) => TidyFlag(flag)
    case Options(_, before, _, _, after) =>
      before != [] && (forall p :: p in before ==> TidyPlain(p)) && (forall p :: p in after ==> TidyPlain(p))
    case SerialTo(_) => true
  }

  lemma TidyPlainText(p: Plain)
    requires TidyPlain(p)
    ensures CleanPlain(p)
    ensures var part := PlainText(p); '=' !in part || (O.Key(part) != "id" && Named(O.Key(part)).None?)
  {
    hide PlainKey, Named;
    match p {
      case Word(_) =>
      case Pair(key, value) =>
        PlainKeysNameNothing(key);
        O.KeyAndValue(key, value);
        PairText(key, value);
      case BootIndex(n) =>
        BootIndexNamesNothing();
        DecimalIsParsed(n);
        O.KeyAndValue("bootindex", Decimal(n));
        PairText("bootindex", Decimal(n));
        assert "bootindex=" == "bootindex" + "=";
    }
  }

  lemma BootIndexNamesNothing()
    ensures Named("bootindex").None? && "bootindex" != "id" && '=' !in "bootindex" && ',' !in "bootindex"
  {
  }

  lemma PairText(key: string, value: string)
    requires ',' !in key && ',' !in value
    ensures CleanText(key + "=" + value)
  {
    assert (key + "=" + value)[|key|] == '=';
  }

  lemma TidyIsClean(a: Arg)
    requires TidyArg(a)
    ensures CleanArg(a)
  {
    hide TidyPlain, CleanPlain;
    if a.Options? {
      forall p | p in a.before || p in a.after
        ensures CleanPlain(p)
      {
        TidyPlainText(p);
      }
    }
  }

  // ---- One option, written and read ------------------------------------------------------------

  /** The name of an identifier, in its name space. */
  function Title(id: Id): (string, string) {
    (FlagText(Home(id)), Name(id))
  }

  function Titles(ids: set<Id>): set<(string, string)> {
    set id | id in ids :: Title(id)
  }

  function SwitchOf(a: Arg): Switch {
    (ArgText(a)[0], ArgText(a)[1])
  }

  predicate NamesNothing(part: string) {
    '=' !in part || (O.Key(part) != "id" && Named(O.Key(part)).None?)
  }

  lemma {:induction false} PlainTextsNameNothing(parts: seq<Plain>)
    requires forall p :: p in parts ==> TidyPlain(p)
    ensures forall part :: part in PlainTexts(parts) ==> NamesNothing(part)
  {
    hide TidyPlain, Named, NamesNothing;
    if parts != [] {
      PlainTextsNameNothing(parts[1..]);
      PlainTextNamesNothing(parts[0]);
    }
  }

  lemma PlainTextNamesNothing(p: Plain)
    requires TidyPlain(p)
    ensures NamesNothing(PlainText(p))
  {
    hide Named, TidyPlain;
    TidyPlainText(p);
  }

  lemma {:induction false} RefTextsMembers(refs: seq<Ref>, part: string)
    ensures part in RefTexts(refs) <==> exists r :: r in refs && part == RefText(r)
  {
    hide RefText;
    if refs != [] {
      RefTextsMembers(refs[1..], part);
      FirstElement(refs);
    }
  }

  lemma {:induction false} IdsOfMembers(refs: seq<Ref>, id: Id)
    ensures id in IdsOf(refs) <==> exists r :: r in refs && r.id == id
  {
    if refs != [] {
      IdsOfMembers(refs[1..], id);
      FirstElement(refs);
    }
  }

  /** A reference is read back: its name space from its key, its name from its value. */
  predicate ReadsAs(part: string, id: Id) {
    '=' in part && O.Key(part) != "id" && Named(O.Key(part)) == Some(FlagText(Home(id))) && Owner(part) == Name(id)
  }

  lemma KeysAreNamed(key: RefKey)
    ensures Named(KeyText(key)) == Some(FlagText(Space(key)))
    ensures '=' !in KeyText(key) && KeyText(key) != "id" && KeyText(key) != "bus"
  {
  }

  lemma RefTextReads(r: Ref)
    requires RefPlaced(r)
    ensures ReadsAs(RefText(r), r.id)
  {
    hide Named, KeyText, Name, FlagText;
    match r {
      case Refers(key, id) =>
        KeysAreNamed(key);
        O.KeyAndValue(KeyText(key), Name(id));
        assert RefText(r)[|KeyText(key)|] == '=';
      case OnBus(id) =>
        BusIsNamed();
        O.KeyAndValue("bus", Name(id) + ".0");
        assert RefText(r) == "bus" + "=" + (Name(id) + ".0");
        assert (Name(id) + ".0")[..|Name(id)|] == Name(id);
    }
  }

  lemma BusIsNamed()
    ensures Named("bus") == Some(FlagText(Device)) && '=' !in "bus" && "bus" != "id"
  {
  }

  lemma IdTextReads(id: Id)
    ensures '=' in "id=" + Name(id) && O.Key("id=" + Name(id)) == "id" && O.Value("id=" + Name(id)) == Name(id)
    ensures Named("id").None?
  {
    hide Name;
    O.KeyAndValue("id", Name(id));
    assert "id=" + Name(id) == "id" + "=" + Name(id);
    assert ("id=" + Name(id))[2] == '=';
  }

  lemma FlagsAreOptions(f: Flag)
    ensures FlagText(f) in OPTION_FLAGS && FlagText(f) != "-serial"
  {
  }

  /** The parts of an option: the one that declares, those that refer, and the others. */
  lemma PartsOf(a: Arg, part: string)
    requires a.Options?
    ensures part in PartTexts(a) <==>
      part in PlainTexts(a.before) || part in PlainTexts(a.after) || part in RefTexts(a.refs)
      || (a.id.Some? && part == "id=" + Name(a.id.value))
  {
    hide PlainTexts, RefTexts, Name;
  }

  /** What an option declares is read back from its text. */
  lemma DeclsAreRead(a: Arg, part: string)
    requires a.Options? && TidyArg(a) && WellPlaced(a)
    ensures part in PartTexts(a) && '=' in part && O.Key(part) == "id"
        <==> a.id.Some? && part == "id=" + Name(a.id.value)
  {
    hide TidyPlain, Named, PartTexts, Name, RefPlaced, RefText, FlagText, Home;
    PartsOf(a, part);
    PlainTextsNameNothing(a.before);
    PlainTextsNameNothing(a.after);
    RefTextsMembers(a.refs, part);
    if r :| r in a.refs && part == RefText(r) {
      RefTextReads(r);
    }
    if a.id.Some? {
      IdTextReads(a.id.value);
    }
  }

  /** What an option refers to is read back from its text. */
  lemma RefsAreRead(a: Arg, part: string)
    requires a.Options? && TidyArg(a) && WellPlaced(a)
    ensures part in PartTexts(a) && '=' in part && Named(O.Key(part)).Some?
        <==> exists r :: r in a.refs && part == RefText(r)
  {
    hide TidyPlain, Named, PartTexts, Name, RefPlaced, RefText, FlagText, Home;
    PartsOf(a, part);
    PlainTextsNameNothing(a.before);
    PlainTextsNameNothing(a.after);
    RefTextsMembers(a.refs, part);
    if r :| r in a.refs && part == RefText(r) {
      RefTextReads(r);
    }
    if a.id.Some? {
      IdTextReads(a.id.value);
    }
  }

  lemma OptionTextDecls(a: Arg)
    requires a.Options? && TidyArg(a) && WellPlaced(a)
    ensures TextDecls(SwitchOf(a)) == Titles(DeclsOf(a))
  {
    hide TidyArg, Named, PartTexts, Name, FlagText, CleanArg;
    TidyIsClean(a);
    CleanArgReadsBack(a);
    FlagsAreOptions(a.kind);
    forall part
      ensures part in PartTexts(a) && '=' in part && O.Key(part) == "id"
          <==> a.id.Some? && part == "id=" + Name(a.id.value)
    {
      DeclsAreRead(a, part);
    }
    if a.id.Some? {
      IdTextReads(a.id.value);
      assert Title(a.id.value) in TextDecls(SwitchOf(a));
    }
  }

  lemma OptionTextRefs(a: Arg)
    requires a.Options? && TidyArg(a) && WellPlaced(a)
    ensures TextRefs(SwitchOf(a)) == Titles(RefsOf(a))
  {
    hide TidyArg, Named, PartTexts, Name, FlagText, CleanArg, IdsOf, RefText, ReadsAs, Owner, RefPlaced, Home;
    var o := SwitchOf(a);
    TidyIsClean(a);
    CleanArgReadsBack(a);
    FlagsAreOptions(a.kind);
    forall name | name in TextRefs(o)
      ensures name in Titles(RefsOf(a))
    {
      var part :| part in PartTexts(a) && '=' in part && Named(O.Key(part)).Some?
        && name == (Named(O.Key(part)).value, Owner(part));
      RefsAreRead(a, part);
      var r :| r in a.refs && part == RefText(r);
      ReadRef(r);
      IdsOfMembers(a.refs, r.id);
      assert name == Title(r.id);
    }
    forall name | name in Titles(RefsOf(a))
      ensures name in TextRefs(o)
    {
      var id :| id in IdsOf(a.refs) && name == Title(id);
      IdsOfMembers(a.refs, id);
      var r :| r in a.refs && r.id == id;
      ReadRef(r);
      RefsAreRead(a, RefText(r));
      assert RefText(r) in O.Split(o.1, "");
    }
  }

  lemma ReadRef(r: Ref)
    requires RefPlaced(r)
    ensures '=' in RefText(r) && Named(O.Key(RefText(r))).Some?
    ensures (Named(O.Key(RefText(r))).value, Owner(RefText(r))) == Title(r.id)
  {
    hide Named, RefText, Owner, Name, FlagText, Home;
    RefTextReads(r);
  }

  /** Whatever the argument, its names are read back from its words. */
  lemma ArgIsRead(a: Arg)
    requires TidyArg(a) && WellPlaced(a)
    ensures TextDecls(SwitchOf(a)) == Titles(DeclsOf(a)) && TextRefs(SwitchOf(a)) == Titles(RefsOf(a))
  {
    TidyIsClean(a);
    match a {
      case Options(_, _, _, _, _) =>
        hide *;
        OptionTextDecls(a);
        OptionTextRefs(a);
      case Raw(_, _) =>
      case SerialTo(id) =>
        hide Name;
        SerialIsNoOption();
        assert (SERIAL + Name(id))[|SERIAL|..] == Name(id);
        assert Titles({id}) == {Title(id)};
    }
  }

  lemma SerialIsNoOption()
    ensures "-serial" !in OPTION_FLAGS
  {
  }

  // ---- Boot indices ------------------------------------------------------------------------------

  /** The boot indices in the text of an option. */
  function TextBoots(o: Switch): set<string> {
    if o.0 !in OPTION_FLAGS then {}
    else set part | part in O.Split(o.1, "") && '=' in part && O.Key(part) == "bootindex" :: O.Value(part)
  }

  lemma {:induction false} PlainTextsMembers(parts: seq<Plain>, part: string)
    ensures part in PlainTexts(parts) <==> exists p :: p in parts && part == PlainText(p)
  {
    hide PlainText;
    if parts != [] {
      PlainTextsMembers(parts[1..], part);
      FirstElement(parts);
    }
  }

  lemma PlainBoot(p: Plain)
    requires TidyPlain(p) && '=' in PlainText(p) && O.Key(PlainText(p)) == "bootindex"
    ensures p.BootIndex? && O.Value(PlainText(p)) == Decimal(p.n)
  {
    hide PlainKey;
    match p {
      case Word(_) =>
      case Pair(key, value) =>
        PlainKeysNameNothing(key);
        PlainKeysAreNoBoot(key);
        O.KeyAndValue(key, value);
      case BootIndex(n) =>
        BootIndexNamesNothing();
        O.KeyAndValue("bootindex", Decimal(n));
        assert "bootindex=" == "bootindex" + "=";
    }
  }

  lemma BootPart(a: Arg, part: string)
    requires a.Options? && TidyArg(a) && WellPlaced(a)
    requires part in PartTexts(a) && '=' in part && O.Key(part) == "bootindex"
    ensures exists n :: n in Boots(a) && O.Value(part) == Decimal(n)
  {
    hide TidyPlain, Named, PartTexts, PlainText, PlainTexts, Name, RefPlaced, RefText, FlagText, Home;
    PartsOf(a, part);
    BootIndexNamesNothing();
    PlainTextsMembers(a.before, part);
    PlainTextsMembers(a.after, part);
    RefTextsMembers(a.refs, part);
    if r :| r in a.refs && part == RefText(r) {
      RefTextReads(r);
    }
    if a.id.Some? {
      IdTextReads(a.id.value);
    }
    var p :| (p in a.before || p in a.after) && part == PlainText(p);
    PlainBoot(p);
    assert p in a.before + a.after && p.n in Boots(a);
  }

  lemma BootIsThere(a: Arg, n: nat)
    requires a.Options? && n in Boots(a)
    ensures var part := "bootindex=" + Decimal(n);
      part in PartTexts(a) && '=' in part && O.Key(part) == "bootindex" && O.Value(part) == Decimal(n)
  {
    hide PartTexts, PlainTexts, Named;
    var p :| p in a.before + a.after && p.BootIndex? && p.n == n;
    var part := PlainText(p);
    PartsOf(a, part);
    PlainTextsMembers(a.before, part);
    PlainTextsMembers(a.after, part);
    BootIndexNamesNothing();
    O.KeyAndValue("bootindex", Decimal(n));
    assert part == "bootindex" + "=" + Decimal(n);
    assert part[|"bootindex"|] == '=';
  }

  /** The boot indices in the text of an option are those of the option. */
  lemma BootsAreRead(a: Arg)
    requires TidyArg(a) && WellPlaced(a)
    ensures TextBoots(SwitchOf(a)) == set n | n in Boots(a) :: Decimal(n)
  {
    hide TidyPlain, PartTexts, CleanArg, WellPlaced, FlagText, Decimal;
    if a.Options? {
      OptionBoots(a);
    } else {
      SerialIsNoOption();
    }
  }

  lemma OptionBoots(a: Arg)
    requires TidyArg(a) && WellPlaced(a) && a.Options?
    ensures TextBoots(SwitchOf(a)) == set n | n in Boots(a) :: Decimal(n)
  {
    hide TidyArg, PartTexts, Boots, CleanArg, WellPlaced, FlagText, Decimal;
    TidyIsClean(a);
    CleanArgReadsBack(a);
    FlagsAreOptions(a.kind);
    forall v | v in TextBoots(SwitchOf(a))
      ensures exists n :: n in Boots(a) && v == Decimal(n)
    {
      var part :| part in PartTexts(a) && '=' in part && O.Key(part) == "bootindex" && v == O.Value(part);
      BootPart(a, part);
    }
    forall n | n in Boots(a)
      ensures Decimal(n) in TextBoots(SwitchOf(a))
    {
      BootIsThere(a, n);
      assert "bootindex=" + Decimal(n) in O.Split(SwitchOf(a).1, "");
    }
  }
}
