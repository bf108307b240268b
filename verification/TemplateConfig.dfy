/**
  `config.virtua`, the text a VM template carries: the exporter prints it, the
  importer parses it back into the settings of the new VM.
 */
module TemplateConfig {
  import opened Wrappers
  import opened Sequences
  import opened Replace
  import opened Decimals
  import Lines

  const LF: char := '\n'

  // ---- Text ----------------------------------------------------------------------------

  /** Unicode White_Space, which `trim` removes. */
  predicate White(c: char) {
    '\U{9}' <= c <= '\U{D}' || c == ' ' || c == '\U{85}' || c == '\U{A0}' || c == '\U{1680}'
    || '\U{2000}' <= c <= '\U{200A}' || c == '\U{2028}' || c == '\U{2029}' || c == '\U{202F}'
    || c == '\U{205F}' || c == '\U{3000}'
  }

  function TrimStart(s: string): string {
    if s != "" && White(s[0]) then TrimStart(s[1..]) else s
  }

  function TrimEnd(s: string): string {
    if s != "" && White(s[|s| - 1]) then TrimEnd(s[..|s| - 1]) else s
  }

  function Trim(s: string): string {
    TrimStart(TrimEnd(s))
  }

  predicate Trimmed(s: string) {
    s != "" ==> !White(s[0]) && !White(s[|s| - 1])
  }

  function Find(s: string, c: char): (i: nat)
    ensures i <= |s|
  {
    if s == "" || s[0] == c then 0 else 1 + Find(s[1..], c)
  }

  function UpperChar(c: char): char {
    if 'a' <= c <= 'z' then c - 32 as char else c
  }

  function LowerChar(c: char): char {
    if 'A' <= c <= 'Z' then c + 32 as char else c
  }

  function Upper(s: string): string {
    if s == "" then "" else [UpperChar(s[0])] + Upper(s[1..])
  }

  function Lower(s: string): string {
    if s == "" then "" else [LowerChar(s[0])] + Lower(s[1..])
  }

  /** `str::parse` for an unsigned integer type: a sign is allowed, nothing or an overflow is not. */
  function ParseUnsigned(s: string, max: nat): Option<nat> {
    var t := if s != "" && s[0] == '+' then s[1..] else s;
    match Digits(t)
    case Some(n) => if t != "" && n <= max then Some(n) else None
    case None => None
  }

  const U16_MAX := 0xffff

  const U32_MAX := 0xffff_ffff

  // ---- Parsing -----------------------------------------------------------------------

  type Config = map<string, string>

  /** One line: a section header, a comment and a line without '=' set nothing. */
  function ParseLine(raw: string): Option<(string, string)> {
    var line := Trim(raw);
    var at := Find(line, '=');
    if line == "" || line[0] == '[' || line[0] == '#' || at == |line| then None
    else Some((Upper(Trim(line[..at])), Trim(line[at + 1..])))
  }

  function Insert(config: Config, raw: string): Config {
    match ParseLine(raw)
    case Some((key, value)) => config[key := value]
    case None => config
  }

  function InsertAll(lines: seq<string>): Config {
    if lines == [] then map[] else Insert(InsertAll(lines[..|lines| - 1]), lines[|lines| - 1])
  }

  /** `str::lines`; the CR it drops before an LF is white space, which every line loses anyway. */
  function TextLines(raw: string): seq<string> {
    var rest := Lines.Rest(raw, LF);
    Lines.Complete(raw, LF) + (if rest == "" then [] else [rest])
  }

  method ReadTemplateConfig(raw: string) returns (config: Config)
    ensures config == InsertAll(TextLines(raw))
  {
    hide White, Trim, Upper, Find;
    var lines := TextLines(raw);
    config := map[];
    var i := 0;
    while i < |lines|
      invariant i <= |lines| && config == InsertAll(lines[..i])
    {
      InsertNext(lines, i);
      var line := Trim(lines[i]);
      if line != "" && line[0] != '[' && line[0] != '#' {
        var at := Find(line, '=');
        if at < |line| {
          config := config[Upper(Trim(line[..at])) := Trim(line[at + 1..])];
        }
      }
      i := i + 1;
    }
    assert lines[..i] == lines;
  }

  function TemplateBool(config: Config, key: string, default_: bool): bool {
    if key in config
    then Lower(Trim(config[key])) in {"1", "true", "yes", "oui", "on", "enabled", "actif"}
    else default_
  }

  function NormalizeArch(arch: string): string {
    if arch == "aarch64" then "arm64" else if arch == "x86_64" then "amd64" else arch
  }

  datatype Settings = Settings(name: string, cpu: nat, memoryMib: nat, disk: string, architecture: string,
                               tpm2: bool, secureBoot: bool)

  /** What the importer makes of a parsed config; `architecture` and `name` are its fallbacks. */
  function Import(config: Config, architecture: string, name: string): Result<Settings, string> {
    if "DISK" !in config then Err("DISK absent dans config.virtua")
    else Ok(Settings(
      if "NAME" in config then config["NAME"] else name,
      Number(config, "CPU", U16_MAX, 2),
      Number(config, "RAM", U32_MAX, 2048),
      config["DISK"],
      if "ARCH" in config then NormalizeArch(config["ARCH"]) else architecture,
      TemplateBool(config, "TPM2", false),
      TemplateBool(config, "SECUREBOOT", false)))
  }

  function Number(config: Config, key: string, max: nat, default_: nat): nat {
    if key in config && ParseUnsigned(config[key], max).Some? then ParseUnsigned(config[key], max).value else default_
  }

  // ---- Printing ---------------------------------------------------------------------

  function ShowBool(b: bool): string {
    if b then "true" else "false"
  }

  function OneLine(description: string): string {
    ReplaceChar(ReplaceChar(description, '\r', " "), LF, " ")
  }

  function ConfigLines(vm: Settings, description: string): seq<string> {
    ["[CONFIG VM TEMPLATE]",
     "Name" + "=" + vm.name,
     "Desc" + "=" + OneLine(description),
     "CPU" + "=" + Decimal(vm.cpu),
     "RAM" + "=" + Decimal(vm.memoryMib),
     "DISK" + "=" + vm.disk,
     "ARCH" + "=" + vm.architecture,
     "TPM2" + "=" + ShowBool(vm.tpm2),
     "SECUREBOOT" + "=" + ShowBool(vm.secureBoot)]
  }

  function ConfigText(vm: Settings, description: string): string {
    Lines.Terminated(ConfigLines(vm, description), LF)
  }

  // ---- Trimming ---------------------------------------------------------------------

  lemma {:induction false} TrimStartKeeps(s: string)
    ensures TrimStart(s) != "" ==> !White(TrimStart(s)[0]) && s != "" && TrimStart(s)[|TrimStart(s)| - 1] == s[|s| - 1]
    ensures forall c :: c !in s ==> c !in TrimStart(s)
  {
    if s != "" && White(s[0]) {
      TrimStartKeeps(s[1..]);
    }
  }

  lemma {:induction false} TrimEndKeeps(s: string)
    ensures TrimEnd(s) != "" ==> !White(TrimEnd(s)[|TrimEnd(s)| - 1])
    ensures TrimEnd(TrimEnd(s)) == TrimEnd(s)
    ensures forall c :: c !in s ==> c !in TrimEnd(s)
  {
    if s != "" && White(s[|s| - 1]) {
      TrimEndKeeps(s[..|s| - 1]);
    }
  }

  lemma TrimIsTrimmed(s: string)
    ensures Trimmed(Trim(s))
    ensures forall c :: c !in s ==> c !in Trim(s)
    ensures Trimmed(s) ==> Trim(s) == s
  {
    TrimEndKeeps(s);
    TrimStartKeeps(TrimEnd(s));
  }

  lemma {:induction false} TrimEndAppend(a: string, v: string)
    requires a != "" && !White(a[|a| - 1])
    ensures TrimEnd(a + v) == a + TrimEnd(v)
  {
    if v == "" {
      Neutral(a);
    } else {
      var n := |v| - 1;
      assert (a + v)[|a + v| - 1] == v[n] && (a + v)[..|a + v| - 1] == a + v[..n];
      if White(v[n]) {
        TrimEndAppend(a, v[..n]);
      }
    }
  }

  predicate Word(key: string) {
    key != "" && forall k :: 0 <= k < |key| ==> 'A' <= key[k] <= 'Z' || 'a' <= key[k] <= 'z' || '0' <= key[k] <= '9'
  }

  lemma {:induction false} FindAfter(key: string, v: string)
    requires forall k :: 0 <= k < |key| ==> key[k] != '='
    ensures Find(key + "=" + v, '=') == |key|
  {
    if key != "" {
      assert (key + "=" + v)[1..] == key[1..] + "=" + v;
      FindAfter(key[1..], v);
    }
  }

  /** A printed setting is parsed back: the key in capitals, the value trimmed. */
  lemma SettingIsParsed(key: string, v: string)
    requires Word(key)
    ensures ParseLine(key + "=" + v) == Some((Upper(key), Trim(v)))
  {
    hide Upper, White;
    WordsAreNotWhite(key);
    TrimEndAppend(key + "=", v);
    var line := key + "=" + TrimEnd(v);
    assert line[0] == key[0];
    assert Trim(key + "=" + v) == line;
    FindAfter(key, TrimEnd(v));
    assert line[..|key|] == key && line[|key| + 1..] == TrimEnd(v);
    TrimIsTrimmed(key);
    TrimEndKeeps(v);
  }

  lemma WordsAreNotWhite(key: string)
    requires Word(key)
    ensures Trimmed(key) && !White('=') && !White(key[0]) && key[0] != '[' && key[0] != '#'
    ensures forall k :: 0 <= k < |key| ==> key[k] != '='
  {
  }

  // ---- Numbers ----------------------------------------------------------------------

  /** A printed number is parsed back by a type exactly when it fits, and is refused otherwise. */
  lemma NumberRoundTrip(n: nat, max: nat)
    ensures ParseUnsigned(Decimal(n), max) == Some(n) <==> n <= max
    ensures ParseUnsigned(Decimal(n), max) == None <==> n > max
    ensures Clean(Decimal(n))
  {
    DecimalIsParsed(n);
  }

  // ---- Round trip -------------------------------------------------------------------

  /** A value that survives: no white space around it and no line break inside. */
  predicate Clean(s: string) {
    Trimmed(s) && LF !in s
  }

  lemma {:induction false} ReplacedIsAbsent(s: string, c: char)
    requires c != ' '
    ensures c !in ReplaceChar(s, c, " ")
  {
    if s != "" {
      ReplacedIsAbsent(s[1..], c);
    }
  }

  /** Every value the parser stores is clean, whatever the text. */
  lemma {:induction false} ValuesAreClean(lines: seq<string>)
    requires Lines.Unbroken(lines, LF)
    ensures forall k :: k in InsertAll(lines) ==> Clean(InsertAll(lines)[k])
  {
    hide Upper, White;
    if lines != [] {
      ValuesAreClean(lines[..|lines| - 1]);
      var line := Trim(lines[|lines| - 1]);
      TrimIsTrimmed(lines[|lines| - 1]);
      var at := Find(line, '=');
      if at < |line| {
        TrimIsTrimmed(line[at + 1..]);
      }
    }
  }

  lemma TextLinesAreUnbroken(raw: string)
    ensures Lines.Unbroken(TextLines(raw), LF)
  {
    Lines.CompleteIsUnbroken(raw, LF);
  }

  lemma Setting(key: string, v: string)
    requires Word(key) && LF !in v
    ensures LF !in key + "=" + v
  {
  }

  lemma PrintedIsUnbroken(vm: Settings, description: string)
    requires Clean(vm.name) && Clean(vm.disk) && Clean(vm.architecture)
    ensures Lines.Unbroken(ConfigLines(vm, description), LF)
  {
    hide Decimal, OneLine, White, Digits, Trimmed;
    Setting("Name", vm.name);
    DescriptionIsOneLine(description);
    Setting("Desc", OneLine(description));
    DecimalIsParsed(vm.cpu);
    Setting("CPU", Decimal(vm.cpu));
    DecimalIsParsed(vm.memoryMib);
    Setting("RAM", Decimal(vm.memoryMib));
    Setting("DISK", vm.disk);
    Setting("ARCH", vm.architecture);
    Setting("TPM2", ShowBool(vm.tpm2));
    Setting("SECUREBOOT", ShowBool(vm.secureBoot));
  }

  lemma DescriptionIsOneLine(description: string)
    ensures LF !in OneLine(description)
  {
    ReplacedIsAbsent(ReplaceChar(description, '\r', " "), LF);
  }

  lemma PrintedLines(vm: Settings, description: string)
    requires Clean(vm.name) && Clean(vm.disk) && Clean(vm.architecture)
    ensures TextLines(ConfigText(vm, description)) == ConfigLines(vm, description)
  {
    hide ConfigLines;
    PrintedIsUnbroken(vm, description);
    Lines.FramingRoundTrip(ConfigLines(vm, description), LF);
    Neutral(ConfigLines(vm, description));
  }

  lemma InsertNext(lines: seq<string>, k: nat)
    requires k < |lines|
    ensures InsertAll(lines[..k + 1]) == Insert(InsertAll(lines[..k]), lines[k])
  {
    assert lines[..k + 1][..k] == lines[..k];
  }

  lemma SetsKey(lines: seq<string>, k: nat, key: string, v: string)
    requires k < |lines| && Word(key) && lines[k] == key + "=" + v
    ensures InsertAll(lines[..k + 1]) == InsertAll(lines[..k])[Upper(key) := Trim(v)]
  {
    InsertNext(lines, k);
    SettingIsParsed(key, v);
  }

  lemma HeaderSetsNothing()
    ensures ParseLine("[CONFIG VM TEMPLATE]") == None
  {
    TrimIsTrimmed("[CONFIG VM TEMPLATE]");
    assert !White('[') && !White(']');
  }

  lemma {:induction false} CapitalsStay(s: string)
    requires forall k :: 0 <= k < |s| ==> 'A' <= s[k] <= 'Z' || '0' <= s[k] <= '9'
    ensures Upper(s) == s
  {
    if s != "" {
      CapitalsStay(s[1..]);
      FirstElement(s);
    }
  }

  lemma Capitals()
    ensures Upper("Name") == "NAME" && Upper("Desc") == "DESC" && Upper("CPU") == "CPU" && Upper("RAM") == "RAM"
  {
    CapitalsStay("CPU");
    CapitalsStay("RAM");
  }

  lemma LastCapitals()
    ensures Upper("DISK") == "DISK" && Upper("ARCH") == "ARCH"
    ensures Upper("TPM2") == "TPM2" && Upper("SECUREBOOT") == "SECUREBOOT"
  {
    hide Upper;
    CapitalsStay("DISK");
    CapitalsStay("ARCH");
    CapitalsStay("TPM2");
    CapitalsStay("SECUREBOOT");
  }

  ghost function Printed(vm: Settings, description: string): Config {
    map["NAME" := vm.name]["DESC" := Trim(OneLine(description))]
       ["CPU" := Decimal(vm.cpu)]["RAM" := Decimal(vm.memoryMib)]
       ["DISK" := vm.disk]["ARCH" := vm.architecture]
       ["TPM2" := ShowBool(vm.tpm2)]["SECUREBOOT" := ShowBool(vm.secureBoot)]
  }

  lemma KeysDiffer()
    ensures "NAME" !in {"DESC", "CPU", "RAM", "DISK", "ARCH", "TPM2", "SECUREBOOT"}
    ensures "CPU" !in {"RAM", "DISK", "ARCH", "TPM2", "SECUREBOOT"}
    ensures "RAM" !in {"DISK", "ARCH", "TPM2", "SECUREBOOT"}
    ensures "DISK" !in {"ARCH", "TPM2", "SECUREBOOT"}
    ensures "ARCH" !in {"TPM2", "SECUREBOOT"} && "TPM2" != "SECUREBOOT"
  {
    assert "NAME"[0] != "DESC"[0] && "NAME"[0] != "DISK"[0] && "NAME"[0] != "ARCH"[0] && "NAME"[0] != "TPM2"[0];
    assert "CPU"[0] != "RAM"[0];
    assert "DISK"[0] != "ARCH"[0] && "DISK"[0] != "TPM2"[0] && "ARCH"[0] != "TPM2"[0];
  }

  lemma PrintedLookups(vm: Settings, description: string)
    ensures var c := Printed(vm, description);
      && "NAME" in c && c["NAME"] == vm.name
      && "CPU" in c && c["CPU"] == Decimal(vm.cpu)
      && "RAM" in c && c["RAM"] == Decimal(vm.memoryMib)
      && "DISK" in c && c["DISK"] == vm.disk
      && "ARCH" in c && c["ARCH"] == vm.architecture
      && "TPM2" in c && c["TPM2"] == ShowBool(vm.tpm2)
      && "SECUREBOOT" in c && c["SECUREBOOT"] == ShowBool(vm.secureBoot)
  {
    hide Decimal, ShowBool, Trim, OneLine;
    KeysDiffer();
  }

  /** The text sets these keys, in this order. */
  lemma PrintedIsParsed(vm: Settings, description: string)
    requires Clean(vm.name) && Clean(vm.disk) && Clean(vm.architecture)
    ensures InsertAll(ConfigLines(vm, description)) == Printed(vm, description)
  {
    hide Upper, Decimal, White, Trim, Clean, Digits, OneLine, ShowBool;
    var lines := ConfigLines(vm, description);
    FirstSettings(vm, description);
    LastSettings(vm, description);
    CleanIsTrimmed(vm.name);
    CleanIsTrimmed(vm.disk);
    CleanIsTrimmed(vm.architecture);
    CleanNumbers(vm.cpu);
    CleanNumbers(vm.memoryMib);
    assert lines[..9] == lines;
  }

  lemma FirstSettings(vm: Settings, description: string)
    ensures InsertAll(ConfigLines(vm, description)[..5])
         == map["NAME" := Trim(vm.name)]["DESC" := Trim(OneLine(description))]
               ["CPU" := Trim(Decimal(vm.cpu))]["RAM" := Trim(Decimal(vm.memoryMib))]
  {
    hide Upper, Decimal, Trim, OneLine, InsertAll, ShowBool;
    var lines := ConfigLines(vm, description);
    Capitals();
    HeaderSetsNothing();
    InsertNext(lines, 0);
    NothingIsSet(lines);
    SetsKey(lines, 1, "Name", vm.name);
    SetsKey(lines, 2, "Desc", OneLine(description));
    SetsKey(lines, 3, "CPU", Decimal(vm.cpu));
    SetsKey(lines, 4, "RAM", Decimal(vm.memoryMib));
  }

  lemma NothingIsSet(lines: seq<string>)
    ensures InsertAll(lines[..0]) == map[]
  {
  }

  lemma LastSettings(vm: Settings, description: string)
    ensures InsertAll(ConfigLines(vm, description)[..9])
         == InsertAll(ConfigLines(vm, description)[..5])["DISK" := Trim(vm.disk)]["ARCH" := Trim(vm.architecture)]
              ["TPM2" := ShowBool(vm.tpm2)]["SECUREBOOT" := ShowBool(vm.secureBoot)]
  {
    hide Upper, Decimal, Trim, OneLine, InsertAll;
    var lines := ConfigLines(vm, description);
    LastCapitals();
    CleanBoolean(vm.tpm2);
    CleanBoolean(vm.secureBoot);
    SetsKey(lines, 5, "DISK", vm.disk);
    SetsKey(lines, 6, "ARCH", vm.architecture);
    SetsKey(lines, 7, "TPM2", ShowBool(vm.tpm2));
    SetsKey(lines, 8, "SECUREBOOT", ShowBool(vm.secureBoot));
  }

  lemma CleanIsTrimmed(s: string)
    requires Clean(s)
    ensures Trim(s) == s
  {
    TrimIsTrimmed(s);
  }

  lemma CleanNumbers(n: nat)
    ensures Trim(Decimal(n)) == Decimal(n)
  {
    DecimalIsParsed(n);
    TrimIsTrimmed(Decimal(n));
  }

  lemma CleanBoolean(b: bool)
    ensures Trim(ShowBool(b)) == ShowBool(b) && Lower(ShowBool(b)) == ShowBool(b)
  {
    TrimIsTrimmed(ShowBool(b));
    LowercaseStays(ShowBool(b));
  }

  lemma {:induction false} LowercaseStays(s: string)
    requires forall k :: 0 <= k < |s| ==> 'a' <= s[k] <= 'z'
    ensures Lower(s) == s
  {
    if s != "" {
      LowercaseStays(s[1..]);
      FirstElement(s);
    }
  }

  // ---- Every key is set, whatever the values ------------------------------------------

  ghost predicate HasSetting(lines: seq<string>, key: string) {
    exists k, v: string :: 0 <= k < |lines| && lines[k] == key + "=" + v
  }

  lemma {:induction false} SettingIsFound(lines: seq<string>, key: string)
    requires Word(key) && HasSetting(lines, key)
    ensures Upper(key) in InsertAll(lines)
  {
    hide Upper, Word, ParseLine;
    var k, v: string :| 0 <= k < |lines| && lines[k] == key + "=" + v;
    var n := |lines| - 1;
    if k == n {
      SettingIsParsed(key, v);
    } else {
      assert lines[..n][k] == key + "=" + v;
      SettingIsFound(lines[..n], key);
    }
  }

  lemma FindIsFirst(s: string, c: char)
    ensures c !in s[..Find(s, c)] && (Find(s, c) < |s| ==> s[Find(s, c)] == c)
    ensures c in s ==> Find(s, c) < |s|
  {
  }

  /** A setting starts a line, and its value may start more. */
  lemma SettingStartsALine(key: string, v: string)
    requires LF !in key
    ensures HasSetting(Lines.Complete(key + "=" + v + [LF], LF), key)
  {
    var line := v + [LF];
    FindIsFirst(line, LF);
    var i := Find(line, LF);
    assert line[|v|] == LF;
    var w := line[..i];
    assert key + "=" + v + [LF] == key + "=" + w + [LF] + line[i + 1..];
    Lines.FirstLine(key + "=" + w, line[i + 1..], LF);
    assert Lines.Complete(key + "=" + v + [LF], LF)[0] == key + "=" + w;
  }

  lemma {:induction false} SettingsAreLines(lines: seq<string>, key: string)
    requires LF !in key && HasSetting(lines, key)
    ensures HasSetting(Lines.Complete(Lines.Terminated(lines, LF), LF), key)
  {
    var k, v: string :| 0 <= k < |lines| && lines[k] == key + "=" + v;
    var n := |lines| - 1;
    var t := Lines.Terminated(lines[..n], LF);
    Associative(t, lines[n], [LF]);
    Lines.CompleteAppend(t, lines[n] + [LF], LF);
    EndsALine(lines[..n]);
    assert "" + (lines[n] + [LF]) == lines[n] + [LF];
    var before, after := Lines.Complete(t, LF), Lines.Complete(lines[n] + [LF], LF);
    if k == n {
      SettingStartsALine(key, v);
      SettingAmong(before, after, key);
    } else {
      assert lines[..n][k] == key + "=" + v;
      SettingsAreLines(lines[..n], key);
      SettingAmong(before, after, key);
    }
  }

  lemma EndsALine(lines: seq<string>)
    ensures Lines.Rest(Lines.Terminated(lines, LF), LF) == ""
  {
  }

  lemma SettingAmong(a: seq<string>, b: seq<string>, key: string)
    requires HasSetting(a, key) || HasSetting(b, key)
    ensures HasSetting(a + b, key)
  {
    if HasSetting(a, key) {
      var k, v: string :| 0 <= k < |a| && a[k] == key + "=" + v;
      assert (a + b)[k] == key + "=" + v;
    } else {
      var k, v: string :| 0 <= k < |b| && b[k] == key + "=" + v;
      assert (a + b)[|a| + k] == key + "=" + v;
    }
  }

  /** Whatever the settings are, the text names the VM and its architecture. */
  lemma NamesAreSet(vm: Settings, description: string)
    ensures var c := InsertAll(TextLines(ConfigText(vm, description))); "NAME" in c && "ARCH" in c
  {
    hide InsertAll, TextLines, ConfigLines, HasSetting, Word, Upper, Lines.Terminated;
    var lines := ConfigLines(vm, description);
    NamesAreWords();
    Capitals();
    LastCapitals();
    NamesAreThere(vm, description);
    KeyIsSet(lines, "Name");
    KeyIsSet(lines, "ARCH");
  }

  lemma NamesAreWords()
    ensures Word("Name") && Word("ARCH") && LF !in "Name" && LF !in "ARCH"
  {
  }

  lemma NamesAreThere(vm: Settings, description: string)
    ensures HasSetting(ConfigLines(vm, description), "Name") && HasSetting(ConfigLines(vm, description), "ARCH")
  {
    hide OneLine, Decimal, ShowBool;
    var lines := ConfigLines(vm, description);
    assert lines[1] == "Name" + "=" + vm.name;
    assert lines[6] == "ARCH" + "=" + vm.architecture;
  }

  lemma KeyIsSet(lines: seq<string>, key: string)
    requires Word(key) && LF !in key && HasSetting(lines, key)
    ensures Upper(key) in InsertAll(TextLines(Lines.Terminated(lines, LF)))
  {
    hide InsertAll, HasSetting, Upper;
    SettingsAreLines(lines, key);
    EndsALine(lines);
    Neutral(Lines.Complete(Lines.Terminated(lines, LF), LF));
    SettingIsFound(TextLines(Lines.Terminated(lines, LF)), key);
  }

  // ---- Import after export -------------------------------------------------------------

  /**
    Importing an exported template gives back the name, CPU, RAM, disk name,
    architecture, TPM 2 and Secure Boot of the VM, for any description and fallbacks, if
    and only if the name, the disk name and the architecture are free of line
    breaks and surrounding white space and the architecture is a normalised one.
   */
  lemma ExportThenImport(vm: Settings, description: string, architecture: string, name: string)
    requires vm.cpu <= U16_MAX && vm.memoryMib <= U32_MAX
    ensures Import(InsertAll(TextLines(ConfigText(vm, description))), architecture, name) == Ok(vm)
      <==>
        Clean(vm.name) && Clean(vm.disk) && Clean(vm.architecture) && NormalizeArch(vm.architecture) == vm.architecture
  {
    hide Upper, Decimal, White, Trim, Digits, OneLine, InsertAll, Trimmed;
    var raw := ConfigText(vm, description);
    TextLinesAreUnbroken(raw);
    ValuesAreClean(TextLines(raw));
    CleanArchitectures();
    NamesAreSet(vm, description);
    if Clean(vm.name) && Clean(vm.disk) && Clean(vm.architecture) {
      PrintedLines(vm, description);
      PrintedIsParsed(vm, description);
      PrintedLookups(vm, description);
      NumberRoundTrip(vm.cpu, U16_MAX);
      NumberRoundTrip(vm.memoryMib, U32_MAX);
      CleanBoolean(vm.tpm2);
      CleanBoolean(vm.secureBoot);
    }
  }

  lemma CleanArchitectures()
    ensures Clean("arm64") && Clean("amd64")
  {
  }
}
