/**
 config/config.c: reading the configuration file line by line into a temporary that is installed
 only when everything went well.
 */
module Config {
  import opened Lexer
  import opened Grammar

  const PROMPT_SIZE := 64
  const LINE_SIZE := 256
  const INT_MAX := 2147483647

  const OK := 0
  const ERR_OPEN := -6
  const ERR_PARSE := -7

  datatype Settings = Settings(prompts: string, maxJob: int, debug: int)

  /** config_init */
  const DEFAULTS := Settings("MiniShell", 64, 0)

  // ---------------------------------------------------------------- trimming

  predicate AllSpace(s: string) { forall i :: 0 <= i < |s| ==> IsSpace(s[i]) }

  predicate Trimmed(s: string) { s == "" || (!IsSpace(s[0]) && !IsSpace(s[|s| - 1])) }

  function TrimLeft(s: string): string {
    if s == "" || !IsSpace(s[0]) then s else TrimLeft(s[1..])
  }

  function TrimRight(s: string): string {
    if s == "" || !IsSpace(s[|s| - 1]) then s else TrimRight(s[..|s| - 1])
  }

  function Trim(s: string): string { TrimRight(TrimLeft(s)) }

  lemma {:induction false} TrimLeftSplits(s: string) returns (a: string)
    ensures s == a + TrimLeft(s) && AllSpace(a)
    ensures TrimLeft(s) == "" || !IsSpace(TrimLeft(s)[0])
  {
    a := "";
    if s != "" && IsSpace(s[0]) {
      a := TrimLeftSplits(s[1..]);
      a := [s[0]] + a;
    }
  }

  lemma {:induction false} TrimRightSplits(s: string) returns (b: string)
    ensures s == TrimRight(s) + b && AllSpace(b)
    ensures TrimRight(s) == "" || !IsSpace(TrimRight(s)[|TrimRight(s)| - 1])
  {
    b := "";
    if s != "" && IsSpace(s[|s| - 1]) {
      b := TrimRightSplits(s[..|s| - 1]);
      b := b + [s[|s| - 1]];
    }
  }

  /** What trimming keeps: the text between the outermost characters that are not white space. */
  lemma TrimMeaning(s: string) returns (a: string, b: string)
    ensures s == a + Trim(s) + b && AllSpace(a) && AllSpace(b) && Trimmed(Trim(s))
  {
    hide TrimLeft, TrimRight, AllSpace;
    var t := TrimLeft(s);
    a := TrimLeftSplits(s);
    b := TrimRightSplits(t);
    assert a + (Trim(s) + b) == a + Trim(s) + b;
    assert Trim(s) != "" ==> Trim(s)[0] == t[0];
  }

  lemma {:induction false} TrimLeftSpaces(a: string, s: string)
    requires AllSpace(a) && (s == "" || !IsSpace(s[0]))
    ensures TrimLeft(a + s) == s
  {
    if a == "" {
      assert a + s == s;
    } else {
      assert (a + s)[1..] == a[1..] + s;
      TrimLeftSpaces(a[1..], s);
    }
  }

  lemma {:induction false} TrimRightSpaces(s: string, b: string)
    requires AllSpace(b) && (s == "" || !IsSpace(s[|s| - 1]))
    ensures TrimRight(s + b) == s
  {
    if b == "" {
      assert s + b == s;
    } else {
      assert (s + b)[..|s + b| - 1] == s + b[..|b| - 1];
      TrimRightSpaces(s, b[..|b| - 1]);
    }
  }

  /** trim_space: two pointers moving towards each other. */
  method TrimSpace(text: string) returns (r: string)
    ensures r == Trim(text)
  {
    var start := 0;
    while start < |text| && IsSpace(text[start])
      invariant 0 <= start <= |text| && AllSpace(text[..start])
    {
      start := start + 1;
    }
    var end := |text|;
    while end > start && IsSpace(text[end - 1])
      invariant start <= end <= |text| && AllSpace(text[end..])
    {
      end := end - 1;
    }
    r := text[start..end];
    ghost var kept := text[start..];
    assert text == text[..start] + kept && kept == r + text[end..];
    TrimLeftSpaces(text[..start], kept);
    TrimRightSpaces(r, text[end..]);
  }

  // ---------------------------------------------------------------- one line

  /** What a line asks for. */
  datatype Setting = Ignored | Prompt(text: string) | MaxJob(n: int) | Debug(on: int) | Bad

  /** strtol(_, _, 10) on a trimmed text, provided that it consumes all of it. */
  function Number(s: string): Option<int> {
    if AllDigits(s) then Some(DigitsValue(s))
    else if s != "" && s[0] == '+' && AllDigits(s[1..]) then Some(DigitsValue(s[1..]))
    else if s != "" && s[0] == '-' && AllDigits(s[1..]) then Some(-DigitsValue(s[1..]))
    else None
  }

  /** Position of the first '=', or the length if there is none. */
  function EqualAt(s: string): (n: nat)
    ensures n <= |s| && (forall i :: 0 <= i < n ==> s[i] != '=') && (n < |s| ==> s[n] == '=')
  {
    if s == "" || s[0] == '=' then 0 else 1 + EqualAt(s[1..])
  }

  function SettingOf(line: string): Setting {
    var text := Trim(line);
    if text == "" || text[0] == '#' then Ignored
    else if EqualAt(text) == |text| then Bad
    else
      Asked(Trim(text[..EqualAt(text)]), Trim(text[EqualAt(text) + 1..]))
  }

  function Asked(key: string, value: string): Setting {
    if key == "prompts" then
      (if value == "" || |value| >= PROMPT_SIZE then Bad else Prompt(value))
    else if key == "max_job" then
      (if Number(value).None? || Number(value).value <= 0 || Number(value).value > INT_MAX then Bad
       else MaxJob(Number(value).value))
    else if key == "debug" then
      (if value == "0" then Debug(0) else if value == "1" then Debug(1) else Bad)
    else Bad
  }

  function Applied(c: Settings, s: Setting): Settings {
    match s
    case Prompt(text) => c.(prompts := text)
    case MaxJob(n) => c.(maxJob := n)
    case Debug(on) => c.(debug := on)
    case _ => c
  }

  /** config_parse_line */
  method ParseLine(line: string, c: Settings) returns (r: int, c': Settings)
    ensures r == if SettingOf(line).Bad? then ERR_PARSE else OK
    ensures c' == Applied(c, SettingOf(line))
  {
    c', r := c, OK;
    var text := TrimSpace(line);
    if text == "" || text[0] == '#' { return; }
    var equal := 0;
    while equal < |text| && text[equal] != '='
      invariant 0 <= equal <= |text| && forall i :: 0 <= i < equal ==> text[i] != '='
    {
      equal := equal + 1;
    }
    EqualUnique(text, equal);
    if equal == |text| { return ERR_PARSE, c; }
    var key := TrimSpace(text[..equal]);
    var value := TrimSpace(text[equal + 1..]);
    if key == "" { return ERR_PARSE, c; }
    if key == "prompts" {
      if value == "" || |value| >= PROMPT_SIZE { return ERR_PARSE, c; }
      c' := c.(prompts := value);
    } else if key == "max_job" {
      var n := Number(value);
      if n.None? || n.value <= 0 || n.value > INT_MAX { return ERR_PARSE, c; }
      c' := c.(maxJob := n.value);
    } else if key == "debug" {
      if value == "0" {
        c' := c.(debug := 0);
      } else if value == "1" {
        c' := c.(debug := 1);
      } else {
        r := ERR_PARSE;
      }
    } else {
      r := ERR_PARSE;
    }
  }

  lemma EqualUnique(s: string, n: nat)
    requires n <= |s| && (forall i :: 0 <= i < n ==> s[i] != '=') && (n < |s| ==> s[n] == '=')
    ensures EqualAt(s) == n
  {
  }

  // ---------------------------------------------------------------- the file

  predicate ValidPrompt(p: string) {
    1 <= |p| < PROMPT_SIZE && Trimmed(p) && '\n' !in p && '\0' !in p
  }

  predicate ValidSettings(c: Settings) {
    ValidPrompt(c.prompts) && 1 <= c.maxJob <= INT_MAX && (c.debug == 0 || c.debug == 1)
  }

  /** A line as fgets delivers it: no NUL, and a newline only at its end. */
  predicate LineShape(line: string) {
    '\0' !in line && forall i :: 0 <= i < |line| - 1 ==> line[i] != '\n'
  }

  lemma TrimInside(s: string) returns (a: string, b: string)
    ensures s == a + Trim(s) + b && Trimmed(Trim(s))
    ensures forall i :: 0 <= i < |Trim(s)| ==> Trim(s)[i] == s[|a| + i]
  {
    hide Trim;
    a, b := TrimMeaning(s);
  }

  /** A newline at the end of a line does not survive trimming. */
  lemma TrimmedLine(line: string)
    requires LineShape(line)
    ensures '\n' !in Trim(line) && '\0' !in Trim(line)
  {
    hide Trim;
    var a, b := TrimInside(line);
    var t := Trim(line);
    forall i | 0 <= i < |t| ensures t[i] != '\n' && t[i] != '\0' {
      assert t[i] == line[|a| + i];
      if i < |t| - 1 { assert |a| + i < |line| - 1; }
    }
  }

  lemma TrimmedPart(s: string)
    requires '\n' !in s && '\0' !in s
    ensures '\n' !in Trim(s) && '\0' !in Trim(s) && Trimmed(Trim(s))
  {
    hide Trim;
    var a, b := TrimInside(s);
  }

  lemma AppliedValid(c: Settings, line: string)
    requires ValidSettings(c) && LineShape(line) && !SettingOf(line).Bad?
    ensures ValidSettings(Applied(c, SettingOf(line)))
  {
    var text := Trim(line);
    TrimmedLine(line);
    if EqualAt(text) < |text| {
      TrimmedPart(text[EqualAt(text) + 1..]);
    }
  }

  lemma ChunkShape(file: string)
    ensures LineShape(CString(file[..ChunkLength(file)]))
  {
  }

  /** What fgets gives: up to 255 bytes, through the first newline; `rest` is the file behind it. */
  function ChunkLength(file: string): (n: nat)
    ensures n <= |file| && n < LINE_SIZE && (file != "" ==> n > 0)
  {
    var line := NewlineAt(file);
    var n := if line < |file| then line + 1 else |file|;
    if n < LINE_SIZE then n else LINE_SIZE - 1
  }

  function NewlineAt(s: string): (n: nat)
    ensures n <= |s| && (forall i :: 0 <= i < n ==> s[i] != '\n') && (n < |s| ==> s[n] == '\n')
  {
    if s == "" || s[0] == '\n' then 0 else 1 + NewlineAt(s[1..])
  }

  /** fgets met the end of the file: it wanted more and there was none. */
  predicate HitEof(file: string) {
    NewlineAt(file) == |file| && |file| < LINE_SIZE - 1
  }

  predicate Cut(chunk: string, hitEof: bool) {
    var text := CString(chunk);
    text != "" && text[|text| - 1] != '\n' && !hitEof
  }

  /** The whole file over a starting configuration: the fold of its lines, or nothing if a line is
      too long or bad. */
  function Folded(file: string, c: Settings): Option<Settings>
    decreases |file|
  {
    if file == "" then Some(c)
    else
      var n := ChunkLength(file);
      var setting := SettingOf(CString(file[..n]));
      if Cut(file[..n], HitEof(file)) || setting.Bad? then None
      else Folded(file[n..], Applied(c, setting))
  }

  class Store {
    var config: Settings

    constructor ()
      ensures config == Settings("MiniShell", 64, 0)
    {
      config := DEFAULTS;
    }

    /** config_load: `file` is None when it cannot be opened; `readFails` and `closeFails` are the
        outcomes of ferror and fclose. */
    method Load(file: Option<string>, readFails: bool, closeFails: bool) returns (r: int)
      modifies this
      ensures r != OK ==> config == old(config)
      ensures r == OK <==> file.Some? && Folded(file.value, DEFAULTS).Some? && !readFails && !closeFails
      ensures r == OK ==> Some(config) == Folded(file.value, DEFAULTS) && ValidSettings(config)
    {
      if file.None? { return ERR_OPEN; }
      hide ValidSettings, SettingOf, Applied, CString, ChunkLength, HitEof, LineShape;
      var temporary := DEFAULTS;
      DefaultsValid();
      r := OK;
      var rest := file.value;
      while rest != "" && r == OK
        invariant (r == OK || r == ERR_PARSE) && config == old(config)
        invariant ValidSettings(temporary)
        invariant r == OK ==> Folded(rest, temporary) == Folded(file.value, DEFAULTS)
        invariant r != OK ==> Folded(file.value, DEFAULTS).None?
        decreases if r == OK then 1 else 0, |rest|
      {
        var n := ChunkLength(rest);
        var line := CString(rest[..n]);
        if line != "" && line[|line| - 1] != '\n' && !HitEof(rest) {
          r := ERR_PARSE;
        } else {
          ChunkShape(rest);
          if !SettingOf(line).Bad? { AppliedValid(temporary, line); }
          r, temporary := ParseLine(line, temporary);
          if r == OK {
            rest := rest[n..];
          } else {
            temporary := DEFAULTS;
          }
        }
      }
      if r == OK && readFails { r := ERR_OPEN; }
      if closeFails && r == OK { r := ERR_OPEN; }
      if r == OK { config := temporary; }
    }
  }

  lemma DefaultsValid()
    ensures ValidSettings(DEFAULTS)
  {
  }

  /** The prompt text always fits its buffer. */
  lemma PromptFits(c: Settings)
    requires ValidSettings(c)
    ensures |">>" + c.prompts + " "| < 128
  {
  }

  // ---------------------------------------------------------------- round trip

  lemma TrimTrimmed(s: string)
    requires Trimmed(s)
    ensures Trim(s) == s && Trim(s + "\n") == s
  {
    assert "" + s == s && "" + (s + "\n") == s + "\n" && s + "" == s;
    if s != "" {
      TrimLeftSpaces("", s);
      TrimLeftSpaces("", s + "\n");
    }
    TrimRightSpaces(s, "");
    TrimRightSpaces(s, "\n");
  }

  /** A line that sets a trimmed key to a trimmed value. */
  lemma SettingLine(key: string, value: string)
    requires Trimmed(key) && key != "" && key[0] != '#' && '=' !in key && Trimmed(value) && value != ""
    ensures SettingOf(key + "=" + value + "\n") == Asked(key, value)
  {
    var text := key + "=" + value;
    assert text[0] == key[0] && text[|text| - 1] == value[|value| - 1];
    TrimTrimmed(text);
    EqualUnique(text, |key|);
    assert text[..|key|] == key && text[|key| + 1..] == value;
    TrimTrimmed(key);
    TrimTrimmed(value);
  }

  lemma {:induction false} NewlineUnique(s: string, n: nat)
    requires n <= |s| && (forall i :: 0 <= i < n ==> s[i] != '\n') && (n < |s| ==> s[n] == '\n')
    ensures NewlineAt(s) == n
  {
  }

  /** Reading one complete line that fits. */
  lemma FoldLine(line: string, rest: string, c: Settings)
    requires '\n' !in line && '\0' !in line && |line| + 1 < LINE_SIZE
    ensures Folded(line + "\n" + rest, c) ==
      if SettingOf(line + "\n").Bad? then None else Folded(rest, Applied(c, SettingOf(line + "\n")))
  {
    var file := line + "\n" + rest;
    NewlineUnique(file, |line|);
    assert ChunkLength(file) == |line| + 1;
    assert file[..|line| + 1] == line + "\n" && file[|line| + 1..] == rest;
    NoNulText(line + "\n");
  }

  lemma {:induction false} NoNulText(s: string)
    requires '\0' !in s
    ensures CString(s) == s
  {
  }

  function Line(key: string, value: string): string { key + "=" + value + "\n" }

  /** How a configuration is written. */
  function Printed(c: Settings): string {
    Line("prompts", c.prompts) + (Line("max_job", Decimal(c.maxJob)) + (Line("debug", Decimal(c.debug)) + ""))
  }

  lemma FoldSetting(key: string, value: string, rest: string, c: Settings)
    requires Trimmed(key) && key != "" && key[0] != '#' && '=' !in key && Trimmed(value) && value != ""
    requires '\n' !in key && '\0' !in key && '\n' !in value && '\0' !in value && |key| + |value| < LINE_SIZE - 2
    ensures Folded(Line(key, value) + rest, c) ==
      if Asked(key, value).Bad? then None else Folded(rest, Applied(c, Asked(key, value)))
  {
    hide SettingOf, Asked;
    SettingLine(key, value);
    FoldLine(key + "=" + value, rest, c);
  }

  lemma DigitsPlain(s: string)
    requires AllDigits(s)
    ensures Trimmed(s) && '\n' !in s && '\0' !in s
  {
  }

  lemma FoldPrompts(prompts: string, rest: string, base: Settings, c: Settings)
    requires ValidSettings(c) && prompts == c.prompts
    ensures Folded(Line("prompts", prompts) + rest, base) == Folded(rest, base.(prompts := prompts))
  {
    hide Folded, SettingOf, Line;
    FoldSetting("prompts", prompts, rest, base);
  }

  lemma FoldMaxJob(n: int, rest: string, base: Settings, c: Settings)
    requires ValidSettings(c) && n == c.maxJob
    ensures Folded(Line("max_job", Decimal(n)) + rest, base) == Folded(rest, base.(maxJob := n))
  {
    hide Folded, SettingOf, Decimal, Line;
    TenDigits();
    DecimalReads(n);
    DecimalFits(n, 10);
    DigitsPlain(Decimal(n));
    FoldSetting("max_job", Decimal(n), rest, base);
  }

  lemma FoldDebug(n: int, rest: string, base: Settings)
    requires n == 0 || n == 1
    ensures Folded(Line("debug", Decimal(n)) + rest, base) == Folded(rest, base.(debug := n))
  {
    hide Folded, SettingOf, Decimal, Line;
    TenDigits();
    DecimalReads(n);
    DecimalFits(n, 1);
    DigitsPlain(Decimal(n));
    OneDigit(n);
    FoldSetting("debug", Decimal(n), rest, base);
  }

  /** Printing any configuration that can be in force and loading the text gives it back. */
  lemma ConfigRoundTrip(c: Settings, before: Settings)
    requires ValidSettings(c)
    ensures Folded(Printed(c), before) == Some(c)
  {
    hide Folded, Decimal, Line;
    var last := Line("debug", Decimal(c.debug)) + "";
    var c1 := before.(prompts := c.prompts);
    FoldPrompts(c.prompts, Line("max_job", Decimal(c.maxJob)) + last, before, c);
    FoldMaxJob(c.maxJob, last, c1, c);
    FoldDebug(c.debug, "", c1.(maxJob := c.maxJob));
    FoldNothing(c);
  }

  lemma FoldNothing(c: Settings)
    ensures Folded("", c) == Some(c)
  {
  }

  lemma TenDigits()
    ensures Power10(10) == 10000000000 && Power10(1) == 10
  {
  }

  lemma OneDigit(n: int)
    requires n == 0 || n == 1
    ensures Decimal(n) == if n == 0 then "0" else "1"
  {
  }

  // ---------------------------------------------------------------- which files are accepted

  lemma TrimIs(a: string, t: string, b: string)
    requires AllSpace(a) && AllSpace(b) && Trimmed(t)
    ensures Trim(a + t + b) == t
  {
    if t == "" {
      assert a + t + b == (a + b) + "";
      TrimLeftSpaces(a + b, "");
    } else {
      assert a + t + b == a + (t + b);
      TrimLeftSpaces(a, t + b);
      TrimRightSpaces(t, b);
    }
  }

  /** Blank lines and comments are accepted and change nothing, whatever they say. */
  lemma CommentIgnored(ws: string, text: string, rest: string, c: Settings)
    requires AllSpace(ws) && (text == "" || text[0] == '#')
    requires '\n' !in ws + text && '\0' !in ws + text && |ws| + |text| <= 254
    ensures Folded(ws + text + "\n" + rest, c) == Folded(rest, c)
  {
    hide Folded;
    var line := ws + text;
    if text == "" {
      assert line + "\n" == ws + "" + "\n";
      TrimIs(ws, "", "\n");
    } else {
      var s := text + "\n";
      assert line + "\n" == ws + s;
      TrimLeftSpaces(ws, s);
      var b := TrimRightSplits(s);
      assert s[0] == '#';
      assert TrimRight(s) != "";
      assert TrimRight(s)[0] == s[0];
    }
    FoldLine(line, rest, c);
  }

  /** A line of more than 254 bytes is refused wherever it stands. */
  lemma OverlongRefused(line: string, tail: string, c: Settings)
    requires '\n' !in line && '\0' !in line && |line| >= 255
    ensures Folded(line + tail, c) == None
  {
    var file := line + tail;
    assert forall i :: 0 <= i < |line| ==> file[i] == line[i];
    assert NewlineAt(file) >= |line|;
    assert ChunkLength(file) == 255;
    var chunk := file[..255];
    assert chunk == line[..255];
    NoNulText(chunk);
    assert chunk[254] == line[254];
  }

  /** A line with any other key is refused, whatever its value. */
  lemma UnknownKeyRefused(key: string, value: string, rest: string, c: Settings)
    requires Trimmed(key) && key != "" && key[0] != '#' && '=' !in key
    requires key !in ["prompts", "max_job", "debug"]
    requires '\n' !in key && '\0' !in key && '\n' !in value && '\0' !in value
    ensures Folded(key + "=" + value + "\n" + rest, c) == None
  {
    hide Folded;
    var line := key + "=" + value;
    if |line| >= 255 {
      assert line + "\n" + rest == line + ("\n" + rest);
      OverlongRefused(line, "\n" + rest, c);
    } else {
      KeyOf(key, value);
      FoldLine(line, rest, c);
    }
  }

  lemma KeyOf(key: string, value: string)
    requires Trimmed(key) && key != "" && key[0] != '#' && '=' !in key
    ensures exists v :: SettingOf(key + "=" + value + "\n") == Asked(key, v)
  {
    hide Asked, TrimLeft, TrimRight;
    var s := key + "=" + value + "\n";
    assert "" + s == s && s[0] == key[0];
    TrimLeftSpaces("", s);
    KeepsKey(key, value);
    var text := TrimRight(s);
    EqualUnique(text, |key|);
    TrimTrimmed(key);
    assert SettingOf(s) == Asked(key, Trim(text[|key| + 1..]));
  }

  /** A line that is neither blank nor a comment is refused when it has no '=', or nothing before it. */
  lemma MalformedRefused(text: string, value: string, rest: string, c: Settings)
    requires Trimmed(text) && text != "" && text[0] != '#' && '=' !in text && '\n' !in text && '\0' !in text
    requires '\n' !in value && '\0' !in value && |text| <= 254 && |value| <= 253
    ensures Folded(text + "\n" + rest, c) == None && Folded("=" + value + "\n" + rest, c) == None
  {
    hide Folded, TrimLeft, TrimRight;
    TrimTrimmed(text);
    EqualUnique(text, |text|);
    FoldLine(text, rest, c);
    var s := "=" + value + "\n";
    assert "" + s == s && s[0] == '=';
    TrimLeftSpaces("", s);
    KeepsKey("", value);
    assert "" + "=" + value + "\n" == s;
    EqualUnique(TrimRight(s), 0);
    TrimTrimmed("");
    FoldLine("=" + value, rest, c);
  }

  lemma KeepsKey(key: string, value: string)
    ensures var text := TrimRight(key + "=" + value + "\n");
      |text| > |key| && text[..|key|] == key && text[|key|] == '='
  {
    hide TrimRight;
    var s := key + "=" + value + "\n";
    var b := TrimRightSplits(s);
    var text := TrimRight(s);
    assert s[|key|] == '=';
    assert |text| > |key|;
    assert forall i :: 0 <= i <= |key| ==> text[i] == s[i];
  }

  lemma {:induction false} NotNegative(s: string)
    requires forall i :: 0 <= i < |s| ==> IsDigit(s[i])
    ensures DigitsValue(s) >= 0
  {
    if s != "" { NotNegative(s[..|s| - 1]); }
  }

  /** A number of jobs is accepted exactly when it is written in digits (after at most a sign) and
      lies in 1..2147483647. */
  lemma MaxJobLine(value: string, rest: string, c: Settings)
    requires Trimmed(value) && value != "" && '\n' !in value && '\0' !in value && |value| <= 200
    ensures AllDigits(value) ==>
      Folded("max_job=" + value + "\n" + rest, c)
      == if 1 <= DigitsValue(value) <= 2147483647 then Folded(rest, c.(maxJob := DigitsValue(value))) else None
    ensures value[0] == '+' && AllDigits(value[1..]) ==>
      Folded("max_job=" + value + "\n" + rest, c)
      == if 1 <= DigitsValue(value[1..]) <= 2147483647
         then Folded(rest, c.(maxJob := DigitsValue(value[1..]))) else None
    ensures value[0] == '-' ==> Folded("max_job=" + value + "\n" + rest, c) == None
    ensures (exists i :: 0 < i < |value| && !('0' <= value[i] <= '9')) ==>
      Folded("max_job=" + value + "\n" + rest, c) == None
    ensures value[0] !in ['+', '-'] && !('0' <= value[0] <= '9') ==>
      Folded("max_job=" + value + "\n" + rest, c) == None
  {
    if AllDigits(value[1..]) { NotNegative(value[1..]); }
    hide Folded, DigitsValue;
    FoldSetting("max_job", value, rest, c);
    assert Line("max_job", value) + rest == "max_job=" + value + "\n" + rest;
    if i :| 0 < i < |value| && !('0' <= value[i] <= '9') {
      assert value[1..][i - 1] == value[i];
    }
  }

  /** The prompt must have 1 to 63 bytes, and debug must be 0 or 1. */
  lemma PromptAndDebugLines(value: string, rest: string, c: Settings)
    requires Trimmed(value) && value != "" && '\n' !in value && '\0' !in value && |value| <= 200
    ensures Folded("prompts=" + value + "\n" + rest, c) ==
      if |value| <= 63 then Folded(rest, c.(prompts := value)) else None
    ensures Folded("debug=" + value + "\n" + rest, c) ==
      if value == "0" then Folded(rest, c.(debug := 0))
      else if value == "1" then Folded(rest, c.(debug := 1))
      else None
  {
    hide Folded;
    FoldSetting("prompts", value, rest, c);
    FoldSetting("debug", value, rest, c);
    assert Line("prompts", value) + rest == "prompts=" + value + "\n" + rest;
    assert Line("debug", value) + rest == "debug=" + value + "\n" + rest;
  }

  /** A last line without its newline counts like any other. */
  lemma LastLine(line: string, c: Settings)
    requires '\n' !in line && '\0' !in line && 0 < |line| <= 254
    ensures Folded(line, c) == Folded(line + "\n", c)
  {
    var a, b := TrimMeaning(line);
    assert line + "\n" == a + Trim(line) + (b + "\n");
    TrimIs(a, Trim(line), b + "\n");
    NewlineUnique(line, |line|);
    assert line[..|line|] == line && line[|line|..] == "";
    NoNulText(line);
    assert line + "\n" + "" == line + "\n";
    FoldLine(line, "", c);
    hide SettingOf, Trim;
    assert SettingOf(line) == SettingOf(line + "\n") by { SameSetting(line, line + "\n"); }
  }

  lemma SameSetting(a: string, b: string)
    requires Trim(a) == Trim(b)
    ensures SettingOf(a) == SettingOf(b)
  {
  }
}
