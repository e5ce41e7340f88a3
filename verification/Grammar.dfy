/**
 The command language as a grammar, and the one-pass parser of src/parser.c as a function, with
 the proof that the function accepts exactly the grammar and means what the grammar means.
 */
module Grammar {
  import opened Lexer

  const MAX_ARGS := 64

  datatype Option<+T> = None | Some(value: T)

  /** One stage of a pipeline. */
  datatype Command = Command(argv: seq<string>, input: Option<string>, output: Option<string>, append: bool)

  const BLANK := Command([], None, None, false)

  datatype Outcome = Parsed(commands: seq<Command>, background: bool) | SyntaxError

  // ---------------------------------------------------------------- the grammar

  /** An item of a command: an argument, or a redirection with its file name. */
  datatype Item = Arg(word: string) | In(file: string) | Out(file: string, append: bool)

  function ItemTokens(it: Item): seq<Token> {
    match it
    case Arg(w) => [Token(Word, w)]
    case In(f) => [Token(RedirectIn, "<"), Token(Word, f)]
    case Out(f, append) => [if append then Token(RedirectAppend, ">>") else Token(RedirectOut, ">"), Token(Word, f)]
  }

  function SegmentTokens(items: seq<Item>): seq<Token> {
    if items == [] then [] else ItemTokens(items[0]) + SegmentTokens(items[1..])
  }

  /** A line: a first segment, the segments behind the pipes, and perhaps a final `&`. */
  function LineTokens(first: seq<Item>, more: seq<seq<Item>>, background: bool): seq<Token>
    decreases |more|
  {
    SegmentTokens(first) +
    if more == [] then (if background then [Token(Background, "&")] else [])
    else [Token(Pipe, "|")] + LineTokens(more[0], more[1..], background)
  }

  function Words(items: seq<Item>): seq<string> {
    if items == [] then [] else (if items[0].Arg? then [items[0].word] else []) + Words(items[1..])
  }

  function Inputs(items: seq<Item>): seq<string> {
    if items == [] then [] else (if items[0].In? then [items[0].file] else []) + Inputs(items[1..])
  }

  function Outputs(items: seq<Item>): seq<(string, bool)> {
    if items == [] then [] else (if items[0].Out? then [(items[0].file, items[0].append)] else []) + Outputs(items[1..])
  }

  /** 1 to 63 words, at most one input and one output redirection. */
  predicate SegmentOk(items: seq<Item>) {
    1 <= |Words(items)| <= 63 && |Inputs(items)| <= 1 && |Outputs(items)| <= 1
  }

  /** A segment behind a pipe must also start with a word. */
  predicate TailOk(items: seq<Item>) {
    SegmentOk(items) && items != [] && items[0].Arg?
  }

  predicate LineOk(first: seq<Item>, more: seq<seq<Item>>) {
    SegmentOk(first) && forall i :: 0 <= i < |more| ==> TailOk(more[i])
  }

  /** `$?` as a word of its own stands for the last exit status. */
  function Expand(word: string, status: int): string {
    if word == "$?" then Decimal(status) else word
  }

  function Decimal(n: int): string
    decreases if n < 0 then 1 - n else n
  {
    if n < 0 then "-" + Decimal(-n)
    else if n < 10 then [('0' as int + n) as char]
    else Decimal(n / 10) + [('0' as int + n % 10) as char]
  }

  predicate IsDigit(c: char) { '0' <= c <= '9' }

  predicate AllDigits(s: string) { s != "" && forall i :: 0 <= i < |s| ==> IsDigit(s[i]) }

  /** The number a string of digits denotes. */
  function DigitsValue(s: string): int
    requires forall i :: 0 <= i < |s| ==> IsDigit(s[i])
  {
    if s == "" then 0 else DigitsValue(s[..|s| - 1]) * 10 + (s[|s| - 1] as int - '0' as int)
  }

  /** Numbers are decimal: units, tens, hundreds. */
  lemma ThreeDigits(a: char, b: char, c: char)
    requires IsDigit(a) && IsDigit(b) && IsDigit(c)
    ensures DigitsValue([a, b, c]) ==
      100 * (a as int - '0' as int) + 10 * (b as int - '0' as int) + (c as int - '0' as int)
  {
    assert [a, b, c][..2] == [a, b] && [a, b][..1] == [a] && [a][..0] == [];
    assert DigitsValue([a]) == a as int - '0' as int;
    assert DigitsValue([a, b]) == 10 * (a as int - '0' as int) + (b as int - '0' as int);
  }

  lemma {:induction false} DecimalReads(n: nat)
    ensures AllDigits(Decimal(n)) && DigitsValue(Decimal(n)) == n
    ensures |Decimal(n)| == 1 || Decimal(n)[0] != '0'
    decreases n
  {
    var s := Decimal(n);
    if n < 10 {
      assert s[..|s| - 1] == "";
    } else {
      DecimalReads(n / 10);
      assert s[..|s| - 1] == Decimal(n / 10);
      if n / 10 < 10 { assert Decimal(n / 10)[0] as int == '0' as int + n / 10; }
    }
  }

  function Power10(k: nat): nat { if k == 0 then 1 else 10 * Power10(k - 1) }

  lemma {:induction false} DecimalFits(n: nat, k: nat)
    requires k >= 1 && n < Power10(k)
    ensures |Decimal(n)| <= k
    decreases n
  {
    if n >= 10 {
      assert Power10(1) == 10;
      DecimalFits(n / 10, k - 1);
    }
  }

  function ExpandAll(words: seq<string>, status: int): seq<string> {
    seq(|words|, i requires 0 <= i < |words| => Expand(words[i], status))
  }

  function Meaning(items: seq<Item>, status: int): Command {
    Command(ExpandAll(Words(items), status),
            if Inputs(items) == [] then None else Some(Inputs(items)[0]),
            if Outputs(items) == [] then None else Some(Outputs(items)[0].0),
            Outputs(items) != [] && Outputs(items)[0].1)
  }

  function Meanings(more: seq<seq<Item>>, status: int): seq<Command> {
    seq(|more|, i requires 0 <= i < |more| => Meaning(more[i], status))
  }

  // ---------------------------------------------------------------- the one-pass parser

  function Finish(done: seq<Command>, cur: Command, background: bool): Outcome {
    if cur.argv == [] || exists i :: 0 <= i < |done| && done[i].argv == [] then SyntaxError
    else Parsed(done + [cur], background)
  }

  function AddOutput(cur: Command, file: string, append: bool): Command {
    cur.(output := Some(file), append := append)
  }

  /** build_command on the tokens still to come, with the finished stages and the current one. */
  function Build(ts: seq<Token>, done: seq<Command>, cur: Command, status: int): Outcome
    decreases |ts|
  {
    if ts == [] then Finish(done, cur, false)
    else match ts[0].kind
      case Word =>
        if |cur.argv| >= MAX_ARGS - 1 then SyntaxError
        else Build(ts[1..], done, cur.(argv := cur.argv + [Expand(ts[0].text, status)]), status)
      case RedirectIn =>
        if |ts| < 2 || !ts[1].kind.Word? || cur.input.Some? then SyntaxError
        else Build(ts[2..], done, cur.(input := Some(ts[1].text)), status)
      case RedirectOut =>
        if |ts| < 2 || !ts[1].kind.Word? || cur.output.Some? then SyntaxError
        else Build(ts[2..], done, AddOutput(cur, ts[1].text, false), status)
      case RedirectAppend =>
        if |ts| < 2 || !ts[1].kind.Word? || cur.output.Some? then SyntaxError
        else Build(ts[2..], done, AddOutput(cur, ts[1].text, true), status)
      case Background =>
        if |ts| != 1 then SyntaxError else Finish(done, cur, true)
      case Pipe =>
        if cur.argv == [] || |ts| < 2 || !ts[1].kind.Word? then SyntaxError
        else Build(ts[1..], done + [cur], BLANK, status)
  }

  // ---------------------------------------------------------------- segments

  /** A command under construction with the items of a segment added to it. */
  function Extended(cur: Command, items: seq<Item>, status: int): Command {
    Command(cur.argv + ExpandAll(Words(items), status),
            if Inputs(items) == [] then cur.input else Some(Inputs(items)[0]),
            if Outputs(items) == [] then cur.output else Some(Outputs(items)[0].0),
            if Outputs(items) == [] then cur.append else Outputs(items)[0].1)
  }

  predicate Extends(cur: Command, items: seq<Item>) {
    && |cur.argv| + |Words(items)| <= MAX_ARGS - 1
    && (if cur.input.Some? then 1 else 0) + |Inputs(items)| <= 1
    && (if cur.output.Some? then 1 else 0) + |Outputs(items)| <= 1
  }

  function AddItem(cur: Command, it: Item, status: int): Command {
    match it
    case Arg(w) => cur.(argv := cur.argv + [Expand(w, status)])
    case In(f) => cur.(input := Some(f))
    case Out(f, append) => AddOutput(cur, f, append)
  }

  lemma ExtendOne(cur: Command, items: seq<Item>, status: int)
    requires items != []
    ensures Extends(cur, items) <==> Extends(cur, [items[0]]) && Extends(AddItem(cur, items[0], status), items[1..])
    ensures Extends(cur, items) ==>
      Extended(AddItem(cur, items[0], status), items[1..], status) == Extended(cur, items, status)
  {
    hide Extended;
    OneItem(items[0]);
    Uncons(items);
    hide Words, Inputs, Outputs, Expand;
    if Extends(cur, items) { ExtendedOne(cur, items, status); }
  }

  lemma ExtendedOne(cur: Command, items: seq<Item>, status: int)
    requires items != [] && Extends(cur, items)
    ensures Extended(AddItem(cur, items[0], status), items[1..], status) == Extended(cur, items, status)
  {
    var it, rest := items[0], items[1..];
    Uncons(items);
    hide Words, Inputs, Outputs, Expand, ExpandAll;
    if it.Arg? {
      ExpandCons(it, rest, status);
      Assoc(cur.argv, [Expand(it.word, status)], ExpandAll(Words(rest), status));
    } else if it.In? {
      assert Words(items) == Words(rest) && Outputs(items) == Outputs(rest);
      assert Inputs(rest) == [] && Inputs(items) == [it.file];
    } else {
      assert Words(items) == Words(rest) && Outputs(rest) == [] && Outputs(items) == [(it.file, it.append)];
      assert Inputs(items) == Inputs(rest);
    }
  }

  lemma Assoc<T>(a: seq<T>, b: seq<T>, c: seq<T>)
    ensures a + (b + c) == (a + b) + c
  {
  }

  lemma Uncons(items: seq<Item>)
    requires items != []
    ensures Words(items) == if items[0].Arg? then [items[0].word] + Words(items[1..]) else Words(items[1..])
    ensures Inputs(items) == if items[0].In? then [items[0].file] + Inputs(items[1..]) else Inputs(items[1..])
    ensures Outputs(items) ==
      if items[0].Out? then [(items[0].file, items[0].append)] + Outputs(items[1..]) else Outputs(items[1..])
  {
  }

  lemma ExpandCons(it: Item, rest: seq<Item>, status: int)
    ensures it.Arg? ==>
      ExpandAll([it.word] + Words(rest), status) == [Expand(it.word, status)] + ExpandAll(Words(rest), status)
  {
  }

  lemma OneItem(it: Item)
    ensures Words([it]) == if it.Arg? then [it.word] else []
    ensures Inputs([it]) == if it.In? then [it.file] else []
    ensures Outputs([it]) == if it.Out? then [(it.file, it.append)] else []
  {
    assert [it][1..] == [];
  }

  /** Reading one item. */
  lemma BuildItem(it: Item, rest: seq<Token>, done: seq<Command>, cur: Command, status: int)
    requires |cur.argv| <= MAX_ARGS - 1
    ensures Build(ItemTokens(it) + rest, done, cur, status) ==
      if Extends(cur, [it]) then Build(rest, done, AddItem(cur, it, status), status) else SyntaxError
  {
    var ts := ItemTokens(it) + rest;
    OneItem(it);
    hide Words, Inputs, Outputs;
    assert ts[|ItemTokens(it)|..] == rest;
    if it.Arg? {
      assert ts[1..] == rest && ts[0] == Token(Word, it.word);
    } else {
      assert ts[2..] == rest && ts[0] == ItemTokens(it)[0] && ts[1] == ItemTokens(it)[1];
    }
  }

  /** Reading a whole segment. */
  lemma {:induction false} BuildSegment(items: seq<Item>, rest: seq<Token>, done: seq<Command>, cur: Command,
                                        status: int)
    requires Extends(cur, items)
    ensures Build(SegmentTokens(items) + rest, done, cur, status) ==
      Build(rest, done, Extended(cur, items, status), status)
    decreases |items|
  {
    if items == [] {
      assert SegmentTokens(items) + rest == rest;
      assert ExpandAll(Words(items), status) == [];
      assert Extended(cur, items, status) == cur;
    } else {
      ExtendOne(cur, items, status);
      BuildItem(items[0], SegmentTokens(items[1..]) + rest, done, cur, status);
      assert SegmentTokens(items) + rest == ItemTokens(items[0]) + (SegmentTokens(items[1..]) + rest);
      BuildSegment(items[1..], rest, done, AddItem(cur, items[0], status), status);
    }
  }

  lemma ExtendBlank(items: seq<Item>, status: int)
    ensures Extended(BLANK, items, status) == Meaning(items, status)
    ensures SegmentOk(items) ==> Extends(BLANK, items) && Meaning(items, status).argv != []
  {
    assert [] + ExpandAll(Words(items), status) == ExpandAll(Words(items), status);
  }

  // ---------------------------------------------------------------- every sentence is accepted

  lemma {:induction false} BuildAccepts(items: seq<Item>, more: seq<seq<Item>>, background: bool,
                                        done: seq<Command>, cur: Command, status: int)
    requires Extends(cur, items) && Extended(cur, items, status).argv != []
    requires forall i :: 0 <= i < |more| ==> TailOk(more[i])
    requires forall i :: 0 <= i < |done| ==> done[i].argv != []
    ensures Build(LineTokens(items, more, background), done, cur, status)
         == Parsed(done + [Extended(cur, items, status)] + Meanings(more, status), background)
    decreases |more|
  {
    hide Words, Inputs, Outputs, Extended, Extends, Meaning, SegmentOk;
    var cmd := Extended(cur, items, status);
    if more == [] {
      var tail := if background then [Token(Background, "&")] else [];
      BuildSegment(items, tail, done, cur, status);
      assert Build(tail, done, cmd, status) == Finish(done, cmd, background);
      assert Meanings(more, status) == [];
    } else {
      var rest := LineTokens(more[0], more[1..], background);
      BuildSegment(items, [Token(Pipe, "|")] + rest, done, cur, status);
      assert TailOk(more[0]);
      StartsWithWord(more[0], more[1..], background);
      assert ([Token(Pipe, "|")] + rest)[1..] == rest;
      assert ([Token(Pipe, "|")] + rest)[1] == rest[0];
      ExtendBlank(more[0], status);
      BuildAccepts(more[0], more[1..], background, done + [cmd], BLANK, status);
      assert Meanings(more, status) == [Meaning(more[0], status)] + Meanings(more[1..], status);
      assert done + [cmd] + ([Meaning(more[0], status)] + Meanings(more[1..], status))
          == done + [cmd] + [Meaning(more[0], status)] + Meanings(more[1..], status);
    }
  }

  lemma StartsWithWord(items: seq<Item>, more: seq<seq<Item>>, background: bool)
    requires items != [] && items[0].Arg?
    ensures LineTokens(items, more, background) != [] && LineTokens(items, more, background)[0].kind.Word?
  {
  }

  // ---------------------------------------------------------------- only sentences are accepted

  lemma FinishFacts(done: seq<Command>, cur: Command, background: bool)
    requires Finish(done, cur, background).Parsed?
    ensures cur.argv != []
  {
  }

  /** Whatever is accepted can be read as a sentence. */
  lemma {:induction false} BuildSound(ts: seq<Token>, done: seq<Command>, cur: Command, status: int)
    returns (items: seq<Item>, more: seq<seq<Item>>, background: bool)
    requires forall i :: 0 <= i < |ts| ==> ValidToken(ts[i])
    requires Build(ts, done, cur, status).Parsed?
    requires |cur.argv| <= MAX_ARGS - 1
    ensures ts == LineTokens(items, more, background)
    ensures Extends(cur, items) && Extended(cur, items, status).argv != []
    ensures forall i :: 0 <= i < |more| ==> TailOk(more[i])
    ensures ts != [] && ts[0].kind.Word? ==> items != [] && items[0].Arg?
    decreases |ts|
  {
    hide Words, Inputs, Outputs, LineTokens, Extends, Extended, Expand, ExpandAll, AddOutput, ItemTokens, Finish,
         TailOk;
    NoItems(cur, status);
    if ts == [] {
      items, more, background := [], [], false;
      EmptyLine(false);
      FinishFacts(done, cur, false);
      return;
    }
    match ts[0].kind
    case Background =>
      items, more, background := [], [], true;
      EmptyLine(true);
      FinishFacts(done, cur, true);
      assert ts == [ts[0]] && ts[0] == Token(Background, "&");
    case Pipe =>
      var items', more';
      items', more', background := BuildSound(ts[1..], done + [cur], BLANK, status);
      items, more := [], [items'] + more';
      assert ts == [ts[0]] + ts[1..] && ts[0] == Token(Pipe, "|");
      PipeSound(items', more', background, status);
    case _ =>
      var it := ItemOf(ts);
      var n := |ItemTokens(it)|;
      ItemOfTokens(ts);
      BuildItem(it, ts[n..], done, cur, status);
      var items';
      ItemFits(cur, it, status);
      items', more, background := BuildSound(ts[n..], done, AddItem(cur, it, status), status);
      items := [it] + items';
      assert items[1..] == items';
      ExtendOne(cur, items, status);
      LineCons(it, items', more, background);
  }

  lemma ItemFits(cur: Command, it: Item, status: int)
    ensures Extends(cur, [it]) ==> |AddItem(cur, it, status).argv| <= MAX_ARGS - 1
    ensures |ItemTokens(it)| > 0
  {
    OneItem(it);
  }

  lemma NoItems(cur: Command, status: int)
    requires |cur.argv| <= MAX_ARGS - 1
    ensures Extends(cur, []) && Extended(cur, [], status) == cur
  {
    var none: seq<Item> := [];
    assert ExpandAll(Words(none), status) == [];
  }

  lemma EmptyLine(background: bool)
    ensures LineTokens([], [], background) == if background then [Token(Background, "&")] else []
  {
  }

  lemma ItemOfTokens(ts: seq<Token>)
    requires ts != [] && !ts[0].kind.Background? && !ts[0].kind.Pipe?
    requires forall i :: 0 <= i < |ts| ==> ValidToken(ts[i])
    requires !ts[0].kind.Word? ==> |ts| >= 2 && ts[1].kind.Word?
    ensures var n := |ItemTokens(ItemOf(ts))|; n <= |ts| && ts == ItemTokens(ItemOf(ts)) + ts[n..]
  {
    assert ValidToken(ts[0]);
    if !ts[0].kind.Word? { assert ValidToken(ts[1]); }
  }

  lemma PipeSound(items: seq<Item>, more: seq<seq<Item>>, background: bool, status: int)
    requires Extends(BLANK, items) && Extended(BLANK, items, status).argv != [] && items != [] && items[0].Arg?
    requires forall i :: 0 <= i < |more| ==> TailOk(more[i])
    ensures LineTokens([], [items] + more, background) == [Token(Pipe, "|")] + LineTokens(items, more, background)
    ensures forall i :: 0 <= i < |[items] + more| ==> TailOk(([items] + more)[i])
  {
    assert ([items] + more)[0] == items && ([items] + more)[1..] == more;
    ExtendBlank(items, status);
  }

  lemma LineCons(it: Item, items: seq<Item>, more: seq<seq<Item>>, background: bool)
    ensures LineTokens([it] + items, more, background) == ItemTokens(it) + LineTokens(items, more, background)
  {
    SegmentCons(it, items);
    LineSplit(items, more, background);
    LineSplit([it] + items, more, background);
    hide LineTokens, SegmentTokens, ItemTokens;
  }

  lemma SegmentCons(it: Item, items: seq<Item>)
    ensures SegmentTokens([it] + items) == ItemTokens(it) + SegmentTokens(items)
  {
    assert ([it] + items)[1..] == items;
  }

  lemma LineSplit(items: seq<Item>, more: seq<seq<Item>>, background: bool)
    ensures LineTokens(items, more, background) == SegmentTokens(items) + LineTokens([], more, background)
  {
    assert SegmentTokens([]) == [];
    hide SegmentTokens;
  }

  /** The item a token list starts with. */
  function ItemOf(ts: seq<Token>): Item
    requires ts != [] && !ts[0].kind.Background? && !ts[0].kind.Pipe?
    requires !ts[0].kind.Word? ==> |ts| >= 2
  {
    match ts[0].kind
    case RedirectIn => In(ts[1].text)
    case RedirectOut => Out(ts[1].text, false)
    case RedirectAppend => Out(ts[1].text, true)
    case _ => Arg(ts[0].text)
  }

  // ---------------------------------------------------------------- the language, exactly

  ghost predicate Sentence(ts: seq<Token>, first: seq<Item>, more: seq<seq<Item>>, background: bool) {
    LineOk(first, more) && ts == LineTokens(first, more, background)
  }

  /** build_command accepts a token list exactly when it is a sentence of the grammar, and then
      its result is the sentence's meaning. */
  lemma ExactLanguage(ts: seq<Token>, status: int)
    requires forall i :: 0 <= i < |ts| ==> ValidToken(ts[i])
    ensures Build(ts, [], BLANK, status).Parsed? <==>
      exists first, more, background :: Sentence(ts, first, more, background)
    ensures forall first, more, background :: Sentence(ts, first, more, background) ==>
      Build(ts, [], BLANK, status) == Parsed([Meaning(first, status)] + Meanings(more, status), background)
  {
    forall first, more, background | Sentence(ts, first, more, background)
      ensures Build(ts, [], BLANK, status) == Parsed([Meaning(first, status)] + Meanings(more, status), background)
    {
      ExtendBlank(first, status);
      BuildAccepts(first, more, background, [], BLANK, status);
      assert [] + [Meaning(first, status)] == [Meaning(first, status)];
    }
    if Build(ts, [], BLANK, status).Parsed? {
      var first, more, background := BuildSound(ts, [], BLANK, status);
      ExtendBlank(first, status);
      assert Sentence(ts, first, more, background);
    }
  }

  /** What a word of the line is as an argument: itself, except that `$?` is the status in
      decimal, without leading zeros. */
  predicate Means(word: string, arg: string, status: int) {
    && (word != "$?" ==> arg == word)
    && (word == "$?" && status >= 0 ==>
          AllDigits(arg) && DigitsValue(arg) == status && (|arg| == 1 || arg[0] != '0'))
  }

  /** What a segment of the line is as a command. */
  predicate SegmentMeans(items: seq<Item>, c: Command, status: int) {
    && |c.argv| == |Words(items)|
    && (forall i :: 0 <= i < |c.argv| ==> Means(Words(items)[i], c.argv[i], status))
    && c.input == (if Inputs(items) == [] then None else Some(Inputs(items)[0]))
    && (if Outputs(items) == [] then c.output == None && !c.append
        else c.output == Some(Outputs(items)[0].0) && c.append == Outputs(items)[0].1)
  }

  lemma MeaningMeans(items: seq<Item>, status: int)
    ensures SegmentMeans(items, Meaning(items, status), status)
  {
    if status >= 0 { DecimalReads(status); }
    hide Words, Inputs, Outputs, Decimal, DigitsValue;
  }

  /** Every sentence is parsed into its segments in order, word by word. */
  lemma WordsMeant(ts: seq<Token>, first: seq<Item>, more: seq<seq<Item>>, background: bool, status: int)
    requires (forall i :: 0 <= i < |ts| ==> ValidToken(ts[i])) && Sentence(ts, first, more, background)
    ensures var r := Build(ts, [], BLANK, status);
      && r.Parsed? && r.background == background && |r.commands| == 1 + |more|
      && SegmentMeans(first, r.commands[0], status)
      && forall k :: 0 <= k < |more| ==> SegmentMeans(more[k], r.commands[k + 1], status)
  {
    hide Sentence, Meaning, SegmentMeans, Build;
    ExactLanguage(ts, status);
    MeaningMeans(first, status);
    forall k | 0 <= k < |more| ensures SegmentMeans(more[k], Meaning(more[k], status), status) {
      MeaningMeans(more[k], status);
    }
  }

  // ---------------------------------------------------------------- round trip of commands

  predicate WordOk(w: string) {
    w != "" && |w| < TOKEN_SIZE && '\0' !in w && forall i :: 0 <= i < |w| ==> IsWordChar(w[i])
  }

  /** A command the parser can produce, without `$?` among its arguments. */
  predicate CommandOk(c: Command) {
    && 1 <= |c.argv| <= 63
    && (forall i :: 0 <= i < |c.argv| ==> WordOk(c.argv[i]) && c.argv[i] != "$?")
    && (c.input.Some? ==> WordOk(c.input.value))
    && (c.output.Some? ==> WordOk(c.output.value))
    && (c.output.None? ==> !c.append)
  }

  function ArgItems(argv: seq<string>): seq<Item> {
    seq(|argv|, i requires 0 <= i < |argv| => Arg(argv[i]))
  }

  /** The canonical way to write a command: arguments, then input, then output. */
  function Items(c: Command): seq<Item> {
    ArgItems(c.argv)
    + (if c.input.Some? then [In(c.input.value)] else [])
    + (if c.output.Some? then [Out(c.output.value, c.append)] else [])
  }

  lemma {:induction false} WordsConcat(a: seq<Item>, b: seq<Item>)
    ensures Words(a + b) == Words(a) + Words(b)
  {
    if a == [] {
      assert a + b == b;
    } else {
      assert (a + b)[0] == a[0] && (a + b)[1..] == a[1..] + b;
      WordsConcat(a[1..], b);
      Assoc(if a[0].Arg? then [a[0].word] else [], Words(a[1..]), Words(b));
    }
  }

  lemma {:induction false} InputsConcat(a: seq<Item>, b: seq<Item>)
    ensures Inputs(a + b) == Inputs(a) + Inputs(b)
  {
    if a == [] {
      assert a + b == b;
    } else {
      assert (a + b)[0] == a[0] && (a + b)[1..] == a[1..] + b;
      InputsConcat(a[1..], b);
      Assoc(if a[0].In? then [a[0].file] else [], Inputs(a[1..]), Inputs(b));
    }
  }

  lemma {:induction false} OutputsConcat(a: seq<Item>, b: seq<Item>)
    ensures Outputs(a + b) == Outputs(a) + Outputs(b)
  {
    if a == [] {
      assert a + b == b;
    } else {
      assert (a + b)[0] == a[0] && (a + b)[1..] == a[1..] + b;
      OutputsConcat(a[1..], b);
      Assoc(if a[0].Out? then [(a[0].file, a[0].append)] else [], Outputs(a[1..]), Outputs(b));
    }
  }

  lemma ItemsConcat(a: seq<Item>, b: seq<Item>)
    ensures Words(a + b) == Words(a) + Words(b) && Inputs(a + b) == Inputs(a) + Inputs(b)
    ensures Outputs(a + b) == Outputs(a) + Outputs(b)
  {
    WordsConcat(a, b);
    InputsConcat(a, b);
    OutputsConcat(a, b);
  }

  lemma {:induction false} ArgItemsWords(argv: seq<string>)
    ensures Words(ArgItems(argv)) == argv && Inputs(ArgItems(argv)) == [] && Outputs(ArgItems(argv)) == []
  {
    if argv != [] {
      ArgItemsWords(argv[1..]);
      assert ArgItems(argv)[1..] == ArgItems(argv[1..]);
    }
  }

  function InItems(c: Command): seq<Item> { if c.input.Some? then [In(c.input.value)] else [] }

  function OutItems(c: Command): seq<Item> { if c.output.Some? then [Out(c.output.value, c.append)] else [] }

  lemma RedirectItems(c: Command)
    ensures Words(InItems(c)) == [] && Inputs(InItems(c)) == (if c.input.Some? then [c.input.value] else [])
    ensures Outputs(InItems(c)) == []
    ensures Words(OutItems(c)) == [] && Inputs(OutItems(c)) == []
    ensures Outputs(OutItems(c)) == if c.output.Some? then [(c.output.value, c.append)] else []
  {
    assert c.input.Some? ==> InItems(c)[1..] == [];
    assert c.output.Some? ==> OutItems(c)[1..] == [];
  }

  /** The canonical form says exactly what the command says. */
  lemma CanonicalParts(c: Command)
    ensures Words(Items(c)) == c.argv
    ensures Inputs(Items(c)) == if c.input.Some? then [c.input.value] else []
    ensures Outputs(Items(c)) == if c.output.Some? then [(c.output.value, c.append)] else []
  {
    ArgItemsWords(c.argv);
    RedirectItems(c);
    hide Words, Inputs, Outputs;
    ItemsConcat(ArgItems(c.argv), InItems(c));
    ItemsConcat(ArgItems(c.argv) + InItems(c), OutItems(c));
    assert Items(c) == ArgItems(c.argv) + InItems(c) + OutItems(c);
  }

  lemma CanonicalMeaning(c: Command, status: int)
    requires CommandOk(c)
    ensures TailOk(Items(c)) && Meaning(Items(c), status) == c
  {
    CanonicalParts(c);
    assert Items(c)[0] == ArgItems(c.argv)[0];
    hide Words, Inputs, Outputs, Items;
    assert ExpandAll(c.argv, status) == c.argv;
  }

  /** Writing any pipeline the parser can produce and parsing it gives the pipeline back. */
  lemma ParseRoundTrip(commands: seq<Command>, background: bool, status: int)
    requires commands != [] && forall i :: 0 <= i < |commands| ==> CommandOk(commands[i])
    ensures var more := seq(|commands| - 1, i requires 0 <= i < |commands| - 1 => Items(commands[i + 1]));
      Build(LineTokens(Items(commands[0]), more, background), [], BLANK, status) == Parsed(commands, background)
  {
    hide Items, Meaning, Build, LineTokens, CommandOk, SegmentOk, Extends, Extended;
    var first := Items(commands[0]);
    var more := seq(|commands| - 1, i requires 0 <= i < |commands| - 1 => Items(commands[i + 1]));
    CanonicalMeaning(commands[0], status);
    forall i | 0 <= i < |more| ensures TailOk(more[i]) && Meaning(more[i], status) == commands[i + 1] {
      CanonicalMeaning(commands[i + 1], status);
    }
    ExtendBlank(first, status);
    BuildAccepts(first, more, background, [], BLANK, status);
    assert [] + [Meaning(first, status)] + Meanings(more, status) == commands;
  }
}
