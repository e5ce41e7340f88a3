/**
 src/parser.c and src/command.c: build_command and command_free on a heap that can run out, and
 parse_line as a whole.
 */
module Parser {
  import opened Lexer
  import opened Grammar

  /** malloc and free: `live` holds the addresses handed out and not yet given back, `failures`
      counts the requests that were refused. */
  class Heap {
    var live: set<nat>
    var failures: nat

    constructor ()
      ensures live == {} && failures == 0
    {
      live, failures := {}, 0;
    }

    /** malloc or strdup; 0 is NULL. */
    method Alloc() returns (a: nat)
      modifies this
      ensures a == 0 ==> live == old(live) && failures == old(failures) + 1
      ensures a != 0 ==> failures == old(failures) && a !in old(live) && live == old(live) + {a}
    {
      a := *;
      if a in live { a := 0; }
      if a != 0 { live := live + {a}; } else { failures := failures + 1; }
    }

    /** free: only an address that is live may be given back, and free(NULL) does nothing. */
    method Free(a: nat)
      requires a == 0 || a in live
      modifies this`live
      ensures live == if a == 0 then old(live) else old(live) - {a}
    {
      if a != 0 { live := live - {a}; }
    }
  }

  datatype Str = Str(addr: nat, text: string)

  const NULL := Str(0, "")

  /** A Command node of the chain; a null string has address 0. */
  datatype Node = Node(addr: nat, argv: seq<Str>, input: Str, output: Str, append: bool)

  function ViewStr(s: Str): Option<string> { if s.addr == 0 then None else Some(s.text) }

  function View(n: Node): Command {
    Command(seq(|n.argv|, i requires 0 <= i < |n.argv| => n.argv[i].text), ViewStr(n.input), ViewStr(n.output),
            n.append)
  }

  function Views(ns: seq<Node>): seq<Command> {
    seq(|ns|, i requires 0 <= i < |ns| => View(ns[i]))
  }

  // ---------------------------------------------------------------- who owns what

  function One(a: nat): multiset<nat> { if a == 0 then multiset{} else multiset{a} }

  function StrAddrs(ss: seq<Str>): multiset<nat> {
    if ss == [] then multiset{} else One(ss[0].addr) + StrAddrs(ss[1..])
  }

  function NodeAddrs(n: Node): multiset<nat> {
    StrAddrs(n.argv) + One(n.output.addr) + One(n.input.addr) + One(n.addr)
  }

  function ChainAddrs(ns: seq<Node>): multiset<nat> {
    if ns == [] then multiset{} else NodeAddrs(ns[0]) + ChainAddrs(ns[1..])
  }

  /** Each live address beyond `base` is owned by the chain exactly once. */
  ghost predicate Ledger(live: set<nat>, ns: seq<Node>, base: set<nat>) {
    multiset(live) == ChainAddrs(ns) + multiset(base)
  }

  lemma {:induction false} StrAddrsAppend(ss: seq<Str>, s: Str)
    ensures StrAddrs(ss + [s]) == StrAddrs(ss) + One(s.addr)
  {
    if ss == [] {
      assert [s][1..] == [];
      assert ss + [s] == [s];
    } else {
      assert (ss + [s])[1..] == ss[1..] + [s];
      StrAddrsAppend(ss[1..], s);
    }
  }

  lemma {:induction false} ChainAddrsAppend(ns: seq<Node>, n: Node)
    ensures ChainAddrs(ns + [n]) == ChainAddrs(ns) + NodeAddrs(n)
  {
    if ns == [] {
      assert [n][1..] == [];
      assert ns + [n] == [n];
    } else {
      assert (ns + [n])[1..] == ns[1..] + [n];
      ChainAddrsAppend(ns[1..], n);
    }
  }

  lemma GrowLast(ns: seq<Node>, n: Node, a: nat)
    requires ns != [] && NodeAddrs(n) == NodeAddrs(ns[|ns| - 1]) + One(a)
    ensures ChainAddrs(ns[|ns| - 1 := n]) == ChainAddrs(ns) + One(a)
  {
    hide NodeAddrs, ChainAddrs;
    var init := ns[..|ns| - 1];
    assert ns == init + [ns[|ns| - 1]] && ns[|ns| - 1 := n] == init + [n];
    ChainAddrsAppend(init, n);
    ChainAddrsAppend(init, ns[|ns| - 1]);
  }

  lemma AllocLedger(live: set<nat>, live': set<nat>, ns: seq<Node>, ns': seq<Node>, base: set<nat>, a: nat)
    requires Ledger(live, ns, base) && a != 0 && a !in live && live' == live + {a}
    requires ChainAddrs(ns') == ChainAddrs(ns) + One(a)
    ensures Ledger(live', ns', base)
  {
    assert multiset(live') == multiset(live) + multiset{a};
  }

  // ---------------------------------------------------------------- freeing

  /** What is left of `live` once the multiset of addresses `owned` beyond `base` is given back. */
  lemma FreeOne(live: set<nat>, owned: multiset<nat>, a: nat, base: set<nat>)
    requires multiset(live) == owned + One(a) + multiset(base)
    ensures a == 0 || a in live
    ensures multiset(if a == 0 then live else live - {a}) == owned + multiset(base)
  {
    if a != 0 {
      assert multiset(live)[a] == (owned + One(a) + multiset(base))[a];
      assert a in multiset(live);
      assert multiset(live - {a}) == multiset(live) - multiset{a};
      assert owned + One(a) + multiset(base) - multiset{a} == owned + multiset(base);
    }
  }

  method FreeStrings(h: Heap, ss: seq<Str>, ghost owned: multiset<nat>, ghost base: set<nat>)
    requires multiset(h.live) == owned + StrAddrs(ss) + multiset(base)
    modifies h`live
    ensures multiset(h.live) == owned + multiset(base)
  {
    var k := 0;
    assert ss[0..] == ss;
    while k < |ss|
      invariant 0 <= k <= |ss| && multiset(h.live) == owned + StrAddrs(ss[k..]) + multiset(base)
    {
      assert ss[k..][1..] == ss[k + 1..];
      assert owned + (One(ss[k].addr) + StrAddrs(ss[k + 1..])) == owned + StrAddrs(ss[k + 1..]) + One(ss[k].addr);
      FreeOne(h.live, owned + StrAddrs(ss[k + 1..]), ss[k].addr, base);
      h.Free(ss[k].addr);
      k := k + 1;
    }
  }

  /** The body of command_free for one node. */
  method FreeNode(h: Heap, n: Node, ghost owned: multiset<nat>, ghost base: set<nat>)
    requires multiset(h.live) == owned + NodeAddrs(n) + multiset(base)
    modifies h`live
    ensures multiset(h.live) == owned + multiset(base)
  {
    ghost var rest := owned + One(n.output.addr) + One(n.input.addr) + One(n.addr);
    assert owned + NodeAddrs(n) == rest + StrAddrs(n.argv);
    FreeStrings(h, n.argv, rest, base);
    assert rest == owned + One(n.addr) + One(n.input.addr) + One(n.output.addr);
    FreeOne(h.live, owned + One(n.addr) + One(n.input.addr), n.output.addr, base);
    h.Free(n.output.addr);
    FreeOne(h.live, owned + One(n.addr), n.input.addr, base);
    h.Free(n.input.addr);
    FreeOne(h.live, owned, n.addr, base);
    h.Free(n.addr);
  }

  /** command_free: everything the chain owns is given back, each address once. */
  method CommandFree(h: Heap, ns: seq<Node>, ghost base: set<nat>)
    requires Ledger(h.live, ns, base)
    modifies h`live
    ensures h.live == base
  {
    var k := 0;
    assert ns[0..] == ns;
    while k < |ns|
      invariant 0 <= k <= |ns| && Ledger(h.live, ns[k..], base)
    {
      assert ns[k..][1..] == ns[k + 1..];
      assert ChainAddrs(ns[k..]) == ChainAddrs(ns[k + 1..]) + NodeAddrs(ns[k]);
      FreeNode(h, ns[k], ChainAddrs(ns[k + 1..]), base);
      k := k + 1;
    }
    SameSets(h.live, base);
  }

  lemma SameSets(a: set<nat>, b: set<nat>)
    requires multiset(a) == multiset{} + multiset(b)
    ensures a == b
  {
    assert forall x :: x in a <==> x in multiset(a);
    assert forall x :: x in b <==> x in multiset(b);
  }

  // ---------------------------------------------------------------- building

  datatype BuildResult = Built | Syntax | Memory

  function Fresh(a: nat): Node { Node(a, [], NULL, NULL, false) }

  /** A node with one more string in it. */
  function Store(n: Node, kind: Kind, s: Str): Node {
    match kind
    case RedirectIn => n.(input := s)
    case RedirectOut => n.(output := s, append := false)
    case RedirectAppend => n.(output := s, append := true)
    case _ => n.(argv := n.argv + [s])
  }

  function Stored(c: Command, kind: Kind, text: string): Command {
    match kind
    case RedirectIn => c.(input := Some(text))
    case RedirectOut => AddOutput(c, text, false)
    case RedirectAppend => AddOutput(c, text, true)
    case _ => c.(argv := c.argv + [text])
  }

  lemma StoreView(n: Node, kind: Kind, s: Str)
    requires s.addr != 0
    ensures View(Store(n, kind, s)) == Stored(View(n), kind, s.text)
  {
  }

  lemma StoreAddrs(n: Node, kind: Kind, s: Str)
    requires kind.RedirectIn? ==> n.input.addr == 0
    requires kind.RedirectOut? || kind.RedirectAppend? ==> n.output.addr == 0
    ensures NodeAddrs(Store(n, kind, s)) == NodeAddrs(n) + One(s.addr)
  {
    StrAddrsAppend(n.argv, s);
  }

  /** strdup into one of the fields of the current node; NULL is reported to the caller. */
  method AddString(h: Heap, ns: seq<Node>, kind: Kind, text: string, ghost base: set<nat>)
    returns (ok: bool, ns': seq<Node>)
    requires ns != [] && Ledger(h.live, ns, base)
    requires kind.RedirectIn? ==> ns[|ns| - 1].input.addr == 0
    requires kind.RedirectOut? || kind.RedirectAppend? ==> ns[|ns| - 1].output.addr == 0
    modifies h
    ensures Ledger(h.live, ns', base) && |ns'| == |ns| && ns'[..|ns| - 1] == ns[..|ns| - 1]
    ensures h.failures == old(h.failures) + if ok then 0 else 1
    ensures !ok ==> ns' == ns
    ensures ok ==> View(ns'[|ns| - 1]) == Stored(View(ns[|ns| - 1]), kind, text)
  {
    hide Ledger, View, Store, NodeAddrs, ChainAddrs;
    var a := h.Alloc();
    if a == 0 { return false, ns; }
    var cur := ns[|ns| - 1];
    var cur' := Store(cur, kind, Str(a, text));
    ok, ns' := true, ns[|ns| - 1 := cur'];
    StoreView(cur, kind, Str(a, text));
    StoreAddrs(cur, kind, Str(a, text));
    GrowLast(ns, cur', a);
    AllocLedger(old(h.live), h.live, ns, ns', base, a);
  }

  /** A new node at the end of the chain. */
  method AddNode(h: Heap, ns: seq<Node>, ghost base: set<nat>) returns (ok: bool, ns': seq<Node>)
    requires Ledger(h.live, ns, base)
    modifies h
    ensures Ledger(h.live, ns', base)
    ensures h.failures == old(h.failures) + if ok then 0 else 1
    ensures !ok ==> ns' == ns
    ensures ok ==> |ns'| == |ns| + 1 && ns'[..|ns|] == ns && View(ns'[|ns|]) == BLANK
  {
    hide Ledger, NodeAddrs, ChainAddrs;
    var a := h.Alloc();
    if a == 0 { return false, ns; }
    ok, ns' := true, ns + [Fresh(a)];
    ChainAddrsAppend(ns, Fresh(a));
    FreshNode(a);
    AllocLedger(old(h.live), h.live, ns, ns', base, a);
  }

  lemma FreshNode(a: nat)
    ensures NodeAddrs(Fresh(a)) == One(a) && View(Fresh(a)) == BLANK
  {
  }

  ghost predicate Progress(ts: seq<Token>, i: nat, ns: seq<Node>, status: int) {
    && i <= |ts| && ns != []
    && Build(ts, [], BLANK, status) == Build(ts[i..], Views(ns[..|ns| - 1]), View(ns[|ns| - 1]), status)
  }

  /** build_command: every failure exit gives back all it allocated, exactly once; an error it
      reports is the grammar's, and success is the grammar's result. */
  method BuildCommand(h: Heap, ts: seq<Token>, status: int)
    returns (r: BuildResult, ns: seq<Node>, background: bool)
    modifies h
    ensures r.Built? ==>
      Ledger(h.live, ns, old(h.live)) && Build(ts, [], BLANK, status) == Parsed(Views(ns), background)
    ensures !r.Built? ==> h.live == old(h.live) && ns == []
    ensures h.failures == old(h.failures) + if r.Memory? then 1 else 0
    ensures r.Syntax? ==> Build(ts, [], BLANK, status) == SyntaxError
  {
    hide Ledger, Progress, Build;
    ghost var base := h.live;
    background := false;
    var ok;
    EmptyLedger(base);
    ok, ns := AddNode(h, [], base);
    if !ok {
      LedgerBase(h.live, ns, base);
      return Memory, [], false;
    }
    StartProgress(ts, ns, status);
    var i := 0;
    r := Built;
    while i < |ts| && r.Built?
      invariant 0 <= i <= |ts| && ns != [] && Ledger(h.live, ns, base)
      invariant h.failures == old(h.failures) + if r.Memory? then 1 else 0
      invariant r.Built? && !background ==> Progress(ts, i, ns, status)
      invariant r.Built? && background ==> i == |ts|
      invariant r.Built? && background ==>
        Build(ts, [], BLANK, status) == Finish(Views(ns[..|ns| - 1]), View(ns[|ns| - 1]), true)
      invariant r.Syntax? ==> Build(ts, [], BLANK, status) == SyntaxError
      decreases if r.Built? then 1 else 0, |ts| - i
    {
      if background {
        assert false;
      }
      r, ns, i, background := BuildStep(h, ts, i, ns, status, base);
    }
    if r.Built? {
      if !background { EndProgress(ts, i, ns, status); }
      ok := AllHaveArgs(ns, background);
      if !ok { r := Syntax; }
    }
    if !r.Built? {
      CommandFree(h, ns, base);
      ns, background := [], false;
      return;
    }
    assert Views(ns[..|ns| - 1]) + [View(ns[|ns| - 1])] == Views(ns);
  }

  lemma EmptyLedger(base: set<nat>)
    ensures Ledger(base, [], base)
  {
  }

  lemma LedgerBase(live: set<nat>, ns: seq<Node>, base: set<nat>)
    requires Ledger(live, ns, base) && ns == []
    ensures live == base
  {
    SameSets(live, base);
  }

  lemma StartProgress(ts: seq<Token>, ns: seq<Node>, status: int)
    requires |ns| == 1 && View(ns[0]) == BLANK
    ensures Progress(ts, 0, ns, status)
  {
    assert ts[0..] == ts;
    assert Views(ns[..0]) == [];
  }

  lemma EndProgress(ts: seq<Token>, i: nat, ns: seq<Node>, status: int)
    requires Progress(ts, i, ns, status) && i == |ts|
    ensures Build(ts, [], BLANK, status) == Finish(Views(ns[..|ns| - 1]), View(ns[|ns| - 1]), false)
  {
  }

  /** The last loop of build_command. */
  method AllHaveArgs(ns: seq<Node>, background: bool) returns (ok: bool)
    requires ns != []
    ensures Finish(Views(ns[..|ns| - 1]), View(ns[|ns| - 1]), background) ==
      (if ok then Parsed(Views(ns[..|ns| - 1]) + [View(ns[|ns| - 1])], background) else SyntaxError)
  {
    var i := 0;
    while i < |ns|
      invariant 0 <= i <= |ns| && forall k :: 0 <= k < i ==> ns[k].argv != []
    {
      if ns[i].argv == [] {
        assert i < |ns| - 1 ==> Views(ns[..|ns| - 1])[i].argv == [];
        return false;
      }
      i := i + 1;
    }
    ok := true;
  }

  /** One turn of the switch. */
  method BuildStep(h: Heap, ts: seq<Token>, i: nat, ns: seq<Node>, status: int, ghost base: set<nat>)
    returns (r: BuildResult, ns': seq<Node>, i': nat, background: bool)
    requires i < |ts| && ns != [] && Ledger(h.live, ns, base) && Progress(ts, i, ns, status)
    modifies h
    ensures i < i' <= |ts| && ns' != [] && Ledger(h.live, ns', base)
    ensures h.failures == old(h.failures) + if r.Memory? then 1 else 0
    ensures r.Built? && !background ==> Progress(ts, i', ns', status)
    ensures r.Built? && background ==> i' == |ts|
    ensures r.Built? && background ==>
      Build(ts, [], BLANK, status) == Finish(Views(ns'[..|ns'| - 1]), View(ns'[|ns'| - 1]), true)
    ensures r.Syntax? ==> Build(ts, [], BLANK, status) == SyntaxError
  {
    hide Ledger, ViewStr;
    var cur := ns[|ns| - 1];
    ghost var rest := ts[i..];
    assert rest[0] == ts[i] && rest[1..] == ts[i + 1..] && |rest| == |ts| - i;
    assert |rest| >= 2 ==> rest[1] == ts[i + 1] && rest[2..] == ts[i + 2..];
    r, ns', i', background := Syntax, ns, i + 1, false;
    var ok;
    match ts[i].kind {
      case Word =>
        if |cur.argv| >= MAX_ARGS - 1 { return; }
        ok, ns' := AddString(h, ns, Word, Expand(ts[i].text, status), base);
        r := if ok then Built else Memory;
      case Background =>
        if i != |ts| - 1 { return; }
        r, background := Built, true;
      case Pipe =>
        if cur.argv == [] { return; }
        if i + 1 >= |ts| || !ts[i + 1].kind.Word? { return; }
        ok, ns' := AddNode(h, ns, base);
        if ok {
          assert Views(ns'[..|ns'| - 1]) == Views(ns[..|ns| - 1]) + [View(cur)];
        }
        r := if ok then Built else Memory;
      case _ =>
        if i + 1 >= |ts| || !ts[i + 1].kind.Word? { return; }
        if (if ts[i].kind.RedirectIn? then cur.input.addr != 0 else cur.output.addr != 0) {
          CurrentSlots(cur);
          return;
        }
        CurrentSlots(cur);
        ok, ns' := AddString(h, ns, ts[i].kind, ts[i + 1].text, base);
        r, i' := if ok then Built else Memory, i + 2;
    }
  }

  lemma CurrentSlots(n: Node)
    ensures (n.input.addr == 0 <==> View(n).input.None?) && (n.output.addr == 0 <==> View(n).output.None?)
  {
  }

  // ---------------------------------------------------------------- a whole line

  datatype ParseResult = Commands(ns: seq<Node>, background: bool) | Nothing | Failed(status: int)

  /** parse_line: nothing for a blank line, status 2 for a lexical or syntax error, 1 when memory
      runs out, and otherwise the chain the grammar gives. */
  method ParseLine(h: Heap, line: string, status: int) returns (r: ParseResult)
    modifies h
    ensures r.Commands? ==> Ledger(h.live, r.ns, old(h.live))
    ensures !r.Commands? ==> h.live == old(h.live)
    ensures r.Commands? ==> Meant(line, status) == Parsed(Views(r.ns), r.background)
    ensures r.Nothing? <==> Lex(CString(line)) == []
    ensures r.Failed? && r.status == 1 <==> h.failures > old(h.failures)
    ensures r.Failed? && h.failures == old(h.failures) ==> r.status == 2 && Meant(line, status) == SyntaxError
  {
    hide Lex, Verdict, Ledger;
    var lexed, ts := Tokenize(line);
    EmptyVerdict(Lex(CString(line)));
    if lexed != LexOk { return Failed(2); }
    if ts == [] { return Nothing; }
    var b, ns, background := BuildCommand(h, ts, status);
    match b
    case Built => r := Commands(ns, background);
    case Syntax => r := Failed(2);
    case Memory => r := Failed(1);
  }

  lemma EmptyVerdict(ts: seq<Token>)
    ensures ts == [] ==> Verdict(ts) == LexOk
  {
  }

  /** What a line means, memory permitting. */
  function Meant(line: string, status: int): Outcome {
    var ts := Lex(CString(line));
    if Verdict(ts) != LexOk then SyntaxError else Build(ts, [], BLANK, status)
  }

  lemma {:induction false} NoNul(s: string)
    requires '\0' !in s
    ensures CString(s) == s
  {
  }

  lemma {:induction false} SpacedNoNul(ts: seq<Token>)
    requires forall i :: 0 <= i < |ts| ==> '\0' !in ts[i].text
    ensures '\0' !in Spaced(ts)
  {
    if ts != [] { SpacedNoNul(ts[1..]); }
  }

  predicate TokenOk(t: Token) { ValidToken(t) && Fits(t) && '\0' !in t.text }

  predicate ItemOk(it: Item) {
    match it
    case Arg(w) => WordOk(w)
    case In(f) => WordOk(f)
    case Out(f, _) => WordOk(f)
  }

  lemma {:induction false} SegmentTokensOk(items: seq<Item>)
    requires forall i :: 0 <= i < |items| ==> ItemOk(items[i])
    ensures forall i :: 0 <= i < |SegmentTokens(items)| ==> TokenOk(SegmentTokens(items)[i])
  {
    if items != [] {
      SegmentTokensOk(items[1..]);
      ItemTokensOk(items[0]);
    }
  }

  lemma ItemTokensOk(it: Item)
    requires ItemOk(it)
    ensures forall i :: 0 <= i < |ItemTokens(it)| ==> TokenOk(ItemTokens(it)[i])
  {
  }

  lemma {:induction false} LineTokensOk(first: seq<Item>, more: seq<seq<Item>>, background: bool)
    requires forall i :: 0 <= i < |first| ==> ItemOk(first[i])
    requires forall k :: 0 <= k < |more| ==> forall i :: 0 <= i < |more[k]| ==> ItemOk(more[k][i])
    ensures forall i :: 0 <= i < |LineTokens(first, more, background)| ==>
      TokenOk(LineTokens(first, more, background)[i])
    decreases |more|
  {
    SegmentTokensOk(first);
    if more != [] {
      LineTokensOk(more[0], more[1..], background);
    }
  }

  lemma ItemsOk(c: Command)
    requires CommandOk(c)
    ensures forall i :: 0 <= i < |Items(c)| ==> ItemOk(Items(c)[i])
  {
  }

  /** The canonical text of a pipeline. */
  function Rendered(commands: seq<Command>, background: bool): seq<Token>
    requires commands != []
  {
    LineTokens(Items(commands[0]), seq(|commands| - 1, i requires 0 <= i < |commands| - 1 => Items(commands[i + 1])),
               background)
  }

  /** Writing any well-formed pipeline out as text, if it fits into 128 tokens, and parsing that
      text gives the pipeline back. */
  lemma LineRoundTrip(commands: seq<Command>, background: bool, status: int)
    requires commands != [] && forall i :: 0 <= i < |commands| ==> CommandOk(commands[i])
    requires |Rendered(commands, background)| <= MAX_TOKEN
    ensures Meant(Spaced(Rendered(commands, background)), status) == Parsed(commands, background)
  {
    hide Build, LineTokens, Lex, CommandOk, Items;
    var ts := Rendered(commands, background);
    var more := seq(|commands| - 1, i requires 0 <= i < |commands| - 1 => Items(commands[i + 1]));
    ItemsOk(commands[0]);
    forall k | 0 <= k < |more| ensures forall i :: 0 <= i < |more[k]| ==> ItemOk(more[k][i]) {
      ItemsOk(commands[k + 1]);
    }
    LineTokensOk(Items(commands[0]), more, background);
    SpacedNoNul(ts);
    NoNul(Spaced(ts));
    LexRoundTrip(ts);
    LimitsDecide(ts);
    ParseRoundTrip(commands, background, status);
  }
}
