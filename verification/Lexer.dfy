/**
 src/parser.c: the tokenizer, against an unbounded reference lexer.
 */
module Lexer {

  datatype Kind = Word | RedirectOut | RedirectAppend | RedirectIn | Pipe | Background

  datatype Token = Token(kind: Kind, text: string)

  const MAX_TOKEN := 128
  const TOKEN_SIZE := 256

  datatype LexResult = LexOk | TooMany | TooLong

  predicate IsSpace(c: char) { c == ' ' || ('\t' <= c <= '\r') }

  /** is_special */
  predicate IsSpecial(c: char) { c == '>' || c == '<' || c == '|' || c == '&' }

  predicate IsWordChar(c: char) { !IsSpace(c) && !IsSpecial(c) }

  /** The bytes of a C string: everything before the first NUL. */
  function CString(s: string): (r: string)
    ensures r <= s && '\0' !in r && (|r| < |s| ==> s[|r|] == '\0')
  {
    if s == "" || s[0] == '\0' then "" else
      assert s == [s[0]] + s[1..];
      [s[0]] + CString(s[1..])
  }

  // ---------------------------------------------------------------- the reference lexer

  /** Length of the longest run of word characters at the front. */
  function WordLength(s: string): (n: nat)
    ensures n <= |s| && (forall i :: 0 <= i < n ==> IsWordChar(s[i])) && (n < |s| ==> !IsWordChar(s[n]))
  {
    if s == "" || !IsWordChar(s[0]) then 0 else 1 + WordLength(s[1..])
  }

  function FirstToken(s: string): (t: Token)
    requires s != "" && !IsSpace(s[0])
    ensures t.text <= s && t.text != ""
  {
    if s[0] == '>' then
      if |s| > 1 && s[1] == '>' then
        assert ">>" <= s;
        Token(RedirectAppend, ">>")
      else Token(RedirectOut, ">")
    else if s[0] == '<' then Token(RedirectIn, "<")
    else if s[0] == '|' then Token(Pipe, "|")
    else if s[0] == '&' then Token(Background, "&")
    else Token(Word, s[..WordLength(s)])
  }

  /** All tokens of a line, without any limit. */
  function Lex(s: string): seq<Token>
    decreases |s|
  {
    if s == "" then []
    else if IsSpace(s[0]) then Lex(s[1..])
    else [FirstToken(s)] + Lex(s[|FirstToken(s).text|..])
  }

  predicate Fits(t: Token) { |t.text| < TOKEN_SIZE }

  /** What the limits make of a token list: the first token that breaks one decides, and a token
      beyond the 128th counts as one too many whatever its length. */
  function Verdict(ts: seq<Token>): LexResult {
    VerdictFrom(ts, 0)
  }

  function VerdictFrom(ts: seq<Token>, k: nat): LexResult
    requires k <= |ts|
    decreases |ts| - k
  {
    if k == |ts| then LexOk
    else if k >= MAX_TOKEN then TooMany
    else if !Fits(ts[k]) then TooLong
    else VerdictFrom(ts, k + 1)
  }

  lemma {:induction false} VerdictMeaning(ts: seq<Token>, k: nat)
    requires k <= |ts| && k <= MAX_TOKEN && forall i :: 0 <= i < k ==> Fits(ts[i])
    ensures VerdictFrom(ts, k) == LexOk <==> |ts| <= MAX_TOKEN && forall i :: 0 <= i < |ts| ==> Fits(ts[i])
    ensures VerdictFrom(ts, k) == TooLong <==> exists i :: 0 <= i < |ts| && i < MAX_TOKEN && !Fits(ts[i])
    ensures VerdictFrom(ts, k) == TooMany <==> |ts| > MAX_TOKEN && forall i :: 0 <= i < MAX_TOKEN ==> Fits(ts[i])
    decreases |ts| - k
  {
    if k < |ts| && k < MAX_TOKEN && Fits(ts[k]) {
      VerdictMeaning(ts, k + 1);
    }
  }

  /** The failure code is decided exactly by which limit is broken first. */
  lemma LimitsDecide(ts: seq<Token>)
    ensures Verdict(ts) == LexOk <==> |ts| <= 128 && forall i :: 0 <= i < |ts| ==> |ts[i].text| <= 255
    ensures Verdict(ts) == TooLong <==> exists i :: 0 <= i < |ts| && i < 128 && |ts[i].text| > 255
    ensures Verdict(ts) == TooMany <==> |ts| > 128 && forall i :: 0 <= i < 128 ==> |ts[i].text| <= 255
  {
    VerdictMeaning(ts, 0);
  }

  /** What each character is on its own; with LexDistributes this decides every line. */
  lemma OneCharacter(c: char)
    ensures Lex([c]) ==
      if c in [' ', '\t', '\n', '\U{000B}', '\U{000C}', '\r'] then []
      else if c == '|' then [Token(Pipe, "|")]
      else if c == '&' then [Token(Background, "&")]
      else if c == '<' then [Token(RedirectIn, "<")]
      else if c == '>' then [Token(RedirectOut, ">")]
      else [Token(Word, [c])]
    ensures Lex(">>") == [Token(RedirectAppend, ">>")]
  {
    assert [c][1..] == [] && [c][..1] == [c];
    assert ">>"[2..] == "";
    assert Lex("") == [];
  }

  // ---------------------------------------------------------------- the tokenizer

  /** token_push */
  method Push(list: seq<Token>, t: Token) returns (r: LexResult, list': seq<Token>)
    ensures r == (if |list| >= MAX_TOKEN then TooMany else if !Fits(t) then TooLong else LexOk)
    ensures list' == if r == LexOk then list + [t] else list
  {
    list' := list;
    if |list| >= MAX_TOKEN { return TooMany, list; }
    if |t.text| >= TOKEN_SIZE { return TooLong, list; }
    r, list' := LexOk, list + [t];
  }

  function At(s: string, p: nat): char { if p < |s| then s[p] else '\0' }

  /** tokenize: one pass with a moving pointer over the NUL-terminated buffer. */
  method Tokenize(line: string) returns (r: LexResult, list: seq<Token>)
    ensures r == Verdict(Lex(CString(line)))
    ensures r == LexOk ==> list == Lex(CString(line))
    ensures list <= Lex(CString(line)) && |list| <= MAX_TOKEN && forall i :: 0 <= i < |list| ==> Fits(list[i])
  {
    hide Lex, FirstToken, CString, VerdictFrom, IsSpace;
    list := [];
    var p := 0;
    ghost var text := CString(line);
    ghost var all := Lex(text);
    assert text[0..] == text;
    while At(line, p) != '\0'
      invariant 0 <= p <= |text| && |list| <= MAX_TOKEN
      invariant all == list + Lex(text[p..])
      invariant forall i :: 0 <= i < |list| ==> Fits(list[i])
      invariant VerdictFrom(all, |list|) == Verdict(all)
      decreases |text| - p
    {
      p := SkipSpaces(line, p);
      if At(line, p) == '\0' { break; }
      ghost var before := p;
      var t;
      t, p := NextToken(line, p);
      LexStep(text, before, t);
      VerdictStep(all, |list|, t);
      r, list := Push(list, t);
      if r != LexOk { return; }
    }
    LexEnd(text, p);
    VerdictEnd(all);
    r := LexOk;
  }

  lemma VerdictStep(ts: seq<Token>, k: nat, t: Token)
    requires k < |ts| && ts[k] == t
    ensures VerdictFrom(ts, k) ==
      if k >= MAX_TOKEN then TooMany else if !Fits(t) then TooLong else VerdictFrom(ts, k + 1)
  {
  }

  lemma VerdictEnd(ts: seq<Token>)
    ensures VerdictFrom(ts, |ts|) == LexOk
  {
  }

  lemma LexStep(text: string, p: nat, t: Token)
    requires p < |text| && !IsSpace(text[p]) && t == FirstToken(text[p..])
    ensures p + |t.text| <= |text| && Lex(text[p..]) == [t] + Lex(text[p + |t.text|..])
  {
  }

  lemma LexEnd(text: string, p: nat)
    requires p == |text|
    ensures Lex(text[p..]) == []
  {
  }

  method SkipSpaces(line: string, start: nat) returns (p: nat)
    requires start <= |CString(line)|
    ensures start <= p <= |CString(line)| && !IsSpace(At(line, p))
    ensures Lex(CString(line)[start..]) == Lex(CString(line)[p..])
  {
    hide Lex, CString;
    p := start;
    ghost var text := CString(line);
    while IsSpace(At(line, p))
      invariant start <= p <= |text| && Lex(text[start..]) == Lex(text[p..])
      decreases |text| - p
    {
      LexSkip(text, p);
      p := p + 1;
    }
  }

  lemma LexSkip(text: string, p: nat)
    requires p < |text| && IsSpace(text[p])
    ensures Lex(text[p..]) == Lex(text[p + 1..])
  {
  }

  /** The branches of the loop body after the white space. */
  method NextToken(line: string, start: nat) returns (t: Token, p: nat)
    requires start < |CString(line)| && !IsSpace(line[start])
    ensures t == FirstToken(CString(line)[start..]) && p == start + |t.text| <= |CString(line)|
  {
    hide CString;
    p := start;
    ghost var rest := CString(line)[start..];
    if line[p] == '>' {
      if At(line, p + 1) == '>' {
        t, p := Token(RedirectAppend, ">>"), p + 2;
      } else {
        t, p := Token(RedirectOut, ">"), p + 1;
      }
    } else if line[p] == '<' {
      t, p := Token(RedirectIn, "<"), p + 1;
    } else if line[p] == '|' {
      t, p := Token(Pipe, "|"), p + 1;
    } else if line[p] == '&' {
      t, p := Token(Background, "&"), p + 1;
    } else {
      p := ScanWord(line, p);
      assert rest[..p - start] == line[start..p];
      WordLengthIs(rest, p - start);
      t := Token(Word, line[start..p]);
    }
  }

  method ScanWord(line: string, start: nat) returns (p: nat)
    requires start < |CString(line)|
    ensures start <= p <= |CString(line)|
    ensures forall i :: start <= i < p ==> IsWordChar(line[i])
    ensures p < |CString(line)| ==> !IsWordChar(line[p])
  {
    p := start;
    ghost var text := CString(line);
    while At(line, p) != '\0' && !IsSpace(At(line, p)) && !IsSpecial(At(line, p))
      invariant start <= p <= |text| && forall i :: start <= i < p ==> IsWordChar(line[i])
      decreases |text| - p
    {
      p := p + 1;
    }
  }

  lemma WordLengthIs(s: string, n: nat)
    requires n <= |s| && (forall i :: 0 <= i < n ==> IsWordChar(s[i])) && (n < |s| ==> !IsWordChar(s[n]))
    ensures WordLength(s) == n
  {
  }

  // ---------------------------------------------------------------- what a token list says

  predicate ValidToken(t: Token) {
    match t.kind
    case Word => t.text != "" && forall i :: 0 <= i < |t.text| ==> IsWordChar(t.text[i])
    case RedirectOut => t.text == ">"
    case RedirectAppend => t.text == ">>"
    case RedirectIn => t.text == "<"
    case Pipe => t.text == "|"
    case Background => t.text == "&"
  }

  function Texts(ts: seq<Token>): string {
    if ts == [] then "" else ts[0].text + Texts(ts[1..])
  }

  function Unspaced(s: string): string {
    if s == "" then "" else (if IsSpace(s[0]) then "" else [s[0]]) + Unspaced(s[1..])
  }

  lemma {:induction false} UnspacedPrefix(s: string, n: nat)
    requires n <= |s| && forall i :: 0 <= i < n ==> !IsSpace(s[i])
    ensures Unspaced(s) == s[..n] + Unspaced(s[n..])
  {
    if n > 0 {
      UnspacedPrefix(s[1..], n - 1);
      assert s[..n] == [s[0]] + s[1..][..n - 1];
      assert s[1..][n - 1..] == s[n..];
    } else {
      assert s[0..] == s;
    }
  }

  lemma FirstTokenValid(s: string)
    requires s != "" && !IsSpace(s[0])
    ensures ValidToken(FirstToken(s))
    ensures forall i :: 0 <= i < |FirstToken(s).text| ==> !IsSpace(s[i])
  {
  }

  /** Conservation: the tokens of a line are the line without its white space, every token is well
      formed, and words are never empty. */
  lemma {:induction false} LexConserves(s: string)
    ensures Texts(Lex(s)) == Unspaced(s)
    ensures forall i :: 0 <= i < |Lex(s)| ==> ValidToken(Lex(s)[i])
    decreases |s|
  {
    if s != "" {
      if IsSpace(s[0]) {
        LexConserves(s[1..]);
      } else {
        var t := FirstToken(s);
        FirstTokenValid(s);
        hide FirstToken, ValidToken;
        LexConserves(s[|t.text|..]);
        UnspacedPrefix(s, |t.text|);
        assert t.text == s[..|t.text|];
        assert Lex(s) == [t] + Lex(s[|t.text|..]);
      }
    }
  }

  // ---------------------------------------------------------------- maximal munch

  /** Cutting between these two characters cuts no token. */
  predicate Cuttable(a: char, b: char) {
    !(IsWordChar(a) && IsWordChar(b)) && !(a == '>' && b == '>')
  }

  predicate CleanCut(a: string, b: string) {
    a == "" || b == "" || Cuttable(a[|a| - 1], b[0])
  }

  lemma {:induction false} WordLengthCut(a: string, b: string)
    requires a != "" && CleanCut(a, b) && IsWordChar(a[0])
    ensures WordLength(a + b) == WordLength(a)
  {
    var n := WordLength(a);
    if n == |a| {
      assert IsWordChar(a[|a| - 1]);
      assert b != "" ==> (a + b)[n] == b[0];
    } else {
      assert (a + b)[n] == a[n];
    }
    assert forall i :: 0 <= i < n ==> (a + b)[i] == a[i];
    WordLengthIs(a + b, n);
  }

  lemma FirstTokenCut(a: string, b: string)
    requires a != "" && !IsSpace(a[0]) && CleanCut(a, b)
    ensures FirstToken(a + b) == FirstToken(a)
  {
    if IsWordChar(a[0]) {
      WordLengthCut(a, b);
      assert (a + b)[..WordLength(a)] == a[..WordLength(a)];
    } else if |a| > 1 {
      assert (a + b)[1] == a[1];
    } else if b != "" {
      assert (a + b)[1] == b[0];
    }
  }

  /** Words are maximal runs and `>>` is never split: lexing distributes over exactly those cuts
      that do not separate two word characters or two `>`. */
  lemma {:induction false} LexDistributes(a: string, b: string)
    requires CleanCut(a, b)
    ensures Lex(a + b) == Lex(a) + Lex(b)
    decreases |a|
  {
    hide FirstToken;
    if a == "" {
      assert a + b == b;
    } else if IsSpace(a[0]) {
      assert (a + b)[1..] == a[1..] + b;
      LexDistributes(a[1..], b);
    } else {
      var t := FirstToken(a);
      FirstTokenCut(a, b);
      assert (a + b)[|t.text|..] == a[|t.text|..] + b;
      LexDistributes(a[|t.text|..], b);
      assert Lex(a) == [t] + Lex(a[|t.text|..]);
    }
  }

  // ---------------------------------------------------------------- round trip

  lemma LexOne(t: Token)
    requires ValidToken(t)
    ensures t.text != "" && Lex(t.text) == [t]
  {
    if t.kind.Word? {
      WordLengthIs(t.text, |t.text|);
      assert t.text[..|t.text|] == t.text;
    }
    assert FirstToken(t.text) == t;
    assert t.text[|t.text|..] == "";
  }

  /** The tokens' texts, each followed by one space. */
  function Spaced(ts: seq<Token>): string {
    if ts == [] then "" else ts[0].text + " " + Spaced(ts[1..])
  }

  lemma SpacedCut(ts: seq<Token>)
    requires ts != []
    ensures Spaced(ts) == ts[0].text + (" " + Spaced(ts[1..])) && CleanCut(ts[0].text, " " + Spaced(ts[1..]))
  {
  }

  lemma LexAfterSpace(s: string)
    ensures Lex(" " + s) == Lex(s)
  {
  }

  /** Lexing the spaced-out text of any list of well-formed tokens gives the list back. */
  lemma {:induction false} LexRoundTrip(ts: seq<Token>)
    requires forall i :: 0 <= i < |ts| ==> ValidToken(ts[i])
    ensures Lex(Spaced(ts)) == ts
  {
    if ts != [] {
      hide Lex, CleanCut, Spaced, ValidToken;
      LexRoundTrip(ts[1..]);
      LexOne(ts[0]);
      SpacedCut(ts);
      LexDistributes(ts[0].text, " " + Spaced(ts[1..]));
      LexAfterSpace(Spaced(ts[1..]));
      assert ts == [ts[0]] + ts[1..];
    }
  }
}
