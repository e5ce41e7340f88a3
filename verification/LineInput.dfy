/**
 src/shell.c: assembling input lines one byte at a time in a fixed buffer, against plain line
 splitting.
 */
module LineInput {

  const SHELL_INPUT_SIZE := 4096
  const LINE_MAX := SHELL_INPUT_SIZE - 1

  /** What one turn of the loop brings: a byte from standard input, its end, or a SIGINT. */
  datatype Event = Byte(c: char) | Eof | Interrupt

  /** What the assembler does: run a line, or report one that is too long and set status 2. */
  datatype Action = Run(line: string) | TooLong

  /** One trailing carriage return is dropped. */
  function Chomp(line: string): string {
    if line != "" && line[|line| - 1] == '\r' then line[..|line| - 1] else line
  }

  /** `line` is what is run for the raw line `raw`: one carriage return at the end is dropped. */
  predicate RanAs(raw: string, line: string) {
    raw == line + "\r" || (raw == line && (line == "" || line[|line| - 1] != '\r'))
  }

  lemma ChompRuns(raw: string)
    ensures RanAs(raw, Chomp(raw))
  {
    if raw != "" { assert raw == raw[..|raw| - 1] + [raw[|raw| - 1]]; }
  }

  /** What the reference does on one event, having seen `line` of the current line. */
  function Emit(e: Event, line: string): seq<Action> {
    match e
    case Byte(c) =>
      if c == '\n' then (if |line| <= LINE_MAX then [Run(Chomp(line))] else [])
      else (if |line| == LINE_MAX then [TooLong] else [])
    case Interrupt => []
    case Eof => if 0 < |line| <= LINE_MAX then [Run(Chomp(line))] else []
  }

  function Typed(e: Event, line: string): string {
    if e.Byte? && e.c != '\n' then line + [e.c] else ""
  }

  /** The reference: keeps the whole line seen so far, however long. */
  function Reference(events: seq<Event>, line: string): seq<Action>
    decreases |events|
  {
    if events == [] then []
    else if events[0].Eof? then Emit(Eof, line)
    else Emit(events[0], line) + Reference(events[1..], Typed(events[0], line))
  }

  /** The line being typed after the events, while input lasts. */
  function Partial(events: seq<Event>, line: string): string
    decreases |events|
  {
    if events == [] then line
    else if events[0].Eof? then ""
    else Partial(events[1..], Typed(events[0], line))
  }

  predicate Ended(events: seq<Event>) {
    exists i :: 0 <= i < |events| && events[i].Eof?
  }

  lemma NotEnded(events: seq<Event>)
    requires events != [] && !Ended(events)
    ensures !events[0].Eof? && !Ended(events[1..])
  {
  }

  lemma {:induction false} ReferenceStep(events: seq<Event>, e: Event, line: string)
    requires !Ended(events)
    ensures Reference(events + [e], line) == Reference(events, line) + Emit(e, Partial(events, line))
    ensures Partial(events + [e], line) == Typed(e, Partial(events, line))
    decreases |events|
  {
    hide Emit, Typed;
    if events == [] {
      assert events + [e] == [e] && [e][1..] == [];
      LastEvent(e, line);
    } else {
      assert (events + [e])[0] == events[0] && (events + [e])[1..] == events[1..] + [e];
      NotEnded(events);
      ReferenceStep(events[1..], e, Typed(events[0], line));
    }
  }

  lemma LastEvent(e: Event, line: string)
    ensures Reference([e], line) == Emit(e, line) && Partial([e], line) == Typed(e, line)
  {
  }

  class LineReader {
    const buffer: array<char>
    var length: nat
    var discarding: bool
    var eof: bool
    var actions: seq<Action>
    var lastStatus: int        // last_exit_status, as far as reading input sets it
    ghost var seen: seq<Event>

    /** The buffer holds the line typed so far, unless that line is already too long. */
    ghost predicate Valid()
      reads this, buffer
    {
      && buffer.Length == SHELL_INPUT_SIZE && length < SHELL_INPUT_SIZE
      && (eof <==> Ended(seen))
      && actions == Reference(seen, "")
      && (if discarding then length == 0 && |Partial(seen, "")| > LINE_MAX
          else Partial(seen, "") == buffer[..length])
    }

    constructor ()
      ensures Valid() && !eof && seen == [] && actions == [] && fresh(buffer)
    {
      buffer := new char[SHELL_INPUT_SIZE];
      length, discarding, eof := 0, false, false;
      actions, seen, lastStatus := [], [], 0;
    }

    /** shell_reset_input */
    method Reset()
      requires buffer.Length == SHELL_INPUT_SIZE
      modifies this`length, this`discarding, buffer
      ensures length == 0 && !discarding
    {
      length, discarding := 0, false;
      buffer[0] := '\0';
    }

    /** shell_dispatch_input, with the parsed command left to the rest of the shell. */
    method Dispatch()
      requires buffer.Length == SHELL_INPUT_SIZE && length < SHELL_INPUT_SIZE
      modifies this`length, this`discarding, this`actions, buffer
      ensures length == 0 && !discarding
      ensures actions == old(actions) + [Run(Chomp(old(buffer[..length])))]
      ensures |actions| == |old(actions)| + 1 && actions[..|old(actions)|] == old(actions)
      ensures actions[|old(actions)|].Run? && RanAs(old(buffer[..length]), actions[|old(actions)|].line)
    {
      ChompRuns(buffer[..length]);
      if length > 0 && buffer[length - 1] == '\r' {
        length := length - 1;
      }
      buffer[length] := '\0';
      assert buffer[..length] == Chomp(old(buffer[..length]));
      actions := actions + [Run(buffer[..length])];
      Reset();
    }

    /** shell_read_input for one byte. */
    method TakeByte(c: char)
      requires buffer.Length == SHELL_INPUT_SIZE && length < SHELL_INPUT_SIZE && (discarding ==> length == 0)
      modifies this`length, this`discarding, this`actions, this`lastStatus, buffer
      ensures lastStatus == if actions == old(actions) + [TooLong] then 2 else old(lastStatus)
      ensures length < SHELL_INPUT_SIZE && (discarding ==> length == 0)
      ensures old(discarding) ==> actions == old(actions) && discarding == (c != '\n') && length == 0
      ensures !old(discarding) ==> actions == old(actions) + Emit(Byte(c), old(buffer[..length]))
      ensures !old(discarding) ==> discarding == (c != '\n' && old(length) == LINE_MAX)
      ensures !old(discarding) && !discarding ==> buffer[..length] == Typed(Byte(c), old(buffer[..length]))
    {
      if discarding {
        if c == '\n' { Reset(); }
      } else if c == '\n' {
        Dispatch();
      } else if length + 1 >= SHELL_INPUT_SIZE {
        actions, lastStatus := actions + [TooLong], 2;
        length, discarding := 0, true;
      } else {
        buffer[length] := c;
        length := length + 1;
        assert buffer[..length] == old(buffer[..length]) + [c];
      }
    }

    /** The events a turn of the loop can bring: each one is consumed completely, so a line is run
        before any later byte has been read. */
    method Feed(e: Event)
      requires Valid() && !eof
      modifies this`length, this`discarding, this`eof, this`actions, this`lastStatus, this`seen, buffer
      ensures lastStatus == if actions == old(actions) + [TooLong] then 2 else old(lastStatus)
      ensures Valid() && seen == old(seen) + [e] && eof == e.Eof?
      ensures old(actions) <= actions
    {
      ReferenceStep(seen, e, "");
      EndedStep(seen, e);
      hide Reference, Partial, Ended, Chomp;
      seen := seen + [e];
      match e {
        case Interrupt =>
          Reset();
        case Eof =>
          eof := true;
          if !discarding && length > 0 { Dispatch(); } else { Reset(); }
        case Byte(c) =>
          TakeByte(c);
      }
    }
  }

  lemma EndedStep(seen: seq<Event>, e: Event)
    requires !Ended(seen)
    ensures Ended(seen + [e]) <==> e.Eof?
  {
    assert (seen + [e])[|seen|] == e;
  }

  // ---------------------------------------------------------------- line splitting

  function Bytes(s: string): seq<Event> {
    seq(|s|, i requires 0 <= i < |s| => Byte(s[i]))
  }

  /** The newline-terminated lines of a text, the first one starting with `line`. */
  function LinesOf(s: string, line: string): seq<string>
    decreases |s|
  {
    if s == "" then []
    else if s[0] == '\n' then [line] + LinesOf(s[1..], "")
    else LinesOf(s[1..], line + [s[0]])
  }

  /** What follows the last newline. */
  function Remainder(s: string, line: string): string
    decreases |s|
  {
    if s == "" then line else Remainder(s[1..], if s[0] == '\n' then "" else line + [s[0]])
  }

  /** The lines of a list that fit into the buffer. */
  function Fitting(lines: seq<string>): seq<string> {
    if lines == [] then [] else (if |lines[0]| <= 4095 then [lines[0]] else []) + Fitting(lines[1..])
  }

  /** How many lines of a list do not. */
  function Overlong(lines: seq<string>): nat {
    if lines == [] then 0 else (if |lines[0]| <= 4095 then 0 else 1) + Overlong(lines[1..])
  }

  /** Splitting loses nothing: the lines, each with its newline, and the rest are the text, and no
      line contains a newline. */
  lemma {:induction false} LinesRejoin(s: string, line: string)
    requires '\n' !in line
    ensures Rejoined(LinesOf(s, line)) + Remainder(s, line) == line + s
    ensures '\n' !in Remainder(s, line) && forall i :: 0 <= i < |LinesOf(s, line)| ==> '\n' !in LinesOf(s, line)[i]
    decreases |s|
  {
    if s != "" {
      assert s == [s[0]] + s[1..];
      if s[0] == '\n' {
        LinesRejoin(s[1..], "");
        var lines := LinesOf(s[1..], "");
        assert ([line] + lines)[1..] == lines;
        Assoc(line + "\n", Rejoined(lines), Remainder(s[1..], ""));
        Assoc(line, "\n", s[1..]);
      } else {
        LinesRejoin(s[1..], line + [s[0]]);
        Assoc(line, [s[0]], s[1..]);
      }
    }
  }

  function Rejoined(lines: seq<string>): string {
    if lines == [] then "" else lines[0] + "\n" + Rejoined(lines[1..])
  }

  /** Line by line, what is run for each raw line. */
  predicate AllRanAs(raw: seq<string>, lines: seq<string>) {
    |lines| == |raw| && forall k :: 0 <= k < |raw| ==> RanAs(raw[k], lines[k])
  }

  lemma AllRanConcat(raw: seq<string>, lines: seq<string>, raw': seq<string>, lines': seq<string>)
    requires AllRanAs(raw, lines) && AllRanAs(raw', lines')
    ensures AllRanAs(raw + raw', lines + lines')
  {
  }

  function RunLines(actions: seq<Action>): seq<string> {
    if actions == [] then [] else (if actions[0].Run? then [actions[0].line] else []) + RunLines(actions[1..])
  }

  lemma {:induction false} RunLinesConcat(a: seq<Action>, b: seq<Action>)
    ensures RunLines(a + b) == RunLines(a) + RunLines(b)
  {
    if a == [] {
      assert a + b == b;
    } else {
      assert (a + b)[0] == a[0] && (a + b)[1..] == a[1..] + b;
      RunLinesConcat(a[1..], b);
      Assoc(if a[0].Run? then [a[0].line] else [], RunLines(a[1..]), RunLines(b));
    }
  }

  lemma Assoc<T>(a: seq<T>, b: seq<T>, c: seq<T>)
    ensures a + (b + c) == (a + b) + c
  {
  }

  function Reports(actions: seq<Action>): nat {
    if actions == [] then 0 else (if actions[0].TooLong? then 1 else 0) + Reports(actions[1..])
  }

  lemma {:induction false} ReportsConcat(a: seq<Action>, b: seq<Action>)
    ensures Reports(a + b) == Reports(a) + Reports(b)
  {
    if a == [] {
      assert a + b == b;
    } else {
      ReportsConcat(a[1..], b);
      assert (a + b)[1..] == a[1..] + b;
    }
  }

  /** Each line of a list either fits or is overlong, and each action either runs a line or is a
      report. */
  lemma {:induction false} FittingMeans(lines: seq<string>)
    ensures |Fitting(lines)| + Overlong(lines) == |lines|
    ensures forall l :: l in Fitting(lines) <==> l in lines && |l| <= 4095
  {
    if lines != [] {
      FittingMeans(lines[1..]);
      assert lines == [lines[0]] + lines[1..];
    }
  }

  lemma {:induction false} RunLinesMeans(actions: seq<Action>)
    ensures |RunLines(actions)| + Reports(actions) == |actions|
    ensures forall l :: l in RunLines(actions) <==> Run(l) in actions
  {
    if actions != [] {
      RunLinesMeans(actions[1..]);
      assert actions == [actions[0]] + actions[1..];
    }
  }

  /** What follows the last newline, if there is anything. */
  function LastLine(s: string, line: string): seq<string> {
    if Remainder(s, line) == "" then [] else [Remainder(s, line)]
  }

  function AllLines(s: string, line: string): seq<string> { LinesOf(s, line) + LastLine(s, line) }

  /** One byte of a text, for the reference and for the lines. */
  lemma TextStep(s: string, line: string)
    requires s != ""
    ensures Reference(Bytes(s) + [Eof], line)
         == Emit(Byte(s[0]), line) + Reference(Bytes(s[1..]) + [Eof], Typed(Byte(s[0]), line))
    ensures AllLines(s, line)
         == if s[0] == '\n' then [line] + AllLines(s[1..], "") else AllLines(s[1..], line + [s[0]])
  {
    var evs := Bytes(s) + [Eof];
    assert evs[0] == Byte(s[0]) && evs[1..] == Bytes(s[1..]) + [Eof];
  }

  lemma TextEnd(line: string)
    ensures Reference(Bytes("") + [Eof], line) == Emit(Eof, line)
    ensures AllLines("", line) == if line == "" then [] else [line]
  {
    assert Bytes("") + [Eof] == [Eof];
  }

  /** On a text typed without interruption the lines that are run are exactly the text's lines of at
      most 4095 bytes, a nonempty unterminated last one included, each without one trailing CR. */
  lemma {:induction false} RunsTheLines(s: string, line: string)
    ensures AllRanAs(Fitting(AllLines(s, line)), RunLines(Reference(Bytes(s) + [Eof], line)))
    decreases |s|
  {
    hide AllLines, Reference, Emit, Typed, AllRanAs, Fitting, RunLines;
    if s == "" {
      TextEnd(line);
      RunsLast(line);
    } else {
      TextStep(s, line);
      TypedByte(s[0], line);
      if s[0] == '\n' {
        RunsTheLines(s[1..], "");
        RunsOneMore(line, AllLines(s[1..], ""), Reference(Bytes(s[1..]) + [Eof], ""));
      } else {
        RunsTheLines(s[1..], line + [s[0]]);
        RunsNoMore(s[0], line, Reference(Bytes(s[1..]) + [Eof], line + [s[0]]));
      }
    }
  }

  lemma TypedByte(c: char, line: string)
    ensures Typed(Byte(c), line) == if c == '\n' then "" else line + [c]
  {
  }

  lemma RunsNoMore(c: char, line: string, actions: seq<Action>)
    requires c != '\n'
    ensures RunLines(Emit(Byte(c), line) + actions) == RunLines(actions)
  {
    RunLinesConcat(Emit(Byte(c), line), actions);
    assert [TooLong][1..] == [];
  }

  lemma RunsLast(line: string)
    ensures AllRanAs(Fitting(if line == "" then [] else [line]), RunLines(Emit(Eof, line)))
  {
    ChompRuns(line);
    RunOne(line);
    FittingOne(line);
    hide Chomp, RanAs;
  }

  /** One more complete line in front. */
  lemma RunsOneMore(line: string, lines: seq<string>, actions: seq<Action>)
    requires AllRanAs(Fitting(lines), RunLines(actions))
    ensures AllRanAs(Fitting([line] + lines), RunLines(Emit(Byte('\n'), line) + actions))
  {
    ChompRuns(line);
    RunOne(line);
    hide Chomp, RanAs, AllRanAs;
    RunLinesConcat(Emit(Byte('\n'), line), actions);
    assert ([line] + lines)[1..] == lines;
    if |line| <= 4095 {
      RanOne(line, Chomp(line));
      AllRanConcat([line], [Chomp(line)], Fitting(lines), RunLines(actions));
    } else {
      assert [] + Fitting(lines) == Fitting(lines) && [] + RunLines(actions) == RunLines(actions);
    }
  }

  lemma RanOne(raw: string, line: string)
    requires RanAs(raw, line)
    ensures AllRanAs([raw], [line])
  {
  }

  lemma FittingOne(line: string)
    ensures Fitting([line]) == if |line| <= 4095 then [line] else []
    ensures Overlong([line]) == if |line| <= 4095 then 0 else 1
  {
    assert [line][1..] == [];
  }

  /** And a line of more than 4095 bytes is reported exactly once, as soon as it is too long. */
  lemma {:induction false} ReportsOverlong(s: string, line: string)
    ensures Reports(Reference(Bytes(s) + [Eof], line)) + (if |line| > 4095 then 1 else 0) == Overlong(AllLines(s, line))
    decreases |s|
  {
    hide AllLines, Reference, Typed, Chomp;
    NoReport(Chomp(line));
    FittingOne(line);
    if s == "" {
      TextEnd(line);
    } else {
      TextStep(s, line);
      TypedByte(s[0], line);
      var line' := if s[0] == '\n' then "" else line + [s[0]];
      ReportsOverlong(s[1..], line');
      ReportsConcat(Emit(Byte(s[0]), line), Reference(Bytes(s[1..]) + [Eof], line'));
      assert [TooLong][1..] == [];
      assert Reports([TooLong]) == 1;
      assert ([line] + AllLines(s[1..], ""))[1..] == AllLines(s[1..], "");
    }
  }

  lemma NoReport(line: string)
    ensures Reports([Run(line)]) == 0
  {
    assert [Run(line)][1..] == [];
  }

  lemma RunOne(line: string)
    ensures RunLines([Run(Chomp(line))]) == [Chomp(line)]
  {
  }

  /** An interrupt discards the partial line and nothing else. */
  lemma {:induction false} InterruptDropsPartial(before: seq<Event>, after: seq<Event>, line: string)
    requires !Ended(before)
    ensures Reference(before + [Interrupt] + after, line) == Reference(before, line) + Reference(after, "")
    decreases |before|
  {
    var all := before + [Interrupt] + after;
    if before == [] {
      assert all[0] == Interrupt && all[1..] == after;
    } else {
      assert all[0] == before[0] && all[1..] == before[1..] + [Interrupt] + after;
      NotEnded(before);
      InterruptDropsPartial(before[1..], after, Typed(before[0], line));
    }
  }
}
