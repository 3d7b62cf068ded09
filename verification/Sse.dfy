/** Server-sent-event framing, as both stream translators read it, and the client side they write to
    (internal/protocol/anthropic/stream.go, internal/protocol/gemini/stream.go). */
module Sse {
  import opened Prelude
  import opened Text
  import opened UsageTap

  /** bufio.ScanLines: lines end at '\n', a '\r' before it is dropped, the last may lack its end. */
  function ScanLines(s: string): seq<string>
    decreases |s|
  {
    if s == "" then []
    else
      var i := IndexOf(s, '\n');
      if i == |s| then [DropCR(s)] else [DropCR(s[..i])] + ScanLines(s[i + 1..])
  }

  /** The data lines of the event being read, and the payloads of those read. */
  datatype Framing = Framing(pending: seq<string>, payloads: seq<string>)

  function Flush(f: Framing): Framing {
    if f.pending == [] then f else Framing([], f.payloads + [Join(f.pending, "\n")])
  }

  function PushLine(f: Framing, line: string): Framing {
    if line == "" then Flush(f)
    else if DATA <= line then f.(pending := f.pending + [Trim(line[|DATA|..])])
    else f
  }

  function NextPending(pending: seq<string>, line: string): seq<string> {
    if line == "" then []
    else if DATA <= line then pending + [Trim(line[|DATA|..])]
    else pending
  }

  function PushLines(f: Framing, lines: seq<string>): Framing {
    if lines == [] then f else PushLine(PushLines(f, lines[..|lines| - 1]), lines[|lines| - 1])
  }

  const START := Framing([], [])

  /** What the events of a stream carry; the end of input ends the last one. */
  function Payloads(lines: seq<string>): seq<string> {
    Flush(PushLines(START, lines)).payloads
  }

  /** The payloads that are events: neither empty nor [DONE], and JSON of the right shape. */
  function Parsed<E>(payloads: seq<string>, parse: string -> Option<E>): seq<E> {
    if payloads == [] then []
    else
      var p := payloads[|payloads| - 1];
      var before := Parsed(payloads[..|payloads| - 1], parse);
      if p == "" || p == "[DONE]" || parse(p).None? then before else before + [parse(p).value]
  }

  /** Reading back what a translator prints gives the JSON texts of its frames, in order. */
  lemma {:induction false} FramingRoundTrip(jsons: seq<string>)
    requires forall j | j in jsons :: OneLine(j)
    ensures Payloads(ScanLines(Frames(jsons))) == jsons
  {
    ScanFrames(jsons);
    PushFrames(jsons);
  }

  function FrameLines(jsons: seq<string>): seq<string> {
    if jsons == [] then [] else FrameLines(jsons[..|jsons| - 1]) + ["data: " + jsons[|jsons| - 1], ""]
  }

  lemma {:induction false} PushFrames(jsons: seq<string>)
    requires forall j | j in jsons :: OneLine(j)
    ensures PushLines(START, FrameLines(jsons)) == Framing([], jsons)
  {
    if jsons != [] {
      var n := |jsons| - 1;
      var before, line := FrameLines(jsons[..n]), "data: " + jsons[n];
      var all := FrameLines(jsons);
      PushFrames(jsons[..n]);
      assert OneLine(jsons[n]);
      assert all[..|all| - 1] == before + [line] && (before + [line])[..|before|] == before;
      assert DATA <= line && line[|DATA|..] == " " + jsons[n];
      TrimPadded(jsons[n]);
      assert PushLines(START, before + [line]) == Framing([jsons[n]], jsons[..n]);
    }
  }

  lemma ScanFirst(line: string, rest: string)
    requires '\n' !in line
    ensures ScanLines(line + ("\n" + rest)) == [DropCR(line)] + ScanLines(rest)
  {
    var s := line + ("\n" + rest);
    IndexOfIs(s, '\n', |line|);
    assert s[..|line|] == line && s[|line| + 1..] == rest;
  }

  lemma CutAtBreak(s: string, i: nat)
    requires i < |s| && s[i] == '\n'
    ensures s == s[..i] + ("\n" + s[i + 1..])
  {
  }

  lemma ScanBefore(line: string, rest: string, t: string)
    requires '\n' !in line
    ensures ScanLines((line + ("\n" + rest)) + t) == [DropCR(line)] + ScanLines(rest + t)
  {
    ConcatAssoc(line, "\n" + rest, t);
    ConcatAssoc("\n", rest, t);
    ScanFirst(line, rest + t);
  }

  lemma {:induction false} ScanConcat(s: string, t: string)
    requires s == "" || s[|s| - 1] == '\n'
    ensures ScanLines(s + t) == ScanLines(s) + ScanLines(t)
    decreases |s|
  {
    if s == "" {
      assert s + t == t;
    } else {
      var i := IndexOf(s, '\n');
      var line, rest := s[..i], s[i + 1..];
      CutAtBreak(s, i);
      ScanFirst(line, rest);
      ScanBefore(line, rest, t);
      ScanConcat(rest, t);
      ConcatAssoc([DropCR(line)], ScanLines(rest), ScanLines(t));
    }
  }

  lemma ScanOne(line: string)
    requires '\n' !in line && (line == "" || line[|line| - 1] != '\r')
    ensures ScanLines(line + "\n") == [line]
  {
    var all := line + "\n";
    IndexOfIs(all, '\n', |line|);
    assert all[..|line|] == line && all[|line| + 1..] == "";
  }

  lemma DataLineIsOne(json: string)
    requires OneLine(json)
    ensures var line := "data: " + json;
            '\n' !in line && line != "" && line[|line| - 1] != '\r'
  {
    assert IsSpace('\r');
  }

  lemma ScanFrame(json: string)
    requires OneLine(json)
    ensures ScanLines(Frame(json)) == ["data: " + json, ""]
  {
    var line := "data: " + json;
    DataLineIsOne(json);
    ScanTwo(line);
    assert Frame(json) == (line + "\n") + "\n" by {
      assert "\n\n" == "\n" + "\n";
    }
  }

  lemma ScanTwo(line: string)
    requires '\n' !in line && line != "" && line[|line| - 1] != '\r'
    ensures ScanLines((line + "\n") + "\n") == [line, ""]
  {
    ScanOne(line);
    ScanOne("");
    assert "" + "\n" == "\n";
    ScanConcat(line + "\n", "\n");
  }

  lemma {:induction false} ScanFrames(jsons: seq<string>)
    requires forall j | j in jsons :: OneLine(j)
    ensures ScanLines(Frames(jsons)) == FrameLines(jsons)
    ensures Frames(jsons) == "" || Frames(jsons)[|Frames(jsons)| - 1] == '\n'
  {
    if jsons != [] {
      var n := |jsons| - 1;
      assert OneLine(jsons[n]);
      ScanFrames(jsons[..n]);
      ScanFrame(jsons[n]);
      ScanConcat(Frames(jsons[..n]), Frame(jsons[n]));
    }
  }

  // ---------- the client's side ----------

  /** A connection that takes `room` more frames before it breaks. */
  class Sink<F> {
    var frames: seq<F>
    var room: nat

    constructor (room: nat)
      ensures frames == [] && this.room == room
    {
      frames := [];
      this.room := room;
    }

    method Write(f: F) returns (ok: bool)
      modifies this
      ensures ok <==> old(room) > 0
      ensures if ok then frames == old(frames) + [f] && room == old(room) - 1
              else frames == old(frames) && room == old(room)
    {
      if room == 0 {
        return false;
      }
      frames := frames + [f];
      room := room - 1;
      return true;
    }
  }

  /** What a connection with `room` left gets of the frames meant for it. */
  function Reaches<F>(frames: seq<F>, room: nat): seq<F> {
    if |frames| <= room then frames else frames[..room]
  }

  // ---------- running a translator over a stream ----------

  datatype Stepped<S, F> = Stepped(state: S, frames: seq<F>)

  function Run<S, E, F>(step: (S, E) -> Stepped<S, F>, s: S, events: seq<E>): Stepped<S, F> {
    if events == [] then Stepped(s, [])
    else
      var before := Run(step, s, events[..|events| - 1]);
      var last := step(before.state, events[|events| - 1]);
      Stepped(last.state, before.frames + last.frames)
  }

  lemma {:induction false} RunConcat<S, E, F>(step: (S, E) -> Stepped<S, F>, s: S, a: seq<E>, b: seq<E>)
    ensures var first := Run(step, s, a);
            var second := Run(step, first.state, b);
            Run(step, s, a + b) == Stepped(second.state, first.frames + second.frames)
  {
    if b == [] {
      assert a + b == a;
    } else {
      var n := |b| - 1;
      RunConcat(step, s, a, b[..n]);
      assert (a + b)[..|a + b| - 1] == a + b[..n];
    }
  }

  /** The events complete once `lines` have been read. */
  function EventsIn<E>(lines: seq<string>, parse: string -> Option<E>): seq<E> {
    Parsed(PushLines(START, lines).payloads, parse)
  }

  function AllEvents<E>(lines: seq<string>, parse: string -> Option<E>): seq<E> {
    Parsed(Payloads(lines), parse)
  }

  /** The event that the pending data lines make, if they make one. */
  function Pending<E>(pending: seq<string>, parse: string -> Option<E>): seq<E> {
    if pending == [] then [] else Parsed([Join(pending, "\n")], parse)
  }

  lemma ParsedSnoc<E>(payloads: seq<string>, p: string, parse: string -> Option<E>)
    ensures Parsed(payloads + [p], parse) == Parsed(payloads, parse) + Parsed([p], parse)
  {
    assert (payloads + [p])[..|payloads|] == payloads && [p][..0] == [];
  }

  lemma LineEvents<E>(lines: seq<string>, line: string, parse: string -> Option<E>)
    ensures var f := PushLines(START, lines);
            && PushLines(START, lines + [line]) == PushLine(f, line)
            && EventsIn(lines + [line], parse)
               == EventsIn(lines, parse) + (if line == "" then Pending(f.pending, parse) else [])
  {
    var f := PushLines(START, lines);
    assert (lines + [line])[..|lines|] == lines;
    if line == "" && f.pending != [] {
      ParsedSnoc(f.payloads, Join(f.pending, "\n"), parse);
    }
  }

  lemma EndEvents<E>(lines: seq<string>, parse: string -> Option<E>)
    ensures AllEvents(lines, parse) == EventsIn(lines, parse) + Pending(PushLines(START, lines).pending, parse)
  {
    var f := PushLines(START, lines);
    if f.pending != [] {
      ParsedSnoc(f.payloads, Join(f.pending, "\n"), parse);
    }
  }

  /** What has been read determines a prefix of what the whole stream comes to. */
  lemma {:induction false} EventsGrow<E>(lines: seq<string>, i: nat, parse: string -> Option<E>)
    requires i <= |lines|
    ensures EventsIn(lines[..i], parse) <= AllEvents(lines, parse)
    decreases |lines| - i
  {
    if i == |lines| {
      assert lines[..i] == lines;
      EndEvents(lines, parse);
    } else {
      LineEvents(lines[..i], lines[i], parse);
      assert lines[..i] + [lines[i]] == lines[..i + 1];
      EventsGrow(lines, i + 1, parse);
    }
  }

  lemma RunGrows<S, E, F>(step: (S, E) -> Stepped<S, F>, s: S, a: seq<E>, b: seq<E>)
    requires a <= b
    ensures Run(step, s, a).frames <= Run(step, s, b).frames
  {
    assert b == a + b[|a|..];
    RunConcat(step, s, a, b[|a|..]);
  }

  /** Should the connection break within the next frames, it has taken what it takes of the whole. */
  ghost predicate CutsTo<F>(sent: seq<F>, next: seq<F>, whole: seq<F>, room: nat) {
    |sent| <= room < |sent| + |next| ==>
      |whole| > room && sent + Reaches(next, room - |sent|) == Reaches(whole, room)
  }

  /** Frames cut off by the connection are a prefix of all frames, however many were still to come. */
  lemma RunExtends<S, E, F>(step: (S, E) -> Stepped<S, F>, s: S, before: seq<E>, next: seq<E>, all: seq<E>, room: nat)
    requires before + next <= all
    ensures var first := Run(step, s, before);
            var second := Run(step, first.state, next);
            var whole := Run(step, s, all).frames;
            && Run(step, s, before + next) == Stepped(second.state, first.frames + second.frames)
            && first.frames + second.frames <= whole
            && CutsTo(first.frames, second.frames, whole, room)
  {
    RunConcat(step, s, before, next);
    RunGrows(step, s, before + next, all);
    var first := Run(step, s, before);
    var second := Run(step, first.state, next);
    CutsPrefix(first.frames, second.frames, Run(step, s, all).frames, room);
  }

  lemma CutsPrefix<F>(sent: seq<F>, next: seq<F>, whole: seq<F>, room: nat)
    requires sent + next <= whole
    ensures CutsTo(sent, next, whole, room)
  {
    if |sent| <= room < |sent| + |next| {
      assert whole[..room] == (sent + next)[..room];
    }
  }

  /** What reading one more line adds, to the events, the frames and the pending data. */
  lemma LineRuns<S, E, F>(step: (S, E) -> Stepped<S, F>, s: S, lines: seq<string>, i: nat, parse: string -> Option<E>,
                          room: nat)
    requires i < |lines|
    ensures var f := PushLines(START, lines[..i]);
            var before := Run(step, s, EventsIn(lines[..i], parse));
            var next := Run(step, before.state, if lines[i] == "" then Pending(f.pending, parse) else []);
            var whole := Run(step, s, AllEvents(lines, parse)).frames;
            && PushLines(START, lines[..i + 1]).pending == NextPending(f.pending, lines[i])
            && Run(step, s, EventsIn(lines[..i + 1], parse)) == Stepped(next.state, before.frames + next.frames)
            && CutsTo(before.frames, next.frames, whole, room)
  {
    LineEvents(lines[..i], lines[i], parse);
    assert lines[..i] + [lines[i]] == lines[..i + 1];
    EventsGrow(lines, i + 1, parse);
    RunExtends(step, s, EventsIn(lines[..i], parse),
               if lines[i] == "" then Pending(PushLines(START, lines[..i]).pending, parse) else [],
               AllEvents(lines, parse), room);
  }

  lemma EndRuns<S, E, F>(step: (S, E) -> Stepped<S, F>, s: S, lines: seq<string>, parse: string -> Option<E>, room: nat)
    ensures var before := Run(step, s, EventsIn(lines, parse));
            var next := Run(step, before.state, Pending(PushLines(START, lines).pending, parse));
            && Run(step, s, AllEvents(lines, parse)) == Stepped(next.state, before.frames + next.frames)
            && (|before.frames| <= room ==>
                  before.frames + Reaches(next.frames, room - |before.frames|)
                    == Reaches(before.frames + next.frames, room))
  {
    EndEvents(lines, parse);
    RunExtends(step, s, EventsIn(lines, parse), Pending(PushLines(START, lines).pending, parse),
               AllEvents(lines, parse), room);
  }

  lemma ReachesConcat<F>(a: seq<F>, b: seq<F>, room: nat)
    requires |a| <= room
    ensures a + Reaches(b, room - |a|) == Reaches(a + b, room)
  {
  }

  lemma CutInside<F>(a: seq<F>, b: seq<F>, room: nat)
    requires |a| > room
    ensures Reaches(a + b, room) == Reaches(a, room)
  {
  }

  lemma RunOne<S, E, F>(step: (S, E) -> Stepped<S, F>, s: S, e: E)
    ensures Run(step, s, [e]) == step(s, e)
  {
    var before: seq<E> := [];
    assert [e][..0] == before;
    var none: seq<F> := [];
    assert none + step(s, e).frames == step(s, e).frames;
  }

  lemma ParsedOne<E>(p: string, parse: string -> Option<E>)
    ensures Parsed([p], parse) == if p == "" || p == "[DONE]" || parse(p).None? then [] else [parse(p).value]
  {
    var before: seq<string> := [];
    assert [p][..|[p]| - 1] == before;
  }

  // ---------- what lines mean ----------

  lemma {:induction false} PushLinesConcat(f: Framing, a: seq<string>, b: seq<string>)
    ensures PushLines(f, a + b) == PushLines(PushLines(f, a), b)
  {
    if b == [] {
      assert a + b == a;
    } else {
      PushLinesConcat(f, a, b[..|b| - 1]);
      ConcatInit(a, b);
    }
  }

  lemma PushOne(f: Framing, line: string)
    ensures PushLines(f, [line]) == PushLine(f, line)
  {
    var none: seq<string> := [];
    assert [line][..0] == none;
  }

  /** Payloads read so far stay, and do not touch what is read later. */
  lemma {:induction false} PayloadsAdd(before: seq<string>, pending: seq<string>, lines: seq<string>)
    ensures PushLines(Framing(pending, before), lines)
            == Framing(PushLines(Framing(pending, []), lines).pending,
                       before + PushLines(Framing(pending, []), lines).payloads)
  {
    if lines == [] {
      assert before + [] == before;
    } else {
      var init := lines[..|lines| - 1];
      PayloadsAdd(before, pending, init);
      var f := PushLines(Framing(pending, []), init);
      ConcatAssoc(before, f.payloads, [Join(f.pending, "\n")]);
    }
  }

  /** A line that is neither blank nor data, an event name, an id or a comment, changes nothing, wherever it
      stands. */
  lemma OtherLinesIgnored(a: seq<string>, line: string, b: seq<string>)
    requires line != "" && !(DATA <= line)
    ensures Payloads(a + [line] + b) == Payloads(a + b)
  {
    PushLinesConcat(START, a + [line], b);
    PushLinesConcat(START, a, [line]);
    PushOne(PushLines(START, a), line);
    PushLinesConcat(START, a, b);
  }

  /** A blank line ends an event: what comes before and after it is read apart. */
  lemma BlankLineSplits(a: seq<string>, b: seq<string>)
    ensures Payloads(a + [""] + b) == Payloads(a) + Payloads(b)
  {
    PushLinesConcat(START, a + [""], b);
    PushLinesConcat(START, a, [""]);
    PushOne(PushLines(START, a), "");
    var read := Payloads(a);
    PayloadsAdd(read, [], b);
    var f := PushLines(START, b);
    ConcatAssoc(read, f.payloads, [Join(f.pending, "\n")]);
  }

  /** So does the end of the input. */
  lemma EndIsBlankLine(lines: seq<string>)
    ensures Payloads(lines + [""]) == Payloads(lines)
  {
    PushLinesConcat(START, lines, [""]);
    PushOne(PushLines(START, lines), "");
  }

  function DataLines(data: seq<string>): seq<string> {
    seq(|data|, i requires 0 <= i < |data| => DATA + data[i])
  }

  function AllTrimmed(data: seq<string>): seq<string> {
    seq(|data|, i requires 0 <= i < |data| => Trim(data[i]))
  }

  /** The data lines of one event make one payload: their data, trimmed, joined by line feeds. */
  lemma DataLinesJoin(data: seq<string>)
    ensures Payloads(DataLines(data)) == if data == [] then [] else [Join(AllTrimmed(data), "\n")]
  {
    DataLinesPend(data);
  }

  lemma {:induction false} DataLinesPend(data: seq<string>)
    ensures PushLines(START, DataLines(data)) == Framing(AllTrimmed(data), [])
  {
    if data != [] {
      var n := |data| - 1;
      DataLinesPend(data[..n]);
      assert DataLines(data)[..n] == DataLines(data[..n]);
      assert AllTrimmed(data) == AllTrimmed(data[..n]) + [Trim(data[n])];
      var line := DATA + data[n];
      assert line[..|DATA|] == DATA && line[|DATA|..] == data[n];
    }
  }

  // ---------- a stream with event names, ids and comments ----------

  /** An event as sent: lines that are no data, the JSON on a data line of its own, more such lines, and a
      blank one; `crlf` says whether its lines end in carriage returns too. */
  datatype RawEvent = RawEvent(before: seq<string>, json: string, after: seq<string>, crlf: bool)

  predicate NoData(line: string) {
    line != "" && !(DATA <= line) && '\n' !in line && line[|line| - 1] != '\r'
  }

  ghost predicate WellSent(e: RawEvent) {
    && OneLine(e.json)
    && (forall i | 0 <= i < |e.before| :: NoData(e.before[i])) && (forall i | 0 <= i < |e.after| :: NoData(e.after[i]))
  }

  function LinesOf(e: RawEvent): seq<string> {
    e.before + ["data: " + e.json] + e.after + [""]
  }

  function Ended(lines: seq<string>, crlf: bool): string {
    if lines == [] then ""
    else Ended(lines[..|lines| - 1], crlf) + (lines[|lines| - 1] + (if crlf then "\r\n" else "\n"))
  }

  function RawBytes(es: seq<RawEvent>): string {
    if es == [] then "" else RawBytes(es[..|es| - 1]) + Ended(LinesOf(es[|es| - 1]), es[|es| - 1].crlf)
  }

  function Jsons(es: seq<RawEvent>): seq<string> {
    seq(|es|, i requires 0 <= i < |es| => es[i].json)
  }

  predicate Clean(line: string) {
    '\n' !in line && (line == "" || line[|line| - 1] != '\r')
  }

  lemma ScanEnded1(line: string, crlf: bool)
    requires Clean(line)
    ensures ScanLines(line + (if crlf then "\r\n" else "\n")) == [line]
  {
    if crlf {
      var cr := line + "\r";
      assert line + "\r\n" == cr + "\n";
      var all := cr + "\n";
      IndexOfIs(all, '\n', |cr|);
      assert all[..|cr|] == cr && all[|cr| + 1..] == "" && cr[..|cr| - 1] == line;
    } else {
      ScanOne(line);
    }
  }

  lemma EndedEnds(lines: seq<string>, crlf: bool)
    ensures var bytes := Ended(lines, crlf);
            if lines == [] then bytes == "" else bytes != "" && bytes[|bytes| - 1] == '\n'
  {
  }

  lemma {:induction false} ScanEnded(lines: seq<string>, crlf: bool)
    requires forall i | 0 <= i < |lines| :: Clean(lines[i])
    ensures ScanLines(Ended(lines, crlf)) == lines
  {
    if lines != [] {
      var n := |lines| - 1;
      ScanEnded(lines[..n], crlf);
      EndedEnds(lines[..n], crlf);
      ScanEnded1(lines[n], crlf);
      ScanConcat(Ended(lines[..n], crlf), lines[n] + (if crlf then "\r\n" else "\n"));
    }
  }

  lemma {:induction false} NoDataPushed(f: Framing, lines: seq<string>)
    requires forall i | 0 <= i < |lines| :: NoData(lines[i])
    ensures PushLines(f, lines) == f
  {
    if lines != [] {
      NoDataPushed(f, lines[..|lines| - 1]);
    }
  }

  lemma RawEventPushed(payloads: seq<string>, e: RawEvent)
    requires WellSent(e)
    ensures PushLines(Framing([], payloads), LinesOf(e)) == Framing([], payloads + [e.json])
  {
    var f, line := Framing([], payloads), "data: " + e.json;
    PushLinesConcat(f, e.before + [line] + e.after, [""]);
    PushLinesConcat(f, e.before + [line], e.after);
    PushLinesConcat(f, e.before, [line]);
    NoDataPushed(f, e.before);
    DataPushed(payloads, e.json);
    var read := Framing([e.json], payloads);
    NoDataPushed(read, e.after);
    PushOne(read, "");
    assert PushLines(f, e.before + [line] + e.after) == read;
    assert Join([e.json], "\n") == e.json;
  }

  lemma DataPushed(payloads: seq<string>, json: string)
    requires OneLine(json)
    ensures PushLines(Framing([], payloads), ["data: " + json]) == Framing([json], payloads)
  {
    var f := Framing([], payloads);
    PushOne(f, "data: " + json);
    DataOfLine(json);
    assert f.pending + [json] == [json];
  }

  lemma DataOfLine(json: string)
    requires OneLine(json)
    ensures var line := "data: " + json;
            DATA <= line && Trim(line[|DATA|..]) == json
  {
    var line := "data: " + json;
    assert line[..|DATA|] == DATA && line[|DATA|..] == " " + json;
    TrimPadded(json);
  }

  /** However a stream is dressed, with event names, ids and comments before and after its data, and with
      either line end, what is read of it is the JSON of its events, in order. */
  lemma RawPayloads(es: seq<RawEvent>)
    requires forall i | 0 <= i < |es| :: WellSent(es[i])
    ensures Payloads(ScanLines(RawBytes(es))) == Jsons(es)
  {
    RawPushed(es);
  }

  lemma {:induction false} RawPushed(es: seq<RawEvent>)
    requires forall i | 0 <= i < |es| :: WellSent(es[i])
    ensures PushLines(START, ScanLines(RawBytes(es))) == Framing([], Jsons(es))
  {
    if es != [] {
      var n := |es| - 1;
      RawPushed(es[..n]);
      RawNext(es);
      RawStep(ScanLines(RawBytes(es[..n])), Jsons(es[..n]), es[n]);
      LastJson(es);
    }
  }

  lemma LastJson(es: seq<RawEvent>)
    requires es != []
    ensures Jsons(es) == Jsons(es[..|es| - 1]) + [es[|es| - 1].json]
  {
  }

  lemma RawStep(lines: seq<string>, jsons: seq<string>, e: RawEvent)
    requires PushLines(START, lines) == Framing([], jsons) && WellSent(e)
    ensures PushLines(START, lines + LinesOf(e)) == Framing([], jsons + [e.json])
  {
    PushLinesConcat(START, lines, LinesOf(e));
    RawEventPushed(jsons, e);
  }

  lemma RawNext(es: seq<RawEvent>)
    requires es != [] && forall i | 0 <= i < |es| :: WellSent(es[i])
    ensures var n := |es| - 1;
            ScanLines(RawBytes(es)) == ScanLines(RawBytes(es[..n])) + LinesOf(es[n])
  {
    var n := |es| - 1;
    RawEnds(es[..n]);
    RawScanned(es[n]);
    ScanConcat(RawBytes(es[..n]), Ended(LinesOf(es[n]), es[n].crlf));
  }

  lemma RawEnds(es: seq<RawEvent>)
    requires forall i | 0 <= i < |es| :: WellSent(es[i])
    ensures RawBytes(es) == "" || RawBytes(es)[|RawBytes(es)| - 1] == '\n'
  {
    if es != [] {
      RawScanned(es[|es| - 1]);
    }
  }

  lemma RawScanned(e: RawEvent)
    requires WellSent(e)
    ensures var bytes := Ended(LinesOf(e), e.crlf);
            ScanLines(bytes) == LinesOf(e) && bytes != "" && bytes[|bytes| - 1] == '\n'
  {
    RawLinesClean(e);
    ScanEnded(LinesOf(e), e.crlf);
    EndedEnds(LinesOf(e), e.crlf);
  }

  lemma RawLinesClean(e: RawEvent)
    requires WellSent(e)
    ensures forall i | 0 <= i < |LinesOf(e)| :: Clean(LinesOf(e)[i])
  {
    DataLineIsOne(e.json);
  }

  lemma ParsedLast<E>(payloads: seq<string>, parse: string -> Option<E>)
    requires payloads != []
    ensures var n := |payloads| - 1;
            Parsed(payloads, parse) == Parsed(payloads[..n], parse) + Parsed([payloads[n]], parse)
  {
    var n := |payloads| - 1;
    ParsedOne(payloads[n], parse);
    if Parsed([payloads[n]], parse) == [] {
      assert Parsed(payloads[..n], parse) + [] == Parsed(payloads[..n], parse);
    }
  }

  lemma {:induction false} ParsedConcat<E>(a: seq<string>, b: seq<string>, parse: string -> Option<E>)
    ensures Parsed(a + b, parse) == Parsed(a, parse) + Parsed(b, parse)
  {
    if b == [] {
      assert a + b == a;
    } else {
      var n := |b| - 1;
      ParsedConcat(a, b[..n], parse);
      ParsedLast(a + b, parse);
      ParsedLast(b, parse);
      ConcatInit(a, b);
      ConcatAssoc(Parsed(a, parse), Parsed(b[..n], parse), Parsed([b[n]], parse));
    }
  }

  /** A payload that is empty, [DONE] or bad JSON is passed over wherever it stands, and any other is one
      event at its place. */
  lemma EachPayloadIsAnEvent<E>(a: seq<string>, p: string, b: seq<string>, parse: string -> Option<E>)
    ensures if p == "" || p == "[DONE]" || parse(p).None? then Parsed(a + [p] + b, parse) == Parsed(a + b, parse)
            else Parsed(a + [p] + b, parse) == Parsed(a, parse) + [parse(p).value] + Parsed(b, parse)
  {
    ParsedConcat(a + [p], b, parse);
    ParsedConcat(a, [p], parse);
    ParsedConcat(a, b, parse);
    ParsedOne(p, parse);
  }
}
