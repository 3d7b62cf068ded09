/** Translating a Gemini stream into OpenAI chunks (internal/protocol/gemini/stream.go). */
module GeminiStream {
  import opened Prelude
  import opened Text
  import opened UsageTap
  import opened Sse
  import opened ChatTypes
  import opened GeminiResponse

  datatype State = State(roleSent: bool, nextToolIdx: nat, finish: Option<string>, usage: Option<TokenUsage>)

  const INITIAL := State(false, 0, None, None)
  const MSG_ID := "chatcmpl-gemini"

  function ChunkOf(model: string, d: Delta): Frame {
    ChunkFrame(Chunk(MSG_ID, model, d, None, None))
  }

  /** A call as streamed, named by its own count. */
  function StreamedCall(c: GeminiCall, n: nat): ToolCall {
    ToolCall(CallID(n), c.name, c.args)
  }

  function OnePart(model: string, p: Part, next: nat): seq<Frame> {
    (if p.text != "" then [ChunkOf(model, TextDelta(p.text))] else [])
    + (if p.call.Some? then [ChunkOf(model, CallDelta(next, StreamedCall(p.call.value, next)))] else [])
  }

  function PartFrames(model: string, parts: seq<Part>, next: nat): seq<Frame> {
    if parts == [] then []
    else
      var n := |parts| - 1;
      PartFrames(model, parts[..n], next) + OnePart(model, parts[n], next + CallCount(parts[..n]))
  }

  predicate HasCall(parts: seq<Part>) {
    exists i | 0 <= i < |parts| :: parts[i].call.Some?
  }

  /** The finish reason one chunk sets, if it carries one. */
  function ChunkFinish(ev: GenerateContentResponse): Option<string> {
    if ReasonOf(ev) == "" then None
    else Some(if HasCall(PartsOf(ev)) then "tool_calls" else MapFinishReason(ReasonOf(ev)))
  }

  function Step(s: State, ev: GenerateContentResponse, model: string): Stepped<State, Frame> {
    Stepped(
      State(
        true,
        s.nextToolIdx + CallCount(PartsOf(ev)),
        if ChunkFinish(ev).Some? then ChunkFinish(ev) else s.finish,
        if ev.usage.Some? then Some(UsageOfMetadata(ev.usage.value)) else s.usage),
      (if s.roleSent then [] else [ChunkOf(model, RoleDelta())]) + PartFrames(model, PartsOf(ev), s.nextToolIdx))
  }

  function Stepper(model: string): (State, GenerateContentResponse) -> Stepped<State, Frame> {
    (s, ev) => Step(s, ev, model)
  }

  function Closing(s: State, model: string, includeUsage: bool): seq<Frame> {
    [ChunkFrame(Chunk(MSG_ID, model, EmptyDelta(), if s.finish.Some? then s.finish else Some("stop"),
                      if includeUsage then s.usage else None)),
     Done]
  }

  /** All that a run of events comes to when the stream ends without an error. */
  function Complete(events: seq<GenerateContentResponse>, model: string, includeUsage: bool): seq<Frame> {
    var run := Run(Stepper(model), INITIAL, events);
    run.frames + Closing(run.state, model, includeUsage)
  }

  /** A scanner error ends the translation before the closing frames. */
  function Output(lines: seq<string>, scanErr: bool, parse: string -> Option<GenerateContentResponse>, model: string,
                  includeUsage: bool): seq<Frame> {
    if scanErr then Run(Stepper(model), INITIAL, AllEvents(lines, parse)).frames
    else Complete(AllEvents(lines, parse), model, includeUsage)
  }

  /** The variables that the translator's closures share. */
  class Translation {
    const w: Sink<Frame>
    const parse: string -> Option<GenerateContentResponse>
    const model: string
    const includeUsage: bool
    var roleSent: bool
    var nextToolIdx: nat
    var finishReason: Option<string>
    var usage: Option<TokenUsage>
    var dataLines: seq<string>

    /** The step function, known to the methods below only where `Handle` takes a step. */
    ghost const step: (State, GenerateContentResponse) -> Stepped<State, Frame>

    ghost predicate Valid() {
      forall s, ev {:trigger Step(s, ev, model)} :: Step(s, ev, model) == step(s, ev)
    }

    ghost function View(): State
      reads this
    {
      State(roleSent, nextToolIdx, finishReason, usage)
    }

    constructor (w: Sink<Frame>, parse: string -> Option<GenerateContentResponse>, model: string, includeUsage: bool)
      ensures this.w == w && this.parse == parse && this.model == model && this.includeUsage == includeUsage
      ensures View() == INITIAL && dataLines == [] && step == Stepper(model) && Valid()
    {
      step := Stepper(model);
      this.w, this.parse, this.model, this.includeUsage := w, parse, model, includeUsage;
      roleSent, nextToolIdx, finishReason, usage, dataLines := false, 0, None, None, [];
    }

    method WriteChunk(d: Delta) returns (ok: bool)
      modifies w
      ensures ok <==> old(w.room) > 0
      ensures if ok then w.frames == old(w.frames) + [ChunkOf(model, d)] && w.room == old(w.room) - 1
              else w.frames == old(w.frames) && w.room == old(w.room)
    {
      ok := w.Write(ChunkFrame(Chunk(MSG_ID, model, d, None, None)));
    }

    method WritePart(p: Part) returns (ok: bool)
      modifies `nextToolIdx, w
      ensures var fs := OnePart(model, p, old(nextToolIdx));
              && (ok <==> |fs| <= old(w.room))
              && w.frames == old(w.frames) + Reaches(fs, old(w.room))
              && (ok ==>
                    && w.room == old(w.room) - |fs|
                    && nextToolIdx == old(nextToolIdx) + if p.call.Some? then 1 else 0)
    {
      ok := true;
      if p.text != "" {
        ok := WriteChunk(TextDelta(p.text));
        if !ok {
          return;
        }
      }
      if p.call.Some? {
        var idx := nextToolIdx;
        nextToolIdx := nextToolIdx + 1;
        var args := "";
        if |p.call.value.args| > 0 {
          args := p.call.value.args;
        }
        ok := WriteChunk(CallDelta(idx, ToolCall(CallID(idx), p.call.value.name, args)));
      }
    }

    method WriteParts(parts: seq<Part>) returns (ok: bool)
      modifies `nextToolIdx, w
      ensures var fs := PartFrames(model, parts, old(nextToolIdx));
              && (ok <==> |fs| <= old(w.room))
              && w.frames == old(w.frames) + Reaches(fs, old(w.room))
              && (ok ==> w.room == old(w.room) - |fs| && nextToolIdx == old(nextToolIdx) + CallCount(parts))
    {
      ghost var room, next, sent := w.room, nextToolIdx, [];
      for i := 0 to |parts|
        invariant sent == PartFrames(model, parts[..i], next)
        invariant nextToolIdx == next + CallCount(parts[..i])
        invariant w.frames == old(w.frames) + sent && w.room == room - |sent|
      {
        PartFramesNext(model, parts, i, next, room);
        ghost var fs := OnePart(model, parts[i], nextToolIdx);
        ok := WritePart(parts[i]);
        ConcatAssoc(old(w.frames), sent, Reaches(fs, room - |sent|));
        if !ok {
          return;
        }
        sent := sent + fs;
      }
      assert parts[..|parts|] == parts;
      return true;
    }

    method SendRole() returns (ok: bool)
      modifies `roleSent, w
      ensures var fs := if old(roleSent) then [] else [ChunkOf(model, RoleDelta())];
              && (ok <==> |fs| <= old(w.room))
              && w.frames == old(w.frames) + Reaches(fs, old(w.room))
              && (ok ==> w.room == old(w.room) - |fs|)
      ensures roleSent
    {
      if !roleSent {
        roleSent := true;
        ok := WriteChunk(RoleDelta());
        return;
      }
      return true;
    }

    /** The usage and finish reason a chunk carries. */
    method Note(ev: GenerateContentResponse)
      modifies `usage, `finishReason
      ensures usage == if ev.usage.Some? then Some(UsageOfMetadata(ev.usage.value)) else old(usage)
      ensures finishReason == if ChunkFinish(ev).Some? then ChunkFinish(ev) else old(finishReason)
    {
      if ev.usage.Some? {
        var u := ev.usage.value;
        var t := TokenUsage(u.prompt, u.candidates, u.total);
        if t.total == 0 {
          t := t.(total := t.prompt + t.completion);
        }
        usage := Some(t);
      }
      if ev.candidate.None? {
        return;
      }
      var c := ev.candidate.value;
      if c.finishReason != "" {
        var fr := MapFinishReason(c.finishReason);
        if c.content.Some? {
          for i := 0 to |c.content.value|
            invariant fr == MapFinishReason(c.finishReason) && forall j | 0 <= j < i :: c.content.value[j].call.None?
          {
            if c.content.value[i].call.Some? {
              fr := "tool_calls";
              break;
            }
          }
        }
        finishReason := Some(fr);
      }
    }

    /** What follows the role: usage and finish reason are noted, then the parts are sent. */
    method WriteRest(ev: GenerateContentResponse) returns (ok: bool)
      modifies `usage, `finishReason, `nextToolIdx, w
      ensures var fs := PartFrames(model, PartsOf(ev), old(nextToolIdx));
              && (ok <==> |fs| <= old(w.room))
              && w.frames == old(w.frames) + Reaches(fs, old(w.room))
              && (ok ==>
                    && w.room == old(w.room) - |fs|
                    && View() == Step(old(View()), ev, model).state.(roleSent := roleSent))
    {
      Note(ev);
      var parts := [];
      if ev.candidate.Some? && ev.candidate.value.content.Some? {
        parts := ev.candidate.value.content.value;
      }
      ok := WriteParts(parts);
    }

    /** One parsed chunk; false when a write failed. */
    method Handle(ev: GenerateContentResponse) returns (ok: bool)
      modifies this, w
      ensures dataLines == old(dataLines)
      ensures var e := Step(old(View()), ev, model);
              && (ok <==> |e.frames| <= old(w.room))
              && w.frames == old(w.frames) + Reaches(e.frames, old(w.room))
              && (ok ==> View() == e.state && w.room == old(w.room) - |e.frames|)
    {
      ghost var room, opening := w.room, if roleSent then [] else [ChunkOf(model, RoleDelta())];
      ghost var fs := PartFrames(model, PartsOf(ev), nextToolIdx);
      ok := SendRole();
      if !ok {
        CutInside(opening, fs, room);
        return;
      }
      ok := WriteRest(ev);
      ConcatAssoc(old(w.frames), opening, Reaches(fs, room - |opening|));
      ReachesConcat(opening, fs, room);
    }

    method FlushEvent() returns (ok: bool)
      requires Valid()
      modifies this, w
      ensures var e := Run(step, old(View()), Pending(old(dataLines), parse));
              && (ok <==> |e.frames| <= old(w.room))
              && w.frames == old(w.frames) + Reaches(e.frames, old(w.room))
              && (ok ==> dataLines == [] && View() == e.state && w.room == old(w.room) - |e.frames|)
    {
      ghost var events := Pending(dataLines, parse);
      if |dataLines| == 0 {
        assert events == [];
        return true;
      }
      var payload := Join(dataLines, "\n");
      ParsedOne(payload, parse);
      dataLines := [];
      if payload == "" || payload == "[DONE]" {
        assert events == [];
        return true;
      }
      var ev := parse(payload);
      if ev.None? {
        assert events == [];
        return true;
      }
      assert events == [ev.value];
      RunOne(step, View(), ev.value);
      ok := Handle(ev.value);
    }

    /** One turn of the scanner loop. */
    method ReadLine(line: string) returns (ok: bool)
      requires Valid()
      modifies this, w
      ensures var e := Run(step, old(View()), if line == "" then Pending(old(dataLines), parse) else []);
              && (ok <==> |e.frames| <= old(w.room))
              && w.frames == old(w.frames) + Reaches(e.frames, old(w.room))
              && (ok ==> View() == e.state && w.room == old(w.room) - |e.frames|)
      ensures ok ==> dataLines == NextPending(old(dataLines), line)
    {
      if line == "" {
        ok := FlushEvent();
        return;
      }
      if DATA <= line {
        dataLines := dataLines + [Trim(line[|DATA|..])];
      }
      return true;
    }

    /** The loop over the scanner's lines. */
    method ReadLines(lines: seq<string>) returns (ok: bool, ghost sent: seq<Frame>)
      requires Valid() && View() == INITIAL && dataLines == []
      modifies this, w
      ensures if ok then
                && dataLines == PushLines(START, lines).pending
                && Run(step, INITIAL, EventsIn(lines, parse)) == Stepped(View(), sent)
                && w.frames == old(w.frames) + sent && w.room == old(w.room) - |sent|
              else
                var out := Run(step, INITIAL, AllEvents(lines, parse)).frames;
                |out| > old(w.room) && w.frames == old(w.frames) + Reaches(out, old(w.room))
    {
      ghost var room := w.room;
      sent := [];
      for i := 0 to |lines|
        invariant dataLines == PushLines(START, lines[..i]).pending
        invariant Run(step, INITIAL, EventsIn(lines[..i], parse)) == Stepped(View(), sent)
        invariant w.frames == old(w.frames) + sent && w.room == room - |sent|
      {
        LineRuns(step, INITIAL, lines, i, parse, room);
        ghost var next := Run(step, View(), if lines[i] == "" then Pending(dataLines, parse) else []).frames;
        ok := ReadLine(lines[i]);
        ConcatAssoc(old(w.frames), sent, Reaches(next, room - |sent|));
        if !ok {
          return false, sent;
        }
        sent := sent + next;
      }
      assert lines[..|lines|] == lines;
      return true, sent;
    }

    /** All events of the input, the one it ends in included. */
    method ReadEvents(lines: seq<string>) returns (ok: bool)
      requires Valid() && View() == INITIAL && dataLines == []
      modifies this, w
      ensures var e := Run(step, INITIAL, AllEvents(lines, parse));
              && (ok <==> |e.frames| <= old(w.room))
              && w.frames == old(w.frames) + Reaches(e.frames, old(w.room))
              && (ok ==> View() == e.state && w.room == old(w.room) - |e.frames|)
    {
      ghost var room, sent := w.room, [];
      EndRuns(step, INITIAL, lines, parse, room);
      ok, sent := ReadLines(lines);
      if !ok {
        return false;
      }
      ghost var next := Run(step, View(), Pending(dataLines, parse)).frames;
      ok := FlushEvent();
      ConcatAssoc(old(w.frames), sent, Reaches(next, room - |sent|));
    }

    method WriteClosing() returns (ok: bool)
      modifies w
      ensures var fs := Closing(View(), model, includeUsage);
              && (ok <==> |fs| <= old(w.room))
              && w.frames == old(w.frames) + Reaches(fs, old(w.room))
    {
      var finish := finishReason;
      if finishReason.None? {
        finish := Some("stop");
      }
      var last := ChunkFrame(Chunk(MSG_ID, model, EmptyDelta(), finish, if includeUsage then usage else None));
      ghost var fs := Closing(View(), model, includeUsage);
      assert fs == [last, Done];
      ok := w.Write(last);
      if !ok {
        assert Reaches(fs, old(w.room)) == [];
        return;
      }
      ok := w.Write(Done);
      assert Reaches(fs, old(w.room)) == if ok then fs else [last];
    }
  }

  /** `TranslateStream`: what reaches the client is all that the stream translates to, or as much of
      it as the connection takes. */
  method Translate(lines: seq<string>, scanErr: bool, parse: string -> Option<GenerateContentResponse>, model: string,
                   includeUsage: bool, w: Sink<Frame>)
    returns (ok: bool)
    modifies w
    ensures var out := Output(lines, scanErr, parse, model, includeUsage);
            && w.frames == old(w.frames) + Reaches(out, old(w.room))
            && (ok <==> |out| <= old(w.room) && !scanErr)
  {
    var t := new Translation(w, parse, model, includeUsage);
    ghost var room := w.room;
    ghost var run := Run(Stepper(model), INITIAL, AllEvents(lines, parse));
    ghost var closing := Closing(run.state, model, includeUsage);
    ok := t.ReadEvents(lines);
    if !ok || scanErr {
      if !scanErr {
        CutInside(run.frames, closing, room);
      }
      return false;
    }
    ok := t.WriteClosing();
    ConcatAssoc(old(w.frames), run.frames, Reaches(closing, room - |run.frames|));
    ReachesConcat(run.frames, closing, room);
  }

  lemma {:induction false} PartFramesGrow(model: string, parts: seq<Part>, i: nat, next: nat)
    requires i <= |parts|
    ensures PartFrames(model, parts[..i], next) <= PartFrames(model, parts, next)
    decreases |parts|
  {
    if i < |parts| {
      var n := |parts| - 1;
      PartFramesGrow(model, parts[..n], i, next);
      assert parts[..n][..i] == parts[..i];
    } else {
      assert parts[..i] == parts;
    }
  }

  lemma PartFramesNext(model: string, parts: seq<Part>, i: nat, next: nat, room: nat)
    requires i < |parts|
    ensures var sent := PartFrames(model, parts[..i], next);
            var fs := OnePart(model, parts[i], next + CallCount(parts[..i]));
            && PartFrames(model, parts[..i + 1], next) == sent + fs
            && CallCount(parts[..i + 1]) == CallCount(parts[..i]) + (if parts[i].call.Some? then 1 else 0)
            && CutsTo(sent, fs, PartFrames(model, parts, next), room)
  {
    assert parts[..i + 1][..i] == parts[..i];
    PartFramesGrow(model, parts, i + 1, next);
    CutsPrefix(PartFrames(model, parts[..i], next), OnePart(model, parts[i], next + CallCount(parts[..i])),
               PartFrames(model, parts, next), room);
  }
}
