/** Translating an Anthropic event stream into OpenAI chunks
    (internal/protocol/anthropic/stream.go). */
module AnthropicStream {
  import opened Prelude
  import opened Text
  import opened UsageTap
  import opened Sse
  import opened ChatTypes
  import opened AnthropicResponse

  datatype StreamDelta = TextPiece(text: string) | InputJson(partial: string) | OtherDelta(kind: string)

  /** Absent JSON objects are None; a missing stop reason is empty. */
  datatype StreamEvent =
    | MessageStart(message: Option<(string, AnthropicUsage)>)
    | BlockStart(index: int, block: Option<Block>)
    | BlockDelta(index: int, delta: Option<StreamDelta>)
    | MessageDelta(stopReason: string, usage: Option<AnthropicUsage>)
    | MessageStop
    | Ping
    | StreamError(reason: string)
    | OtherEvent(kind: string)

  datatype State = State(
    msgID: string, toolIndexByBlock: map<int, nat>, nextToolIdx: nat,
    finish: Option<string>, usage: Option<TokenUsage>)

  const INITIAL := State("chatcmpl-unknown", map[], 0, None, None)

  function ChunkOf(s: State, model: string, d: Delta): Frame {
    ChunkFrame(Chunk(s.msgID, model, d, None, None))
  }

  function Total(prompt: int, completion: int): TokenUsage {
    TokenUsage(prompt, completion, prompt + completion)
  }

  function Updated(usage: Option<TokenUsage>, u: AnthropicUsage): TokenUsage {
    var prompt := if usage.Some? then usage.value.prompt else 0;
    Total(if prompt == 0 then u.input else prompt, u.output)
  }

  function Step(s: State, ev: StreamEvent, model: string, includeUsage: bool): Stepped<State, Frame> {
    match ev
    case MessageStart(message) =>
      var s' := match message
                case None => s
                case Some((id, u)) =>
                  s.(msgID := if id != "" then "chatcmpl-" + id else s.msgID, usage := Some(Total(u.input, u.output)));
      Stepped(s', [ChunkOf(s', model, RoleDelta())])
    case BlockStart(index, block) =>
      if block.Some? && block.value.ToolUse? then
        Stepped(s.(toolIndexByBlock := s.toolIndexByBlock[index := s.nextToolIdx], nextToolIdx := s.nextToolIdx + 1),
                [ChunkOf(s, model, CallDelta(s.nextToolIdx, ToolCall(block.value.id, block.value.name, "")))])
      else Stepped(s, [])
    case BlockDelta(index, Some(TextPiece(text))) =>
      Stepped(s, [ChunkOf(s, model, TextDelta(text))])
    case BlockDelta(index, Some(InputJson(partial))) =>
      var known := index in s.toolIndexByBlock;
      var idx := if known then s.toolIndexByBlock[index] else s.nextToolIdx;
      Stepped(if known then s
              else s.(toolIndexByBlock := s.toolIndexByBlock[index := idx], nextToolIdx := s.nextToolIdx + 1),
              [ChunkOf(s, model, CallDelta(idx, ToolCall("", "", partial)))])
    case MessageDelta(stopReason, u) =>
      Stepped(s.(finish := if stopReason != "" then Some(MapStopReason(stopReason)) else s.finish,
                 usage := if u.Some? then Some(Updated(s.usage, u.value)) else s.usage), [])
    case MessageStop =>
      Stepped(s, [ChunkFrame(Chunk(s.msgID, model, EmptyDelta(), s.finish, if includeUsage then s.usage else None)),
                  Done])
    case StreamError(message) =>
      Stepped(s, [ErrorFrame(if message != "" then message else "upstream stream error"), Done])
    case _ => Stepped(s, [])
  }

  function Stepper(model: string, includeUsage: bool): (State, StreamEvent) -> Stepped<State, Frame> {
    (s, ev) => Step(s, ev, model, includeUsage)
  }

  /** All that a stream of lines translates to. */
  function Output(lines: seq<string>, parse: string -> Option<StreamEvent>, model: string,
                  includeUsage: bool): seq<Frame> {
    Run(Stepper(model, includeUsage), INITIAL, AllEvents(lines, parse)).frames
  }

  /** The variables that the translator's closures share. */
  class Translation {
    const w: Sink<Frame>
    const parse: string -> Option<StreamEvent>
    const model: string
    const includeUsage: bool
    var msgID: string
    var toolIndexByBlock: map<int, nat>
    var nextToolIdx: nat
    var finishReason: Option<string>
    var usage: Option<TokenUsage>
    var dataLines: seq<string>

    /** The step function, known to the methods below only where `Handle` takes a step. */
    ghost const step: (State, StreamEvent) -> Stepped<State, Frame>

    ghost predicate Valid() {
      forall s, ev {:trigger Step(s, ev, model, includeUsage)} :: Step(s, ev, model, includeUsage) == step(s, ev)
    }

    ghost function View(): State
      reads this
    {
      State(msgID, toolIndexByBlock, nextToolIdx, finishReason, usage)
    }

    constructor (w: Sink<Frame>, parse: string -> Option<StreamEvent>, model: string, includeUsage: bool)
      ensures this.w == w && this.parse == parse && this.model == model && this.includeUsage == includeUsage
      ensures View() == INITIAL && dataLines == [] && step == Stepper(model, includeUsage) && Valid()
    {
      step := Stepper(model, includeUsage);
      this.w, this.parse, this.model, this.includeUsage := w, parse, model, includeUsage;
      msgID, toolIndexByBlock, nextToolIdx := "chatcmpl-unknown", map[], 0;
      finishReason, usage, dataLines := None, None, [];
    }

    method WriteChunk(d: Delta) returns (ok: bool)
      modifies w
      ensures ok <==> old(w.room) > 0
      ensures w.frames == old(w.frames) + Reaches([ChunkOf(View(), model, d)], old(w.room))
      ensures ok ==> w.room == old(w.room) - 1
    {
      ok := w.Write(ChunkFrame(Chunk(msgID, model, d, None, None)));
    }

    method WriteThenDone(f: Frame) returns (ok: bool)
      modifies w
      ensures ok <==> old(w.room) >= 2
      ensures w.frames == old(w.frames) + Reaches([f, Done], old(w.room))
      ensures ok ==> w.room == old(w.room) - 2
    {
      ok := w.Write(f);
      if !ok {
        return;
      }
      ok := w.Write(Done);
    }

    /** A piece of a block's text or of its input. */
    method HandleDelta(index: int, delta: StreamDelta) returns (ok: bool)
      modifies `toolIndexByBlock, `nextToolIdx, w
      ensures var e := Step(old(View()), BlockDelta(index, Some(delta)), model, includeUsage);
              && (ok <==> |e.frames| <= old(w.room))
              && w.frames == old(w.frames) + Reaches(e.frames, old(w.room))
              && (ok ==> View() == e.state && w.room == old(w.room) - |e.frames|)
    {
      ok := true;
      match delta
      case TextPiece(text) =>
        ok := WriteChunk(TextDelta(text));
      case InputJson(partial) =>
        var idx := nextToolIdx;
        if index in toolIndexByBlock {
          idx := toolIndexByBlock[index];
        } else {
          toolIndexByBlock := toolIndexByBlock[index := idx];
          nextToolIdx := nextToolIdx + 1;
        }
        ok := WriteChunk(CallDelta(idx, ToolCall("", "", partial)));
      case OtherDelta(_) =>
    }

    /** The closing usage: its completion count counts, its prompt count only where there was none. */
    method Amend(u: AnthropicUsage)
      modifies `usage
      ensures usage == Some(Updated(old(usage), u))
    {
      var now := if usage.Some? then usage.value else TokenUsage(0, 0, 0);
      now := now.(completion := u.output);
      if now.prompt == 0 {
        now := now.(prompt := u.input);
      }
      usage := Some(now.(total := now.prompt + now.completion));
    }

    /** The switch over event types; false when a write failed. */
    method Handle(ev: StreamEvent) returns (ok: bool)
      modifies this, w
      ensures dataLines == old(dataLines)
      ensures var e := Step(old(View()), ev, model, includeUsage);
              && (ok <==> |e.frames| <= old(w.room))
              && w.frames == old(w.frames) + Reaches(e.frames, old(w.room))
              && (ok ==> View() == e.state && w.room == old(w.room) - |e.frames|)
    {
      ok := true;
      match ev
      case MessageStart(message) =>
        if message.Some? && message.value.0 != "" {
          msgID := "chatcmpl-" + message.value.0;
        }
        if message.Some? {
          var u := message.value.1;
          usage := Some(TokenUsage(u.input, u.output, u.input + u.output));
        }
        ok := WriteChunk(RoleDelta());
      case BlockStart(index, block) =>
        if block.Some? && block.value.ToolUse? {
          var idx := nextToolIdx;
          toolIndexByBlock := toolIndexByBlock[index := idx];
          nextToolIdx := nextToolIdx + 1;
          ok := WriteChunk(CallDelta(idx, ToolCall(block.value.id, block.value.name, "")));
        }
      case BlockDelta(index, delta) =>
        if delta.None? {
          return;
        }
        ok := HandleDelta(index, delta.value);
      case MessageDelta(stopReason, u) =>
        if stopReason != "" {
          finishReason := Some(MapStopReason(stopReason));
        }
        if u.Some? {
          Amend(u.value);
        }
      case MessageStop =>
        var told := if includeUsage then usage else None;
        ok := WriteThenDone(ChunkFrame(Chunk(msgID, model, EmptyDelta(), finishReason, told)));
      case Ping =>
      case StreamError(message) =>
        var msg := "upstream stream error";
        if message != "" {
          msg := message;
        }
        ok := WriteThenDone(ErrorFrame(msg));
      case OtherEvent(_) =>
    }

    method FlushEvent() returns (ok: bool)
      requires Valid()
      modifies this, w
      ensures var e := Run(step, old(View()), Pending(old(dataLines), parse));
              && (ok <==> |e.frames| <= old(w.room))
              && w.frames == old(w.frames) + Reaches(e.frames, old(w.room))
              && (ok ==> dataLines == [] && View() == e.state && w.room == old(w.room) - |e.frames|)
    {
      ghost var events := Pending(dataLines, parse);
      if |dataLines| == 0 {
        assert events == [];
        return true;
      }
      var payload := Join(dataLines, "\n");
      ParsedOne(payload, parse);
      dataLines := [];
      if payload == "" || payload == "[DONE]" {
        assert events == [];
        return true;
      }
      var ev := parse(payload);
      if ev.None? {
        assert events == [];
        return true;
      }
      assert events == [ev.value];
      RunOne(step, View(), ev.value);
      ok := Handle(ev.value);
    }

    /** One turn of the scanner loop. */
    method ReadLine(line: string) returns (ok: bool)
      requires Valid()
      modifies this, w
      ensures var e := Run(step, old(View()), if line == "" then Pending(old(dataLines), parse) else []);
              && (ok <==> |e.frames| <= old(w.room))
              && w.frames == old(w.frames) + Reaches(e.frames, old(w.room))
              && (ok ==> View() == e.state && w.room == old(w.room) - |e.frames|)
      ensures ok ==> dataLines == NextPending(old(dataLines), line)
    {
      if line == "" {
        ok := FlushEvent();
        return;
      }
      if DATA <= line {
        dataLines := dataLines + [Trim(line[|DATA|..])];
      }
      return true;
    }

    /** The loop over the scanner's lines. */
    method ReadLines(lines: seq<string>) returns (ok: bool, ghost sent: seq<Frame>)
      requires Valid() && View() == INITIAL && dataLines == []
      modifies this, w
      ensures if ok then
                && dataLines == PushLines(START, lines).pending
                && Run(step, INITIAL, EventsIn(lines, parse)) == Stepped(View(), sent)
                && w.frames == old(w.frames) + sent && w.room == old(w.room) - |sent|
              else
                var out := Run(step, INITIAL, AllEvents(lines, parse)).frames;
                |out| > old(w.room) && w.frames == old(w.frames) + Reaches(out, old(w.room))
    {
      ghost var room := w.room;
      sent := [];
      for i := 0 to |lines|
        invariant dataLines == PushLines(START, lines[..i]).pending
        invariant Run(step, INITIAL, EventsIn(lines[..i], parse)) == Stepped(View(), sent)
        invariant w.frames == old(w.frames) + sent && w.room == room - |sent|
      {
        LineRuns(step, INITIAL, lines, i, parse, room);
        ghost var next := Run(step, View(), if lines[i] == "" then Pending(dataLines, parse) else []).frames;
        ok := ReadLine(lines[i]);
        ConcatAssoc(old(w.frames), sent, Reaches(next, room - |sent|));
        if !ok {
          return false, sent;
        }
        sent := sent + next;
      }
      assert lines[..|lines|] == lines;
      return true, sent;
    }

    /** The whole stream, with the event the input ends in; `scanErr` says whether the scanner ends in
        an error. */
    method TranslateStream(lines: seq<string>, scanErr: bool) returns (ok: bool)
      requires Valid() && View() == INITIAL && dataLines == []
      modifies this, w
      ensures var out := Run(step, INITIAL, AllEvents(lines, parse)).frames;
              && w.frames == old(w.frames) + Reaches(out, old(w.room))
              && (ok <==> |out| <= old(w.room) && !scanErr)
    {
      ghost var room, sent := w.room, [];
      EndRuns(step, INITIAL, lines, parse, room);
      ok, sent := ReadLines(lines);
      if !ok {
        return false;
      }
      ghost var next := Run(step, View(), Pending(dataLines, parse)).frames;
      ok := FlushEvent();
      ConcatAssoc(old(w.frames), sent, Reaches(next, room - |sent|));
      return ok && !scanErr;
    }
  }

  /** `TranslateStream`: what reaches the client is all that the stream translates to, or as much of
      it as the connection takes. */
  method Translate(lines: seq<string>, scanErr: bool, parse: string -> Option<StreamEvent>, model: string,
                   includeUsage: bool, w: Sink<Frame>)
    returns (ok: bool)
    modifies w
    ensures var out := Output(lines, parse, model, includeUsage);
            && w.frames == old(w.frames) + Reaches(out, old(w.room))
            && (ok <==> |out| <= old(w.room) && !scanErr)
  {
    var t := new Translation(w, parse, model, includeUsage);
    ok := t.TranslateStream(lines, scanErr);
  }
}
