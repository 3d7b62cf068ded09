/** Streaming or not, the client ends up with the same answer: translating an Anthropic stream and
    assembling the chunks against translating the whole response
    (internal/protocol/anthropic/stream.go:71-192, internal/protocol/anthropic/response.go:10-62). */
module AnthropicSquare {
  import opened Prelude
  import opened Text
  import opened UsageTap
  import opened Sse
  import opened ChatTypes
  import opened AnthropicResponse
  import opened AnthropicStream

  // ---------- a response as a stream of events ----------

  /** Events that neither change the translation nor appear in it: pings, block ends, starts of blocks
      other than tools, deltas of kinds it does not know. */
  predicate Noise(ev: StreamEvent) {
    match ev
    case Ping => true
    case OtherEvent(_) => true
    case BlockStart(_, b) => !(b.Some? && b.value.ToolUse?)
    case BlockDelta(_, d) => d.None? || d.value.OtherDelta?
    case _ => false
  }

  function Significant(events: seq<StreamEvent>): seq<StreamEvent> {
    if events == [] then []
    else
      var last := events[|events| - 1];
      Significant(events[..|events| - 1]) + if Noise(last) then [] else [last]
  }

  function Deltas(index: int, b: Block, pieces: seq<string>): seq<StreamEvent> {
    if pieces == [] || b.OtherBlock? then []
    else
      var p := pieces[|pieces| - 1];
      Deltas(index, b, pieces[..|pieces| - 1])
        + [BlockDelta(index, Some(if b.Text? then TextPiece(p) else InputJson(p)))]
  }

  function BlockEvents(index: int, b: Block, pieces: seq<string>): seq<StreamEvent> {
    (if b.ToolUse? then [BlockStart(index, Some(ToolUse(b.id, b.name, "{}")))] else []) + Deltas(index, b, pieces)
  }

  /** Each block's text or input, cut into pieces anyhow. */
  ghost predicate Cuts(blocks: seq<Block>, cuts: seq<seq<string>>) {
    |cuts| == |blocks| &&
    forall i | 0 <= i < |blocks| ::
      && (blocks[i].Text? ==> Concat(cuts[i]) == blocks[i].text)
      && (blocks[i].ToolUse? ==> Concat(cuts[i]) == blocks[i].input)
  }

  function BodyEvents(blocks: seq<Block>, cuts: seq<seq<string>>): seq<StreamEvent>
    requires |cuts| == |blocks|
  {
    if blocks == [] then []
    else
      var n := |blocks| - 1;
      BodyEvents(blocks[..n], cuts[..n]) + BlockEvents(n, blocks[n], cuts[n])
  }

  /** The stream of a response: `out0` is the completion count it opens with, `in1` the prompt count of
      its closing usage, if it closes with any. */
  function StreamOf(resp: MessagesResponse, cuts: seq<seq<string>>, out0: int, in1: Option<int>): seq<StreamEvent>
    requires |cuts| == |resp.content|
  {
    [MessageStart(Some((resp.id, AnthropicUsage(resp.usage.input, out0))))]
    + BodyEvents(resp.content, cuts)
    + [ClosingDelta(resp, in1), MessageStop]
  }

  function ClosingDelta(resp: MessagesResponse, in1: Option<int>): StreamEvent {
    MessageDelta(resp.stopReason, if in1.Some? then Some(AnthropicUsage(in1.value, resp.usage.output)) else None)
  }

  // ---------- the client's view of a running translation ----------

  datatype View = View(state: State, client: Assembled)

  function Watch(model: string, includeUsage: bool, v: View, events: seq<StreamEvent>): View {
    if events == [] then v
    else
      var before := Watch(model, includeUsage, v, events[..|events| - 1]);
      var last := Step(before.state, events[|events| - 1], model, includeUsage);
      View(last.state, Assemble(before.client, last.frames))
  }

  lemma {:induction false} WatchIsAssemble(model: string, includeUsage: bool, v: View, events: seq<StreamEvent>)
    ensures var run := Run(Stepper(model, includeUsage), v.state, events);
            Watch(model, includeUsage, v, events) == View(run.state, Assemble(v.client, run.frames))
  {
    if events != [] {
      var n := |events| - 1;
      WatchIsAssemble(model, includeUsage, v, events[..n]);
      var before := Run(Stepper(model, includeUsage), v.state, events[..n]);
      AssembleConcat(v.client, before.frames, Step(before.state, events[n], model, includeUsage).frames);
    }
  }

  lemma {:induction false} WatchConcat(model: string, includeUsage: bool, v: View, a: seq<StreamEvent>,
                                       b: seq<StreamEvent>)
    ensures Watch(model, includeUsage, v, a + b) == Watch(model, includeUsage, Watch(model, includeUsage, v, a), b)
  {
    if b == [] {
      assert a + b == a;
    } else {
      var n := |b| - 1;
      WatchConcat(model, includeUsage, v, a, b[..n]);
      assert (a + b)[..|a + b| - 1] == a + b[..n];
    }
  }

  lemma WatchOne(model: string, includeUsage: bool, v: View, ev: StreamEvent)
    ensures var st := Step(v.state, ev, model, includeUsage);
            Watch(model, includeUsage, v, [ev]) == View(st.state, Assemble(v.client, st.frames))
  {
    var none: seq<StreamEvent> := [];
    assert [ev][..0] == none;
  }

  lemma {:induction false} NoiseIsSilent(model: string, includeUsage: bool, v: View, events: seq<StreamEvent>)
    ensures Watch(model, includeUsage, v, events) == Watch(model, includeUsage, v, Significant(events))
  {
    if events != [] {
      var n := |events| - 1;
      NoiseIsSilent(model, includeUsage, v, events[..n]);
      if Noise(events[n]) {
        var before := Watch(model, includeUsage, v, events[..n]);
        assert Step(before.state, events[n], model, includeUsage) == Stepped(before.state, []);
        assert Significant(events) == Significant(events[..n]);
      } else {
        WatchConcat(model, includeUsage, v, Significant(events[..n]), [events[n]]);
        WatchOne(model, includeUsage, Watch(model, includeUsage, v, Significant(events[..n])), events[n]);
      }
    }
  }

  // ---------- one block ----------

  lemma {:induction false} TextRuns(model: string, includeUsage: bool, v: View, index: int, b: Block,
                                    pieces: seq<string>)
    requires b.Text? && v.client.id.Some?
    ensures Watch(model, includeUsage, v, Deltas(index, b, pieces))
            == v.(client := v.client.(content := v.client.content + Concat(pieces)))
  {
    if pieces != [] {
      var n := |pieces| - 1;
      var before, ev := Deltas(index, b, pieces[..n]), BlockDelta(index, Some(TextPiece(pieces[n])));
      TextRuns(model, includeUsage, v, index, b, pieces[..n]);
      WatchConcat(model, includeUsage, v, before, [ev]);
      var mid := Watch(model, includeUsage, v, before);
      WatchOne(model, includeUsage, mid, ev);
      AssembleOne(mid.client, ChunkOf(mid.state, model, TextDelta(pieces[n])));
      ConcatAssoc(v.client.content, Concat(pieces[..n]), pieces[n]);
    } else {
      assert v.client.content + "" == v.client.content;
    }
  }

  lemma MergeLast(calls: seq<ToolCall>, c: ToolCall, more: string)
    ensures Merge(calls + [c], ToolDelta(|calls|, ToolCall("", "", more)))
            == calls + [c.(arguments := c.arguments + more)]
  {
  }

  lemma {:induction false} InputRuns(model: string, includeUsage: bool, v: View, index: int, b: Block,
                                     pieces: seq<string>, calls: seq<ToolCall>, c: ToolCall)
    requires b.ToolUse? && v.client.id.Some? && v.client.calls == calls + [c]
    requires index in v.state.toolIndexByBlock && v.state.toolIndexByBlock[index] == |calls|
    ensures Watch(model, includeUsage, v, Deltas(index, b, pieces))
            == v.(client := v.client.(calls := calls + [c.(arguments := c.arguments + Concat(pieces))]))
  {
    if pieces != [] {
      var n := |pieces| - 1;
      var before, ev := Deltas(index, b, pieces[..n]), BlockDelta(index, Some(InputJson(pieces[n])));
      InputRuns(model, includeUsage, v, index, b, pieces[..n], calls, c);
      WatchConcat(model, includeUsage, v, before, [ev]);
      var mid := Watch(model, includeUsage, v, before);
      WatchOne(model, includeUsage, mid, ev);
      var d := ToolDelta(|calls|, ToolCall("", "", pieces[n]));
      AssembleOne(mid.client, ChunkOf(mid.state, model, CallDelta(|calls|, d.call)));
      MergeOne(mid.client.calls, d);
      MergeLast(calls, c.(arguments := c.arguments + Concat(pieces[..n])), pieces[n]);
      ConcatAssoc(c.arguments, Concat(pieces[..n]), pieces[n]);
    } else {
      assert c.arguments + "" == c.arguments;
    }
  }

  /** The call a stream gives of a block: unlike the whole translation, no default for its input. */
  function StreamedCalls(blocks: seq<Block>): seq<ToolCall> {
    if blocks == [] then []
    else
      var last := blocks[|blocks| - 1];
      StreamedCalls(blocks[..|blocks| - 1]) + if last.ToolUse? then [ToolCall(last.id, last.name, last.input)] else []
  }

  /** What holds between blocks: the client has their text and calls, and each later block index is
      still without a tool index. */
  ghost predicate Between(v: View, start: View, blocks: seq<Block>) {
    && v.client == start.client.(content := TextOf(blocks), calls := StreamedCalls(blocks))
    && v.state == start.state.(toolIndexByBlock := v.state.toolIndexByBlock, nextToolIdx := |StreamedCalls(blocks)|)
    && forall i | i in v.state.toolIndexByBlock :: i < |blocks|
  }

  lemma ToolRuns(model: string, includeUsage: bool, v: View, index: int, b: Block, pieces: seq<string>)
    requires b.ToolUse? && v.client.id.Some? && |v.client.calls| == v.state.nextToolIdx
    ensures Watch(model, includeUsage, v, BlockEvents(index, b, pieces))
            == View(v.state.(toolIndexByBlock := v.state.toolIndexByBlock[index := v.state.nextToolIdx],
                             nextToolIdx := v.state.nextToolIdx + 1),
                    v.client.(calls := v.client.calls + [ToolCall(b.id, b.name, Concat(pieces))]))
  {
    var ev := BlockStart(index, Some(ToolUse(b.id, b.name, "{}")));
    var c := ToolCall(b.id, b.name, "");
    WatchConcat(model, includeUsage, v, [ev], Deltas(index, b, pieces));
    WatchOne(model, includeUsage, v, ev);
    AssembleOne(v.client, ChunkOf(v.state, model, CallDelta(v.state.nextToolIdx, c)));
    MergeOne(v.client.calls, ToolDelta(v.state.nextToolIdx, c));
    InputRuns(model, includeUsage, Watch(model, includeUsage, v, [ev]), index, b, pieces, v.client.calls, c);
    assert "" + Concat(pieces) == Concat(pieces);
  }

  lemma BlockRuns(model: string, includeUsage: bool, start: View, v: View, blocks: seq<Block>, b: Block,
                  pieces: seq<string>)
    requires v.client.id.Some? && Between(v, start, blocks)
    requires b.Text? ==> Concat(pieces) == b.text
    requires b.ToolUse? ==> Concat(pieces) == b.input
    ensures Between(Watch(model, includeUsage, v, BlockEvents(|blocks|, b, pieces)), start, blocks + [b])
  {
    assert (blocks + [b])[..|blocks|] == blocks;
    var events := BlockEvents(|blocks|, b, pieces);
    if b.ToolUse? {
      ToolRuns(model, includeUsage, v, |blocks|, b, pieces);
    } else {
      assert events == Deltas(|blocks|, b, pieces);
      if b.Text? {
        TextRuns(model, includeUsage, v, |blocks|, b, pieces);
      } else {
        assert TextOf(blocks) + "" == TextOf(blocks);
      }
      assert StreamedCalls(blocks) + [] == StreamedCalls(blocks);
    }
    if b.ToolUse? {
      assert TextOf(blocks) + "" == TextOf(blocks);
    }
  }

  lemma {:induction false} BodyRuns(model: string, includeUsage: bool, start: View, blocks: seq<Block>,
                                    cuts: seq<seq<string>>)
    requires Cuts(blocks, cuts) && start.client.id.Some?
    requires start.client.content == "" && start.client.calls == []
    requires start.state.toolIndexByBlock == map[] && start.state.nextToolIdx == 0
    ensures Between(Watch(model, includeUsage, start, BodyEvents(blocks, cuts)), start, blocks)
  {
    if blocks != [] {
      var n := |blocks| - 1;
      BodyRuns(model, includeUsage, start, blocks[..n], cuts[..n]);
      WatchConcat(model, includeUsage, start, BodyEvents(blocks[..n], cuts[..n]), BlockEvents(n, blocks[n], cuts[n]));
      BlockRuns(model, includeUsage, start, Watch(model, includeUsage, start, BodyEvents(blocks[..n], cuts[..n])),
                blocks[..n], blocks[n], cuts[n]);
      assert blocks == blocks[..n] + [blocks[n]];
    }
  }

  // ---------- the whole response ----------

  /** The counts such a stream comes to: closing usage renews the completion count, and fills in for a
      prompt count of 0. */
  function StreamedUsage(resp: MessagesResponse, out0: int, in1: Option<int>): TokenUsage {
    match in1
    case None => Total(resp.usage.input, out0)
    case Some(n) => Total(if resp.usage.input != 0 then resp.usage.input else n, resp.usage.output)
  }

  /** What the client of such a stream assembles. */
  function Streamed(resp: MessagesResponse, includeUsage: bool, out0: int, in1: Option<int>): Assembled {
    Assembled(
      Some(StreamedID(resp)), TextOf(resp.content), StreamedCalls(resp.content),
      if resp.stopReason != "" then Some(MapStopReason(resp.stopReason)) else None,
      if includeUsage then Some(StreamedUsage(resp, out0, in1)) else None)
  }

  function StreamedID(resp: MessagesResponse): string {
    if resp.id != "" then "chatcmpl-" + resp.id else "chatcmpl-unknown"
  }

  lemma StreamRuns(model: string, includeUsage: bool, resp: MessagesResponse, cuts: seq<seq<string>>, out0: int,
                   in1: Option<int>)
    requires Cuts(resp.content, cuts)
    ensures Watch(model, includeUsage, View(INITIAL, NOTHING), StreamOf(resp, cuts, out0, in1)).client
            == Streamed(resp, includeUsage, out0, in1)
  {
    var v0 := View(INITIAL, NOTHING);
    var first := MessageStart(Some((resp.id, AnthropicUsage(resp.usage.input, out0))));
    var body, closing := BodyEvents(resp.content, cuts), [ClosingDelta(resp, in1), MessageStop];
    WatchConcat(model, includeUsage, v0, [first] + body, closing);
    WatchConcat(model, includeUsage, v0, [first], body);
    OpeningRuns(model, includeUsage, resp, out0);
    var v1 := Watch(model, includeUsage, v0, [first]);
    BodyRuns(model, includeUsage, v1, resp.content, cuts);
    ClosingRuns(model, includeUsage, resp, out0, in1, Watch(model, includeUsage, v1, body));
  }

  lemma OpeningRuns(model: string, includeUsage: bool, resp: MessagesResponse, out0: int)
    ensures var first := MessageStart(Some((resp.id, AnthropicUsage(resp.usage.input, out0))));
            Watch(model, includeUsage, View(INITIAL, NOTHING), [first])
            == View(INITIAL.(msgID := StreamedID(resp), usage := Some(Total(resp.usage.input, out0))),
                    NOTHING.(id := Some(StreamedID(resp))))
  {
    var v0 := View(INITIAL, NOTHING);
    var first := MessageStart(Some((resp.id, AnthropicUsage(resp.usage.input, out0))));
    WatchOne(model, includeUsage, v0, first);
    AssembleOne(NOTHING, ChunkOf(Step(v0.state, first, model, includeUsage).state, model, RoleDelta()));
  }

  lemma ClosingRuns(model: string, includeUsage: bool, resp: MessagesResponse, out0: int, in1: Option<int>, v: View)
    requires v.client.id.Some? && v.client.finish == None && v.client.usage == None
    requires v.state.finish == None && v.state.usage == Some(Total(resp.usage.input, out0))
    ensures Watch(model, includeUsage, v, [ClosingDelta(resp, in1), MessageStop]).client
            == v.client.(finish := if resp.stopReason != "" then Some(MapStopReason(resp.stopReason)) else None,
                         usage := if includeUsage then Some(StreamedUsage(resp, out0, in1)) else None)
  {
    var delta := ClosingDelta(resp, in1);
    assert [delta, MessageStop] == [delta] + [MessageStop];
    WatchConcat(model, includeUsage, v, [delta], [MessageStop]);
    WatchOne(model, includeUsage, v, delta);
    var v' := Watch(model, includeUsage, v, [delta]);
    WatchOne(model, includeUsage, v', MessageStop);
    StopRuns(model, includeUsage, v');
  }

  lemma StopRuns(model: string, includeUsage: bool, v: View)
    requires v.client.id.Some? && v.client.finish == None && v.client.usage == None
    ensures Assemble(v.client, Step(v.state, MessageStop, model, includeUsage).frames)
            == v.client.(finish := v.state.finish, usage := if includeUsage then v.state.usage else None)
  {
    var s := v.state;
    var last := ChunkFrame(Chunk(s.msgID, model, EmptyDelta(), s.finish, if includeUsage then s.usage else None));
    assert [last, Done] == [last] + [Done];
    AssembleConcat(v.client, [last], [Done]);
    AssembleOne(v.client, last);
    AssembleOne(Absorb(v.client, last), Done);
    assert v.client.content + "" == v.client.content;
  }

  predicate InputsPresent(blocks: seq<Block>) {
    forall b | b in blocks && b.ToolUse? :: b.input != ""
  }

  lemma {:induction false} CallsAgreeIff(blocks: seq<Block>)
    ensures |StreamedCalls(blocks)| == |CallsOf(blocks)|
    ensures StreamedCalls(blocks) == CallsOf(blocks) <==> InputsPresent(blocks)
  {
    if blocks != [] {
      var n := |blocks| - 1;
      CallsAgreeIff(blocks[..n]);
      assert blocks == blocks[..n] + [blocks[n]];
      var a, b := StreamedCalls(blocks[..n]), CallsOf(blocks[..n]);
      if blocks[n].ToolUse? {
        var x, y := ToolCall(blocks[n].id, blocks[n].name, blocks[n].input), CallOf(blocks[n]);
        assert (a + [x])[..|a|] == a && (b + [y])[..|b|] == b;
        assert (a + [x])[|a|] == x && (b + [y])[|b|] == y;
      } else {
        assert a + [] == a && b + [] == b;
      }
    }
  }

  /** Closing usage may not amend a prompt count of 0; without it the opening completion count must be
      the whole. */
  predicate CountsAgree(resp: MessagesResponse, out0: int, in1: Option<int>) {
    match in1
    case None => out0 == resp.usage.output
    case Some(n) => resp.usage.input != 0 || n == 0
  }

  /** The square commutes exactly for responses with an id, a stop reason and an input to every tool
      call, usage being asked for and its counts not given otherwise. However text and
      inputs are cut into deltas and whatever else is interleaved, the client of such a stream has the
      whole translation's id, text, tool calls, finish reason and usage. */
  lemma StreamEqualsResponseIff(model: string, includeUsage: bool, resp: MessagesResponse, cuts: seq<seq<string>>,
                                out0: int, in1: Option<int>, events: seq<StreamEvent>)
    requires Cuts(resp.content, cuts)
    requires Significant(events) == StreamOf(resp, cuts, out0, in1)
    ensures Agrees(Assemble(NOTHING, Run(Stepper(model, includeUsage), INITIAL, events).frames),
                   Translated(resp, model)) <==>
            resp.id != "" && resp.stopReason != "" && InputsPresent(resp.content) && includeUsage
            && CountsAgree(resp, out0, in1)
  {
    StreamRuns(model, includeUsage, resp, cuts, out0, in1);
    SignificantRuns(model, includeUsage, events);
    StreamedAgreesIff(model, includeUsage, resp, out0, in1);
  }

  lemma SignificantRuns(model: string, includeUsage: bool, events: seq<StreamEvent>)
    ensures Assemble(NOTHING, Run(Stepper(model, includeUsage), INITIAL, events).frames)
            == Watch(model, includeUsage, View(INITIAL, NOTHING), Significant(events)).client
  {
    WatchIsAssemble(model, includeUsage, View(INITIAL, NOTHING), events);
    NoiseIsSilent(model, includeUsage, View(INITIAL, NOTHING), events);
  }

  lemma StreamedAgreesIff(model: string, includeUsage: bool, resp: MessagesResponse, out0: int, in1: Option<int>)
    ensures Agrees(Streamed(resp, includeUsage, out0, in1), Translated(resp, model)) <==>
            resp.id != "" && resp.stopReason != "" && InputsPresent(resp.content) && includeUsage
            && CountsAgree(resp, out0, in1)
  {
    CallsAgreeIff(resp.content);
    if resp.id == "" {
      assert |"chatcmpl-unknown"| != |"chatcmpl-" + resp.id|;
    }
  }

  /** Such a stream: of a response whose one tool call has no input. */
  lemma AbsentInputDiffers(model: string)
    ensures var resp := MessagesResponse("m", [ToolUse("t", "f", "")], "tool_use", AnthropicUsage(1, 2));
            var events := StreamOf(resp, [[]], 0, Some(1));
            !Agrees(Assemble(NOTHING, Run(Stepper(model, true), INITIAL, events).frames), Translated(resp, model))
  {
    var b := ToolUse("t", "f", "");
    var resp := MessagesResponse("m", [b], "tool_use", AnthropicUsage(1, 2));
    assert BodyEvents([b], [[]]) == [BlockStart(0, Some(ToolUse("t", "f", "{}")))] by {
      var none: seq<Block> := [];
      assert [b][..0] == none;
    }
    var events := StreamOf(resp, [[]], 0, Some(1));
    AllSignificant(events);
    StreamEqualsResponseIff(model, true, resp, [[]], 0, Some(1), events);
    assert b in resp.content;
  }

  lemma {:induction false} AllSignificant(events: seq<StreamEvent>)
    requires forall i | 0 <= i < |events| :: !Noise(events[i])
    ensures Significant(events) == events
  {
    if events != [] {
      AllSignificant(events[..|events| - 1]);
    }
  }

  /** The same of bytes: the events printed one a frame, among frames that are no events at all. */
  lemma StreamedBytesEqualResponseIff(model: string, includeUsage: bool, resp: MessagesResponse, cuts: seq<seq<string>>,
                                      out0: int, in1: Option<int>, jsons: seq<string>,
                                      parse: string -> Option<StreamEvent>)
    requires Cuts(resp.content, cuts)
    requires forall j | j in jsons :: OneLine(j)
    requires Significant(Parsed(jsons, parse)) == StreamOf(resp, cuts, out0, in1)
    ensures Agrees(Assemble(NOTHING, Output(ScanLines(Frames(jsons)), parse, model, includeUsage)),
                   Translated(resp, model)) <==>
            resp.id != "" && resp.stopReason != "" && InputsPresent(resp.content) && includeUsage
            && CountsAgree(resp, out0, in1)
  {
    FramingRoundTrip(jsons);
    StreamEqualsResponseIff(model, includeUsage, resp, cuts, out0, in1, Parsed(jsons, parse));
  }

  /** And of a stream as it is sent, with event names, ids and comments among its lines, and carriage
      returns or none at their ends. */
  lemma StreamedEventsEqualResponseIff(model: string, includeUsage: bool, resp: MessagesResponse,
                                       cuts: seq<seq<string>>, out0: int, in1: Option<int>, es: seq<RawEvent>,
                                       parse: string -> Option<StreamEvent>)
    requires Cuts(resp.content, cuts)
    requires forall i | 0 <= i < |es| :: WellSent(es[i])
    requires Significant(Parsed(Jsons(es), parse)) == StreamOf(resp, cuts, out0, in1)
    ensures Agrees(Assemble(NOTHING, Output(ScanLines(RawBytes(es)), parse, model, includeUsage)),
                   Translated(resp, model)) <==>
            resp.id != "" && resp.stopReason != "" && InputsPresent(resp.content) && includeUsage
            && CountsAgree(resp, out0, in1)
  {
    RawPayloads(es);
    StreamEqualsResponseIff(model, includeUsage, resp, cuts, out0, in1, Parsed(Jsons(es), parse));
  }

  // ---------- every stream, well formed or not ----------

  ghost predicate GoodIndices(s: State) {
    && (forall i | i in s.toolIndexByBlock :: s.toolIndexByBlock[i] < s.nextToolIdx)
    && (forall i, j | i in s.toolIndexByBlock && j in s.toolIndexByBlock && i != j ::
          s.toolIndexByBlock[i] != s.toolIndexByBlock[j])
  }

  /** Each tool piece goes to a tool already begun or to the next one: no index is skipped. */
  ghost predicate NoGaps(begun: nat, frames: seq<Frame>)
    decreases |frames|
  {
    frames == [] ||
    (match frames[0]
     case ChunkFrame(c) =>
       && (forall d | d in c.delta.toolCalls :: d.index <= begun)
       && |c.delta.toolCalls| <= 1
       && NoGaps(if c.delta.toolCalls != [] && c.delta.toolCalls[0].index == begun then begun + 1 else begun,
                 frames[1..])
     case _ => NoGaps(begun, frames[1..]))
  }

  /** How many tools the frames begin. */
  function Begun(begun: nat, frames: seq<Frame>): nat
    decreases |frames|
  {
    if frames == [] then begun
    else
      match frames[0]
      case ChunkFrame(c) =>
        Begun(if c.delta.toolCalls != [] && c.delta.toolCalls[0].index == begun then begun + 1 else begun, frames[1..])
      case _ => Begun(begun, frames[1..])
  }

  lemma {:induction false} NoGapsConcat(begun: nat, a: seq<Frame>, b: seq<Frame>)
    requires NoGaps(begun, a) && NoGaps(Begun(begun, a), b)
    ensures NoGaps(begun, a + b) && Begun(begun, a + b) == Begun(Begun(begun, a), b)
    decreases |a|
  {
    if a == [] {
      assert a + b == b;
    } else {
      assert (a + b)[0] == a[0] && (a + b)[1..] == a[1..] + b;
      var calls := if a[0].ChunkFrame? then a[0].chunk.delta.toolCalls else [];
      var begins := calls != [] && calls[0].index == begun;
      var next := if begins then begun + 1 else begun;
      NoGapsConcat(next, a[1..], b);
    }
  }

  function Dones(frames: seq<Frame>): nat {
    if frames == [] then 0 else Dones(frames[..|frames| - 1]) + if frames[|frames| - 1].Done? then 1 else 0
  }

  function Ends(events: seq<StreamEvent>): nat {
    if events == [] then 0
    else
      var last := events[|events| - 1];
      Ends(events[..|events| - 1]) + if last.MessageStop? || last.StreamError? then 1 else 0
  }

  lemma {:induction false} DonesConcat(a: seq<Frame>, b: seq<Frame>)
    ensures Dones(a + b) == Dones(a) + Dones(b)
  {
    if b == [] {
      assert a + b == a;
    } else {
      var n := |b| - 1;
      DonesConcat(a, b[..n]);
      assert (a + b)[..|a + b| - 1] == a + b[..n];
    }
  }

  lemma StepIndices(s: State, ev: StreamEvent, model: string, includeUsage: bool)
    requires GoodIndices(s)
    ensures var st := Step(s, ev, model, includeUsage);
            && GoodIndices(st.state) && NoGaps(s.nextToolIdx, st.frames)
               && Begun(s.nextToolIdx, st.frames) == st.state.nextToolIdx
            && Dones(st.frames) == Ends([ev])
  {
    var st := Step(s, ev, model, includeUsage);
    var none: seq<StreamEvent> := [];
    assert [ev][..0] == none;
    assert |st.frames| <= 2;
    if st.frames != [] {
      assert st.frames[..1] == [st.frames[0]];
      var nothing: seq<Frame> := [];
      assert [st.frames[0]][..0] == nothing;
      assert |st.frames| == 1 ==> st.frames[..0] == nothing && st.frames[1..] == nothing;
      assert |st.frames| == 1 ==> Dones(st.frames) == 0;
      if |st.frames| == 2 {
        assert st.frames[1..] == [Done] && [Done][1..] == nothing;
        assert Dones(st.frames) == Dones([st.frames[0]]) + 1 && Dones([st.frames[0]]) == 0;
      }
    }
  }

  /** On any event sequence the block-to-tool map stays injective with all values below the next
      index, the tool indices sent have no gaps, and [DONE] is sent once for each message_stop or
      error event. */
  lemma {:induction false} AnyStream(events: seq<StreamEvent>, model: string, includeUsage: bool)
    ensures var run := Run(Stepper(model, includeUsage), INITIAL, events);
            && GoodIndices(run.state)
            && NoGaps(0, run.frames) && Begun(0, run.frames) == run.state.nextToolIdx
            && Dones(run.frames) == Ends(events)
  {
    if events != [] {
      var n := |events| - 1;
      AnyStream(events[..n], model, includeUsage);
      var before := Run(Stepper(model, includeUsage), INITIAL, events[..n]);
      StepIndices(before.state, events[n], model, includeUsage);
      var st := Step(before.state, events[n], model, includeUsage);
      NoGapsConcat(0, before.frames, st.frames);
      DonesConcat(before.frames, st.frames);
      var none: seq<StreamEvent> := [];
      assert [events[n]][..0] == none;
    }
  }

  /** After any events, message_start opens the answer with its role under its own id, and an error is told
      and ends the stream. */
  lemma StartsAndErrorsAreTold(events: seq<StreamEvent>, ev: StreamEvent, model: string, includeUsage: bool)
    ensures var before := Run(Stepper(model, includeUsage), INITIAL, events).frames;
            var after := Run(Stepper(model, includeUsage), INITIAL, events + [ev]).frames;
            match ev
            case MessageStart(Some((id, _))) =>
              && |after| == |before| + 1 && after[..|before|] == before && after[|before|].ChunkFrame?
              && after[|before|].chunk.delta.role == "assistant" && after[|before|].chunk.delta.content == ""
              && (id != "" ==> after[|before|].chunk.id == "chatcmpl-" + id)
            case StreamError(reason) =>
              after == before + [ErrorFrame(if reason == "" then "upstream stream error" else reason), Done]
            case _ => before <= after
  {
    assert (events + [ev])[..|events|] == events;
  }
}
