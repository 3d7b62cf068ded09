/** Turning OpenAI messages into Anthropic ones, and a translated answer back into a request
    (internal/protocol/anthropic/request.go). */
module AnthropicRequest {
  import opened Prelude
  import opened ChatTypes
  import opened ChatRequest
  import opened Text
  import AnthropicResponse

  datatype Block =
    | TextBlock(text: string)
    | ToolUseBlock(id: string, name: string, input: string)
    | ResultBlock(toolUseID: string, content: string)

  /** Whether a text is valid JSON. */
  type JsonCheck = string -> bool

  function TextBlocks(texts: seq<string>): seq<Block> {
    seq(|texts|, i requires 0 <= i < |texts| => TextBlock(texts[i]))
  }

  function ToolUse(c: ToolCall, valid: JsonCheck): Block {
    ToolUseBlock(c.id, c.name, if valid(c.arguments) then c.arguments else "{}")
  }

  function ToolUses(calls: seq<ToolCall>, valid: JsonCheck): seq<Block> {
    seq(|calls|, i requires 0 <= i < |calls| => ToolUse(calls[i], valid))
  }

  /** What one message contributes. */
  function ItemOf(m: Message, valid: JsonCheck): Result<Item<Block>, RequestError> {
    if m.role == "system" then
      match ContentText(m.content)
      case Err(e) => Err(e)
      case Ok(text) => Ok(System(text))
    else if m.role == "user" then
      match ContentTexts(m.content)
      case Err(e) => Err(e)
      case Ok(texts) => Ok(Turn("user", TextBlocks(texts)))
    else if m.role == "assistant" then
      match if m.content.Absent? then Ok([]) else ContentTexts(m.content)
      case Err(e) => Err(e)
      case Ok(texts) =>
        var blocks := TextBlocks(texts) + ToolUses(m.toolCalls, valid);
        Ok(Turn("assistant", if blocks == [] then [TextBlock("")] else blocks))
    else if m.role == "tool" then
      match ContentText(m.content)
      case Err(e) => Err(e)
      case Ok(text) => Ok(ToolResult(ResultBlock(m.toolCallID, text)))
    else Err(UnsupportedRole(m.role))
  }

  function Reading(valid: JsonCheck): Reader<Block> {
    (earlier, m) => ItemOf(m, valid)
  }

  function Items(ms: seq<Message>, valid: JsonCheck): Result<seq<Item<Block>>, RequestError> {
    ReadAll(ms, Reading(valid))
  }

  function Translation(ms: seq<Message>, valid: JsonCheck): Result<LaidRequest<Block>, RequestError> {
    match Items(ms, valid)
    case Err(e) => Err(e)
    case Ok(items) => RequestOf(items)
  }

  /** The blocks of an assistant message. */
  method AssistantBlocks(m: Message, valid: JsonCheck) returns (r: Result<seq<Block>, RequestError>)
    requires m.role == "assistant"
    ensures match ItemOf(m, valid)
            case Err(e) => r == Err(e)
            case Ok(x) => x.Turn? && r == Ok(x.blocks)
  {
    var blocks: seq<Block> := [];
    if !m.content.Absent? {
      var texts := ContentToTexts(m.content);
      if texts.Err? {
        return Err(texts.error);
      }
      blocks := TextBlocks(texts.value);
    }
    blocks := AddCalls(blocks, m.toolCalls, valid);
    if |blocks| == 0 {
      blocks := [TextBlock("")];
    }
    return Ok(blocks);
  }

  /** The loop over an assistant message's calls. */
  method AddCalls(head: seq<Block>, calls: seq<ToolCall>, valid: JsonCheck) returns (blocks: seq<Block>)
    ensures blocks == head + ToolUses(calls, valid)
  {
    blocks := head;
    for i := 0 to |calls|
      invariant blocks == head + ToolUses(calls[..i], valid)
    {
      var input := calls[i].arguments;
      if !valid(input) {
        input := "{}";
      }
      assert ToolUses(calls[..i + 1], valid) == ToolUses(calls[..i], valid) + [ToolUse(calls[i], valid)];
      blocks := blocks + [ToolUseBlock(calls[i].id, calls[i].name, input)];
    }
    assert calls[..|calls|] == calls;
  }

  /** The message loop of `OpenAIToAnthropic`. */
  method OpenAIToAnthropic(ms: seq<Message>, valid: JsonCheck) returns (r: Result<LaidRequest<Block>, RequestError>)
    ensures r == Translation(ms, valid)
  {
    var draft := new Draft<Block>();
    for i := 0 to |ms|
      invariant draft.Valid() && Items(ms[..i], valid) == Ok(draft.items)
    {
      var m := ms[i];
      ReadNext(ms, i, Reading(valid));
      if m.role == "system" {
        var text := ContentToText(m.content);
        if text.Err? {
          return Err(text.error);
        }
        draft.AddSystem(text.value);
      } else if m.role == "user" {
        var texts := ContentToTexts(m.content);
        if texts.Err? {
          return Err(texts.error);
        }
        draft.AddTurn("user", TextBlocks(texts.value));
      } else if m.role == "assistant" {
        var blocks := AssistantBlocks(m, valid);
        if blocks.Err? {
          return Err(blocks.error);
        }
        draft.AddTurn("assistant", blocks.value);
      } else if m.role == "tool" {
        var text := ContentToText(m.content);
        if text.Err? {
          return Err(text.error);
        }
        draft.AddResult(ResultBlock(m.toolCallID, text.value));
      } else {
        return Err(UnsupportedRole(m.role));
      }
    }
    assert ms[..|ms|] == ms;
    r := draft.Finish();
  }

  // ---------- nothing lost, nothing reordered ----------

  predicate IsResult(b: Block) { b.ResultBlock? }

  lemma {:induction false} ItemsAreMarked(ms: seq<Message>, valid: JsonCheck)
    requires Items(ms, valid).Ok?
    ensures WellMarked(Items(ms, valid).value, IsResult)
  {
    if ms != [] {
      ItemsAreMarked(ms[..|ms| - 1], valid);
      var x := ItemOf(ms[|ms| - 1], valid).value;
      if x.Turn? {
        TextsNonEmpty(ms[|ms| - 1].content);
      }
    }
  }

  lemma TextsNonEmpty(c: Content)
    ensures ContentTexts(c).Ok? ==> ContentTexts(c).value != []
  {
  }

  /** Every accepted conversation: flattening the messages gives the blocks of the non-system messages
      in order; no message is empty; every message is either a batch of tool results or a turn
      without any, and no two batches are adjacent, so each maximal run of tool messages, system ones
      ignored, is one user message; every other message is the turn of one user or assistant message,
      in order and under its own role; and the system text is the non-empty system texts, in order. */
  lemma TranslationKeepsAll(ms: seq<Message>, valid: JsonCheck)
    requires Translation(ms, valid).Ok?
    ensures var out := Translation(ms, valid).value;
            var items := Items(ms, valid).value;
            && Flat(out.messages) == AllBlocks(NonSystem(items))
            && |items| == |ms| && (forall i | 0 <= i < |ms| :: ItemOf(ms[i], valid) == Ok(items[i]))
            && out.messages != []
            && Unbatched(out.messages, IsResult) == TurnsOf(NonSystem(items))
            && (forall i | 0 <= i < |out.messages| ::
                  IsBatch(out.messages[i], IsResult) || IsTurn(out.messages[i], IsResult))
            && (forall i | 0 <= i < |out.messages| - 1 ::
                  !(IsBatch(out.messages[i], IsResult) && IsBatch(out.messages[i + 1], IsResult)))
            && out.system == Join(SystemParts(items), "\n\n")
  {
    var items := Items(ms, valid).value;
    NonSystemHasNone(items);
    ItemsAreMarked(ms, valid);
    ReadIsEach(ms, Reading(valid));
    LayoutKeepsBlocks(NonSystem(items));
    LayoutKeepsTurns(NonSystem(items), IsResult);
    LayoutShape(NonSystem(items), IsResult);
  }

  // ---------- what each message says ----------

  /** The blocks are the texts, each a text block. */
  ghost predicate AreTexts(blocks: seq<Block>, texts: seq<string>) {
    |blocks| == |texts| && forall i | 0 <= i < |texts| :: blocks[i] == TextBlock(texts[i])
  }

  /** The blocks are the calls, each with its id and name, and with its arguments if they are JSON. */
  ghost predicate AreCalls(blocks: seq<Block>, calls: seq<ToolCall>, valid: JsonCheck) {
    && |blocks| == |calls|
    && forall i | 0 <= i < |calls| ::
         blocks[i] == ToolUseBlock(calls[i].id, calls[i].name, if valid(calls[i].arguments) then calls[i].arguments
                                   else "{}")
  }

  /** What a message is sent as, in terms of its content alone. */
  ghost predicate SentAs(m: Message, item: Item<Block>, valid: JsonCheck) {
    match item
    case System(text) => m.role == "system" && SaysText(m.content, text)
    case ToolResult(b) => m.role == "tool" && b.ResultBlock? && b.toolUseID == m.toolCallID
      && SaysText(m.content, b.content)
    case Turn(role, blocks) =>
      && role == m.role
      && if role == "user" then exists texts :: SaysTexts(m.content, texts) && AreTexts(blocks, texts)
         else role == "assistant" && SentAsAssistant(m, blocks, valid)
  }

  /** An assistant's texts, none where its content is absent, and then its calls; one empty text where
      there is neither. */
  ghost predicate SentAsAssistant(m: Message, blocks: seq<Block>, valid: JsonCheck) {
    if m.content.Absent? then
      if m.toolCalls == [] then blocks == [TextBlock("")] else AreCalls(blocks, m.toolCalls, valid)
    else
      exists texts :: SaysTexts(m.content, texts) && |texts| <= |blocks|
                      && AreTexts(blocks[..|texts|], texts) && AreCalls(blocks[|texts|..], m.toolCalls, valid)
  }

  /** The messages that are accepted. */
  ghost predicate Acceptable(m: Message) {
    || (m.role in {"system", "tool"} && TakenAsText(m.content))
    || (m.role == "user" && TakenAsTexts(m.content))
    || (m.role == "assistant" && (m.content.Absent? || TakenAsTexts(m.content)))
  }

  lemma ItemIsSentAs(m: Message, valid: JsonCheck)
    ensures ItemOf(m, valid).Ok? <==> Acceptable(m)
    ensures ItemOf(m, valid).Ok? ==> SentAs(m, ItemOf(m, valid).value, valid)
  {
    TextSays(m.content);
    TextsSay(m.content);
    if m.role == "user" && ContentTexts(m.content).Ok? {
      assert AreTexts(TextBlocks(ContentTexts(m.content).value), ContentTexts(m.content).value);
    }
    if m.role == "assistant" && ItemOf(m, valid).Ok? {
      AssistantIsSentAs(m, valid);
    }
  }

  lemma AssistantIsSentAs(m: Message, valid: JsonCheck)
    requires m.role == "assistant" && ItemOf(m, valid).Ok?
    ensures ItemOf(m, valid).value.Turn? && SentAsAssistant(m, ItemOf(m, valid).value.blocks, valid)
  {
    TextsSay(m.content);
    var uses := ToolUses(m.toolCalls, valid);
    if m.content.Absent? {
      assert TextBlocks([]) + uses == uses;
    } else {
      var texts := ContentTexts(m.content).value;
      TextsNonEmpty(m.content);
      var blocks := TextBlocks(texts) + uses;
      assert blocks[..|texts|] == TextBlocks(texts) && blocks[|texts|..] == uses;
      assert AreTexts(blocks[..|texts|], texts) && AreCalls(blocks[|texts|..], m.toolCalls, valid);
    }
  }

  /** A conversation is accepted exactly when each of its messages is and one of them is no system message;
      and then what is sent is, message by message and in order, what they say: every turn as one message
      under its own role, tool results in their batches, and the system texts joined. */
  lemma WhatIsSaidIsSent(ms: seq<Message>, valid: JsonCheck)
    ensures Translation(ms, valid).Ok? <==>
            (forall i | 0 <= i < |ms| :: Acceptable(ms[i])) && exists i | 0 <= i < |ms| :: ms[i].role != "system"
    ensures Translation(ms, valid).Ok? ==>
              var out := Translation(ms, valid).value;
              exists items: seq<Item<Block>> ::
                && |items| == |ms| && (forall i | 0 <= i < |ms| :: SentAs(ms[i], items[i], valid))
                && Flat(out.messages) == AllBlocks(NonSystem(items))
                && Unbatched(out.messages, IsResult) == TurnsOf(NonSystem(items))
                && out.system == Join(SystemParts(items), "\n\n")
  {
    ItemsAccepted(ms, valid);
    if Items(ms, valid).Ok? {
      var items := Items(ms, valid).value;
      ReadIsEach(ms, Reading(valid));
      forall i | 0 <= i < |ms|
        ensures SentAs(ms[i], items[i], valid)
      {
        ItemIsSentAs(ms[i], valid);
        assert Reading(valid)(ms[..i], ms[i]) == Ok(items[i]);
      }
      ItemsAreMarked(ms, valid);
      LaidUnlessEmpty(items, IsResult);
      if Translation(ms, valid).Ok? {
        TranslationKeepsAll(ms, valid);
      }
    }
  }

  lemma ItemsAccepted(ms: seq<Message>, valid: JsonCheck)
    ensures Items(ms, valid).Ok? <==> forall i | 0 <= i < |ms| :: Acceptable(ms[i])
  {
    ReadAllIff(ms, Reading(valid));
    forall i | 0 <= i < |ms|
      ensures Reading(valid)(ms[..i], ms[i]).Ok? <==> Acceptable(ms[i])
    {
      ItemIsSentAs(ms[i], valid);
    }
  }

  /** So a user's plain text is one of the messages sent, and a tool's answer one of the blocks. */
  lemma TextIsSent(ms: seq<Message>, i: nat, text: string, valid: JsonCheck)
    requires Translation(ms, valid).Ok? && i < |ms| && ms[i].content == Text(text)
    ensures var out := Translation(ms, valid).value;
            && (ms[i].role == "user" ==> Laid("user", [TextBlock(text)]) in out.messages)
            && (ms[i].role == "tool" ==> ResultBlock(ms[i].toolCallID, text) in Flat(out.messages))
  {
    var items := Items(ms, valid).value;
    ReadIsEach(ms, Reading(valid));
    assert Reading(valid)(ms[..i], ms[i]) == Ok(items[i]);
    ItemsAreMarked(ms, valid);
    TranslationKeepsAll(ms, valid);
    NonSystemHasNone(items);
    if ms[i].role == "user" {
      assert TextBlocks([text]) == [TextBlock(text)];
      TurnIsLaid(items, items[i], IsResult);
    } else if ms[i].role == "tool" {
      NonSystemHas(items, items[i]);
      BlockIsKept(NonSystem(items), items[i]);
    }
  }

  // ---------- response to history to request ----------

  /** The assistant message a client keeps of a translated response. */
  function History(resp: AnthropicResponse.MessagesResponse, model: string): Message {
    var r := AnthropicResponse.Translated(resp, model);
    Message("assistant", Text(r.content), "", r.toolCalls, "")
  }

  /** The response's own tool blocks. */
  function OwnToolUses(blocks: seq<AnthropicResponse.Block>): seq<Block> {
    if blocks == [] then []
    else
      var last := blocks[|blocks| - 1];
      OwnToolUses(blocks[..|blocks| - 1]) + if last.ToolUse? then [ToolUseBlock(last.id, last.name, last.input)] else []
  }

  predicate InputsValid(blocks: seq<AnthropicResponse.Block>, valid: JsonCheck) {
    forall b | b in blocks && b.ToolUse? :: valid(b.input)
  }

  lemma {:induction false} ToolUsesReturnIff(blocks: seq<AnthropicResponse.Block>, valid: JsonCheck)
    requires valid("{}") && !valid("")
    ensures var back := ToolUses(AnthropicResponse.CallsOf(blocks), valid);
            && |back| == |OwnToolUses(blocks)|
            && (back == OwnToolUses(blocks) <==> InputsValid(blocks, valid))
  {
    if blocks != [] {
      var n := |blocks| - 1;
      var before, last := blocks[..n], blocks[n];
      ToolUsesReturnIff(before, valid);
      assert blocks == before + [last];
      var a, b := ToolUses(AnthropicResponse.CallsOf(before), valid), OwnToolUses(before);
      if last.ToolUse? {
        var x, y := ToolUse(AnthropicResponse.CallOf(last), valid), ToolUseBlock(last.id, last.name, last.input);
        assert ToolUses(AnthropicResponse.CallsOf(blocks), valid) == a + [x];
        assert (a + [x])[..|a|] == a && (b + [y])[..|b|] == b && (a + [x])[|a|] == x && (b + [y])[|b|] == y;
        assert x == y <==> valid(last.input);
      } else {
        assert AnthropicResponse.CallsOf(before) + [] == AnthropicResponse.CallsOf(before) && b + [] == b;
      }
    }
  }

  /** Sent back as history, a translated answer becomes one text block with all its text in order,
      and then its tool calls; these are its own tool blocks, id, name and input, in order, exactly
      when every tool input is valid JSON. */
  lemma HistoryRoundTripIff(resp: AnthropicResponse.MessagesResponse, model: string, valid: JsonCheck)
    requires valid("{}") && !valid("")
    ensures var item := ItemOf(History(resp, model), valid);
            var blocks := resp.content;
            && item.Ok? && item.value.Turn? && item.value.role == "assistant"
            && |item.value.blocks| >= 1 && item.value.blocks[0] == TextBlock(AnthropicResponse.TextOf(blocks))
            && |item.value.blocks[1..]| == |OwnToolUses(blocks)|
            && (item.value.blocks[1..] == OwnToolUses(blocks) <==> InputsValid(blocks, valid))
  {
    ToolUsesReturnIff(resp.content, valid);
    var text := AnthropicResponse.TextOf(resp.content);
    var uses := ToolUses(AnthropicResponse.CallsOf(resp.content), valid);
    assert TextBlocks([text]) == [TextBlock(text)];
    assert ([TextBlock(text)] + uses)[1..] == uses;
  }

  /** Such an answer: a tool input that is no JSON comes back as {}. */
  lemma InvalidInputIsLost(model: string, input: string, valid: JsonCheck)
    requires !valid("") && input != "" && !valid(input)
    ensures var b := AnthropicResponse.ToolUse("t", "f", input);
            var resp := AnthropicResponse.MessagesResponse("m", [b], "tool_use",
                                                           AnthropicResponse.AnthropicUsage(1, 2));
            var item := ItemOf(History(resp, model), valid);
            && item == Ok(Turn("assistant", [TextBlock(""), ToolUseBlock("t", "f", "{}")]))
            && OwnToolUses([b]) == [ToolUseBlock("t", "f", input)]
  {
    var b := AnthropicResponse.ToolUse("t", "f", input);
    var none: seq<AnthropicResponse.Block> := [];
    assert [b][..0] == none;
    assert AnthropicResponse.TextOf([b]) == "";
    assert OwnToolUses([b]) == [ToolUseBlock("t", "f", input)];
    assert AnthropicResponse.CallsOf([b]) == [AnthropicResponse.CallOf(b)];
    assert TextBlocks([""]) == [TextBlock("")];
    assert ToolUses([AnthropicResponse.CallOf(b)], valid) == [ToolUseBlock("t", "f", "{}")];
    assert TextBlocks([""]) + ToolUses([AnthropicResponse.CallOf(b)], valid)
           == [TextBlock(""), ToolUseBlock("t", "f", "{}")];
  }

  /** A message that is the assistant's, with all the answer's text in one block and then its tool calls,
      which are its own exactly when their inputs are valid JSON. */
  ghost predicate IsHistory(sent: Laid<Block>, resp: AnthropicResponse.MessagesResponse, valid: JsonCheck) {
    && sent.role == "assistant"
    && |sent.content| >= 1 && sent.content[0] == TextBlock(AnthropicResponse.TextOf(resp.content))
    && |sent.content[1..]| == |OwnToolUses(resp.content)|
    && (sent.content[1..] == OwnToolUses(resp.content) <==> InputsValid(resp.content, valid))
  }

  /** So in any accepted conversation that holds a translated answer one of the messages sent is such a one. */
  lemma HistoryReturnsIff(before: seq<Message>, resp: AnthropicResponse.MessagesResponse, model: string,
                          after: seq<Message>, valid: JsonCheck)
    requires valid("{}") && !valid("")
    requires Translation(before + [History(resp, model)] + after, valid).Ok?
    ensures exists sent | sent in Translation(before + [History(resp, model)] + after, valid).value.messages ::
              IsHistory(sent, resp, valid)
  {
    var m, ms := History(resp, model), before + [History(resp, model)] + after;
    assert ms[|before|] == m;
    var sent := AssistantIsLaid(ms, |before|, valid);
    HistoryRoundTripIff(resp, model, valid);
    assert IsHistory(sent, resp, valid);
  }

  lemma AssistantIsLaid(ms: seq<Message>, i: nat, valid: JsonCheck) returns (sent: Laid<Block>)
    requires Translation(ms, valid).Ok? && i < |ms| && ms[i].role == "assistant"
    ensures var item := ItemOf(ms[i], valid);
            item.Ok? && item.value.Turn? && sent == Laid(item.value.role, item.value.blocks)
    ensures sent in Translation(ms, valid).value.messages
  {
    var items := Items(ms, valid).value;
    ReadIsEach(ms, Reading(valid));
    assert Reading(valid)(ms[..i], ms[i]) == Ok(items[i]);
    ItemsAreMarked(ms, valid);
    NonSystemHasNone(items);
    TurnIsLaid(items, items[i], IsResult);
    sent := Laid(items[i].role, items[i].blocks);
  }
}
