/** Turning an Anthropic response into an OpenAI one (internal/protocol/anthropic/response.go). */
module AnthropicResponse {
  import opened Prelude
  import opened Text
  import opened ChatTypes

  /** A content block; `input` is the raw JSON of the tool's arguments, empty when absent. */
  datatype Block = Text(text: string) | ToolUse(id: string, name: string, input: string) | OtherBlock(kind: string)

  datatype AnthropicUsage = AnthropicUsage(input: int, output: int)

  datatype MessagesResponse = MessagesResponse(id: string, content: seq<Block>, stopReason: string,
                                               usage: AnthropicUsage)

  function MapStopReason(r: string): string {
    if r == "max_tokens" then "length"
    else if r == "tool_use" then "tool_calls"
    else if r == "end_turn" || r == "stop_sequence" || r == "stop" then "stop"
    else if r == "" then "stop"
    else r
  }

  /** All text of the blocks, in order. */
  function TextOf(blocks: seq<Block>): string {
    if blocks == [] then ""
    else
      var last := blocks[|blocks| - 1];
      TextOf(blocks[..|blocks| - 1]) + if last.Text? then last.text else ""
  }

  function CallOf(b: Block): ToolCall
    requires b.ToolUse?
  {
    ToolCall(b.id, b.name, if b.input == "" then "{}" else b.input)
  }

  function CallsOf(blocks: seq<Block>): seq<ToolCall> {
    if blocks == [] then []
    else
      var last := blocks[|blocks| - 1];
      CallsOf(blocks[..|blocks| - 1]) + if last.ToolUse? then [CallOf(last)] else []
  }

  function Translated(resp: MessagesResponse, model: string): ChatResponse {
    ChatResponse(
      "chatcmpl-" + resp.id, model, TextOf(resp.content), CallsOf(resp.content), MapStopReason(resp.stopReason),
      Some(TokenUsage(resp.usage.input, resp.usage.output, resp.usage.input + resp.usage.output)))
  }

  method JoinText(parts: seq<string>) returns (out: string)
    ensures out == Concat(parts)
  {
    if |parts| == 1 {
      assert parts[..0] == [];
      return parts[0];
    }
    out := "";
    for i := 0 to |parts|
      invariant out == Concat(parts[..i])
    {
      assert parts[..i + 1][..i] == parts[..i];
      out := out + parts[i];
    }
    assert parts[..|parts|] == parts;
  }

  method AnthropicToOpenAI(resp: MessagesResponse, model: string) returns (r: ChatResponse)
    ensures r == Translated(resp, model)
  {
    var textParts: seq<string> := [];
    var toolCalls: seq<ToolCall> := [];
    for i := 0 to |resp.content|
      invariant Concat(textParts) == TextOf(resp.content[..i])
      invariant toolCalls == CallsOf(resp.content[..i])
    {
      assert resp.content[..i + 1][..i] == resp.content[..i];
      match resp.content[i]
      case Text(text) =>
        assert (textParts + [text])[..|textParts|] == textParts;
        textParts := textParts + [text];
      case ToolUse(id, name, input) =>
        var args := "{}";
        if |input| > 0 {
          args := input;
        }
        toolCalls := toolCalls + [ToolCall(id, name, args)];
      case OtherBlock(_) =>
    }
    assert resp.content[..|resp.content|] == resp.content;
    var content := "";
    if |textParts| > 0 {
      content := JoinText(textParts);
    }
    return ChatResponse(
      "chatcmpl-" + resp.id, model, content, toolCalls, MapStopReason(resp.stopReason),
      Some(TokenUsage(resp.usage.input, resp.usage.output, resp.usage.input + resp.usage.output)));
  }

  function BlockText(b: Block): string {
    if b.Text? then b.text else ""
  }

  function BlockTexts(blocks: seq<Block>): seq<string> {
    seq(|blocks|, i requires 0 <= i < |blocks| => BlockText(blocks[i]))
  }

  /** What a whole answer is, field by field: its text is that of its blocks in order; its finish reason says
      length, tool calls or stop for these stop reasons, and anything else as it stands. */
  lemma WholeAnswer(resp: MessagesResponse, model: string)
    ensures var r := Translated(resp, model);
            && r.id == "chatcmpl-" + resp.id && r.model == model
            && r.content == Concat(BlockTexts(resp.content))
            && (r.finish == "length" <==> resp.stopReason in {"max_tokens", "length"})
            && (r.finish == "tool_calls" <==> resp.stopReason in {"tool_use", "tool_calls"})
            && (r.finish == "stop" <==> resp.stopReason in {"end_turn", "stop_sequence", "stop", ""})
            && (r.finish !in {"length", "tool_calls", "stop"} ==> r.finish == resp.stopReason)
            && r.usage == Some(TokenUsage(resp.usage.input, resp.usage.output, resp.usage.input + resp.usage.output))
  {
    TextIsConcat(resp.content);
  }

  lemma {:induction false} TextIsConcat(blocks: seq<Block>)
    ensures TextOf(blocks) == Concat(BlockTexts(blocks))
  {
    if blocks != [] {
      var n := |blocks| - 1;
      TextIsConcat(blocks[..n]);
      assert BlockTexts(blocks)[..n] == BlockTexts(blocks[..n]);
    }
  }
}
