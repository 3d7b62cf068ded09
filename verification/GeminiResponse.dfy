/** Turning a Gemini response into an OpenAI one (internal/protocol/gemini/response.go). */
module GeminiResponse {
  import opened Prelude
  import opened Text
  import opened ChatTypes

  /** A function call; `args` is raw JSON, empty when absent. */
  datatype GeminiCall = GeminiCall(name: string, args: string)

  datatype Part = Part(text: string, call: Option<GeminiCall>)

  /** The first candidate, which is all that is looked at. */
  datatype Candidate = Candidate(content: Option<seq<Part>>, finishReason: string)

  datatype GeminiUsage = GeminiUsage(prompt: int, candidates: int, total: int)

  datatype GenerateContentResponse = GenerateContentResponse(candidate: Option<Candidate>, usage: Option<GeminiUsage>)

  function MapFinishReason(r: string): string {
    if r == "STOP" then "stop"
    else if r == "MAX_TOKENS" then "length"
    else if r in ["SAFETY", "RECITATION", "BLOCKLIST", "PROHIBITED_CONTENT", "SPII"] then "content_filter"
    else "stop"
  }

  function CallID(n: nat): string {
    "call_" + Itoa(n)
  }

  function UsageOfMetadata(u: GeminiUsage): TokenUsage {
    TokenUsage(u.prompt, u.candidates, if u.total == 0 then u.prompt + u.candidates else u.total)
  }

  function PartsOf(resp: GenerateContentResponse): seq<Part> {
    if resp.candidate.Some? && resp.candidate.value.content.Some? then resp.candidate.value.content.value else []
  }

  function ReasonOf(resp: GenerateContentResponse): string {
    if resp.candidate.Some? then resp.candidate.value.finishReason else ""
  }

  function TextOf(parts: seq<Part>): string {
    if parts == [] then "" else TextOf(parts[..|parts| - 1]) + parts[|parts| - 1].text
  }

  /** The calls of a whole response: each is named by its part's position, and has `{}` for absent
      arguments. */
  function CallsOf(parts: seq<Part>): seq<ToolCall> {
    if parts == [] then []
    else
      var n := |parts| - 1;
      CallsOf(parts[..n]) +
      match parts[n].call
      case None => []
      case Some(c) => [ToolCall(CallID(n), c.name, if c.args == "" then "{}" else c.args)]
  }

  function FinishOf(reason: string, calls: bool): string {
    var base := if reason != "" then MapFinishReason(reason) else "stop";
    if calls && base == "stop" then "tool_calls" else base
  }

  function Translated(resp: GenerateContentResponse, model: string): ChatResponse {
    var parts := PartsOf(resp);
    ChatResponse(
      "chatcmpl-gemini", model, TextOf(parts), CallsOf(parts), FinishOf(ReasonOf(resp), CallsOf(parts) != []),
      if resp.usage.Some? then Some(UsageOfMetadata(resp.usage.value)) else None)
  }

  method GeminiToOpenAI(resp: GenerateContentResponse, model: string) returns (r: ChatResponse)
    ensures r == Translated(resp, model)
  {
    var content := "";
    var toolCalls: seq<ToolCall> := [];
    var finishReason := "stop";
    if resp.candidate.Some? {
      var c := resp.candidate.value;
      if c.finishReason != "" {
        finishReason := MapFinishReason(c.finishReason);
      }
      if c.content.Some? {
        content, toolCalls := Collect(c.content.value);
      }
    }
    if |toolCalls| > 0 && finishReason == "stop" {
      finishReason := "tool_calls";
    }
    var usage := None;
    if resp.usage.Some? {
      var u := resp.usage.value;
      var t := TokenUsage(u.prompt, u.candidates, u.total);
      if t.total == 0 {
        t := t.(total := t.prompt + t.completion);
      }
      usage := Some(t);
    }
    return ChatResponse("chatcmpl-gemini", model, content, toolCalls, finishReason, usage);
  }

  /** The loop over parts, with the text joined as it comes. */
  method Collect(parts: seq<Part>) returns (content: string, toolCalls: seq<ToolCall>)
    ensures content == TextOf(parts) && toolCalls == CallsOf(parts)
  {
    content, toolCalls := "", [];
    for i := 0 to |parts|
      invariant content == TextOf(parts[..i]) && toolCalls == CallsOf(parts[..i])
    {
      var p := parts[i];
      assert parts[..i + 1][..i] == parts[..i];
      if p.text != "" {
        content := content + p.text;
      } else {
        assert content + p.text == content;
      }
      if p.call.Some? {
        var args := "{}";
        if |p.call.value.args| > 0 {
          args := p.call.value.args;
        }
        toolCalls := toolCalls + [ToolCall(CallID(i), p.call.value.name, args)];
      }
    }
    assert parts[..|parts|] == parts;
  }

  function Texts(parts: seq<Part>): seq<string> {
    seq(|parts|, i requires 0 <= i < |parts| => parts[i].text)
  }

  function CallCount(parts: seq<Part>): nat {
    if parts == [] then 0 else CallCount(parts[..|parts| - 1]) + if parts[|parts| - 1].call.Some? then 1 else 0
  }

  /** Part i holds a call, before which there are k. */
  ghost predicate CallAt(parts: seq<Part>, i: nat, k: nat) {
    i < |parts| && parts[i].call.Some? && CallCount(parts[..i]) == k
  }

  ghost predicate HasCallAfter(parts: seq<Part>, k: nat) {
    exists i: nat :: CallAt(parts, i, k)
  }

  /** Call k is the one that part i holds, named by the part's position, with {} for absent arguments. */
  ghost predicate IsCallOf(calls: seq<ToolCall>, k: nat, parts: seq<Part>, i: nat)
    requires i < |parts| && parts[i].call.Some?
  {
    var c := parts[i].call.value;
    && k < |calls| && calls[k].id == "call_" + Itoa(i) && calls[k].name == c.name
    && calls[k].arguments == if c.args == "" then "{}" else c.args
  }

  ghost predicate AreCallsOf(calls: seq<ToolCall>, parts: seq<Part>) {
    && (forall i: nat, k: nat | CallAt(parts, i, k) :: IsCallOf(calls, k, parts, i))
    && forall k: nat | k < |calls| :: HasCallAfter(parts, k)
  }

  function FinishSays(reason: string, calls: bool): string {
    if reason == "MAX_TOKENS" then "length"
    else if reason in {"SAFETY", "RECITATION", "BLOCKLIST", "PROHIBITED_CONTENT", "SPII"} then "content_filter"
    else if calls then "tool_calls"
    else "stop"
  }

  /** What a whole answer is, field by field: the text of its parts in order; one call for each part with
      one; a finish reason that says tool calls instead of stop where there are any; and the counts, summed
      up where no total is given. */
  lemma WholeAnswer(resp: GenerateContentResponse, model: string)
    ensures var r := Translated(resp, model);
            && r.content == Concat(Texts(PartsOf(resp)))
            && AreCallsOf(r.toolCalls, PartsOf(resp))
            && r.finish == FinishSays(ReasonOf(resp), r.toolCalls != [])
            && (resp.usage.None? <==> r.usage.None?)
            && (resp.usage.Some? ==>
                  var u := resp.usage.value;
                  var total := if u.total == 0 then u.prompt + u.candidates else u.total;
                  r.usage == Some(TokenUsage(u.prompt, u.candidates, total)))
  {
    TextIsConcat(PartsOf(resp));
    CallsStand(PartsOf(resp));
  }

  lemma {:induction false} TextIsConcat(parts: seq<Part>)
    ensures TextOf(parts) == Concat(Texts(parts))
  {
    if parts != [] {
      var n := |parts| - 1;
      TextIsConcat(parts[..n]);
      assert Texts(parts)[..n] == Texts(parts[..n]);
    }
  }

  lemma {:induction false} CallsStand(parts: seq<Part>)
    ensures |CallsOf(parts)| == CallCount(parts) && AreCallsOf(CallsOf(parts), parts)
  {
    if parts != [] {
      var n := |parts| - 1;
      var before, calls := CallsOf(parts[..n]), CallsOf(parts);
      CallsStand(parts[..n]);
      forall i: nat, k: nat | CallAt(parts, i, k)
        ensures IsCallOf(calls, k, parts, i)
      {
        if i < n {
          assert parts[..n][..i] == parts[..i];
          assert CallAt(parts[..n], i, k);
          assert IsCallOf(before, k, parts[..n], i);
          assert calls[k] == before[k];
        }
      }
      forall k: nat | k < |calls|
        ensures HasCallAfter(parts, k)
      {
        if k < |before| {
          assert HasCallAfter(parts[..n], k);
          var i: nat :| CallAt(parts[..n], i, k);
          assert parts[..n][..i] == parts[..i];
          assert CallAt(parts, i, k);
        } else {
          assert CallAt(parts, n, k);
        }
      }
    }
  }
}
