/** The OpenAI-compatible chat types, and how a client puts a stream together
    (internal/protocol/core/types.go). */
module ChatTypes {
  import opened Prelude

  datatype TokenUsage = TokenUsage(prompt: int, completion: int, total: int)

  datatype ToolCall = ToolCall(id: string, name: string, arguments: string)

  datatype ToolDelta = ToolDelta(index: nat, call: ToolCall)

  /** The one choice of a chunk. An empty role or content is not sent. */
  datatype Delta = Delta(role: string, content: string, toolCalls: seq<ToolDelta>)

  datatype Chunk = Chunk(id: string, model: string, delta: Delta, finish: Option<string>, usage: Option<TokenUsage>)

  datatype Frame = ChunkFrame(chunk: Chunk) | ErrorFrame(message: string) | Done

  datatype ChatResponse = ChatResponse(
    id: string, model: string, content: string, toolCalls: seq<ToolCall>, finish: string, usage: Option<TokenUsage>)

  function RoleDelta(): Delta { Delta("assistant", "", []) }

  function TextDelta(text: string): Delta { Delta("", text, []) }

  function CallDelta(index: nat, call: ToolCall): Delta { Delta("", "", [ToolDelta(index, call)]) }

  function EmptyDelta(): Delta { Delta("", "", []) }

  // ---------- an OpenAI client ----------

  /** What a client has put together: text appended, each tool's pieces merged at its index. */
  datatype Assembled = Assembled(
    id: Option<string>, content: string, calls: seq<ToolCall>, finish: Option<string>, usage: Option<TokenUsage>)

  const NOTHING := Assembled(None, "", [], None, None)

  function Merge(calls: seq<ToolCall>, d: ToolDelta): seq<ToolCall> {
    if d.index < |calls| then
      var c := calls[d.index];
      calls[d.index := ToolCall(
        if d.call.id == "" then c.id else d.call.id,
        if d.call.name == "" then c.name else d.call.name,
        c.arguments + d.call.arguments)]
    else calls + [d.call]
  }

  function MergeAll(calls: seq<ToolCall>, ds: seq<ToolDelta>): seq<ToolCall> {
    if ds == [] then calls else Merge(MergeAll(calls, ds[..|ds| - 1]), ds[|ds| - 1])
  }

  function Absorb(a: Assembled, f: Frame): Assembled {
    match f
    case Done => a
    case ErrorFrame(_) => a
    case ChunkFrame(c) =>
      Assembled(
        if a.id.None? then Some(c.id) else a.id,
        a.content + c.delta.content,
        MergeAll(a.calls, c.delta.toolCalls),
        if c.finish.Some? then c.finish else a.finish,
        if c.usage.Some? then c.usage else a.usage)
  }

  function Assemble(a: Assembled, frames: seq<Frame>): Assembled {
    if frames == [] then a else Absorb(Assemble(a, frames[..|frames| - 1]), frames[|frames| - 1])
  }

  lemma {:induction false} AssembleConcat(a: Assembled, x: seq<Frame>, y: seq<Frame>)
    ensures Assemble(a, x + y) == Assemble(Assemble(a, x), y)
  {
    if y == [] {
      assert x + y == x;
    } else {
      var n := |y| - 1;
      AssembleConcat(a, x, y[..n]);
      assert (x + y)[..|x + y| - 1] == x + y[..n];
    }
  }

  lemma AssembleOne(a: Assembled, f: Frame)
    ensures Assemble(a, [f]) == Absorb(a, f)
  {
    assert [f][..0] == [];
  }

  lemma MergeOne(calls: seq<ToolCall>, d: ToolDelta)
    ensures MergeAll(calls, [d]) == Merge(calls, d)
  {
    assert [d][..0] == [];
  }

  /** What a client assembled from a stream is what the whole response says. */
  predicate Agrees(a: Assembled, r: ChatResponse) {
    a.id == Some(r.id) && a.content == r.content && a.calls == r.toolCalls && a.finish == Some(r.finish)
      && a.usage == r.usage
  }
}
