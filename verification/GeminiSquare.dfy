/** The shape of every translated Gemini stream, and where it agrees with the whole response
    (internal/protocol/gemini/stream.go:45-207, internal/protocol/gemini/response.go:10-81). */
module GeminiSquare {
  import opened Prelude
  import opened Text
  import opened UsageTap
  import opened Sse
  import opened ChatTypes
  import opened GeminiResponse
  import opened GeminiStream

  // ---------- the frames of a run, flattened ----------

  function AllParts(events: seq<GenerateContentResponse>): seq<Part> {
    if events == [] then [] else AllParts(events[..|events| - 1]) + PartsOf(events[|events| - 1])
  }

  lemma {:induction false} CallCountConcat(a: seq<Part>, b: seq<Part>)
    ensures CallCount(a + b) == CallCount(a) + CallCount(b)
  {
    if b == [] {
      assert a + b == a;
    } else {
      var n := |b| - 1;
      CallCountConcat(a, b[..n]);
      ConcatInit(a, b);
    }
  }

  lemma {:induction false} PartFramesConcat(model: string, a: seq<Part>, b: seq<Part>, next: nat)
    ensures PartFrames(model, a + b, next) == PartFrames(model, a, next) + PartFrames(model, b, next + CallCount(a))
  {
    if b == [] {
      assert a + b == a;
    } else {
      var init := b[..|b| - 1];
      PartFramesConcat(model, a, init, next);
      var one := PartFramesLast(model, a, b, next);
      ConcatAssoc(PartFrames(model, a, next), PartFrames(model, init, next + CallCount(a)), one);
    }
  }

  /** The frames of the last part come last, whether or not other parts come before. */
  lemma PartFramesLast(model: string, a: seq<Part>, b: seq<Part>, next: nat) returns (one: seq<Frame>)
    requires b != []
    ensures var init := b[..|b| - 1];
            && PartFrames(model, a + b, next) == PartFrames(model, a + init, next) + one
            && PartFrames(model, b, next + CallCount(a)) == PartFrames(model, init, next + CallCount(a)) + one
  {
    var n := |b| - 1;
    ConcatInit(a, b);
    CallCountConcat(a, b[..n]);
    one := OnePart(model, b[n], next + CallCount(a) + CallCount(b[..n]));
  }

  /** The last finish reason set, and the last usage reported. */
  function LastFinish(events: seq<GenerateContentResponse>): Option<string> {
    if events == [] then None
    else
      var last := events[|events| - 1];
      if ChunkFinish(last).Some? then ChunkFinish(last) else LastFinish(events[..|events| - 1])
  }

  function LastReported(events: seq<GenerateContentResponse>): Option<GeminiUsage> {
    if events == [] then None
    else
      var last := events[|events| - 1];
      if last.usage.Some? then last.usage else LastReported(events[..|events| - 1])
  }

  function Opening(events: seq<GenerateContentResponse>, model: string): seq<Frame> {
    if events == [] then [] else [ChunkOf(model, RoleDelta())]
  }

  /** The frames that the events come to, and the state they leave. */
  function FlatFrames(events: seq<GenerateContentResponse>, model: string): seq<Frame> {
    Opening(events, model) + PartFrames(model, AllParts(events), 0)
  }

  function FlatState(events: seq<GenerateContentResponse>): State {
    State(events != [], CallCount(AllParts(events)), LastFinish(events),
          if LastReported(events).Some? then Some(UsageOfMetadata(LastReported(events).value)) else None)
  }

  lemma {:induction false} RunFlattens(events: seq<GenerateContentResponse>, model: string)
    ensures Run(Stepper(model), INITIAL, events) == Stepped(FlatState(events), FlatFrames(events, model))
  {
    if events != [] {
      var n := |events| - 1;
      RunFlattens(events[..n], model);
      FlatStateStep(events, model);
      FlatFramesStep(events, model);
    }
  }

  lemma FlatStateStep(events: seq<GenerateContentResponse>, model: string)
    requires events != []
    ensures var n := |events| - 1;
            Step(FlatState(events[..n]), events[n], model).state == FlatState(events)
  {
    var n := |events| - 1;
    CallCountConcat(AllParts(events[..n]), PartsOf(events[n]));
  }

  lemma FlatFramesStep(events: seq<GenerateContentResponse>, model: string)
    requires events != []
    ensures var n := |events| - 1;
            FlatFrames(events[..n], model) + Step(FlatState(events[..n]), events[n], model).frames
            == FlatFrames(events, model)
  {
    var n := |events| - 1;
    var before, last := AllParts(events[..n]), events[n];
    var mid, more := PartFrames(model, before, 0), PartFrames(model, PartsOf(last), CallCount(before));
    PartFramesConcat(model, before, PartsOf(last), 0);
    RoleOnce(Opening(events[..n], model), Opening(events, model), mid, more, n > 0);
  }

  /** The role frame of the first event stays in front, whether it came before or comes now. */
  lemma RoleOnce<T>(before: seq<T>, opening: seq<T>, mid: seq<T>, more: seq<T>, sent: bool)
    requires if sent then before == opening else before == [] && mid == []
    ensures (before + mid) + ((if sent then [] else opening) + more) == opening + (mid + more)
  {
    EmptyLeft(more);
    EmptyLeft(opening + more);
    ConcatAssoc(opening, mid, more);
  }

  lemma EmptyLeft<T>(a: seq<T>)
    ensures [] + a == a
  {
  }

  lemma EmptyRight<T>(a: seq<T>)
    ensures a + [] == a
  {
  }

  // ---------- the shape of every stream ----------

  predicate IsDelta(f: Frame) {
    f.ChunkFrame? && f.chunk.delta.role == "" && f.chunk.finish.None? && f.chunk.usage.None?
  }

  /** The tool indices that frames carry, in order. */
  function ToolIndices(frames: seq<Frame>): seq<nat> {
    if frames == [] then []
    else
      var f := frames[|frames| - 1];
      ToolIndices(frames[..|frames| - 1]) +
      (if f.ChunkFrame? then IndicesOf(f.chunk.delta.toolCalls) else [])
  }

  function IndicesOf(ds: seq<ToolDelta>): seq<nat> {
    seq(|ds|, i requires 0 <= i < |ds| => ds[i].index)
  }

  function UpTo(n: nat): seq<nat> {
    seq(n, i => i)
  }

  lemma {:induction false} ToolIndicesConcat(a: seq<Frame>, b: seq<Frame>)
    ensures ToolIndices(a + b) == ToolIndices(a) + ToolIndices(b)
  {
    if b == [] {
      assert a + b == a && ToolIndices(a) + [] == ToolIndices(a);
    } else {
      var n := |b| - 1;
      ToolIndicesConcat(a, b[..n]);
      ConcatInit(a, b);
      var more := if b[n].ChunkFrame? then IndicesOf(b[n].chunk.delta.toolCalls) else [];
      ConcatAssoc(ToolIndices(a), ToolIndices(b[..n]), more);
    }
  }

  lemma OnePartShape(model: string, p: Part, next: nat)
    ensures var fs := OnePart(model, p, next);
            && (forall f | f in fs :: IsDelta(f))
            && ToolIndices(fs) == if p.call.Some? then [next] else []
  {
    var none: seq<Frame> := [];
    var fs := OnePart(model, p, next);
    if p.text != "" {
      var f := ChunkOf(model, TextDelta(p.text));
      assert [f][..0] == none && ToolIndices([f]) == [];
      if p.call.Some? {
        var g := ChunkOf(model, CallDelta(next, ToolCall(CallID(next), p.call.value.name, p.call.value.args)));
        assert [f, g][..1] == [f] && fs == [f, g];
        assert ToolIndices(fs) == ToolIndices([f]) + IndicesOf([ToolDelta(next, g.chunk.delta.toolCalls[0].call)]);
      } else {
        assert fs == [f];
      }
    } else if p.call.Some? {
      var g := ChunkOf(model, CallDelta(next, ToolCall(CallID(next), p.call.value.name, p.call.value.args)));
      assert [g][..0] == none && fs == [g];
      assert ToolIndices(fs) == ToolIndices(none) + IndicesOf(g.chunk.delta.toolCalls);
    } else {
      assert fs == [];
    }
  }

  lemma {:induction false} PartFramesShape(model: string, parts: seq<Part>)
    ensures var fs := PartFrames(model, parts, 0);
            && (forall f | f in fs :: IsDelta(f))
            && ToolIndices(fs) == UpTo(CallCount(parts))
  {
    if parts != [] {
      var n := |parts| - 1;
      PartFramesShape(model, parts[..n]);
      OnePartShape(model, parts[n], CallCount(parts[..n]));
      ToolIndicesConcat(PartFrames(model, parts[..n], 0), OnePart(model, parts[n], CallCount(parts[..n])));
    }
  }

  /** For every sequence of upstream events: the role chunk comes first and once, and only when there
      is any event; then come deltas; then exactly one chunk with a finish reason; then exactly one
      [DONE], last. The tool indices sent are 0, 1, 2, ... in order. */
  lemma StreamShape(events: seq<GenerateContentResponse>, model: string, includeUsage: bool)
    ensures var out := Complete(events, model, includeUsage);
            var n := |out|;
            var o := |Opening(events, model)|;
            && n >= o + 2
            && out[..o] == Opening(events, model)
            && (forall i | o <= i < n - 2 :: IsDelta(out[i]))
            && out[n - 2].ChunkFrame? && out[n - 2].chunk.finish.Some? && out[n - 2].chunk.delta == EmptyDelta()
            && out[n - 1].Done?
            && ToolIndices(out) == UpTo(CallCount(AllParts(events)))
  {
    var run := Run(Stepper(model), INITIAL, events);
    RunFlattens(events, model);
    PartFramesShape(model, AllParts(events));
    Shape(Opening(events, model), PartFrames(model, AllParts(events), 0), Closing(run.state, model, includeUsage),
          model, UpTo(CallCount(AllParts(events))));
  }

  lemma Shape(opening: seq<Frame>, mid: seq<Frame>, closing: seq<Frame>, model: string, indices: seq<nat>)
    requires opening == [] || opening == [ChunkOf(model, RoleDelta())]
    requires |closing| == 2 && closing[0].ChunkFrame? && closing[0].chunk.delta == EmptyDelta() && closing[1].Done?
    requires (forall f | f in mid :: IsDelta(f)) && ToolIndices(mid) == indices
    ensures var out := (opening + mid) + closing;
            && out[..|opening|] == opening
            && (forall i | |opening| <= i < |out| - 2 :: IsDelta(out[i]))
            && out[|out| - 2] == closing[0] && out[|out| - 1] == closing[1]
            && ToolIndices(out) == indices
  {
    ToolIndicesConcat(opening + mid, closing);
    ToolIndicesConcat(opening, mid);
    NoIndices(opening, closing, model);
    Middle(opening, mid, closing);
  }

  lemma Middle(opening: seq<Frame>, mid: seq<Frame>, closing: seq<Frame>)
    requires |closing| == 2 && forall f | f in mid :: IsDelta(f)
    ensures var out := (opening + mid) + closing;
            && out[..|opening|] == opening
            && (forall i | |opening| <= i < |out| - 2 :: IsDelta(out[i]))
            && out[|out| - 2] == closing[0] && out[|out| - 1] == closing[1]
  {
    var out := (opening + mid) + closing;
    forall i | |opening| <= i < |out| - 2
      ensures IsDelta(out[i])
    {
      assert out[i] == mid[i - |opening|] && mid[i - |opening|] in mid;
    }
  }

  lemma NoIndices(opening: seq<Frame>, closing: seq<Frame>, model: string)
    requires opening == [] || opening == [ChunkOf(model, RoleDelta())]
    requires |closing| == 2 && closing[0].ChunkFrame? && closing[0].chunk.delta == EmptyDelta() && closing[1].Done?
    ensures ToolIndices(opening) == [] && ToolIndices(closing) == []
  {
    var none: seq<Frame> := [];
    if opening != [] {
      assert opening[..0] == none;
    }
    assert closing[..1] == [closing[0]] && [closing[0]][..0] == none;
    assert ToolIndices([closing[0]]) == [];
  }

  // ---------- against the whole response ----------

  /** The calls as streamed: named by their own count, with absent arguments left empty. */
  function StreamedCalls(parts: seq<Part>): seq<ToolCall> {
    if parts == [] then []
    else
      var n := |parts| - 1;
      StreamedCalls(parts[..n]) +
      match parts[n].call
      case None => []
      case Some(c) => [ToolCall(CallID(CallCount(parts[..n])), c.name, c.args)]
  }

  lemma {:induction false} StreamedCount(parts: seq<Part>)
    ensures |StreamedCalls(parts)| == CallCount(parts) == |CallsOf(parts)|
    ensures CallCount(parts) <= |parts|
    ensures HasCall(parts) <==> CallCount(parts) > 0
  {
    if parts != [] {
      var n := |parts| - 1;
      StreamedCount(parts[..n]);
      assert parts == parts[..n] + [parts[n]];
      if HasCall(parts[..n]) {
        var i :| 0 <= i < n && parts[..n][i].call.Some?;
        assert parts[i].call.Some?;
      }
      if HasCall(parts) && parts[n].call.None? {
        var i :| 0 <= i <= n && parts[i].call.Some?;
        assert parts[..n][i].call.Some?;
      }
    }
  }

  lemma OnePartAssembles(model: string, p: Part, a: Assembled)
    requires a.id.Some?
    ensures Assemble(a, OnePart(model, p, |a.calls|))
            == a.(content := a.content + p.text,
                  calls := a.calls + if p.call.Some? then [StreamedCall(p.call.value, |a.calls|)] else [])
  {
    var fs := if p.text != "" then [ChunkOf(model, TextDelta(p.text))] else [];
    var n := |a.calls|;
    var gs := if p.call.Some? then [ChunkOf(model, CallDelta(n, StreamedCall(p.call.value, n)))] else [];
    AssembleConcat(a, fs, gs);
    if p.text != "" {
      AssembleOne(a, fs[0]);
    } else {
      assert a.content + p.text == a.content;
    }
    var b := Assemble(a, fs);
    if p.call.Some? {
      AssembleOne(b, gs[0]);
      MergeOne(b.calls, gs[0].chunk.delta.toolCalls[0]);
      assert b.content + "" == b.content;
    } else {
      assert a.calls + [] == a.calls;
    }
  }

  lemma {:induction false} PartsAssemble(model: string, parts: seq<Part>, a: Assembled)
    requires a.id.Some? && a.content == "" && a.calls == []
    ensures Assemble(a, PartFrames(model, parts, 0)) == a.(content := TextOf(parts), calls := StreamedCalls(parts))
  {
    if parts != [] {
      var n := |parts| - 1;
      PartsAssemble(model, parts[..n], a);
      StreamedCount(parts[..n]);
      AssembleConcat(a, PartFrames(model, parts[..n], 0), OnePart(model, parts[n], CallCount(parts[..n])));
      OnePartAssembles(model, parts[n], Assemble(a, PartFrames(model, parts[..n], 0)));
    }
  }

  /** What the client of a complete stream assembles. */
  function Streamed(events: seq<GenerateContentResponse>, includeUsage: bool): Assembled {
    Assembled(
      Some(MSG_ID), TextOf(AllParts(events)), StreamedCalls(AllParts(events)),
      if LastFinish(events).Some? then LastFinish(events) else Some("stop"),
      if includeUsage && LastReported(events).Some? then Some(UsageOfMetadata(LastReported(events).value)) else None)
  }

  lemma ClosingAssembles(s: State, model: string, includeUsage: bool, a: Assembled)
    requires a.finish.None? && a.usage.None?
    ensures Assemble(a, Closing(s, model, includeUsage)) ==
            Assembled(if a.id.Some? then a.id else Some(MSG_ID), a.content, a.calls,
                      if s.finish.Some? then s.finish else Some("stop"), if includeUsage then s.usage else None)
  {
    var closing := Closing(s, model, includeUsage);
    assert closing == [closing[0]] + [Done];
    AssembleConcat(a, [closing[0]], [Done]);
    AssembleOne(a, closing[0]);
    AssembleOne(Absorb(a, closing[0]), Done);
    assert a.content + "" == a.content;
  }

  lemma StreamAssembles(events: seq<GenerateContentResponse>, model: string, includeUsage: bool)
    ensures Assemble(NOTHING, Complete(events, model, includeUsage)) == Streamed(events, includeUsage)
  {
    var run := Run(Stepper(model), INITIAL, events);
    RunFlattens(events, model);
    var opening, mid := Opening(events, model), PartFrames(model, AllParts(events), 0);
    AssembleConcat(NOTHING, run.frames, Closing(run.state, model, includeUsage));
    AssembleConcat(NOTHING, opening, mid);
    if events != [] {
      AssembleOne(NOTHING, opening[0]);
      PartsAssemble(model, AllParts(events), Absorb(NOTHING, opening[0]));
    }
    ClosingAssembles(run.state, model, includeUsage, Assemble(NOTHING, run.frames));
  }

  /** The reason of the last event that gives one. */
  function LastReason(events: seq<GenerateContentResponse>): string {
    if events == [] then ""
    else
      var last := events[|events| - 1];
      if ReasonOf(last) != "" then ReasonOf(last) else LastReason(events[..|events| - 1])
  }

  /** The response a stream is the pieces of: all parts in order, the last reason, the last usage. */
  function Whole(events: seq<GenerateContentResponse>): GenerateContentResponse {
    GenerateContentResponse(Some(Candidate(Some(AllParts(events)), LastReason(events))), LastReported(events))
  }

  predicate ArgsPresent(parts: seq<Part>) {
    forall i | 0 <= i < |parts| && parts[i].call.Some? :: parts[i].call.value.args != ""
  }

  /** Every part up to the last call is a call, so that counting calls is counting parts. */
  predicate CallsLead(parts: seq<Part>) {
    forall i, j | 0 <= i < j < |parts| && parts[j].call.Some? :: parts[i].call.Some?
  }

  lemma {:induction false} LeadingCount(parts: seq<Part>)
    ensures CallCount(parts) == |parts| <==> forall i | 0 <= i < |parts| :: parts[i].call.Some?
  {
    if parts != [] {
      var n := |parts| - 1;
      StreamedCount(parts[..n]);
      LeadingCount(parts[..n]);
      assert forall i | 0 <= i < n :: parts[..n][i] == parts[i];
    }
  }

  lemma {:induction false} CallsAgreeIff(parts: seq<Part>)
    ensures StreamedCalls(parts) == CallsOf(parts) <==> ArgsPresent(parts) && CallsLead(parts)
  {
    if parts != [] {
      var n := |parts| - 1;
      var before := parts[..n];
      CallsAgreeIff(before);
      ConditionsNext(parts);
      if parts[n].call.Some? {
        StreamedCount(before);
        LastCallsAgreeIff(StreamedCalls(before), CallsOf(before), CallCount(before), n, parts[n].call.value);
      } else {
        EmptyRight(StreamedCalls(before));
        EmptyRight(CallsOf(before));
      }
    }
  }

  /** What one more part adds to the conditions. */
  lemma ConditionsNext(parts: seq<Part>)
    requires parts != []
    ensures var n := |parts| - 1;
            var before := parts[..n];
            if parts[n].call.Some? then
              && (CallsLead(parts) <==> CallsLead(before) && CallCount(before) == n)
              && (ArgsPresent(parts) <==> ArgsPresent(before) && parts[n].call.value.args != "")
            else (CallsLead(parts) <==> CallsLead(before)) && (ArgsPresent(parts) <==> ArgsPresent(before))
  {
    var n := |parts| - 1;
    LeadingCount(parts[..n]);
    assert forall i | 0 <= i < n :: parts[..n][i] == parts[i];
  }

  lemma LastCallsAgreeIff(a: seq<ToolCall>, b: seq<ToolCall>, count: nat, n: nat, c: GeminiCall)
    requires |a| == |b|
    ensures a + [ToolCall(CallID(count), c.name, c.args)]
            == b + [ToolCall(CallID(n), c.name, if c.args == "" then "{}" else c.args)]
            <==> a == b && count == n && c.args != ""
  {
    var x := ToolCall(CallID(count), c.name, c.args);
    var y := ToolCall(CallID(n), c.name, if c.args == "" then "{}" else c.args);
    if a + [x] == b + [y] {
      assert (a + [x])[..|a|] == a && (b + [y])[..|a|] == b;
      assert (a + [x])[|a|] == x && (b + [y])[|a|] == y;
      assert CallID(count)[5..] == Itoa(count) && CallID(n)[5..] == Itoa(n);
      ItoaInjective(count, n);
    }
  }

  /** The calls' names agree always, and their arguments wherever they are present. */
  lemma {:induction false} NamesAlwaysAgree(parts: seq<Part>)
    ensures var a, b := StreamedCalls(parts), CallsOf(parts);
            |a| == |b| && forall i | 0 <= i < |a| ::
              && a[i].name == b[i].name
              && (a[i].arguments != "" ==> a[i].arguments == b[i].arguments)
              && (a[i].arguments == "" ==> b[i].arguments == "{}")
  {
    StreamedCount(parts);
    if parts != [] {
      NamesAlwaysAgree(parts[..|parts| - 1]);
    }
  }

  /** Whether the finish reasons agree: the last event that gives a reason must hold a call exactly
      when the whole response, on its reason, is said to end in tool calls. */
  predicate FinishAgrees(events: seq<GenerateContentResponse>) {
    match LastFinishing(events)
    case None => !HasCall(AllParts(events))
    case Some(ev) =>
      if HasCall(PartsOf(ev)) then MapFinishReason(ReasonOf(ev)) == "stop"
      else !(HasCall(AllParts(events)) && MapFinishReason(ReasonOf(ev)) == "stop")
  }

  function LastFinishing(events: seq<GenerateContentResponse>): Option<GenerateContentResponse> {
    if events == [] then None
    else
      var last := events[|events| - 1];
      if ReasonOf(last) != "" then Some(last) else LastFinishing(events[..|events| - 1])
  }

  lemma {:induction false} FinishingGives(events: seq<GenerateContentResponse>)
    ensures match LastFinishing(events)
            case None => LastFinish(events) == None && LastReason(events) == ""
            case Some(ev) =>
              && ev in events && ReasonOf(ev) != ""
              && LastFinish(events) == ChunkFinish(ev) && LastReason(events) == ReasonOf(ev)
              && (HasCall(PartsOf(ev)) ==> HasCall(AllParts(events)))
  {
    if events != [] {
      var n := |events| - 1;
      var last, before := events[n], AllParts(events[..n]);
      FinishingGives(events[..n]);
      CallStays(before, PartsOf(last));
    }
  }

  lemma CallStays(a: seq<Part>, b: seq<Part>)
    ensures HasCall(a) || HasCall(b) ==> HasCall(a + b)
  {
    if HasCall(a) {
      var i :| 0 <= i < |a| && a[i].call.Some?;
      assert (a + b)[i].call.Some?;
    }
    if HasCall(b) {
      var i :| 0 <= i < |b| && b[i].call.Some?;
      assert (a + b)[|a| + i].call.Some?;
    }
  }

  lemma FinishAgreesIff(events: seq<GenerateContentResponse>, includeUsage: bool, model: string)
    ensures Streamed(events, includeUsage).finish == Some(Translated(Whole(events), model).finish) <==>
            FinishAgrees(events)
  {
    FinishingGives(events);
    StreamedCount(AllParts(events));
  }

  /** Text, message id and call names agree on every stream. The whole assembled answer is that of the
      whole response exactly when every call has arguments, no other part precedes a call, the finish
      reasons agree as above, and usage is asked for or never reported. */
  lemma StreamEqualsResponseIff(events: seq<GenerateContentResponse>, model: string, includeUsage: bool)
    ensures var a := Assemble(NOTHING, Complete(events, model, includeUsage));
            var r := Translated(Whole(events), model);
            && a.id == Some(r.id) && a.content == r.content
            && |a.calls| == |r.toolCalls| && (forall i | 0 <= i < |a.calls| :: a.calls[i].name == r.toolCalls[i].name)
            && (Agrees(a, r) <==>
                && ArgsPresent(AllParts(events)) && CallsLead(AllParts(events)) && FinishAgrees(events)
                && (includeUsage || LastReported(events).None?))
  {
    StreamAssembles(events, model, includeUsage);
    NamesAlwaysAgree(AllParts(events));
    CallsAgreeIff(AllParts(events));
    FinishAgreesIff(events, includeUsage, model);
  }

  /** The same of a stream as it is sent, with event names, ids and comments among its lines, and carriage
      returns or none at their ends. */
  lemma StreamedEventsEqualResponseIff(es: seq<RawEvent>, parse: string -> Option<GenerateContentResponse>,
                                       model: string, includeUsage: bool)
    requires forall i | 0 <= i < |es| :: WellSent(es[i])
    ensures var events := Parsed(Jsons(es), parse);
            Agrees(Assemble(NOTHING, Output(ScanLines(RawBytes(es)), false, parse, model, includeUsage)),
                   Translated(Whole(events), model)) <==>
            && ArgsPresent(AllParts(events)) && CallsLead(AllParts(events)) && FinishAgrees(events)
            && (includeUsage || LastReported(events).None?)
  {
    RawPayloads(es);
    StreamEqualsResponseIff(Parsed(Jsons(es), parse), model, includeUsage);
  }

  /** Such a stream: a text before the call, which the stream counts as call 0 and the whole response
      as part 1. */
  lemma TextBeforeCallDiffers(model: string)
    ensures var parts := [Part("t", None), Part("", Some(GeminiCall("f", "{}")))];
            var events := [GenerateContentResponse(Some(Candidate(Some(parts), "STOP")), None)];
            !Agrees(Assemble(NOTHING, Complete(events, model, true)), Translated(Whole(events), model))
  {
    var parts := [Part("t", None), Part("", Some(GeminiCall("f", "{}")))];
    var events := [GenerateContentResponse(Some(Candidate(Some(parts), "STOP")), None)];
    var none: seq<Part> := [];
    assert AllParts(events) == none + parts == parts;
    assert parts[1].call.Some? && parts[0].call.None?;
    StreamEqualsResponseIff(events, model, true);
  }
}
