/** Turning OpenAI messages into Gemini contents (internal/protocol/gemini/request.go). */
module GeminiRequest {
  import opened Prelude
  import opened ChatTypes
  import opened ChatRequest
  import opened Text

  datatype GeminiPart =
    | TextPart(text: string)
    | CallPart(name: string, args: string)
    | ResponsePart(name: string, result: string)

  type JsonCheck = string -> bool

  function TextParts(texts: seq<string>): seq<GeminiPart> {
    seq(|texts|, i requires 0 <= i < |texts| => TextPart(texts[i]))
  }

  function CallOf(c: ToolCall, valid: JsonCheck): GeminiPart {
    CallPart(c.name, if valid(c.arguments) then c.arguments else "{}")
  }

  function CallParts(calls: seq<ToolCall>, valid: JsonCheck): seq<GeminiPart> {
    seq(|calls|, i requires 0 <= i < |calls| => CallOf(calls[i], valid))
  }

  /** The name of the last of the calls under `id` that has one; empty when there is none. */
  function NameIn(calls: seq<ToolCall>, id: string): string {
    if calls == [] then ""
    else
      var c := calls[|calls| - 1];
      if c.id == id && c.id != "" && c.name != "" then c.name else NameIn(calls[..|calls| - 1], id)
  }

  /** The name under which the latest assistant message calls `id`. */
  function LatestName(ms: seq<Message>, id: string): string {
    if ms == [] then ""
    else
      var m := ms[|ms| - 1];
      if m.role == "assistant" && NameIn(m.toolCalls, id) != "" then NameIn(m.toolCalls, id)
      else LatestName(ms[..|ms| - 1], id)
  }

  /** A tool message's function: its explicit name, else the latest earlier call's, else the id. */
  function ResponseName(earlier: seq<Message>, m: Message): string {
    if m.name != "" then m.name
    else if LatestName(earlier, m.toolCallID) != "" then LatestName(earlier, m.toolCallID)
    else m.toolCallID
  }

  /** What a message contributes after the earlier ones. */
  function ItemOf(earlier: seq<Message>, m: Message, valid: JsonCheck): Result<Item<GeminiPart>, RequestError> {
    if m.role == "system" then
      match ContentText(m.content)
      case Err(e) => Err(e)
      case Ok(text) => Ok(System(text))
    else if m.role == "user" then
      match ContentTexts(m.content)
      case Err(e) => Err(e)
      case Ok(texts) => Ok(Turn("user", TextParts(texts)))
    else if m.role == "assistant" then
      match if m.content.Absent? then Ok([]) else ContentTexts(m.content)
      case Err(e) => Err(e)
      case Ok(texts) =>
        var parts := TextParts(texts) + CallParts(m.toolCalls, valid);
        Ok(Turn("model", if parts == [] then [TextPart("")] else parts))
    else if m.role == "tool" then
      match ContentText(m.content)
      case Err(e) => Err(e)
      case Ok(text) => Ok(ToolResult(ResponsePart(ResponseName(earlier, m), text)))
    else Err(UnsupportedRole(m.role))
  }

  function Reading(valid: JsonCheck): Reader<GeminiPart> {
    (earlier, m) => ItemOf(earlier, m, valid)
  }

  function Items(ms: seq<Message>, valid: JsonCheck): Result<seq<Item<GeminiPart>>, RequestError> {
    ReadAll(ms, Reading(valid))
  }

  function Translation(ms: seq<Message>, valid: JsonCheck): Result<LaidRequest<GeminiPart>, RequestError> {
    match Items(ms, valid)
    case Err(e) => Err(e)
    case Ok(items) => RequestOf(items)
  }

  type Names = map<string, string>

  function Lookup(names: Names, id: string): string {
    if id in names then names[id] else ""
  }

  ghost predicate Knows(names: Names, ms: seq<Message>) {
    forall id :: Lookup(names, id) == LatestName(ms, id)
  }

  /** The table after the calls of one more assistant message. */
  ghost predicate Learned(before: Names, names: Names, calls: seq<ToolCall>) {
    forall id :: Lookup(names, id) == if NameIn(calls, id) != "" then NameIn(calls, id) else Lookup(before, id)
  }

  /** The parts of an assistant message, and the names its calls teach. */
  method AssistantParts(m: Message, names: Names, valid: JsonCheck)
    returns (r: Result<seq<GeminiPart>, RequestError>, names': Names)
    requires m.role == "assistant"
    ensures match ItemOf([], m, valid)
            case Err(e) => r == Err(e)
            case Ok(x) => x.Turn? && r == Ok(x.blocks) && Learned(names, names', m.toolCalls)
  {
    names' := names;
    var parts: seq<GeminiPart> := [];
    if !m.content.Absent? {
      var texts := ContentToTexts(m.content);
      if texts.Err? {
        return Err(texts.error), names';
      }
      parts := TextParts(texts.value);
    }
    parts, names' := AddCalls(parts, m.toolCalls, names, valid);
    if |parts| == 0 {
      parts := [TextPart("")];
    }
    return Ok(parts), names';
  }

  /** The loop over an assistant message's calls. */
  method AddCalls(head: seq<GeminiPart>, calls: seq<ToolCall>, names: Names, valid: JsonCheck)
    returns (parts: seq<GeminiPart>, names': Names)
    ensures parts == head + CallParts(calls, valid) && Learned(names, names', calls)
  {
    parts, names' := head, names;
    for i := 0 to |calls|
      invariant parts == head + CallParts(calls[..i], valid)
      invariant Learned(names, names', calls[..i])
    {
      var c := calls[i];
      var args := c.arguments;
      if !valid(args) {
        args := "{}";
      }
      if c.id != "" && c.name != "" {
        names' := names'[c.id := c.name];
      }
      assert calls[..i + 1][..i] == calls[..i];
      assert CallParts(calls[..i + 1], valid) == CallParts(calls[..i], valid) + [CallOf(c, valid)];
      parts := parts + [CallPart(c.name, args)];
    }
    assert calls[..|calls|] == calls;
  }

  lemma KnowsNext(before: Names, names: Names, ms: seq<Message>, i: nat)
    requires i < |ms| && Knows(before, ms[..i])
    requires if ms[i].role == "assistant" then Learned(before, names, ms[i].toolCalls) else names == before
    ensures Knows(names, ms[..i + 1])
  {
    assert ms[..i + 1][..i] == ms[..i];
  }

  /** One message: its item is added, or its error returned. */
  method TakeIn(earlier: seq<Message>, m: Message, draft: Draft<GeminiPart>, names: Names, valid: JsonCheck)
    returns (r: Result<(), RequestError>, names': Names)
    requires draft.Valid() && Knows(names, earlier)
    modifies draft
    ensures draft.Valid()
    ensures match ItemOf(earlier, m, valid)
            case Err(e) => r == Err(e)
            case Ok(x) => r.Ok? && draft.items == old(draft.items) + [x]
    ensures r.Ok? ==> if m.role == "assistant" then Learned(names, names', m.toolCalls) else names' == names
  {
    names' := names;
    if m.role == "system" {
      var text := ContentToText(m.content);
      if text.Err? {
        return Err(text.error), names;
      }
      draft.AddSystem(text.value);
    } else if m.role == "user" {
      var texts := ContentToTexts(m.content);
      if texts.Err? {
        return Err(texts.error), names;
      }
      draft.AddTurn("user", TextParts(texts.value));
    } else if m.role == "assistant" {
      var parts;
      parts, names' := AssistantParts(m, names, valid);
      if parts.Err? {
        return Err(parts.error), names;
      }
      draft.AddTurn("model", parts.value);
    } else if m.role == "tool" {
      var text := ContentToText(m.content);
      if text.Err? {
        return Err(text.error), names;
      }
      var name := m.name;
      if name == "" {
        assert Lookup(names, m.toolCallID) == LatestName(earlier, m.toolCallID);
        name := if m.toolCallID in names then names[m.toolCallID] else "";
      }
      if name == "" {
        name := m.toolCallID;
      }
      draft.AddResult(ResponsePart(name, text.value));
    } else {
      return Err(UnsupportedRole(m.role)), names;
    }
    return Ok(()), names';
  }

  /** The message loop of `OpenAIToGemini`. */
  method OpenAIToGemini(ms: seq<Message>, valid: JsonCheck) returns (r: Result<LaidRequest<GeminiPart>, RequestError>)
    ensures r == Translation(ms, valid)
  {
    var draft := new Draft<GeminiPart>();
    var names: Names := map[];
    for i := 0 to |ms|
      invariant draft.Valid() && Items(ms[..i], valid) == Ok(draft.items)
      invariant Knows(names, ms[..i])
    {
      ReadNext(ms, i, Reading(valid));
      ghost var before := names;
      var taken;
      taken, names := TakeIn(ms[..i], ms[i], draft, names, valid);
      if taken.Err? {
        return Err(taken.error);
      }
      KnowsNext(before, names, ms, i);
    }
    assert ms[..|ms|] == ms;
    r := draft.Finish();
  }

  // ---------- nothing lost, nothing reordered ----------

  predicate IsResponse(p: GeminiPart) { p.ResponsePart? }

  lemma {:induction false} ItemsAreMarked(ms: seq<Message>, valid: JsonCheck)
    requires Items(ms, valid).Ok?
    ensures WellMarked(Items(ms, valid).value, IsResponse)
  {
    if ms != [] {
      var earlier, m := ms[..|ms| - 1], ms[|ms| - 1];
      ItemsAreMarked(earlier, valid);
      assert m.role == "user" ==> ContentTexts(m.content).Ok? && ContentTexts(m.content).value != [];
    }
  }

  /** As for Anthropic: no part is lost or reordered, no content is empty, and each maximal run of tool
      messages becomes one user content; the others are the turns, in order and under their roles. */
  lemma TranslationKeepsAll(ms: seq<Message>, valid: JsonCheck)
    requires Translation(ms, valid).Ok?
    ensures var out := Translation(ms, valid).value;
            var items := Items(ms, valid).value;
            && Flat(out.messages) == AllBlocks(NonSystem(items))
            && |items| == |ms| && (forall i | 0 <= i < |ms| :: ItemOf(ms[..i], ms[i], valid) == Ok(items[i]))
            && out.messages != []
            && Unbatched(out.messages, IsResponse) == TurnsOf(NonSystem(items))
            && (forall i | 0 <= i < |out.messages| ::
                  IsBatch(out.messages[i], IsResponse) || IsTurn(out.messages[i], IsResponse))
            && (forall i | 0 <= i < |out.messages| - 1 ::
                  !(IsBatch(out.messages[i], IsResponse) && IsBatch(out.messages[i + 1], IsResponse)))
            && out.system == Join(SystemParts(items), "\n\n")
  {
    var items := Items(ms, valid).value;
    NonSystemHasNone(items);
    ItemsAreMarked(ms, valid);
    ReadIsEach(ms, Reading(valid));
    LayoutKeepsBlocks(NonSystem(items));
    LayoutKeepsTurns(NonSystem(items), IsResponse);
    LayoutShape(NonSystem(items), IsResponse);
  }

  /** The call (i, j) of the conversation is one under `id` that has a name. */
  ghost predicate NamedCall(ms: seq<Message>, i: int, j: int, id: string) {
    && 0 <= i < |ms| && ms[i].role == "assistant" && 0 <= j < |ms[i].toolCalls|
    && ms[i].toolCalls[j].id == id && id != "" && ms[i].toolCalls[j].name != ""
  }

  ghost predicate Later(i: int, j: int, i': int, j': int) {
    i' > i || (i' == i && j' > j)
  }

  lemma {:induction false} NameInIsLast(calls: seq<ToolCall>, id: string)
    ensures NameIn(calls, id) != "" ==>
              exists j | 0 <= j < |calls| ::
                && calls[j].id == id && id != "" && calls[j].name == NameIn(calls, id)
                && forall j' | j < j' < |calls| :: !(calls[j'].id == id && calls[j'].name != "")
    ensures NameIn(calls, id) == "" ==>
            forall j | 0 <= j < |calls| :: !(calls[j].id == id && id != "" && calls[j].name != "")
  {
    if calls != [] {
      var n := |calls| - 1;
      NameInIsLast(calls[..n], id);
      var c := calls[n];
      if c.id == id && c.id != "" && c.name != "" {
        assert calls[n].name == NameIn(calls, id);
      } else if NameIn(calls, id) != "" {
        var j :| 0 <= j < n && calls[..n][j].id == id && id != "" && calls[..n][j].name == NameIn(calls, id)
                 && forall j' | j < j' < n :: !(calls[..n][j'].id == id && calls[..n][j'].name != "");
        assert calls[j].name == NameIn(calls, id);
        assert forall j' | j < j' < n :: calls[..n][j'] == calls[j'];
      } else {
        assert forall j | 0 <= j < n :: calls[..n][j] == calls[j];
      }
    }
  }

  /** The remembered name is that of the latest earlier call under the id, and there is none exactly
      when no earlier assistant message makes a named call under it. */
  lemma {:induction false} LatestNameIsLatest(ms: seq<Message>, id: string)
    ensures LatestName(ms, id) != "" ==>
              exists i, j ::
                && NamedCall(ms, i, j, id) && ms[i].toolCalls[j].name == LatestName(ms, id)
                && forall i', j' | NamedCall(ms, i', j', id) :: !Later(i, j, i', j')
    ensures LatestName(ms, id) == "" ==> forall i, j :: !NamedCall(ms, i, j, id)
  {
    if ms != [] {
      var n := |ms| - 1;
      var before, m := ms[..n], ms[n];
      LatestNameIsLatest(before, id);
      NameInIsLast(m.toolCalls, id);
      forall i, j | NamedCall(ms, i, j, id) && i < n
        ensures NamedCall(before, i, j, id)
      {
      }
      if m.role == "assistant" && NameIn(m.toolCalls, id) != "" {
        var j :| 0 <= j < |m.toolCalls| && m.toolCalls[j].id == id && id != ""
          && m.toolCalls[j].name == NameIn(m.toolCalls, id)
                 && forall j' | j < j' < |m.toolCalls| :: !(m.toolCalls[j'].id == id && m.toolCalls[j'].name != "");
        assert NamedCall(ms, n, j, id);
      } else if LatestName(ms, id) != "" {
        var i, j :| NamedCall(before, i, j, id) && before[i].toolCalls[j].name == LatestName(before, id)
                    && forall i', j' | NamedCall(before, i', j', id) :: !Later(i, j, i', j');
        assert NamedCall(ms, i, j, id) && ms[i] == before[i];
      }
    }
  }

  // ---------- what each message says ----------

  ghost predicate AreTexts(parts: seq<GeminiPart>, texts: seq<string>) {
    |parts| == |texts| && forall i | 0 <= i < |texts| :: parts[i] == TextPart(texts[i])
  }

  ghost predicate AreCalls(parts: seq<GeminiPart>, calls: seq<ToolCall>, valid: JsonCheck) {
    && |parts| == |calls|
    && forall i | 0 <= i < |calls| ::
         parts[i] == CallPart(calls[i].name, if valid(calls[i].arguments) then calls[i].arguments else "{}")
  }

  /** The function a tool message answers for: the one it names; or else that of the latest earlier call
      under its id; or else the id. */
  ghost predicate NamedAs(earlier: seq<Message>, m: Message, name: string) {
    if m.name != "" then name == m.name
    else
      || (name == m.toolCallID && forall i, j :: !NamedCall(earlier, i, j, m.toolCallID))
      || exists i, j ::
           && NamedCall(earlier, i, j, m.toolCallID) && earlier[i].toolCalls[j].name == name
           && forall i', j' | NamedCall(earlier, i', j', m.toolCallID) :: !Later(i, j, i', j')
  }

  /** What a message is sent as, in terms of its content and of the messages before it. */
  ghost predicate SentAs(earlier: seq<Message>, m: Message, item: Item<GeminiPart>, valid: JsonCheck) {
    match item
    case System(text) => m.role == "system" && SaysText(m.content, text)
    case ToolResult(p) =>
      m.role == "tool" && p.ResponsePart? && NamedAs(earlier, m, p.name) && SaysText(m.content, p.result)
    case Turn(role, parts) =>
      || (role == "user" && m.role == "user" && exists texts :: SaysTexts(m.content, texts) && AreTexts(parts, texts))
      || (role == "model" && m.role == "assistant" && SentAsModel(m, parts, valid))
  }

  ghost predicate SentAsModel(m: Message, parts: seq<GeminiPart>, valid: JsonCheck) {
    if m.content.Absent? then
      if m.toolCalls == [] then parts == [TextPart("")] else AreCalls(parts, m.toolCalls, valid)
    else
      exists texts :: SaysTexts(m.content, texts) && |texts| <= |parts|
                      && AreTexts(parts[..|texts|], texts) && AreCalls(parts[|texts|..], m.toolCalls, valid)
  }

  ghost predicate Acceptable(m: Message) {
    || (m.role in {"system", "tool"} && TakenAsText(m.content))
    || (m.role == "user" && TakenAsTexts(m.content))
    || (m.role == "assistant" && (m.content.Absent? || TakenAsTexts(m.content)))
  }

  lemma ItemIsSentAs(earlier: seq<Message>, m: Message, valid: JsonCheck)
    ensures ItemOf(earlier, m, valid).Ok? <==> Acceptable(m)
    ensures ItemOf(earlier, m, valid).Ok? ==> SentAs(earlier, m, ItemOf(earlier, m, valid).value, valid)
  {
    TextSays(m.content);
    TextsSay(m.content);
    if m.role == "user" && ContentTexts(m.content).Ok? {
      assert AreTexts(TextParts(ContentTexts(m.content).value), ContentTexts(m.content).value);
    }
    if m.role == "assistant" && ItemOf(earlier, m, valid).Ok? {
      AssistantIsSentAs(earlier, m, valid);
    }
    if m.role == "tool" {
      NameIsGiven(earlier, m);
    }
  }

  lemma NameIsGiven(earlier: seq<Message>, m: Message)
    ensures NamedAs(earlier, m, ResponseName(earlier, m))
  {
    LatestNameIsLatest(earlier, m.toolCallID);
  }

  lemma AssistantIsSentAs(earlier: seq<Message>, m: Message, valid: JsonCheck)
    requires m.role == "assistant" && ItemOf(earlier, m, valid).Ok?
    ensures var item := ItemOf(earlier, m, valid).value;
            item.Turn? && item.role == "model" && SentAsModel(m, item.blocks, valid)
  {
    TextsSay(m.content);
    var calls := CallParts(m.toolCalls, valid);
    if m.content.Absent? {
      assert TextParts([]) + calls == calls;
    } else {
      var texts := ContentTexts(m.content).value;
      assert texts != [];
      var parts := TextParts(texts) + calls;
      assert parts[..|texts|] == TextParts(texts) && parts[|texts|..] == calls;
      assert AreTexts(parts[..|texts|], texts) && AreCalls(parts[|texts|..], m.toolCalls, valid);
    }
  }

  /** A conversation is accepted exactly when each of its messages is and one of them is no system message;
      and then what is sent is, message by message and in order, what they say, tool results under the
      names of their functions. */
  lemma WhatIsSaidIsSent(ms: seq<Message>, valid: JsonCheck)
    ensures Translation(ms, valid).Ok? <==>
            (forall i | 0 <= i < |ms| :: Acceptable(ms[i])) && exists i | 0 <= i < |ms| :: ms[i].role != "system"
    ensures Translation(ms, valid).Ok? ==>
              var out := Translation(ms, valid).value;
              exists items: seq<Item<GeminiPart>> ::
                && |items| == |ms| && (forall i | 0 <= i < |ms| :: SentAs(ms[..i], ms[i], items[i], valid))
                && Flat(out.messages) == AllBlocks(NonSystem(items))
                && Unbatched(out.messages, IsResponse) == TurnsOf(NonSystem(items))
                && out.system == Join(SystemParts(items), "\n\n")
  {
    ItemsAccepted(ms, valid);
    if Items(ms, valid).Ok? {
      var items := Items(ms, valid).value;
      ReadIsEach(ms, Reading(valid));
      forall i | 0 <= i < |ms|
        ensures SentAs(ms[..i], ms[i], items[i], valid)
      {
        ItemIsSentAs(ms[..i], ms[i], valid);
        assert Reading(valid)(ms[..i], ms[i]) == Ok(items[i]);
      }
      ItemsAreMarked(ms, valid);
      LaidUnlessEmpty(items, IsResponse);
      if Translation(ms, valid).Ok? {
        TranslationKeepsAll(ms, valid);
      }
    }
  }

  lemma ItemsAccepted(ms: seq<Message>, valid: JsonCheck)
    ensures Items(ms, valid).Ok? <==> forall i | 0 <= i < |ms| :: Acceptable(ms[i])
  {
    ReadAllIff(ms, Reading(valid));
    forall i | 0 <= i < |ms|
      ensures Reading(valid)(ms[..i], ms[i]).Ok? <==> Acceptable(ms[i])
    {
      ItemIsSentAs(ms[..i], ms[i], valid);
    }
  }

  /** So a user's plain text is one of the contents sent, and a tool's answer one of the parts. */
  lemma TextIsSent(ms: seq<Message>, i: nat, text: string, valid: JsonCheck)
    requires Translation(ms, valid).Ok? && i < |ms| && ms[i].content == Text(text)
    ensures var out := Translation(ms, valid).value;
            && (ms[i].role == "user" ==> Laid("user", [TextPart(text)]) in out.messages)
            && (ms[i].role == "tool" ==>
                  exists name :: NamedAs(ms[..i], ms[i], name) && ResponsePart(name, text) in Flat(out.messages))
  {
    var items := Items(ms, valid).value;
    ReadIsEach(ms, Reading(valid));
    assert Reading(valid)(ms[..i], ms[i]) == Ok(items[i]);
    ItemsAreMarked(ms, valid);
    TranslationKeepsAll(ms, valid);
    NonSystemHasNone(items);
    if ms[i].role == "user" {
      assert TextParts([text]) == [TextPart(text)];
      TurnIsLaid(items, items[i], IsResponse);
    } else if ms[i].role == "tool" {
      NonSystemHas(items, items[i]);
      BlockIsKept(NonSystem(items), items[i]);
      NameIsGiven(ms[..i], ms[i]);
    }
  }
}
