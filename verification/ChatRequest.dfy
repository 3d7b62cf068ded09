/** The messages of an OpenAI chat request, and the way both request translators lay them out: system
    text apart, and each run of tool results in one user message
    (internal/protocol/anthropic/request.go:30-107, internal/protocol/gemini/request.go:30-122). */
module ChatRequest {
  import opened Prelude
  import opened ChatTypes
  import opened Text

  /** One element of a content array: its type, empty when missing, and its text when that is one. */
  datatype ContentPart = ContentPart(kind: string, text: Option<string>)

  /** Message content; absent stands also for JSON null, Invalid for JSON of another shape. */
  datatype Content = Absent | Text(text: string) | Parts(parts: seq<ContentPart>) | Invalid

  datatype Message = Message(role: string, content: Content, name: string, toolCalls: seq<ToolCall>, toolCallID: string)

  datatype RequestError =
    | InvalidContent | ImageUnsupported | UnsupportedType(kind: string) | UnsupportedRole(role: string) | NoMessages

  // ---------- content ----------

  function PartText(p: ContentPart): string {
    if (p.kind == "text" || p.kind == "") && p.text.Some? then p.text.value else ""
  }

  predicate IsImage(p: ContentPart) {
    p.kind == "image_url" || p.kind == "image"
  }

  function PartsText(parts: seq<ContentPart>): Result<string, RequestError> {
    if parts == [] then Ok("")
    else
      var p := parts[|parts| - 1];
      match PartsText(parts[..|parts| - 1])
      case Err(e) => Err(e)
      case Ok(before) => if IsImage(p) then Err(ImageUnsupported) else Ok(before + PartText(p))
  }

  /** The text of system and tool messages: parts of unknown type are passed over. */
  function ContentText(c: Content): Result<string, RequestError> {
    match c
    case Absent => Ok("")
    case Text(s) => Ok(s)
    case Parts(parts) => PartsText(parts)
    case Invalid => Err(InvalidContent)
  }

  function PartsTexts(parts: seq<ContentPart>): Result<seq<string>, RequestError> {
    if parts == [] then Ok([])
    else
      var p := parts[|parts| - 1];
      match PartsTexts(parts[..|parts| - 1])
      case Err(e) => Err(e)
      case Ok(before) =>
        if IsImage(p) then Err(ImageUnsupported)
        else if p.kind == "text" || p.kind == "" then Ok(before + [PartText(p)])
        else Err(UnsupportedType(p.kind))
  }

  /** The texts of user and assistant messages, one a block: parts of unknown type are refused, and
      there is always one text at least. */
  function ContentTexts(c: Content): Result<seq<string>, RequestError> {
    match c
    case Absent => Ok([""])
    case Text(s) => Ok([s])
    case Parts(parts) =>
      (match PartsTexts(parts)
       case Err(e) => Err(e)
       case Ok(texts) => Ok(if texts == [] then [""] else texts))
    case Invalid => Err(InvalidContent)
  }

  method ContentToText(c: Content) returns (r: Result<string, RequestError>)
    ensures r == ContentText(c)
  {
    if c.Absent? {
      return Ok("");
    }
    if c.Text? {
      return Ok(c.text);
    }
    if c.Invalid? {
      return Err(InvalidContent);
    }
    var b := "";
    for i := 0 to |c.parts|
      invariant PartsText(c.parts[..i]) == Ok(b)
    {
      var p := c.parts[i];
      assert c.parts[..i + 1][..i] == c.parts[..i];
      if p.kind == "image_url" || p.kind == "image" {
        ErrorStaysText(c.parts, i + 1);
        return Err(ImageUnsupported);
      }
      if p.kind == "text" || p.kind == "" {
        if p.text.Some? {
          b := b + p.text.value;
        } else {
          assert b + "" == b;
        }
      } else {
        assert b + "" == b;
      }
    }
    assert c.parts[..|c.parts|] == c.parts;
    return Ok(b);
  }

  lemma {:induction false} ErrorStaysText(parts: seq<ContentPart>, i: nat)
    requires i <= |parts| && PartsText(parts[..i]).Err?
    ensures PartsText(parts) == PartsText(parts[..i])
    decreases |parts|
  {
    if i < |parts| {
      var n := |parts| - 1;
      assert parts[..n][..i] == parts[..i];
      ErrorStaysText(parts[..n], i);
    } else {
      assert parts[..i] == parts;
    }
  }

  method ContentToTexts(c: Content) returns (r: Result<seq<string>, RequestError>)
    ensures r == ContentTexts(c)
  {
    if c.Absent? {
      return Ok([""]);
    }
    if c.Text? {
      return Ok([c.text]);
    }
    if c.Invalid? {
      return Err(InvalidContent);
    }
    var texts := [];
    for i := 0 to |c.parts|
      invariant PartsTexts(c.parts[..i]) == Ok(texts)
    {
      var p := c.parts[i];
      assert c.parts[..i + 1][..i] == c.parts[..i];
      if p.kind == "image_url" || p.kind == "image" {
        ErrorStaysTexts(c.parts, i + 1);
        return Err(ImageUnsupported);
      } else if p.kind == "text" || p.kind == "" {
        texts := texts + [if p.text.Some? then p.text.value else ""];
      } else {
        ErrorStaysTexts(c.parts, i + 1);
        return Err(UnsupportedType(p.kind));
      }
    }
    assert c.parts[..|c.parts|] == c.parts;
    if |texts| == 0 {
      texts := [""];
    }
    return Ok(texts);
  }

  lemma {:induction false} ErrorStaysTexts(parts: seq<ContentPart>, i: nat)
    requires i <= |parts| && PartsTexts(parts[..i]).Err?
    ensures PartsTexts(parts) == PartsTexts(parts[..i])
    decreases |parts|
  {
    if i < |parts| {
      var n := |parts| - 1;
      assert parts[..n][..i] == parts[..i];
      ErrorStaysTexts(parts[..n], i);
    } else {
      assert parts[..i] == parts;
    }
  }

  /** A part's own text: none of an image or of a part of unknown type, and none where it is missing. */
  predicate PartSays(p: ContentPart, text: string) {
    text == if p.kind in {"text", ""} && p.text.Some? then p.text.value else ""
  }

  /** The texts of content sent block by block: one, of plain text; one for each part, in order; and an
      empty one where there is none. */
  ghost predicate SaysTexts(c: Content, texts: seq<string>) {
    match c
    case Absent => texts == [""]
    case Text(s) => texts == [s]
    case Parts(parts) =>
      if parts == [] then texts == [""]
      else |texts| == |parts| && forall i | 0 <= i < |parts| :: PartSays(parts[i], texts[i])
    case Invalid => false
  }

  /** The text of content sent as one: the texts of its parts, in order. */
  ghost predicate SaysText(c: Content, text: string) {
    match c
    case Absent => text == ""
    case Text(s) => text == s
    case Parts(parts) =>
      exists texts: seq<string> ::
        |texts| == |parts| && text == Concat(texts) && forall i | 0 <= i < |parts| :: PartSays(parts[i], texts[i])
    case Invalid => false
  }

  /** Content that is taken block by block, and content that is taken as one text. */
  ghost predicate TakenAsTexts(c: Content) {
    match c
    case Parts(parts) => forall i | 0 <= i < |parts| :: parts[i].kind in {"text", ""}
    case _ => !c.Invalid?
  }

  ghost predicate TakenAsText(c: Content) {
    match c
    case Parts(parts) => forall i | 0 <= i < |parts| :: parts[i].kind !in {"image_url", "image"}
    case _ => !c.Invalid?
  }

  lemma {:induction false} PartsTextsSay(parts: seq<ContentPart>)
    ensures PartsTexts(parts).Ok? <==> forall i | 0 <= i < |parts| :: parts[i].kind in {"text", ""}
    ensures PartsTexts(parts).Ok? ==>
              var texts := PartsTexts(parts).value;
              |texts| == |parts| && forall i | 0 <= i < |parts| :: PartSays(parts[i], texts[i])
  {
    if parts != [] {
      var n := |parts| - 1;
      PartsTextsSay(parts[..n]);
      assert parts == parts[..n] + [parts[n]];
    }
  }

  lemma TextsSay(c: Content)
    ensures ContentTexts(c).Ok? <==> TakenAsTexts(c)
    ensures ContentTexts(c).Ok? ==> SaysTexts(c, ContentTexts(c).value)
  {
    if c.Parts? {
      PartsTextsSay(c.parts);
    }
  }

  lemma {:induction false} PartsTextSays(parts: seq<ContentPart>) returns (texts: seq<string>)
    ensures PartsText(parts).Ok? <==> forall i | 0 <= i < |parts| :: parts[i].kind !in {"image_url", "image"}
    ensures PartsText(parts).Ok? ==>
              && |texts| == |parts| && PartsText(parts).value == Concat(texts)
              && forall i | 0 <= i < |parts| :: PartSays(parts[i], texts[i])
  {
    texts := [];
    if parts != [] {
      var n := |parts| - 1;
      var before := PartsTextSays(parts[..n]);
      assert parts == parts[..n] + [parts[n]];
      texts := before + [PartText(parts[n])];
      assert texts[..|texts| - 1] == before;
    }
  }

  lemma TextSays(c: Content)
    ensures ContentText(c).Ok? <==> TakenAsText(c)
    ensures ContentText(c).Ok? ==> SaysText(c, ContentText(c).value)
  {
    if c.Parts? {
      var texts := PartsTextSays(c.parts);
    }
  }

  // ---------- layout ----------

  /** What one message contributes, in blocks of type B. */
  datatype Item<B> = System(text: string) | Turn(role: string, blocks: seq<B>) | ToolResult(block: B)

  datatype Laid<B> = Laid(role: string, content: seq<B>)

  /** How a translator reads one message, after the earlier ones. */
  type Reader<B> = (seq<Message>, Message) -> Result<Item<B>, RequestError>

  /** What all messages contribute, or the first message's error. */
  function ReadAll<B>(ms: seq<Message>, read: Reader<B>): Result<seq<Item<B>>, RequestError> {
    if ms == [] then Ok([])
    else
      var earlier := ms[..|ms| - 1];
      match ReadAll(earlier, read)
      case Err(e) => Err(e)
      case Ok(before) =>
        match read(earlier, ms[|ms| - 1])
        case Err(e) => Err(e)
        case Ok(x) => Ok(before + [x])
  }

  lemma {:induction false} ErrorStays<B>(ms: seq<Message>, i: nat, read: Reader<B>)
    requires i <= |ms| && ReadAll(ms[..i], read).Err?
    ensures ReadAll(ms, read) == ReadAll(ms[..i], read)
    decreases |ms|
  {
    if i < |ms| {
      var n := |ms| - 1;
      assert ms[..n][..i] == ms[..i];
      ErrorStays(ms[..n], i, read);
    } else {
      assert ms[..i] == ms;
    }
  }

  lemma ReadNext<B>(ms: seq<Message>, i: nat, read: Reader<B>)
    requires i < |ms| && ReadAll(ms[..i], read).Ok?
    ensures match read(ms[..i], ms[i])
            case Err(e) => ReadAll(ms, read) == Err(e)
            case Ok(x) => ReadAll(ms[..i + 1], read) == Ok(ReadAll(ms[..i], read).value + [x])
  {
    assert ms[..i + 1][..i] == ms[..i];
    if read(ms[..i], ms[i]).Err? {
      ErrorStays(ms, i + 1, read);
    }
  }

  lemma {:induction false} ReadAllIff<B>(ms: seq<Message>, read: Reader<B>)
    ensures ReadAll(ms, read).Ok? <==> forall i | 0 <= i < |ms| :: read(ms[..i], ms[i]).Ok?
  {
    if ms != [] {
      var earlier := ms[..|ms| - 1];
      ReadAllIff(earlier, read);
      assert forall i | 0 <= i < |earlier| :: earlier[..i] == ms[..i] && earlier[i] == ms[i];
    }
  }

  /** Each message contributes its own item. */
  lemma {:induction false} ReadIsEach<B>(ms: seq<Message>, read: Reader<B>)
    requires ReadAll(ms, read).Ok?
    ensures var items := ReadAll(ms, read).value;
            |items| == |ms| && forall i | 0 <= i < |ms| :: read(ms[..i], ms[i]) == Ok(items[i])
  {
    if ms != [] {
      var earlier := ms[..|ms| - 1];
      ReadIsEach(earlier, read);
      assert forall i | 0 <= i < |earlier| :: earlier[..i] == ms[..i];
    }
  }

  function NonSystem<B>(items: seq<Item<B>>): seq<Item<B>> {
    if items == [] then []
    else
      var last := items[|items| - 1];
      NonSystem(items[..|items| - 1]) + if last.System? then [] else [last]
  }

  function SystemParts<B>(items: seq<Item<B>>): seq<string> {
    if items == [] then []
    else
      var last := items[|items| - 1];
      SystemParts(items[..|items| - 1]) + if last.System? && last.text != "" then [last.text] else []
  }

  /** The length of the run of tool results that the items begin with. */
  function RunLength<B>(items: seq<Item<B>>): (k: nat)
    ensures k <= |items|
    ensures forall i | 0 <= i < k :: items[i].ToolResult?
    ensures k < |items| ==> !items[k].ToolResult?
  {
    if items != [] && items[0].ToolResult? then 1 + RunLength(items[1..]) else 0
  }

  function ResultBlocks<B>(items: seq<Item<B>>): seq<B>
    requires forall i | 0 <= i < |items| :: items[i].ToolResult?
  {
    seq(|items|, i requires 0 <= i < |items| => items[i].block)
  }

  /** The layout: each maximal run of tool results is one user message, each turn is one message. */
  function Layout<B>(items: seq<Item<B>>): seq<Laid<B>>
    requires forall i | 0 <= i < |items| :: !items[i].System?
    decreases |items|
  {
    if items == [] then []
    else
      var k := RunLength(items);
      if k > 0 then [Laid("user", ResultBlocks(items[..k]))] + Layout(items[k..])
      else [Laid(items[0].role, items[0].blocks)] + Layout(items[1..])
  }

  lemma {:induction false} NonSystemHasNone<B>(items: seq<Item<B>>)
    ensures forall i | 0 <= i < |NonSystem(items)| :: !NonSystem(items)[i].System?
    ensures forall x | x in NonSystem(items) :: x in items
  {
    if items != [] {
      NonSystemHasNone(items[..|items| - 1]);
    }
  }

  function BlocksOf<B>(x: Item<B>): seq<B> {
    match x
    case System(_) => []
    case Turn(_, blocks) => blocks
    case ToolResult(b) => [b]
  }

  function AllBlocks<B>(items: seq<Item<B>>): seq<B>
    decreases |items|
  {
    if items == [] then [] else BlocksOf(items[0]) + AllBlocks(items[1..])
  }

  function Flat<B>(laid: seq<Laid<B>>): seq<B>
    decreases |laid|
  {
    if laid == [] then [] else laid[0].content + Flat(laid[1..])
  }

  lemma {:induction false} RunBlocks<B>(items: seq<Item<B>>, k: nat)
    requires k <= |items| && forall i | 0 <= i < k :: items[i].ToolResult?
    ensures AllBlocks(items) == ResultBlocks(items[..k]) + AllBlocks(items[k..])
  {
    if k == 0 {
      assert items[0..] == items && ResultBlocks(items[..0]) == [];
    } else {
      RunBlocks(items[1..], k - 1);
      assert items[1..][..k - 1] == items[1..k] && items[1..][k - 1..] == items[k..];
      assert ResultBlocks(items[..k]) == [items[0].block] + ResultBlocks(items[1..k]);
    }
  }

  /** The layout loses no block and keeps their order. */
  lemma {:induction false} LayoutKeepsBlocks<B>(items: seq<Item<B>>)
    requires forall i | 0 <= i < |items| :: !items[i].System?
    ensures Flat(Layout(items)) == AllBlocks(items)
    decreases |items|
  {
    if items != [] {
      var k := RunLength(items);
      if k > 0 {
        LayoutKeepsBlocks(items[k..]);
        RunBlocks(items, k);
        LaidFirst(Laid("user", ResultBlocks(items[..k])), Layout(items[k..]));
      } else {
        LayoutKeepsBlocks(items[1..]);
        LaidFirst(Laid(items[0].role, items[0].blocks), Layout(items[1..]));
      }
    }
  }

  lemma LaidFirst<B>(m: Laid<B>, rest: seq<Laid<B>>)
    ensures Flat([m] + rest) == m.content + Flat(rest)
  {
    assert ([m] + rest)[1..] == rest;
  }

  /** A message made of a run: its blocks are the results, all and only, of consecutive items. */
  ghost predicate IsBatch<B(!new)>(m: Laid<B>, isResult: B -> bool) {
    m.role == "user" && m.content != [] && forall b | b in m.content :: isResult(b)
  }

  ghost predicate IsTurn<B(!new)>(m: Laid<B>, isResult: B -> bool) {
    m.content != [] && forall b | b in m.content :: !isResult(b)
  }

  /** Whether the items say of themselves truly which blocks are tool results. */
  ghost predicate WellMarked<B(!new)>(items: seq<Item<B>>, isResult: B -> bool) {
    forall x | x in items ::
      match x
      case System(_) => true
      case Turn(_, blocks) => blocks != [] && forall b | b in blocks :: !isResult(b)
      case ToolResult(b) => isResult(b)
  }

  /** No message is empty; each is a batch of results or a turn without any; and batches are maximal:
      no two of them are adjacent. */
  lemma {:induction false} LayoutShape<B(!new)>(items: seq<Item<B>>, isResult: B -> bool)
    requires (forall i | 0 <= i < |items| :: !items[i].System?) && WellMarked(items, isResult)
    ensures var laid := Layout(items);
            && (forall i | 0 <= i < |laid| :: IsBatch(laid[i], isResult) || IsTurn(laid[i], isResult))
            && (forall i | 0 <= i < |laid| - 1 :: !(IsBatch(laid[i], isResult) && IsBatch(laid[i + 1], isResult)))
            && (items != [] && !items[0].ToolResult? ==> |laid| >= 1 && IsTurn(laid[0], isResult))
            && (items != [] ==> laid != [])
    decreases |items|
  {
    if items != [] {
      var k := RunLength(items);
      var rest := if k > 0 then items[k..] else items[1..];
      var m := if k > 0 then Laid("user", ResultBlocks(items[..k])) else Laid(items[0].role, items[0].blocks);
      assert forall x | x in rest :: x in items;
      LayoutShape(rest, isResult);
      var laid := Layout(items);
      assert laid == [m] + Layout(rest);
      if k > 0 {
        forall b | b in m.content
          ensures isResult(b)
        {
          var i :| 0 <= i < k && items[i].block == b;
          assert items[i] in items;
        }
        assert m.content[0] == items[0].block;
      } else {
        assert items[0] in items;
        assert items[0].blocks[0] in items[0].blocks;
      }
      forall i | 0 <= i < |laid| - 1
        ensures !(IsBatch(laid[i], isResult) && IsBatch(laid[i + 1], isResult))
      {
        assert laid[i + 1] == Layout(rest)[i];
        if i > 0 {
          assert laid[i] == Layout(rest)[i - 1];
        } else if k > 0 {
          TurnIsNoBatch(laid[1], isResult);
        } else {
          TurnIsNoBatch(m, isResult);
        }
      }
    }
  }

  lemma TurnIsNoBatch<B(!new)>(m: Laid<B>, isResult: B -> bool)
    requires IsTurn(m, isResult)
    ensures !IsBatch(m, isResult)
  {
    assert m.content[0] in m.content;
  }

  /** The messages that are no batch of results. */
  ghost function Unbatched<B(!new)>(laid: seq<Laid<B>>, isResult: B -> bool): seq<Laid<B>>
    decreases |laid|
  {
    if laid == [] then []
    else (if IsBatch(laid[0], isResult) then [] else [laid[0]]) + Unbatched(laid[1..], isResult)
  }

  /** The turns of the items, each as one message under its own role. */
  function TurnsOf<B>(items: seq<Item<B>>): seq<Laid<B>>
    decreases |items|
  {
    if items == [] then []
    else (if items[0].Turn? then [Laid(items[0].role, items[0].blocks)] else []) + TurnsOf(items[1..])
  }

  /** Each turn is one message under its own role, and the other messages are the batches: none is
      split, merged or given to another role. */
  lemma {:induction false} LayoutKeepsTurns<B(!new)>(items: seq<Item<B>>, isResult: B -> bool)
    requires (forall i | 0 <= i < |items| :: !items[i].System?) && WellMarked(items, isResult)
    ensures Unbatched(Layout(items), isResult) == TurnsOf(items)
    decreases |items|
  {
    if items != [] {
      var k := RunLength(items);
      var rest := if k > 0 then items[k..] else items[1..];
      assert forall x | x in rest :: x in items;
      LayoutKeepsTurns(rest, isResult);
      var m := if k > 0 then Laid("user", ResultBlocks(items[..k])) else Laid(items[0].role, items[0].blocks);
      UnbatchedFirst(m, Layout(rest), isResult);
      if k > 0 {
        RunHasNoTurn(items, k);
        RunIsBatch(items, k, isResult);
      } else {
        assert items[0] in items;
        TurnIsNoBatch(m, isResult);
      }
    }
  }

  lemma UnbatchedFirst<B(!new)>(m: Laid<B>, rest: seq<Laid<B>>, isResult: B -> bool)
    ensures Unbatched([m] + rest, isResult)
            == if IsBatch(m, isResult) then Unbatched(rest, isResult) else [m] + Unbatched(rest, isResult)
  {
    assert ([m] + rest)[1..] == rest;
  }

  lemma RunIsBatch<B(!new)>(items: seq<Item<B>>, k: nat, isResult: B -> bool)
    requires 0 < k <= |items| && (forall i | 0 <= i < k :: items[i].ToolResult?) && WellMarked(items, isResult)
    ensures IsBatch(Laid("user", ResultBlocks(items[..k])), isResult)
  {
    var blocks := ResultBlocks(items[..k]);
    forall b | b in blocks
      ensures isResult(b)
    {
      var i :| 0 <= i < k && items[i].block == b;
      assert items[i] in items;
    }
    assert |blocks| == k;
  }

  lemma {:induction false} RunHasNoTurn<B>(items: seq<Item<B>>, k: nat)
    requires k <= |items| && forall i | 0 <= i < k :: items[i].ToolResult?
    ensures TurnsOf(items) == TurnsOf(items[k..])
  {
    if k > 0 {
      RunHasNoTurn(items[1..], k - 1);
      assert items[1..][k - 1..] == items[k..];
    } else {
      assert items[0..] == items;
    }
  }

  lemma {:induction false} BlockIsKept<B>(items: seq<Item<B>>, x: Item<B>)
    requires x in items && x.ToolResult?
    ensures x.block in AllBlocks(items)
    decreases |items|
  {
    assert items == [items[0]] + items[1..];
    if x != items[0] {
      BlockIsKept(items[1..], x);
    }
  }

  /** Only a conversation of system messages is laid out as nothing. */
  lemma LaidUnlessEmpty<B(!new)>(items: seq<Item<B>>, isResult: B -> bool)
    requires WellMarked(items, isResult)
    ensures RequestOf(items).Ok? <==> exists i | 0 <= i < |items| :: !items[i].System?
  {
    NonSystemHasNone(items);
    LayoutShape(NonSystem(items), isResult);
    if i :| 0 <= i < |items| && !items[i].System? {
      NonSystemHas(items, items[i]);
    }
    if NonSystem(items) != [] {
      assert NonSystem(items)[0] in items;
    }
  }

  /** A turn among the items is a message of its own among those laid out. */
  lemma TurnIsLaid<B(!new)>(items: seq<Item<B>>, x: Item<B>, isResult: B -> bool)
    requires WellMarked(items, isResult) && x in items && x.Turn?
    requires forall i | 0 <= i < |NonSystem(items)| :: !NonSystem(items)[i].System?
    ensures Laid(x.role, x.blocks) in Layout(NonSystem(items))
  {
    NonSystemHas(items, x);
    NonSystemHasNone(items);
    LayoutKeepsTurns(NonSystem(items), isResult);
    TurnsHave(NonSystem(items), x);
    UnbatchedWithin(Layout(NonSystem(items)), isResult);
  }

  lemma {:induction false} NonSystemHas<B>(items: seq<Item<B>>, x: Item<B>)
    requires x in items && !x.System?
    ensures x in NonSystem(items)
  {
    var n := |items| - 1;
    assert items == items[..n] + [items[n]];
    if x != items[n] {
      NonSystemHas(items[..n], x);
    }
  }

  lemma {:induction false} TurnsHave<B>(items: seq<Item<B>>, x: Item<B>)
    requires x in items && x.Turn?
    ensures Laid(x.role, x.blocks) in TurnsOf(items)
    decreases |items|
  {
    assert items == [items[0]] + items[1..];
    if x != items[0] {
      TurnsHave(items[1..], x);
    }
  }

  lemma {:induction false} UnbatchedWithin<B(!new)>(laid: seq<Laid<B>>, isResult: B -> bool)
    ensures forall m | m in Unbatched(laid, isResult) :: m in laid
  {
    if laid != [] {
      UnbatchedWithin(laid[1..], isResult);
    }
  }

  // ---------- what the translators' loops do ----------

  /** The pending results, as the items they came from. */
  function Waiting<B>(pending: seq<B>): seq<Item<B>> {
    seq(|pending|, i requires 0 <= i < |pending| => ToolResult(pending[i]))
  }

  function Flushed<B>(pending: seq<B>): seq<Laid<B>> {
    if pending == [] then [] else [Laid("user", pending)]
  }

  lemma {:induction false} RunLengthOf<B>(pending: seq<B>, rest: seq<Item<B>>)
    requires rest != [] ==> !rest[0].ToolResult?
    ensures RunLength(Waiting(pending) + rest) == |pending|
  {
    var items := Waiting(pending) + rest;
    if pending != [] {
      RunLengthOf(pending[1..], rest);
      assert items[1..] == Waiting(pending[1..]) + rest;
    } else {
      assert items == rest;
    }
  }

  /** A turn flushes the pending results before it. */
  lemma LayoutFlushes<B>(pending: seq<B>, rest: seq<Item<B>>)
    requires forall i | 0 <= i < |rest| :: !rest[i].System?
    requires rest != [] ==> !rest[0].ToolResult?
    ensures Layout(Waiting(pending) + rest) == Flushed(pending) + Layout(rest)
  {
    var items, k := Waiting(pending) + rest, |pending|;
    RunLengthOf(pending, rest);
    if k == 0 {
      assert items == rest;
    } else {
      assert items[..k] == Waiting(pending) && items[k..] == rest;
      assert ResultBlocks(Waiting(pending)) == pending;
    }
  }

  ghost predicate Closed<B>(items: seq<Item<B>>) {
    items == [] || !items[|items| - 1].ToolResult?
  }

  lemma {:induction false} RunWithin<B>(a: seq<Item<B>>, b: seq<Item<B>>)
    requires a != [] && Closed(a)
    ensures RunLength(a + b) == RunLength(a) < |a|
  {
    assert (a + b)[0] == a[0];
    if a[0].ToolResult? {
      assert (a + b)[1..] == a[1..] + b;
      RunWithin(a[1..], b);
    }
  }

  /** How many items the first message takes, and that message. */
  function FirstTakes<B>(items: seq<Item<B>>): (n: nat)
    requires items != []
    ensures 1 <= n <= |items|
  {
    if RunLength(items) > 0 then RunLength(items) else 1
  }

  function FirstLaid<B>(items: seq<Item<B>>): Laid<B>
    requires items != [] && !items[0].System?
  {
    if RunLength(items) > 0 then Laid("user", ResultBlocks(items[..RunLength(items)]))
    else Laid(items[0].role, items[0].blocks)
  }

  lemma FirstSame<B>(a: seq<Item<B>>, b: seq<Item<B>>)
    requires a != [] && Closed(a) && !a[0].System?
    ensures var n := FirstTakes(a);
            && n == FirstTakes(a + b) && FirstLaid(a) == FirstLaid(a + b)
            && (a + b)[n..] == a[n..] + b && Closed(a[n..])
  {
    RunWithin(a, b);
    assert (a + b)[0] == a[0];
    assert (a + b)[..RunLength(a)] == a[..RunLength(a)];
  }

  /** Past the end of a turn the layout starts afresh. */
  lemma {:induction false} LayoutSplit<B>(a: seq<Item<B>>, b: seq<Item<B>>)
    requires Closed(a)
    requires (forall i | 0 <= i < |a| :: !a[i].System?) && (forall i | 0 <= i < |b| :: !b[i].System?)
    ensures Layout(a + b) == Layout(a) + Layout(b)
    decreases |a|
  {
    if a == [] {
      assert a + b == b;
    } else {
      var n, m := FirstTakes(a), FirstLaid(a);
      FirstSame(a, b);
      LayoutSplit(a[n..], b);
      assert Layout(a) == [m] + Layout(a[n..]);
      assert Layout(a + b) == [m] + Layout(a[n..] + b);
      ConcatAssoc([m], Layout(a[n..]), Layout(b));
    }
  }

  /** The translators' loop so far: the messages lay out the items up to the last turn, the pending
      results are those since. */
  ghost predicate LaidOut<B>(items: seq<Item<B>>, head: seq<Item<B>>, messages: seq<Laid<B>>, pending: seq<B>) {
    && NonSystem(items) == head + Waiting(pending)
    && Closed(head) && (forall i | 0 <= i < |head| :: !head[i].System?)
    && messages == Layout(head)
  }

  lemma FlushLays<B>(items: seq<Item<B>>, head: seq<Item<B>>, messages: seq<Laid<B>>, pending: seq<B>)
    requires LaidOut(items, head, messages, pending)
    ensures forall i | 0 <= i < |NonSystem(items)| :: !NonSystem(items)[i].System?
    ensures Layout(NonSystem(items)) == messages + Flushed(pending)
  {
    LayoutSplit(head, Waiting(pending));
    LayoutFlushes(pending, []);
    assert Waiting(pending) + [] == Waiting(pending);
    assert Flushed(pending) + [] == Flushed(pending);
  }

  lemma TurnLays<B>(items: seq<Item<B>>, head: seq<Item<B>>, messages: seq<Laid<B>>, pending: seq<B>, role: string,
                    blocks: seq<B>)
    requires LaidOut(items, head, messages, pending)
    ensures LaidOut(items + [Turn(role, blocks)], head + Waiting(pending) + [Turn(role, blocks)],
                    messages + Flushed(pending) + [Laid(role, blocks)], [])
  {
    var turn := Turn(role, blocks);
    assert (items + [turn])[..|items|] == items;
    LayoutFlushes(pending, [turn]);
    LayoutSplit(head, Waiting(pending) + [turn]);
    assert head + Waiting(pending) + [turn] == head + (Waiting(pending) + [turn]);
    assert Layout([turn]) == [Laid(role, blocks)] by {
      var none: seq<Item<B>> := [];
      assert [turn][1..] == none;
    }
    assert messages + Flushed(pending) + [Laid(role, blocks)] == messages + (Flushed(pending) + [Laid(role, blocks)]);
    assert NonSystem(items + [turn]) == head + Waiting(pending) + [turn] + Waiting<B>([]);
  }

  lemma ResultLays<B>(items: seq<Item<B>>, head: seq<Item<B>>, messages: seq<Laid<B>>, pending: seq<B>, b: B)
    requires LaidOut(items, head, messages, pending)
    ensures LaidOut(items + [ToolResult(b)], head, messages, pending + [b])
  {
    assert (items + [ToolResult(b)])[..|items|] == items;
    assert Waiting(pending + [b]) == Waiting(pending) + [ToolResult(b)];
  }

  lemma SystemLays<B>(items: seq<Item<B>>, head: seq<Item<B>>, messages: seq<Laid<B>>, pending: seq<B>, text: string)
    requires LaidOut(items, head, messages, pending)
    ensures LaidOut(items + [System(text)], head, messages, pending)
    ensures SystemParts(items + [System(text)]) == SystemParts(items) + if text != "" then [text] else []
  {
    assert (items + [System(text)])[..|items|] == items;
  }

  lemma OtherParts<B>(items: seq<Item<B>>, x: Item<B>)
    requires !x.System?
    ensures SystemParts(items + [x]) == SystemParts(items)
  {
    assert (items + [x])[..|items|] == items;
  }

  datatype LaidRequest<B> = LaidRequest(system: string, messages: seq<Laid<B>>)

  /** The request that items make; without any message it is refused. */
  function RequestOf<B>(items: seq<Item<B>>): Result<LaidRequest<B>, RequestError> {
    NonSystemHasNone(items);
    if Layout(NonSystem(items)) == [] then Err(NoMessages)
    else Ok(LaidRequest(Join(SystemParts(items), "\n\n"), Layout(NonSystem(items))))
  }

  /** The variables of a translator's message loop, with the items it has taken in. */
  class Draft<B> {
    var systemParts: seq<string>
    var messages: seq<Laid<B>>
    var pending: seq<B>
    ghost var items: seq<Item<B>>
    ghost var head: seq<Item<B>>

    ghost predicate Valid()
      reads this
    {
      LaidOut(items, head, messages, pending) && systemParts == SystemParts(items)
    }

    constructor ()
      ensures Valid() && items == []
    {
      systemParts, messages, pending, items, head := [], [], [], [], [];
    }

    method AddSystem(text: string)
      requires Valid()
      modifies this
      ensures Valid() && items == old(items) + [System(text)]
    {
      SystemLays(items, head, messages, pending, text);
      items := items + [System(text)];
      if text != "" {
        systemParts := systemParts + [text];
      }
    }

    method FlushToolResults()
      modifies this
      ensures messages == old(messages) + Flushed(old(pending)) && pending == []
      ensures systemParts == old(systemParts) && items == old(items) && head == old(head)
    {
      if |pending| == 0 {
        return;
      }
      messages := messages + [Laid("user", pending)];
      pending := [];
    }

    method AddTurn(role: string, blocks: seq<B>)
      requires Valid()
      modifies this
      ensures Valid() && items == old(items) + [Turn(role, blocks)]
    {
      TurnLays(items, head, messages, pending, role, blocks);
      OtherParts(items, Turn(role, blocks));
      items, head := items + [Turn(role, blocks)], head + Waiting(pending) + [Turn(role, blocks)];
      FlushToolResults();
      messages := messages + [Laid(role, blocks)];
    }

    method AddResult(b: B)
      requires Valid()
      modifies this
      ensures Valid() && items == old(items) + [ToolResult(b)]
    {
      ResultLays(items, head, messages, pending, b);
      OtherParts(items, ToolResult(b));
      items := items + [ToolResult(b)];
      pending := pending + [b];
    }

    method Finish() returns (r: Result<LaidRequest<B>, RequestError>)
      requires Valid()
      modifies this
      ensures r == RequestOf(old(items))
    {
      FlushLays(items, head, messages, pending);
      FlushToolResults();
      if |messages| == 0 {
        return Err(NoMessages);
      }
      return Ok(LaidRequest(Join(systemParts, "\n\n"), messages));
    }
  }
}
