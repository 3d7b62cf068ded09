/** One upstream call: its classification, its record in the request's outcome, and what the client
    is sent (internal/proxy/proxy.go, internal/proxy/outcome.go). */
module Proxy {
  import opened Prelude
  import opened KeyPool
  import opened Store
  import opened World
  import opened Routing
  import opened UsageTap

  // ---------- classification ----------

  datatype FailClass = NoFail | Down | Rate | ModelMissing | Auth | Client

  predicate ShouldFailover(c: FailClass) { c != NoFail && c != Client }

  predicate ShouldCooldown(c: FailClass) { c == Rate || c == Down }

  predicate ShouldSoftStale(c: FailClass) { c == ModelMissing }

  function ClassName(c: FailClass): string {
    match c
    case Down => "down"
    case Rate => "rate_limited"
    case ModelMissing => "model_missing"
    case Auth => "auth"
    case Client => "client"
    case NoFail => ""
  }

  /** `body` is the JSON to answer with; `wrote` says the response already reached the client. */
  datatype ForwardResult = ForwardResult(status: int, body: string, err: Option<string>, wrote: bool)

  function ClassifyUpstream(status: int): FailClass {
    if status == 429 then Rate
    else if status >= 500 then Down
    else if status == 404 then ModelMissing
    else if status == 401 || status == 403 then Auth
    else if status == 400 || status == 422 then Client
    else NoFail
  }

  function ClassifyResult(r: ForwardResult): FailClass {
    if r.err.Some? then Down else ClassifyUpstream(r.status)
  }

  function ResultStatus(r: ForwardResult): int {
    if r.err.Some? && r.wrote then (if r.status >= 400 then r.status else 502)
    else if r.status != 0 then r.status
    else if r.err.Some? then 502
    else 0
  }

  // ---------- request bodies ----------

  datatype Json = Str(s: string) | Flag(b: bool) | Obj(fields: map<string, Json>) | Other(text: string)

  datatype Body = Malformed(text: string) | Object(fields: map<string, Json>)

  function RewriteModel(b: Body, modelName: string): Result<Body, string> {
    match b
    case Malformed(_) => Err("unmarshal body")
    case Object(fields) => Ok(Object(fields["model" := Str(modelName)]))
  }

  function EnsureStreamIncludeUsage(b: Body): Body {
    match b
    case Malformed(_) => b
    case Object(fields) =>
      var existing := if "stream_options" in fields && fields["stream_options"].Obj?
                      then fields["stream_options"].fields else map[];
      Object(fields["stream_options" := Obj(existing["include_usage" := Flag(true)])])
  }

  function Prepared(mode: Mode, b: Body, modelName: string, protocol: Protocol): Result<Body, string> {
    match RewriteModel(b, modelName)
    case Err(e) => Err(e)
    case Ok(r) => Ok(if mode == Chat(true) && protocol.OpenAI? then EnsureStreamIncludeUsage(r) else r)
  }

  /** The two bodies agree on every field but the model and the stream options. */
  ghost predicate SameRequest(a: Body, b: Body) {
    && a.Object? && b.Object?
    && forall f | f != "model" && f != "stream_options" ::
         && (f in a.fields <==> f in b.fields)
         && (f in a.fields ==> a.fields[f] == b.fields[f])
  }

  // ---------- the upstream's part ----------

  datatype Mode = Chat(stream: bool) | Embeddings

  datatype Config = Config(mode: Mode, cooldown: int, hasCache: bool, usageOf: UsageOf)

  /** A translated stream: the writes the client's connection took, the one on which it failed, if it
      did, with how much of that it took, and the error that otherwise cut the stream, if any. */
  datatype StreamEnd = StreamEnd(pieces: seq<string>, lost: Option<LostWrite>, err: Option<string>)

  datatype LostWrite = LostWrite(bytes: string, room: nat)

  function Taken(l: LostWrite): (n: nat)
    ensures n <= |l.bytes|
  {
    if l.room <= |l.bytes| then l.room else |l.bytes|
  }

  /** What reaches the client, and what the tap sees. */
  function Arrived(s: StreamEnd): seq<string> {
    s.pieces + if s.lost.Some? then [s.lost.value.bytes[..Taken(s.lost.value)]] else []
  }

  function Tapped(s: StreamEnd): seq<string> {
    s.pieces + if s.lost.Some? then [s.lost.value.bytes] else []
  }

  /** The error a stream ends in: a failed write ends it at once. */
  function CutBy(s: StreamEnd): Option<string> {
    if s.lost.Some? then Some("write") else s.err
  }

  datatype BodyEnd = Unreadable(message: string) | Unconvertible(message: string) | Converted(body: string)

  /** How one call may go. `text` is the error JSON made of a non-200 body, or, for embeddings, the
      body itself. Embedding bodies are not translated, so there `Untranslatable` counts as a request
      that cannot be built. */
  datatype Reply =
    | Untranslatable(message: string)
    | Unbuildable(message: string)
    | Unreachable(message: string, canceled: bool)
    | Answered(status: int, text: string, stream: StreamEnd, body: BodyEnd)

  /** One round of the retry loop, as the surroundings play it: what others do between its reads,
      how the upstream answers, what others do until the answer's head is there and until the call
      returns. */
  datatype Turn = Turn(gaps: Gaps, beforeReply: seq<EnvStep>, reply: Reply, afterReply: seq<EnvStep>)

  predicate SupportsEmbeddings(p: Protocol) { p.OpenAI? }

  function ChatResult(stream: bool, reply: Reply): ForwardResult {
    match reply
    case Untranslatable(m) => ForwardResult(400, m, None, false)
    case Unbuildable(m) => ForwardResult(0, "", Some(m), false)
    case Unreachable(m, canceled) =>
      if canceled then ForwardResult(504, "", Some("upstream timeout"), false)
      else ForwardResult(0, "", Some(m), false)
    case Answered(status, text, s, b) =>
      if status != 200 then ForwardResult(status, text, None, false)
      else if stream then
        if CutBy(s).Some? then ForwardResult(502, "", CutBy(s), true) else ForwardResult(200, "", None, true)
      else
        match b
        case Unreadable(m) => ForwardResult(200, "", Some(m), false)
        case Unconvertible(m) => ForwardResult(0, "", Some(m), false)
        case Converted(text') => ForwardResult(200, text', None, false)
  }

  function EmbeddingsResult(reply: Reply): ForwardResult {
    match reply
    case Untranslatable(m) => ForwardResult(0, "", Some(m), false)
    case Unbuildable(m) => ForwardResult(0, "", Some(m), false)
    case Unreachable(m, canceled) =>
      if canceled then ForwardResult(504, "", Some("upstream timeout"), false)
      else ForwardResult(0, "", Some(m), false)
    case Answered(status, text, _, b) =>
      if b.Unreadable? then ForwardResult(status, "", Some(b.message), false)
      else ForwardResult(status, text, None, false)
  }

  /** An unregistered protocol fails the call before any request is made. */
  predicate Refused(mode: Mode, provider: Provider) {
    mode.Chat? && provider.protocol.Unregistered?
  }

  predicate Streams(mode: Mode, provider: Provider, reply: Reply) {
    mode == Chat(true) && !Refused(mode, provider) && reply.Answered? && reply.status == 200
  }

  function CallResult(mode: Mode, provider: Provider, reply: Reply): ForwardResult {
    if Refused(mode, provider) then ForwardResult(400, "", Some("unsupported protocol"), false)
    else if mode.Chat? then ChatResult(mode.stream, reply)
    else EmbeddingsResult(reply)
  }

  function AsData(pieces: seq<string>): seq<Sent> {
    seq(|pieces|, i requires 0 <= i < |pieces| => Data(pieces[i]))
  }

  lemma AsDataSnoc(pieces: seq<string>, p: string)
    ensures AsData(pieces + [p]) == AsData(pieces) + [Data(p)]
  {
  }

  datatype CallEnd = CallEnd(world: WorldView, result: ForwardResult, sent: seq<Sent>, usage: Usage)

  /** Whether the call cools the key it used. */
  predicate Cools(mode: Mode, provider: Provider, reply: Reply) {
    !Refused(mode, provider) && reply.Answered? && ShouldCooldown(ClassifyUpstream(reply.status))
  }

  function AtReply(cfg: Config, w: WorldView, turn: Turn): WorldView {
    EnvAll(w, cfg.cooldown, turn.beforeReply)
  }

  function Call(cfg: Config, w: WorldView, provider: Provider, key: Key, turn: Turn): CallEnd {
    var w1 := AtReply(cfg, w, turn);
    var w2 := if Cools(cfg.mode, provider, turn.reply)
              then w1.(pool := Cooled(w1.pool, provider.id, key.id, w1.now + cfg.cooldown)) else w1;
    var streams := Streams(cfg.mode, provider, turn.reply);
    CallEnd(
      EnvAll(w2, cfg.cooldown, turn.afterReply),
      CallResult(cfg.mode, provider, turn.reply),
      if streams then [Head(200)] + AsData(Arrived(turn.reply.stream)) else [],
      if streams then FeedAll(FRESH, Tapped(turn.reply.stream), cfg.usageOf).usage else Usage(0, 0))
  }

  /** What the status of an answer that reached nobody yet decides: 429 and 5xx rest the key, 404 makes
      the pair stale, and these, 401 and 403 are worth another target; other answers are final. An
      answer of 200 whose body fails is retried as well. */
  lemma StatusesDecide(mode: Mode, provider: Provider, reply: Reply)
    requires reply.Answered? && !Refused(mode, provider) && !Streams(mode, provider, reply)
    ensures var s := reply.status;
            var c := ClassifyResult(CallResult(mode, provider, reply));
            var failed := CallResult(mode, provider, reply).err.Some?;
            && (Cools(mode, provider, reply) <==> s == 429 || s >= 500)
            && (ShouldSoftStale(c) <==> s == 404 && !failed)
            && (ShouldFailover(c) <==> failed || s in {401, 403, 404, 429} || s >= 500)
            && (failed <==> if mode.Chat? then s == 200 && !reply.body.Converted? else reply.body.Unreadable?)
            && (!failed && s < 500 && s !in {401, 403, 404, 429} ==> CallResult(mode, provider, reply).status == s)
  {
  }

  /** What is sent for a result that has not reached the client yet. */
  function Deliver(mode: Mode, r: ForwardResult): seq<Sent> {
    if mode.Embeddings? && r.err.Some? then [Head(502), ErrorBody("upstream_error", r.err.value)]
    else [Head(r.status), Data(r.body)]
  }

  // ---------- the record ----------

  datatype Attempt = Attempt(providerSlug: string, modelName: string, keyID: string, status: int, failClass: string)

  datatype OutcomeView = OutcomeView(
    providerSlug: string, modelName: string, aliasName: string, status: int, attempts: seq<Attempt>,
    tokens: Usage, errorClass: string, stream: bool)

  function Appended(o: OutcomeView, slug: string, model: string, keyID: string, r: ForwardResult,
                    usageOf: UsageOf): OutcomeView {
    var c := ClassName(ClassifyResult(r));
    o.(attempts := o.attempts + [Attempt(slug, model, keyID, ResultStatus(r), c)],
       status := ResultStatus(r),
       errorClass := c,
       providerSlug := slug,
       modelName := model,
       tokens := if r.status == 200 && r.err.None? && r.body != "" then
                   match usageOf(r.body)
                   case Some(u) => u
                   case None => Usage(0, 0)
                 else o.tokens)
  }

  function Finalized(o: OutcomeView, r: ForwardResult): OutcomeView {
    if r.err.None? then o
    else
      var n := |o.attempts|;
      var o' := o.(status := ResultStatus(r), errorClass := if o.errorClass == "" then "down" else o.errorClass);
      if n == 0 then o'
      else
        var a := o.attempts[n - 1];
        var class_ := if a.failClass == "" then "down" else a.failClass;
        o'.(attempts := o.attempts[n - 1 := a.(status := ResultStatus(r), failClass := class_)])
  }

  /** The record after one call, with the tokens the tap saw when streaming. */
  function Logged(cfg: Config, o: OutcomeView, slug: string, model: string, key: Key, call: CallEnd): OutcomeView {
    var o' := Appended(o, slug, model, key.id, call.result, cfg.usageOf);
    if cfg.mode == Chat(true) then o'.(tokens := call.usage) else o'
  }

  class Outcome {
    var providerSlug: string
    var modelName: string
    var aliasName: string
    var status: int
    var attempts: seq<Attempt>
    var tokens: Usage
    var errorClass: string
    var isStream: bool

    ghost function View(): OutcomeView
      reads this
    {
      OutcomeView(providerSlug, modelName, aliasName, status, attempts, tokens, errorClass, isStream)
    }

    constructor (stream: bool)
      ensures View() == OutcomeView("", "", "", 0, [], Usage(0, 0), "", stream)
    {
      providerSlug, modelName, aliasName, status, attempts := "", "", "", 0, [];
      tokens, errorClass, isStream := Usage(0, 0), "", stream;
    }

    method AppendAttempt(slug: string, model: string, keyID: string, r: ForwardResult, usageOf: UsageOf)
      modifies this
      ensures View() == Appended(old(View()), slug, model, keyID, r, usageOf)
    {
      var st := ResultStatus(r);
      var fc := ClassifyResult(r);
      if r.err.Some? && r.wrote && fc == NoFail {
        fc := Down;
      }
      attempts := attempts + [Attempt(slug, model, keyID, st, ClassName(fc))];
      status := st;
      if fc != NoFail {
        errorClass := ClassName(fc);
      } else {
        errorClass := "";
      }
      providerSlug, modelName := slug, model;
      if r.status == 200 && r.err.None? && |r.body| > 0 {
        var u := usageOf(r.body);
        tokens := if u.Some? then u.value else Usage(0, 0);
      }
    }

    method FinalizeStream(r: ForwardResult)
      modifies this
      ensures View() == Finalized(old(View()), r)
    {
      if r.err.None? {
        return;
      }
      var st := ResultStatus(r);
      status := st;
      if errorClass == "" {
        errorClass := "down";
      }
      var n := |attempts|;
      if n > 0 {
        var a := attempts[n - 1].(status := st);
        if a.failClass == "" {
          a := a.(failClass := "down");
        }
        attempts := attempts[n - 1 := a];
      }
    }
  }
}
