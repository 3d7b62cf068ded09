/** A whole proxied request: the first attempt and the retries over an alias's targets
    (internal/proxy/proxy.go:66-350, internal/proxy/embeddings.go). */
module Failover {
  import opened Prelude
  import opened KeyPool
  import opened Store
  import opened World
  import opened Routing
  import opened UsageTap
  import opened Proxy
  import Discovery

  /** What the run did with a target, in the world it found at that moment: passed it over, for
      want of a usable key or of embeddings, or called it with a key. */
  datatype Try =
    | Skipped(target: AliasTarget, provider: Provider, world: WorldView)
    | Called(target: AliasTarget, provider: Provider, world: WorldView, key: Key, body: Body, turn: Turn, call: CallEnd)

  datatype Ending = Streamed | Answer | Exhausted(survey: Survey) | Rejected

  datatype RunEnd = RunEnd(
    world: WorldView, out: OutcomeView, sent: seq<Sent>, tries: seq<Try>, tried: set<string>, ending: Ending)

  function After(first: seq<Try>, r: RunEnd): RunEnd {
    r.(tries := first + r.tries)
  }

  lemma AfterTwice(a: seq<Try>, b: seq<Try>, r: RunEnd)
    ensures After(a, After(b, r)) == After(a + b, r)
  {
    assert a + (b + r.tries) == (a + b) + r.tries;
  }

  function TargetKeys(targets: seq<AliasTarget>): set<string> {
    set t | t in targets :: TargetKey(t)
  }

  /** How one round of the loop begins. */
  datatype Move =
    | Stop(survey: Survey, world: WorldView)
    | Pass(target: AliasTarget, provider: Provider, world: WorldView)
    | Go(target: AliasTarget, provider: Provider, world: WorldView, key: Key, prepared: Body)

  function NextMove(cfg: Config, w: WorldView, alias: Alias, body: Body, tried: set<string>, g: Gaps): Move {
    var s := SurveyOf(w, cfg.cooldown, alias.id, g);
    var w1 := AtProviders(w, cfg.cooldown, g);
    match FirstUntried(s, alias.targets, tried)
    case None => Stop(s, w1)
    case Some(t) =>
      FirstUntriedIsFirst(s, alias.targets, tried);
      var provider := s.providers.value[t.providerID];
      if cfg.mode.Embeddings? && !SupportsEmbeddings(provider.protocol) then Pass(t, provider, w1)
      else
        var w2 := EnvAll(w1, cfg.cooldown, g.beforeKey);
        var usable := Usable(w2.pool, t.providerID, w2.now);
        var prepared := Prepared(cfg.mode, body, t.modelName, provider.protocol);
        if usable.None? || prepared.Err? then Pass(t, provider, w2)
        else Go(t, provider, w2, usable.value, prepared.value)
  }

  /** The round takes the first untried eligible target, and stops only when there is none. */
  lemma MoveFacts(cfg: Config, w: WorldView, alias: Alias, body: Body, tried: set<string>, g: Gaps)
    ensures var s := SurveyOf(w, cfg.cooldown, alias.id, g);
            match NextMove(cfg, w, alias, body, tried, g)
            case Stop(s', w') =>
              && s' == s && w' == AtProviders(w, cfg.cooldown, g)
              && forall t | t in alias.targets :: TargetKey(t) in tried || !Eligible(s, t)
            case Pass(t, provider, _) => Takes(s, alias, tried, t, provider)
            case Go(t, provider, w', key, prepared) =>
              && Takes(s, alias, tried, t, provider)
              && Usable(w'.pool, t.providerID, w'.now) == Some(key)
              && Prepared(cfg.mode, body, t.modelName, provider.protocol) == Ok(prepared)
  {
    FirstUntriedIsFirst(SurveyOf(w, cfg.cooldown, alias.id, g), alias.targets, tried);
    var rows := AtProviders(w, cfg.cooldown, g).db.providers;
    if rows.Some? {
      ProviderMapById(rows.value);
    }
  }

  ghost predicate Takes(s: Survey, alias: Alias, tried: set<string>, t: AliasTarget, provider: Provider) {
    && FirstUntried(s, alias.targets, tried) == Some(t)
    && t in alias.targets && Eligible(s, t) && TargetKey(t) !in tried
    && TargetKey(t) in TargetKeys(alias.targets) - tried
    && s.providers.value[t.providerID] == provider && provider.id == t.providerID
  }

  function SoftMarked(cfg: Config, w: WorldView, provider: string, model: string, c: FailClass): WorldView {
    if ShouldSoftStale(c) && cfg.hasCache
       then w.(cache := Discovery.Apply(w.cache, Discovery.Mark(provider, model, w.now)))
    else w
  }

  /** One call and, when it failed in a way worth retrying, the rest of the run. */
  function AttemptThen(cfg: Config, w: WorldView, alias: Alias, target: AliasTarget, provider: Provider, key: Key,
                       prepared: Body, body: Body, tried: set<string>, out: OutcomeView,
                       script: nat -> Turn, k: nat): RunEnd
    decreases TargetKeys(alias.targets) - tried, 1
  {
    var call := Call(cfg, w, provider, key, script(k));
    var out' := Logged(cfg, out, provider.slug, target.modelName, key, call);
    var this' := [Called(target, provider, w, key, prepared, script(k), call)];
    var c := ClassifyResult(call.result);
    if call.result.wrote then
      RunEnd(call.world, Finalized(out', call.result), call.sent, this', tried, Streamed)
    else if !ShouldFailover(c) then
      RunEnd(call.world, out', Deliver(cfg.mode, call.result), this', tried, Answer)
    else
      After(this', Continue(cfg, SoftMarked(cfg, call.world, provider.id, target.modelName, c),
                            alias, body, tried, call.result, out', script, k + 1))
  }

  /** The retry loop, `last` being the result to deliver should no target be left. */
  function Continue(cfg: Config, w: WorldView, alias: Alias, body: Body, tried: set<string>, last: ForwardResult,
                    out: OutcomeView, script: nat -> Turn, k: nat): RunEnd
    decreases TargetKeys(alias.targets) - tried, 0
  {
    MoveFacts(cfg, w, alias, body, tried, script(k).gaps);
    match NextMove(cfg, w, alias, body, tried, script(k).gaps)
    case Stop(s, w') =>
      RunEnd(w', out, Deliver(cfg.mode, last), [], tried, Exhausted(s))
    case Pass(t, provider, w') =>
      After([Skipped(t, provider, w')],
            Continue(cfg, w', alias, body, tried + {TargetKey(t)}, last, out, script, k + 1))
    case Go(t, provider, w', key, prepared) =>
      AttemptThen(cfg, w', alias, t, provider, key, prepared, body, tried + {TargetKey(t)}, out, script, k)
  }

  function TargetOf(r: Resolved): AliasTarget {
    AliasTarget(r.provider.id, r.modelName)
  }

  function FirstBody(cfg: Config, r: Resolved, body: Body): Body {
    if cfg.mode == Chat(true) && r.provider.protocol.OpenAI? then EnsureStreamIncludeUsage(body) else body
  }

  /** The run for a resolved alias. */
  function AliasRun(cfg: Config, w: WorldView, r: Resolved, alias: Alias, body: Body, out: OutcomeView,
                    script: nat -> Turn): RunEnd {
    var prepared := FirstBody(cfg, r, body);
    AttemptThen(cfg, w, alias, TargetOf(r), r.provider, r.key, prepared, body, {TargetKey(TargetOf(r))},
                out.(aliasName := alias.name), script, 0)
  }

  /** The run without retries: a direct directive, or an alias gone by the time it is looked up. */
  function SingleRun(cfg: Config, w: WorldView, r: Resolved, body: Body, out: OutcomeView, turn: Turn): RunEnd {
    var call := Call(cfg, w, r.provider, r.key, turn);
    var out' := Logged(cfg, out, r.provider.slug, r.modelName, r.key, call);
    var tries := [Called(TargetOf(r), r.provider, w, r.key, body, turn, call)];
    if call.result.err.Some? && !call.result.wrote then
      RunEnd(call.world, out'.(status := 502, errorClass := "down"),
             [Head(502), ErrorBody("upstream_error", call.result.err.value)], tries, {}, Answer)
    else if call.result.wrote then
      RunEnd(call.world, Finalized(out', call.result), call.sent, tries, {}, Streamed)
    else
      RunEnd(call.world, out', Deliver(cfg.mode, call.result), tries, {}, Answer)
  }

  /** `forwardWithRetry` and `forwardEmbeddingsWithRetry`; what others do before the alias is looked
      up again is the first turn's `beforeCache`. */
  function RetryRun(cfg: Config, w: WorldView, r: Resolved, directive: string, body: Body, out: OutcomeView,
                    script: nat -> Turn): RunEnd {
    var w' := EnvAll(w, cfg.cooldown, script(0).gaps.beforeCache);
    var alias := if w'.db.aliases.None? then None else FindAlias(w'.db.aliases.value, directive);
    match alias
    case None => SingleRun(cfg, w', r, body, out, script(0))
    case Some(a) => AliasRun(cfg, w', r, a, body, out, script)
  }

  /** The status recorded for a request that does not resolve. */
  function ErrorStatus(e: ResolveError): int {
    match e
    case ProviderNotFound => 404
    case UnknownModel => 404
    case AliasNoTargets => 503
    case NoAPIKey => 503
    case ProtocolMismatch => 400
    case Database => 500
  }

  /** The head its client is sent, which the source takes from a table of its own. */
  function ErrorHead(e: ResolveError): int {
    if e.ProviderNotFound? || e.UnknownModel? then 404
    else if e.AliasNoTargets? then 503
    else if e.ProtocolMismatch? then 400
    else if e.NoAPIKey? then 503
    else 500
  }

  function ErrorKind(e: ResolveError): string {
    match e
    case ProviderNotFound => "not_found"
    case UnknownModel => "not_found"
    case AliasNoTargets => "service_unavailable"
    case NoAPIKey => "service_unavailable"
    case ProtocolMismatch => "invalid_request"
    case Database => "internal_error"
  }

  function ErrorMessage(e: ResolveError): string {
    match e
    case ProviderNotFound => "provider not found"
    case UnknownModel => "unknown model"
    case AliasNoTargets => "alias has no available targets"
    case NoAPIKey => "no enabled API key"
    case ProtocolMismatch => "protocol translation not supported yet"
    case Database => "database"
  }

  function Reject(w: WorldView, out: OutcomeView, status: int, class_: string, head: int, kind: string,
                  message: string): RunEnd {
    RunEnd(w, out.(status := status, errorClass := class_), [Head(head), ErrorBody(kind, message)], [], {}, Rejected)
  }

  /** A whole request: `ChatCompletions`, or `Embeddings`. */
  function RequestRun(cfg: Config, w: WorldView, rr: map<string, nat>, directive: string, draw: nat, g: Gaps,
                      body: Body, script: nat -> Turn): RunEnd {
    var out := OutcomeView("", "", "", 0, [], Usage(0, 0), "", cfg.mode == Chat(true));
    var resolution := ResolutionOf(w, cfg.cooldown, rr, directive, draw, g);
    match resolution.result
    case Err(e) => Reject(resolution.world, out, ErrorStatus(e), "resolve", ErrorHead(e), ErrorKind(e), ErrorMessage(e))
    case Ok(r) =>
      ResolvedRun(cfg, resolution.world, r, directive, body,
                  out.(providerSlug := r.provider.slug, modelName := r.modelName), script)
  }

  /** Its part from the resolution on. */
  function ResolvedRun(cfg: Config, w: WorldView, r: Resolved, directive: string, body: Body, out: OutcomeView,
                       script: nat -> Turn): RunEnd {
    if cfg.mode.Embeddings? && !SupportsEmbeddings(r.provider.protocol) then
      Reject(w, out, 400, "client", 400, "invalid_request", "protocol does not support embeddings")
    else
      match Prepared(cfg.mode, body, r.modelName, r.provider.protocol)
      case Err(e) => Reject(w, out, 400, "client", 400, "invalid_request", e)
      case Ok(b) =>
        if r.routing != "" then RetryRun(cfg, w, r, directive, b, out, script)
        else SingleRun(cfg, w, r, b, out, script(0))
  }

  class Gateway {
    const world: World
    const hasCache: bool
    const usageOf: UsageOf

    constructor (world: World, hasCache: bool, usageOf: UsageOf)
      ensures this.world == world && this.hasCache == hasCache && this.usageOf == usageOf
    {
      this.world, this.hasCache, this.usageOf := world, hasCache, usageOf;
    }

    ghost function Cfg(mode: Mode): Config {
      Config(mode, world.cooldown, hasCache, usageOf)
    }

    /** The request on the wire: others act, the answer's head may cool the key, others act. */
    method Exchange(mode: Mode, provider: Provider, key: Key, turn: Turn)
      modifies world, world.pool, world.cache
      ensures world.View() == Call(Cfg(mode), old(world.View()), provider, key, turn).world
    {
      world.Interfere(turn.beforeReply);
      if Cools(mode, provider, turn.reply) {
        world.pool.MarkCooldown(provider.id, key.id, world.now, world.cooldown);
      }
      world.Interfere(turn.afterReply);
    }

    /** The translated stream, written through the tap under a head of its own, up to the write that
        fails. */
    method CopyStream(s: StreamEnd, w: ClientWriter, capture: UsageCaptureWriter) returns (err: Option<string>)
      requires capture.inner == w && capture.View() == FRESH
      modifies w, capture
      ensures w.trace == old(w.trace) + ([Head(200)] + AsData(Arrived(s)))
      ensures capture.View() == FeedAll(FRESH, Tapped(s), capture.usageOf)
      ensures err == CutBy(s)
    {
      CopyPieces(s.pieces, w, capture);
      if s.lost.None? {
        assert Tapped(s) == s.pieces && Arrived(s) == s.pieces;
        return s.err;
      }
      CopyLost(s, w, capture);
      return Some("write");
    }

    method CopyPieces(pieces: seq<string>, w: ClientWriter, capture: UsageCaptureWriter)
      requires capture.inner == w && capture.View() == FRESH
      modifies w, capture
      ensures w.trace == old(w.trace) + ([Head(200)] + AsData(pieces))
      ensures capture.View() == FeedAll(FRESH, pieces, capture.usageOf)
    {
      w.Send(Head(200));
      for i := 0 to |pieces|
        invariant w.trace == old(w.trace) + ([Head(200)] + AsData(pieces[..i]))
        invariant capture.View() == FeedAll(FRESH, pieces[..i], capture.usageOf)
      {
        assert pieces[..i + 1][..i] == pieces[..i];
        assert AsData(pieces[..i + 1]) == AsData(pieces[..i]) + [Data(pieces[i])];
        var p := pieces[i];
        var _, _ := capture.Write(p, |p|, false);
        assert p[..|p|] == p;
      }
      assert pieces[..|pieces|] == pieces;
    }

    /** The write on which the connection fails. */
    method CopyLost(s: StreamEnd, w: ClientWriter, capture: UsageCaptureWriter)
      requires capture.inner == w && s.lost.Some?
      requires capture.View() == FeedAll(FRESH, s.pieces, capture.usageOf)
      modifies w, capture
      ensures w.trace == old(w.trace) + [Data(s.lost.value.bytes[..Taken(s.lost.value)])]
      ensures AsData(Arrived(s)) == AsData(s.pieces) + [Data(s.lost.value.bytes[..Taken(s.lost.value)])]
      ensures capture.View() == FeedAll(FRESH, Tapped(s), capture.usageOf)
    {
      var l := s.lost.value;
      assert Tapped(s)[..|s.pieces|] == s.pieces;
      AsDataSnoc(s.pieces, l.bytes[..Taken(l)]);
      var _, _ := capture.Write(l.bytes, Taken(l), true);
    }

    /** `forwardOnce` and `forward`, or `forwardOpenAIEmbeddings`: one upstream call, writing through
        `capture` when it streams. */
    method Forward(mode: Mode, provider: Provider, key: Key, turn: Turn, w: ClientWriter, capture: UsageCaptureWriter)
      returns (result: ForwardResult)
      requires capture.inner == w && capture.View() == FRESH && capture.usageOf == usageOf
      modifies world, world.pool, world.cache, w, capture
      ensures var call := Call(Cfg(mode), old(world.View()), provider, key, turn);
              && result == call.result && world.View() == call.world
              && w.trace == old(w.trace) + call.sent
              && capture.View().usage == call.usage
    {
      Exchange(mode, provider, key, turn);
      if mode.Chat? && provider.protocol.Unregistered? {
        return ForwardResult(400, "", Some("unsupported protocol"), false);
      }
      if mode.Embeddings? {
        return EmbeddingsResult(turn.reply);
      }
      if !turn.reply.Answered? || turn.reply.status != 200 || !mode.stream {
        return ChatResult(mode.stream, turn.reply);
      }
      var err := CopyStream(turn.reply.stream, w, capture);
      return if err.Some? then ForwardResult(502, "", err, true) else ForwardResult(200, "", None, true);
    }

    /** One call with its entry in the outcome. */
    method ForwardLogged(mode: Mode, provider: Provider, model: string, key: Key, turn: Turn, w: ClientWriter,
                         out: Outcome)
      returns (result: ForwardResult)
      modifies world, world.pool, world.cache, w, out
      ensures var call := Call(Cfg(mode), old(world.View()), provider, key, turn);
              && result == call.result && world.View() == call.world
              && w.trace == old(w.trace) + call.sent
              && out.View() == Logged(Cfg(mode), old(out.View()), provider.slug, model, key, call)
    {
      var capture := new UsageCaptureWriter(w, usageOf);
      result := Forward(mode, provider, key, turn, w, capture);
      out.AppendAttempt(provider.slug, model, key.id, result, usageOf);
      if mode == Chat(true) {
        out.tokens := Usage(capture.prompt, capture.completion);
      }
    }

    method MarkSoftStale(provider: string, model: string, c: FailClass)
      modifies world.cache
      ensures forall cfg: Config | cfg.hasCache == hasCache ::
                world.View() == SoftMarked(cfg, old(world.View()), provider, model, c)
    {
      if ShouldSoftStale(c) && hasCache {
        world.cache.MarkRuntimeStale(provider, model, world.now);
      }
    }

    /** `writeJSONResponse`, or for embeddings `writeResult`. */
    method WriteResult(mode: Mode, r: ForwardResult, w: ClientWriter)
      modifies w
      ensures w.trace == old(w.trace) + Deliver(mode, r)
    {
      if mode.Embeddings? && r.err.Some? {
        w.Send(Head(502));
        w.Send(ErrorBody("upstream_error", r.err.value));
        return;
      }
      w.Send(Head(r.status));
      w.Send(Data(r.body));
    }

    method ForwardOnce(mode: Mode, r: Resolved, body: Body, turn: Turn, w: ClientWriter, out: Outcome)
      returns (ghost run: RunEnd)
      modifies world, world.pool, world.cache, w, out
      ensures run == SingleRun(Cfg(mode), old(world.View()), r, body, old(out.View()), turn)
      ensures world.View() == run.world && out.View() == run.out && w.trace == old(w.trace) + run.sent
    {
      run := SingleRun(Cfg(mode), world.View(), r, body, out.View(), turn);
      var result := ForwardLogged(mode, r.provider, r.modelName, r.key, turn, w, out);
      if result.err.Some? && !result.wrote {
        w.Send(Head(502));
        w.Send(ErrorBody("upstream_error", result.err.value));
        out.status, out.errorClass := 502, "down";
        return;
      }
      if result.wrote {
        out.FinalizeStream(result);
        return;
      }
      WriteResult(mode, result, w);
    }

    /** One attempt and what follows from its result; `ended` says that the client has its answer. */
    method AttemptTarget(mode: Mode, ghost alias: Alias, target: AliasTarget, provider: Provider, key: Key,
                         ghost prepared: Body, ghost body: Body, ghost tried: set<string>,
                         script: nat -> Turn, k: nat, w: ClientWriter, out: Outcome)
      returns (ended: bool, result: ForwardResult, ghost this': seq<Try>, ghost run: RunEnd)
      modifies world, world.pool, world.cache, w, out
      ensures run == AttemptThen(Cfg(mode), old(world.View()), alias, target, provider, key, prepared, body, tried,
                                 old(out.View()), script, k)
      ensures if ended then
                world.View() == run.world && out.View() == run.out && w.trace == old(w.trace) + run.sent
              else
                && w.trace == old(w.trace)
                && run == After(this', Continue(Cfg(mode), world.View(), alias, body, tried, result, out.View(), script,
                                                k + 1))
    {
      run := AttemptThen(Cfg(mode), world.View(), alias, target, provider, key, prepared, body, tried, out.View(),
                         script, k);
      ghost var call := Call(Cfg(mode), world.View(), provider, key, script(k));
      this' := [Called(target, provider, world.View(), key, prepared, script(k), call)];
      result := ForwardLogged(mode, provider, target.modelName, key, script(k), w, out);
      if result.wrote {
        out.FinalizeStream(result);
        return true, result, this', run;
      }
      assert call.sent == [];
      var fc := ClassifyResult(result);
      if !ShouldFailover(fc) {
        WriteResult(mode, result, w);
        return true, result, this', run;
      }
      MarkSoftStale(provider.id, target.modelName, fc);
      return false, result, this', run;
    }

    /** The head of a round: the next target, its key and its body; no key when it is passed over. */
    method Choose(mode: Mode, sel: Selector, alias: Alias, body: Body, tried: set<string>, g: Gaps)
      returns (next: Option<(AliasTarget, Provider)>, key: Option<Key>, prepared: Body)
      requires sel.world == world
      modifies world, world.pool, world.cache
      ensures match NextMove(Cfg(mode), old(world.View()), alias, body, tried, g)
              case Stop(_, w') => next == None && world.View() == w'
              case Pass(t, p, w') => next == Some((t, p)) && key == None && world.View() == w'
              case Go(t, p, w', k, b) => next == Some((t, p)) && key == Some(k) && prepared == b && world.View() == w'
    {
      FirstUntriedIsFirst(SurveyOf(world.View(), world.cooldown, alias.id, g), alias.targets, tried);
      prepared := body;
      var found := sel.NextFailoverTarget(alias, tried, g);
      if found.Err? {
        return None, None, prepared;
      }
      var (target, provider) := found.value;
      next := Some(found.value);
      if mode.Embeddings? && !SupportsEmbeddings(provider.protocol) {
        return next, None, prepared;
      }
      world.Interfere(g.beforeKey);
      key := world.pool.Get(target.providerID, world.now);
      if key.None? {
        return next, None, prepared;
      }
      var rewritten := RewriteModel(body, target.modelName);
      if rewritten.Err? {
        return next, None, prepared;
      }
      prepared := rewritten.value;
      if mode == Chat(true) && provider.protocol.OpenAI? {
        prepared := EnsureStreamIncludeUsage(prepared);
      }
    }

    /** One round of the retry loop. */
    method Round(mode: Mode, sel: Selector, alias: Alias, body: Body, tried: set<string>, last: ForwardResult,
                 script: nat -> Turn, k: nat, w: ClientWriter, out: Outcome)
      returns (ended: bool, tried': set<string>, result: ForwardResult, ghost this': seq<Try>)
      requires sel.world == world
      modifies world, world.pool, world.cache, w, out
      ensures var run := Continue(Cfg(mode), old(world.View()), alias, body, tried, last, old(out.View()), script, k);
              if ended then
                world.View() == run.world && out.View() == run.out && w.trace == old(w.trace) + run.sent
              else
                && w.trace == old(w.trace)
                && TargetKeys(alias.targets) - tried' < TargetKeys(alias.targets) - tried
                && run == After(this', Continue(Cfg(mode), world.View(), alias, body, tried', result, out.View(),
                                                script, k + 1))
    {
      MoveFacts(Cfg(mode), world.View(), alias, body, tried, script(k).gaps);
      tried', result, this' := tried, last, [];
      var next, key, prepared := Choose(mode, sel, alias, body, tried, script(k).gaps);
      if next.None? {
        WriteResult(mode, last, w);
        return true, tried', result, this';
      }
      var (target, provider) := next.value;
      tried' := tried + {TargetKey(target)};
      if key.None? {
        this' := [Skipped(target, provider, world.View())];
        return false, tried', result, this';
      }
      ghost var run;
      ended, result, this', run := AttemptTarget(mode, alias, target, provider, key.value, prepared, body, tried',
                                                 script, k, w, out);
    }

    /** The retry loop, after tries that came to `last`; `run` is the run they are the beginning of. */
    method Retry(mode: Mode, sel: Selector, alias: Alias, body: Body, first: set<string>, last: ForwardResult,
                 script: nat -> Turn, w: ClientWriter, out: Outcome, ghost run: RunEnd, ghost tries: seq<Try>)
      requires sel.world == world
      requires run == After(tries, Continue(Cfg(mode), world.View(), alias, body, first, last, out.View(), script, 1))
      modifies world, world.pool, world.cache, w, out
      ensures world.View() == run.world && out.View() == run.out && w.trace == old(w.trace) + run.sent
    {
      var tried, result, k, ended := first, last, 1, false;
      ghost var all := tries;
      while !ended
        invariant if ended then
                    world.View() == run.world && out.View() == run.out && w.trace == old(w.trace) + run.sent
                  else
                    && w.trace == old(w.trace)
                    && run == After(all, Continue(Cfg(mode), world.View(), alias, body, tried, result, out.View(),
                                                  script, k))
        decreases !ended, TargetKeys(alias.targets) - tried
      {
        ghost var this';
        ended, tried, result, this' := Round(mode, sel, alias, body, tried, result, script, k, w, out);
        k := k + 1;
        if !ended {
          ghost var next := Continue(Cfg(mode), world.View(), alias, body, tried, result, out.View(), script, k);
          AfterTwice(all, this', next);
        }
        all := all + this';
      }
    }

    /** The first attempt and the retries. */
    method AttemptAndRetry(mode: Mode, r: Resolved, sel: Selector, alias: Alias, prepared: Body, body: Body,
                           script: nat -> Turn, w: ClientWriter, out: Outcome)
      returns (ghost run: RunEnd)
      requires sel.world == world
      modifies world, world.pool, world.cache, w, out
      ensures run == AttemptThen(Cfg(mode), old(world.View()), alias, TargetOf(r), r.provider, r.key, prepared, body,
                                 {TargetKey(TargetOf(r))}, old(out.View()), script, 0)
      ensures world.View() == run.world && out.View() == run.out && w.trace == old(w.trace) + run.sent
    {
      var tried := {TargetKey(TargetOf(r))};
      var ended, result; ghost var tries;
      ended, result, tries, run :=
        AttemptTarget(mode, alias, TargetOf(r), r.provider, r.key, prepared, body, tried, script, 0, w, out);
      if !ended {
        Retry(mode, sel, alias, body, tried, result, script, w, out, run, tries);
      }
    }

    /** `forwardWithRetry` and `forwardEmbeddingsWithRetry`. */
    method ForwardWithRetry(mode: Mode, r: Resolved, sel: Selector, directive: string, body: Body,
                            script: nat -> Turn, w: ClientWriter, out: Outcome)
      returns (ghost run: RunEnd)
      requires sel.world == world
      modifies world, world.pool, world.cache, w, out
      ensures run == RetryRun(Cfg(mode), old(world.View()), r, directive, body, old(out.View()), script)
      ensures world.View() == run.world && out.View() == run.out && w.trace == old(w.trace) + run.sent
    {
      world.Interfere(script(0).gaps.beforeCache);
      var found := sel.LookupAlias(directive);
      if found.Err? || found.value.None? {
        run := ForwardOnce(mode, r, body, script(0), w, out);
        return;
      }
      var alias := found.value.value;
      out.aliasName := alias.name;
      var fwdBody := body;
      if mode == Chat(true) && r.provider.protocol.OpenAI? {
        fwdBody := EnsureStreamIncludeUsage(body);
      }
      run := AttemptAndRetry(mode, r, sel, alias, fwdBody, body, script, w, out);
    }

    method WriteProxyError(e: ResolveError, w: ClientWriter)
      modifies w
      ensures w.trace == old(w.trace) + [Head(ErrorHead(e)), ErrorBody(ErrorKind(e), ErrorMessage(e))]
    {
      w.Send(Head(ErrorHead(e)));
      w.Send(ErrorBody(ErrorKind(e), ErrorMessage(e)));
    }

    method Unresolved(e: ResolveError, w: ClientWriter, out: Outcome)
      modifies w, out
      ensures w.trace == old(w.trace) + [Head(ErrorHead(e)), ErrorBody(ErrorKind(e), ErrorMessage(e))]
      ensures out.View() == old(out.View()).(status := ErrorStatus(e), errorClass := "resolve")
    {
      WriteProxyError(e, w);
      out.status, out.errorClass := ErrorStatus(e), "resolve";
    }

    /** `ChatCompletions`, or `Embeddings`: a request from its directive to its last byte. */
    method Serve(mode: Mode, sel: Selector, directive: string, draw: nat, g: Gaps, body: Body,
                 script: nat -> Turn, w: ClientWriter)
      returns (out: Outcome, ghost run: RunEnd)
      requires sel.world == world
      modifies sel, world, world.pool, world.cache, w
      ensures fresh(out)
      ensures run == RequestRun(Cfg(mode), old(world.View()), old(sel.rrPositions), directive, draw, g, body, script)
      ensures world.View() == run.world && out.View() == run.out && w.trace == old(w.trace) + run.sent
    {
      run := RequestRun(Cfg(mode), world.View(), sel.rrPositions, directive, draw, g, body, script);
      out := new Outcome(mode == Chat(true));
      var resolved := sel.Resolve(directive, draw, g);
      if resolved.Err? {
        Unresolved(resolved.error, w, out);
        return;
      }
      var r := resolved.value;
      out.providerSlug, out.modelName := r.provider.slug, r.modelName;
      var _ := ServeResolved(mode, sel, r, directive, body, script, w, out);
    }

    /** A refusal that is the client's own fault. */
    method Refuse(message: string, w: ClientWriter, out: Outcome)
      modifies w, out
      ensures w.trace == old(w.trace) + [Head(400), ErrorBody("invalid_request", message)]
      ensures out.View() == old(out.View()).(status := 400, errorClass := "client")
    {
      w.Send(Head(400));
      w.Send(ErrorBody("invalid_request", message));
      out.status, out.errorClass := 400, "client";
    }

    /** From the resolution on. */
    method ServeResolved(mode: Mode, sel: Selector, r: Resolved, directive: string, body: Body,
                         script: nat -> Turn, w: ClientWriter, out: Outcome)
      returns (ghost run: RunEnd)
      requires sel.world == world
      modifies world, world.pool, world.cache, w, out
      ensures run == ResolvedRun(Cfg(mode), old(world.View()), r, directive, body, old(out.View()), script)
      ensures world.View() == run.world && out.View() == run.out && w.trace == old(w.trace) + run.sent
    {
      run := ResolvedRun(Cfg(mode), world.View(), r, directive, body, out.View(), script);
      if mode.Embeddings? && !SupportsEmbeddings(r.provider.protocol) {
        Refuse("protocol does not support embeddings", w, out);
        return;
      }
      var rewritten := RewriteModel(body, r.modelName);
      if rewritten.Err? {
        Refuse(rewritten.error, w, out);
        return;
      }
      var fwdBody := rewritten.value;
      if mode == Chat(true) && r.provider.protocol.OpenAI? {
        fwdBody := EnsureStreamIncludeUsage(fwdBody);
      }
      if r.routing != "" {
        var _ := ForwardWithRetry(mode, r, sel, directive, fwdBody, script, w, out);
        return;
      }
      var _ := ForwardOnce(mode, r, fwdBody, script(0), w, out);
    }
  }
}
