/** The outcome a failover run leaves for the access log, against what the run did and what the
    client was sent (internal/proxy/outcome.go:160-222). */
module FailoverRecord {
  import opened Prelude
  import opened KeyPool
  import opened Store
  import opened World
  import opened Routing
  import opened UsageTap
  import opened Proxy
  import opened Failover
  import opened FailoverTheorems

  function Entry(x: Try): Attempt
    requires x.Called?
  {
    Attempt(x.provider.slug, x.target.modelName, x.key.id, ResultStatus(x.call.result),
            ClassName(ClassifyResult(x.call.result)))
  }

  /** One entry per call, in call order. */
  function Entries(tries: seq<Try>): seq<Attempt>
    decreases |tries|
  {
    if tries == [] then []
    else
      var n := |tries| - 1;
      Entries(tries[..n]) + if tries[n].Called? then [Entry(tries[n])] else []
  }

  ghost predicate MirrorsLast(o: OutcomeView) {
    |o.attempts| >= 1 &&
    var a := o.attempts[|o.attempts| - 1];
    o.status == a.status && o.errorClass == a.failClass && o.providerSlug == a.providerSlug
      && o.modelName == a.modelName
  }

  lemma {:induction false} LogAllSnoc(cfg: Config, out: OutcomeView, tries: seq<Try>, x: Try)
    ensures var o := LogAll(cfg, out, tries);
            LogAll(cfg, out, tries + [x]) ==
            if x.Called? then Logged(cfg, o, x.provider.slug, x.target.modelName, x.key, x.call) else o
    decreases |tries|
  {
    var all := tries + [x];
    if tries == [] {
      assert all == [x] && [x][1..] == [];
    } else {
      var y := tries[0];
      assert all[0] == y && all[1..] == tries[1..] + [x];
      var out' := if y.Called? then Logged(cfg, out, y.provider.slug, y.target.modelName, y.key, y.call) else out;
      LogAllSnoc(cfg, out', tries[1..], x);
    }
  }

  lemma LoggedFacts(cfg: Config, o: OutcomeView, x: Try)
    requires x.Called?
    ensures var o' := Logged(cfg, o, x.provider.slug, x.target.modelName, x.key, x.call);
            && o'.attempts == o.attempts + [Entry(x)] && MirrorsLast(o')
            && o'.aliasName == o.aliasName && o'.stream == o.stream
  {
  }

  lemma {:induction false} LogAllFacts(cfg: Config, out: OutcomeView, tries: seq<Try>)
    ensures var o := LogAll(cfg, out, tries);
            && o.attempts == out.attempts + Entries(tries)
            && (Entries(tries) != [] ==> MirrorsLast(o))
            && o.aliasName == out.aliasName && o.stream == out.stream
    decreases |tries|
  {
    if tries != [] {
      var n := |tries| - 1;
      var before, x := tries[..n], tries[n];
      assert tries == before + [x];
      LogAllFacts(cfg, out, before);
      LogAllSnoc(cfg, out, before, x);
      var o := LogAll(cfg, out, before);
      if x.Called? {
        LoggedFacts(cfg, o, x);
        assert Entries(tries) == Entries(before) + [Entry(x)];
      } else {
        assert Entries(tries) == Entries(before) + [];
      }
    }
  }

  /** Calls that ended in another attempt leave no tokens behind. */
  lemma {:induction false} RetriedTokens(cfg: Config, out: OutcomeView, tries: seq<Try>)
    requires forall x | x in tries ::
               Retried(x) && (x.Called? ==> x.call == Call(cfg, x.world, x.provider, x.key, x.turn))
    requires cfg.mode == Chat(true) ==> out.tokens == Usage(0, 0)
    ensures LogAll(cfg, out, tries).tokens == out.tokens
  {
    if tries != [] {
      var n := |tries| - 1;
      assert tries == tries[..n] + [tries[n]];
      RetriedTokens(cfg, out, tries[..n]);
      LogAllSnoc(cfg, out, tries[..n], tries[n]);
      var x := tries[n];
      if x.Called? {
        CallSends(cfg, x.world, x.provider, x.key, x.turn);
      }
    }
  }

  predicate RetriedClass(name: string) {
    name == "down" || name == "rate_limited" || name == "model_missing" || name == "auth"
  }

  lemma {:induction false} EntriesOfRetried(tries: seq<Try>)
    requires forall x | x in tries :: Retried(x)
    ensures forall e | e in Entries(tries) :: RetriedClass(e.failClass)
  {
    if tries != [] {
      var n := |tries| - 1;
      assert tries == tries[..n] + [tries[n]];
      assert Retried(tries[n]);
      EntriesOfRetried(tries[..n]);
    }
  }

  lemma {:induction false} EntriesNonEmpty(tries: seq<Try>)
    requires |tries| >= 1 && tries[0].Called?
    ensures Entries(tries) != []
    ensures var last := Entries(tries)[|Entries(tries)| - 1];
            var r := FinalResult(tries, ForwardResult(0, "", None, false));
            last.status == ResultStatus(r) && last.failClass == ClassName(ClassifyResult(r))
  {
    var n := |tries| - 1;
    if n > 0 {
      EntriesNonEmpty(tries[..n]);
    }
  }

  /** The tokens the delivered result carries: a stream's, as the tap saw them, or those in the body
      of a 200 answer; `before` when it carries none. */
  function DeliveredTokens(cfg: Config, run: RunEnd, before: Usage): Usage {
    var n := |run.tries|;
    if n == 0 || run.ending.Exhausted? || run.tries[n - 1].Skipped? then before
    else
      var call := run.tries[n - 1].call;
      if cfg.mode == Chat(true) then (if run.ending.Streamed? then call.usage else Usage(0, 0))
      else if call.result.status == 200 && call.result.body != "" then
        match cfg.usageOf(call.result.body)
        case Some(u) => u
        case None => Usage(0, 0)
      else before
  }

  lemma AliasLogs(cfg: Config, w: WorldView, r: Resolved, alias: Alias, body: Body, out: OutcomeView,
                  script: nat -> Turn)
    ensures var run := AliasRun(cfg, w, r, alias, body, out, script);
            run.out == LogAll(cfg, out.(aliasName := alias.name), run.tries)
  {
    var prepared := FirstBody(cfg, r, body);
    AttemptLogs(cfg, w, alias, TargetOf(r), r.provider, r.key, prepared, body, {TargetKey(TargetOf(r))},
                out.(aliasName := alias.name), script, 0);
  }

  /** The outcome agrees with its own log and with the run: one entry per upstream call in call
      order, status and class those of the last entry, all earlier entries of a class that is
      retried, and tokens from nothing but the delivered answer. */
  lemma RecordAgrees(cfg: Config, w: WorldView, r: Resolved, alias: Alias, body: Body, out: OutcomeView,
                     script: nat -> Turn)
    requires cfg.mode == Chat(true) ==> out.tokens == Usage(0, 0)
    ensures var run := AliasRun(cfg, w, r, alias, body, out, script);
            var entries := Entries(run.tries);
            && run.out.attempts == out.attempts + entries
            && |entries| >= 1 && MirrorsLast(run.out)
            && (forall i | 0 <= i < |entries| - 1 :: RetriedClass(entries[i].failClass))
            && run.out.tokens == DeliveredTokens(cfg, run, out.tokens)
            && run.out.aliasName == alias.name && run.out.stream == out.stream
  {
    var run := AliasRun(cfg, w, r, alias, body, out, script);
    var o := out.(aliasName := alias.name);
    AliasLogs(cfg, w, r, alias, body, out, script);
    AliasAnswers(cfg, w, r, alias, body, out, script);
    LogAllFacts(cfg, o, run.tries);
    EntriesNonEmpty(run.tries);
    AllButLastRetried(cfg.mode, alias.targets, LastResult(run), run);
    EntriesOfRetried(run.tries[..|run.tries| - 1]);
    TokensAgree(cfg, alias.targets, o, run);
  }

  lemma AllButLastRetried(mode: Mode, targets: seq<AliasTarget>, last: ForwardResult, run: RunEnd)
    requires OneAnswer(mode, targets, last, run) && |run.tries| >= 1
    ensures forall x | x in run.tries[..|run.tries| - 1] :: Retried(x)
  {
  }

  lemma TokensAgree(cfg: Config, targets: seq<AliasTarget>, o: OutcomeView, run: RunEnd)
    requires |run.tries| >= 1 && OneAnswer(cfg.mode, targets, LastResult(run), run)
    requires forall x | x in run.tries && x.Called? :: x.call == Call(cfg, x.world, x.provider, x.key, x.turn)
    requires cfg.mode == Chat(true) ==> o.tokens == Usage(0, 0)
    ensures LogAll(cfg, o, run.tries).tokens == DeliveredTokens(cfg, run, o.tokens)
  {
    if run.ending.Exhausted? {
      RetriedTokens(cfg, o, run.tries);
    } else {
      var n := |run.tries| - 1;
      var before, x := run.tries[..n], run.tries[n];
      assert run.tries == before + [x];
      AllButLastRetried(cfg.mode, targets, LastResult(run), run);
      RetriedTokens(cfg, o, before);
      LogAllSnoc(cfg, o, before, x);
      CallSends(cfg, x.world, x.provider, x.key, x.turn);
    }
  }

  // ---------- what the record says ----------

  /** Whether a call that is answered so got no answer, or none that could be told. */
  predicate Failed(mode: Mode, provider: Provider, reply: Reply) {
    if mode.Embeddings? then reply.Answered? ==> reply.body.Unreadable?
    else
      || provider.protocol.Unregistered?
      || match reply
         case Untranslatable(_) => false
         case Unbuildable(_) => true
         case Unreachable(_, _) => true
         case Answered(status, _, s, b) =>
           status == 200 && if mode.stream then s.lost.Some? || s.err.Some? else !b.Converted?
  }

  function StatusSays(status: int): string {
    if status >= 500 then "down"
    else if status == 429 then "rate_limited"
    else if status == 404 then "model_missing"
    else if status in {401, 403} then "auth"
    else if status in {400, 422} then "client"
    else ""
  }

  /** The class that a call is recorded under. */
  function ClassOf(mode: Mode, provider: Provider, reply: Reply): string {
    if Failed(mode, provider, reply) then "down"
    else if reply.Untranslatable? then "client"
    else if reply.Answered? then StatusSays(reply.status)
    else ""
  }

  /** The tokens that an answer which ends the run carries: those of all that was written of a stream, or
      those in the body of a 200 answer, none where it has no usage. */
  function TokensOf(mode: Mode, provider: Provider, reply: Reply, usageOf: UsageOf, before: Usage): Usage {
    if mode == Chat(true) then
      if reply.Answered? && reply.status == 200 && !provider.protocol.Unregistered? then
        FeedAll(FRESH, reply.stream.pieces + (if reply.stream.lost.Some? then [reply.stream.lost.value.bytes] else []),
                usageOf).usage
      else Usage(0, 0)
    else if Failed(mode, provider, reply) || !reply.Answered? || reply.status != 200 then before
    else
      var body := if mode.Embeddings? then reply.text else reply.body.body;
      if body == "" then before else if usageOf(body).Some? then usageOf(body).value else Usage(0, 0)
  }

  /** Entry k of the record is that of the call at try `at[k]`: its provider, model and key, and its class. */
  ghost predicate EntriesAre(cfg: Config, entries: seq<Attempt>, tries: seq<Try>, at: seq<nat>) {
    && |at| == |entries|
    && (forall k | 0 <= k < |at| :: at[k] < |tries| && EntryIs(cfg, entries[k], tries[at[k]]))
    && (forall k, l | 0 <= k < l < |at| :: at[k] < at[l])
    && (forall i: nat | i < |tries| && tries[i].Called? :: i in at)
  }

  ghost predicate EntryIs(cfg: Config, a: Attempt, x: Try) {
    && x.Called?
    && a.providerSlug == x.provider.slug && a.modelName == x.target.modelName && a.keyID == x.key.id
    && a.failClass == ClassOf(cfg.mode, x.provider, x.turn.reply)
  }

  lemma ClassIs(cfg: Config, w: WorldView, provider: Provider, key: Key, turn: Turn)
    ensures ClassName(ClassifyResult(Call(cfg, w, provider, key, turn).result))
            == ClassOf(cfg.mode, provider, turn.reply)
  {
  }

  lemma {:induction false} EntriesSay(cfg: Config, tries: seq<Try>) returns (at: seq<nat>)
    requires forall x | x in tries && x.Called? :: x.call == Call(cfg, x.world, x.provider, x.key, x.turn)
    ensures EntriesAre(cfg, Entries(tries), tries, at)
  {
    at := [];
    if tries != [] {
      var n := |tries| - 1;
      assert tries == tries[..n] + [tries[n]];
      at := EntriesSay(cfg, tries[..n]);
      var x := tries[n];
      if x.Called? {
        ClassIs(cfg, x.world, x.provider, x.key, x.turn);
        EntryAdded(cfg, Entries(tries[..n]), tries, at, Entry(x));
        at := at + [n];
      } else {
        NoEntryAdded(cfg, Entries(tries[..n]), tries, at);
        assert Entries(tries[..n]) + [] == Entries(tries[..n]);
      }
    }
  }

  lemma EntryAdded(cfg: Config, entries: seq<Attempt>, tries: seq<Try>, at: seq<nat>, a: Attempt)
    requires tries != [] && EntriesAre(cfg, entries, tries[..|tries| - 1], at) && EntryIs(cfg, a, tries[|tries| - 1])
    ensures EntriesAre(cfg, entries + [a], tries, at + [|tries| - 1])
  {
    var n := |tries| - 1;
    forall i: nat | i < |tries| && tries[i].Called?
      ensures i in at + [n]
    {
      if i < n {
        assert tries[..n][i] == tries[i];
      }
    }
  }

  lemma NoEntryAdded(cfg: Config, entries: seq<Attempt>, tries: seq<Try>, at: seq<nat>)
    requires tries != [] && EntriesAre(cfg, entries, tries[..|tries| - 1], at) && tries[|tries| - 1].Skipped?
    ensures EntriesAre(cfg, entries, tries, at)
  {
    forall i: nat | i < |tries| && tries[i].Called?
      ensures i in at
    {
      assert tries[..|tries| - 1][i] == tries[i];
    }
  }

  /** What the record of a run says, from the replies alone: an entry for each call in order, with its
      provider, model, key and class; the last call's class; and the tokens of the answer that ended it,
      none added where every call failed. */
  ghost predicate RecordIs(cfg: Config, out: OutcomeView, run: RunEnd) {
    && |out.attempts| <= |run.out.attempts| && run.out.attempts[..|out.attempts|] == out.attempts
    && (exists at :: EntriesAre(cfg, run.out.attempts[|out.attempts|..], run.tries, at))
    && EndIs(cfg, out, run)
  }

  ghost predicate EndIs(cfg: Config, out: OutcomeView, run: RunEnd) {
    && LastCall(run.tries).Some? && LastCall(run.tries).value.Called?
    && var x := LastCall(run.tries).value;
       && run.out.errorClass == ClassOf(cfg.mode, x.provider, x.turn.reply)
       && run.out.tokens == (if run.ending.Exhausted? then out.tokens
                             else TokensOf(cfg.mode, x.provider, x.turn.reply, cfg.usageOf, out.tokens))
  }

  lemma RecordSays(cfg: Config, w: WorldView, r: Resolved, alias: Alias, body: Body, out: OutcomeView,
                   script: nat -> Turn)
    requires cfg.mode == Chat(true) ==> out.tokens == Usage(0, 0)
    ensures RecordIs(cfg, out, AliasRun(cfg, w, r, alias, body, out, script))
  {
    var run := AliasRun(cfg, w, r, alias, body, out, script);
    RecordAgrees(cfg, w, r, alias, body, out, script);
    AliasAnswers(cfg, w, r, alias, body, out, script);
    var at := EntriesSay(cfg, run.tries);
    assert run.out.attempts[|out.attempts|..] == Entries(run.tries);
    EndSays(cfg, alias.targets, out, run);
  }

  lemma EndSays(cfg: Config, targets: seq<AliasTarget>, out: OutcomeView, run: RunEnd)
    requires |run.tries| >= 1 && run.tries[0].Called? && OneAnswer(cfg.mode, targets, LastResult(run), run)
    requires forall x | x in run.tries && x.Called? :: x.call == Call(cfg, x.world, x.provider, x.key, x.turn)
    requires Entries(run.tries) != [] && run.out.attempts == out.attempts + Entries(run.tries) && MirrorsLast(run.out)
    requires run.out.tokens == DeliveredTokens(cfg, run, out.tokens)
    ensures EndIs(cfg, out, run)
  {
    LastCallIsFinal(run.tries, ForwardResult(0, "", None, false));
    EntriesNonEmpty(run.tries);
    var x := LastCall(run.tries).value;
    ClassIs(cfg, x.world, x.provider, x.key, x.turn);
    if !run.ending.Exhausted? {
      TokensAre(cfg, run, x, out.tokens);
    }
  }

  lemma TokensAre(cfg: Config, run: RunEnd, x: Try, before: Usage)
    requires !run.ending.Exhausted? && EndsWithCall(run.tries) && x == run.tries[|run.tries| - 1]
    requires x.call == Call(cfg, x.world, x.provider, x.key, x.turn)
    requires run.ending.Streamed? <==> x.call.result.wrote
    ensures DeliveredTokens(cfg, run, before) == TokensOf(cfg.mode, x.provider, x.turn.reply, cfg.usageOf, before)
  {
  }

  // ---------- the record against the response head ----------

  ghost predicate HeadIs(sent: seq<Sent>, code: int) {
    |sent| >= 1 && sent[0] == Head(code)
  }

  function LastResult(run: RunEnd): ForwardResult {
    FinalResult(run.tries, ForwardResult(0, "", None, false))
  }

  /** Whether the status recorded for a result is the status the client sees. */
  predicate ToldTruly(mode: Mode, r: ForwardResult) {
    r.err.None? || (!r.wrote && if mode.Embeddings? then r.status == 0 || r.status == 502 else r.status != 0)
  }

  lemma HeadMatchesResult(cfg: Config, w: WorldView, r: Resolved, alias: Alias, body: Body, out: OutcomeView,
                          script: nat -> Turn)
    ensures var run := AliasRun(cfg, w, r, alias, body, out, script);
            HeadIs(run.sent, run.out.status) <==> ToldTruly(cfg.mode, LastResult(run))
  {
    var run := AliasRun(cfg, w, r, alias, body, out, script);
    AliasLogs(cfg, w, r, alias, body, out, script);
    AliasAnswers(cfg, w, r, alias, body, out, script);
    LogAllFacts(cfg, out.(aliasName := alias.name), run.tries);
    EntriesNonEmpty(run.tries);
    assert run.out.status == ResultStatus(LastResult(run));
    FinalOfFinal(run.tries, ForwardResult(0, "", None, false));
    HeadOfAnswer(cfg, alias.targets, run);
  }

  /** A stream cut after its head. */
  predicate StreamCut(mode: Mode, provider: Provider, reply: Reply) {
    Streams(mode, provider, reply) && CutBy(reply.stream).Some?
  }

  /** Whether the status recorded of a run whose last call is answered so differs from the one sent: a
      chat call that left no status, or whose stream was cut; or, of embeddings, a call that timed out
      or whose body could not be read, told as a 502. */
  predicate HeadHidden(mode: Mode, provider: Provider, reply: Reply) {
    || StreamCut(mode, provider, reply)
    || (mode.Chat? && !Refused(mode, provider) &&
        match reply
        case Untranslatable(_) => false
        case Unbuildable(_) => true
        case Unreachable(_, canceled) => !canceled
        case Answered(status, _, _, b) => status == 200 && !mode.stream && b.Unconvertible?)
    || (mode.Embeddings? &&
        match reply
        case Untranslatable(_) => false
        case Unbuildable(_) => false
        case Unreachable(_, canceled) => canceled
        case Answered(status, _, _, b) => b.Unreadable? && status != 0 && status != 502)
  }

  lemma ToldTrulyIff(mode: Mode, provider: Provider, reply: Reply)
    ensures ToldTruly(mode, CallResult(mode, provider, reply)) <==> !HeadHidden(mode, provider, reply)
  {
  }

  /** The recorded status of a run is the one on the wire exactly when the answer to its last call is
      none of these. */
  lemma HeadMatchesRecordIff(cfg: Config, w: WorldView, r: Resolved, alias: Alias, body: Body, out: OutcomeView,
                             script: nat -> Turn)
    ensures var run := AliasRun(cfg, w, r, alias, body, out, script);
            && LastCall(run.tries).Some? && LastCall(run.tries).value.Called?
            && var x := LastCall(run.tries).value;
               (HeadIs(run.sent, run.out.status) <==> !HeadHidden(cfg.mode, x.provider, x.turn.reply))
  {
    var run := AliasRun(cfg, w, r, alias, body, out, script);
    AliasAnswers(cfg, w, r, alias, body, out, script);
    LastCallIsFinal(run.tries, ForwardResult(0, "", None, false));
    HeadMatchesResult(cfg, w, r, alias, body, out, script);
    var x := LastCall(run.tries).value;
    ToldTrulyIff(cfg.mode, x.provider, x.turn.reply);
  }

  lemma HeadOfAnswer(cfg: Config, targets: seq<AliasTarget>, run: RunEnd)
    requires |run.tries| >= 1 && OneAnswer(cfg.mode, targets, LastResult(run), run)
    requires FinalResult(run.tries, LastResult(run)) == LastResult(run)
    requires forall x | x in run.tries && x.Called? :: x.call == Call(cfg, x.world, x.provider, x.key, x.turn)
    ensures HeadIs(run.sent, ResultStatus(LastResult(run))) <==> ToldTruly(cfg.mode, LastResult(run))
  {
    var x := run.tries[|run.tries| - 1];
    if run.ending.Streamed? {
      CallSends(cfg, x.world, x.provider, x.key, x.turn);
    } else {
      LastNotWritten(run);
    }
  }

  lemma {:induction false} FinalNotWritten(tries: seq<Try>, last: ForwardResult)
    requires !last.wrote && forall x | x in tries :: Retried(x)
    ensures !FinalResult(tries, last).wrote
  {
    if tries != [] {
      assert Retried(tries[|tries| - 1]);
      FinalNotWritten(tries[..|tries| - 1], last);
    }
  }

  lemma LastNotWritten(run: RunEnd)
    requires !run.ending.Streamed? && !run.ending.Rejected?
    requires if run.ending.Exhausted? then forall x | x in run.tries :: Retried(x)
             else EndsWithCall(run.tries) && !run.tries[|run.tries| - 1].call.result.wrote
    ensures !LastResult(run).wrote
  {
    if run.ending.Exhausted? {
      FinalNotWritten(run.tries, ForwardResult(0, "", None, false));
    }
  }

  /** The last call never got an answer it could pass on, and left no status. */
  predicate LeftNoStatus(mode: Mode, provider: Provider, reply: Reply) {
    && mode.Chat? && !Refused(mode, provider)
    && match reply
       case Untranslatable(_) => false
       case Unbuildable(_) => true
       case Unreachable(_, canceled) => !canceled
       case Answered(status, _, _, b) => status == 0 || (status == 200 && !mode.stream && b.Unconvertible?)
  }

  function LastCall(tries: seq<Try>): Option<Try> {
    if tries == [] then None
    else if tries[|tries| - 1].Called? then Some(tries[|tries| - 1])
    else LastCall(tries[..|tries| - 1])
  }

  lemma {:induction false} LastCallIsFinal(tries: seq<Try>, last: ForwardResult)
    ensures match LastCall(tries)
            case None => FinalResult(tries, last) == last
            case Some(x) => x.Called? && x in tries && FinalResult(tries, last) == x.call.result
    ensures |tries| >= 1 && tries[0].Called? ==> LastCall(tries).Some?
  {
    if tries != [] && tries[|tries| - 1].Skipped? {
      LastCallIsFinal(tries[..|tries| - 1], last);
    }
  }

  /** The chat loop writes the head of the last result as it stands, so the client's head has code 0,
      which no HTTP response can carry, exactly when the last call left no status. */
  lemma ZeroHeadIff(cfg: Config, w: WorldView, r: Resolved, alias: Alias, body: Body, out: OutcomeView,
                    script: nat -> Turn)
    ensures var run := AliasRun(cfg, w, r, alias, body, out, script);
            && LastCall(run.tries).Some? && LastCall(run.tries).value.Called?
            && var x := LastCall(run.tries).value;
               (cfg.mode.Chat? ==> (HeadIs(run.sent, 0) <==> LeftNoStatus(cfg.mode, x.provider, x.turn.reply)))
  {
    var run := AliasRun(cfg, w, r, alias, body, out, script);
    var none := ForwardResult(0, "", None, false);
    AliasAnswers(cfg, w, r, alias, body, out, script);
    OneResponse(cfg, w, r, alias, body, out, script);
    LastCallIsFinal(run.tries, none);
    var x := LastCall(run.tries).value;
    CallSends(cfg, x.world, x.provider, x.key, x.turn);
  }

  /** Whether a failed call leaves the client with a 200: its body could not be read, or its stream
      was cut after the head. */
  predicate LeftEmpty(mode: Mode, provider: Provider, reply: Reply) {
    && mode.Chat? && !Refused(mode, provider) && reply.Answered? && reply.status == 200
    && if mode.stream then CutBy(reply.stream).Some? else reply.body.Unreadable?
  }

  /** A failure is told to the client under a 200 exactly when the last call is such a one; without
      streaming what follows the head is then nothing. Embeddings never do it. */
  lemma FailureToldAs200Iff(cfg: Config, w: WorldView, r: Resolved, alias: Alias, body: Body, out: OutcomeView,
                            script: nat -> Turn)
    ensures var run := AliasRun(cfg, w, r, alias, body, out, script);
            && LastCall(run.tries).Some? && LastCall(run.tries).value.Called?
            && var x := LastCall(run.tries).value;
               && (HeadIs(run.sent, 200) && run.out.errorClass != "" <==> LeftEmpty(cfg.mode, x.provider, x.turn.reply))
               && (cfg.mode == Chat(false) && LeftEmpty(cfg.mode, x.provider, x.turn.reply) ==>
                   run.sent == [Head(200), Data("")])
  {
    var run := AliasRun(cfg, w, r, alias, body, out, script);
    var none := ForwardResult(0, "", None, false);
    AliasAnswers(cfg, w, r, alias, body, out, script);
    OneResponse(cfg, w, r, alias, body, out, script);
    LastCallIsFinal(run.tries, none);
    AliasLogs(cfg, w, r, alias, body, out, script);
    LogAllFacts(cfg, out.(aliasName := alias.name), run.tries);
    EntriesNonEmpty(run.tries);
    var x := LastCall(run.tries).value;
    HidesIff(cfg, x.world, x.provider, x.key, x.turn);
    var result := LastResult(run);
    assert run.out.errorClass == ClassName(ClassifyResult(result));
    assert if result.wrote then run.sent == x.call.sent else run.sent == Deliver(cfg.mode, result) by {
      WrittenIsSent(cfg.mode, alias.targets, run, x);
    }
  }

  lemma WrittenIsSent(mode: Mode, targets: seq<AliasTarget>, run: RunEnd, x: Try)
    requires |run.tries| >= 1 && x in run.tries && x.Called? && LastResult(run) == x.call.result
    requires forall i | 0 <= i < |run.tries| && run.tries[i].Called? && run.tries[i].call.result.wrote ::
               i == |run.tries| - 1 && run.ending.Streamed? && run.sent == run.tries[i].call.sent
    requires OneAnswer(mode, targets, LastResult(run), run)
    requires !run.ending.Streamed? ==> run.sent == Deliver(mode, LastResult(run))
    ensures if x.call.result.wrote then run.sent == x.call.sent else run.sent == Deliver(mode, LastResult(run))
  {
  }

  /** A result that hides its failure behind a 200. */
  predicate Hides(mode: Mode, r: ForwardResult) {
    r.err.Some? && (r.wrote || (mode.Chat? && r.status == 200))
  }

  lemma HidesIff(cfg: Config, w: WorldView, provider: Provider, key: Key, turn: Turn)
    ensures var call := Call(cfg, w, provider, key, turn);
            var sent := if call.result.wrote then call.sent else Deliver(cfg.mode, call.result);
            && (Hides(cfg.mode, call.result) <==> LeftEmpty(cfg.mode, provider, turn.reply))
            && (Hides(cfg.mode, call.result) <==> HeadIs(sent, 200) && ClassName(ClassifyResult(call.result)) != "")
            && (cfg.mode == Chat(false) ==> !call.result.wrote)
            && (cfg.mode == Chat(false) && Hides(cfg.mode, call.result) ==>
                Deliver(cfg.mode, call.result) == [Head(200), Data("")])
  {
  }

  // ---------- every request ----------

  /** Whether the alias of a resolved request is still there when it is looked up again. */
  predicate AliasThere(cfg: Config, w: WorldView, r: Resolved, directive: string, turn: Turn) {
    && r.routing != ""
    && var aliases := EnvAll(w, cfg.cooldown, turn.gaps.beforeCache).db.aliases;
       aliases.Some? && FindAlias(aliases.value, directive).Some?
  }

  /** A resolved request that is refused before any call. */
  predicate Inadmissible(mode: Mode, r: Resolved, body: Body) {
    (mode.Embeddings? && !r.provider.protocol.OpenAI?) || body.Malformed?
  }

  /** Of a resolved request: it is refused, calling nobody, exactly when inadmissible, and the status of
      its refusal is recorded as sent. Otherwise the recorded status is the one on the wire unless the
      last call's answer hides it, or, where there is but one call, its stream is cut. */
  ghost predicate Recorded(cfg: Config, w: WorldView, r: Resolved, directive: string, body: Body, script: nat -> Turn,
                           run: RunEnd) {
    && (run.ending.Rejected? <==> Inadmissible(cfg.mode, r, body))
    && if run.ending.Rejected? then run.tries == [] && run.out.attempts == [] && HeadIs(run.sent, run.out.status)
       else TruthfulUnless(run, cfg.mode, AliasThere(cfg, w, r, directive, script(0)))
  }

  ghost predicate TruthfulUnless(run: RunEnd, mode: Mode, retried: bool) {
    && LastCall(run.tries).Some? && LastCall(run.tries).value.Called?
    && var x := LastCall(run.tries).value;
       HeadIs(run.sent, run.out.status) <==>
         !(if retried then HeadHidden(mode, x.provider, x.turn.reply) else StreamCut(mode, x.provider, x.turn.reply))
  }

  /** The recorded status against the one sent, of any request: one that does not resolve is refused, and
      its status recorded as sent. */
  lemma RequestHeadMatchesRecordIff(cfg: Config, w: WorldView, rr: map<string, nat>, directive: string, draw: nat,
                                    g: Gaps, body: Body, script: nat -> Turn)
    ensures var run := RequestRun(cfg, w, rr, directive, draw, g, body, script);
            var e := ResolutionOf(w, cfg.cooldown, rr, directive, draw, g);
            match e.result
            case Err(_) =>
              run.ending.Rejected? && run.tries == [] && run.out.attempts == [] && HeadIs(run.sent, run.out.status)
            case Ok(r) => Recorded(cfg, e.world, r, directive, body, script, run)
  {
    var e := ResolutionOf(w, cfg.cooldown, rr, directive, draw, g);
    if e.result.Ok? {
      var r := e.result.value;
      var out := OutcomeView(r.provider.slug, r.modelName, "", 0, [], Usage(0, 0), "", cfg.mode == Chat(true));
      ResolvedIsRecorded(cfg, e.world, r, directive, body, out, script);
    }
  }

  lemma ResolvedIsRecorded(cfg: Config, w: WorldView, r: Resolved, directive: string, body: Body, out: OutcomeView,
                           script: nat -> Turn)
    requires out.attempts == []
    ensures Recorded(cfg, w, r, directive, body, script, ResolvedRun(cfg, w, r, directive, body, out, script))
  {
    if !Inadmissible(cfg.mode, r, body) {
      var b := Prepared(cfg.mode, body, r.modelName, r.provider.protocol).value;
      if r.routing == "" {
        SingleIsTruthful(cfg, w, r, b, out, script(0));
      } else {
        RetryIsTruthful(cfg, w, r, directive, b, out, script);
      }
    }
  }

  lemma RetryIsTruthful(cfg: Config, w: WorldView, r: Resolved, directive: string, body: Body, out: OutcomeView,
                        script: nat -> Turn)
    requires r.routing != ""
    ensures var run := RetryRun(cfg, w, r, directive, body, out, script);
            !run.ending.Rejected? && TruthfulUnless(run, cfg.mode, AliasThere(cfg, w, r, directive, script(0)))
  {
    var w' := EnvAll(w, cfg.cooldown, script(0).gaps.beforeCache);
    if AliasThere(cfg, w, r, directive, script(0)) {
      var alias := FindAlias(w'.db.aliases.value, directive).value;
      HeadMatchesRecordIff(cfg, w', r, alias, body, out, script);
      AliasAnswers(cfg, w', r, alias, body, out, script);
    } else {
      SingleIsTruthful(cfg, w', r, body, out, script(0));
    }
  }

  lemma SingleIsTruthful(cfg: Config, w: WorldView, r: Resolved, body: Body, out: OutcomeView, turn: Turn)
    ensures var run := SingleRun(cfg, w, r, body, out, turn);
            !run.ending.Rejected? && TruthfulUnless(run, cfg.mode, false)
  {
    CallSends(cfg, w, r.provider, r.key, turn);
  }

  // ---------- what the client is sent ----------

  /** A head 200 and then, write by write, what the connection took of the stream. */
  ghost predicate SendsStream(s: StreamEnd, sent: seq<Sent>) {
    && |sent| == 1 + |s.pieces| + (if s.lost.Some? then 1 else 0)
    && sent[0] == Head(200)
    && (forall i | 0 <= i < |s.pieces| :: sent[1 + i] == Data(s.pieces[i]))
    && (s.lost.Some? ==>
          exists n | 0 <= n <= |s.lost.value.bytes| ::
            sent[1 + |s.pieces|] == Data(s.lost.value.bytes[..n]))
  }

  /** What an answer to a chat call, the last one made, has the client sent. A call that got no answer is
      told as a 502 only where there is but one call. */
  ghost predicate SendsChat(stream: bool, reply: Reply, retried: bool, sent: seq<Sent>) {
    match reply
    case Untranslatable(m) => sent == [Head(400), Data(m)]
    case Unbuildable(m) => SendsFailure(0, m, retried, sent)
    case Unreachable(m, canceled) => if canceled then SendsFailure(504, "upstream timeout", retried, sent)
                                     else SendsFailure(0, m, retried, sent)
    case Answered(status, text, s, body) =>
      if status != 200 then sent == [Head(status), Data(text)]
      else if stream then SendsStream(s, sent)
      else
        match body
        case Unreadable(m) => SendsFailure(200, m, retried, sent)
        case Unconvertible(m) => SendsFailure(0, m, retried, sent)
        case Converted(b) => sent == [Head(200), Data(b)]
  }

  ghost predicate SendsFailure(status: int, message: string, retried: bool, sent: seq<Sent>) {
    sent == if retried then [Head(status), Data("")] else [Head(502), ErrorBody("upstream_error", message)]
  }

  /** The same of an embeddings call. */
  ghost predicate SendsEmbeddings(reply: Reply, sent: seq<Sent>) {
    match reply
    case Untranslatable(m) => sent == [Head(502), ErrorBody("upstream_error", m)]
    case Unbuildable(m) => sent == [Head(502), ErrorBody("upstream_error", m)]
    case Unreachable(m, canceled) =>
      sent == [Head(502), ErrorBody("upstream_error", if canceled then "upstream timeout" else m)]
    case Answered(status, text, _, body) =>
      if body.Unreadable? then sent == [Head(502), ErrorBody("upstream_error", body.message)]
      else sent == [Head(status), Data(text)]
  }

  /** What a run comes to for its client, from the provider and the reply of its last call. */
  ghost predicate Sends(mode: Mode, retried: bool, run: RunEnd) {
    && LastCall(run.tries).Some? && LastCall(run.tries).value.Called?
    && var x := LastCall(run.tries).value;
       match mode
       case Embeddings => SendsEmbeddings(x.turn.reply, run.sent)
       case Chat(stream) =>
         if x.provider.protocol.Unregistered? then SendsFailure(400, "unsupported protocol", retried, run.sent)
         else SendsChat(stream, x.turn.reply, retried, run.sent)
  }

  lemma CallSendsReply(cfg: Config, w: WorldView, provider: Provider, key: Key, turn: Turn, run: RunEnd, retried: bool)
    requires var call := Call(cfg, w, provider, key, turn);
             && LastCall(run.tries).Some? && LastCall(run.tries).value.Called?
             && LastCall(run.tries).value.provider == provider && LastCall(run.tries).value.turn == turn
             && run.sent == if call.result.wrote then call.sent
                            else if call.result.err.Some? && !retried
                            then [Head(502), ErrorBody("upstream_error", call.result.err.value)]
                            else Deliver(cfg.mode, call.result)
    ensures Sends(cfg.mode, retried, run)
  {
    if Streams(cfg.mode, provider, turn.reply) {
      StreamIsSent(turn.reply.stream, run.sent);
    }
  }

  lemma StreamIsSent(s: StreamEnd, sent: seq<Sent>)
    requires sent == [Head(200)] + AsData(Arrived(s))
    ensures SendsStream(s, sent)
  {
    if s.lost.Some? {
      assert sent[1 + |s.pieces|] == Data(s.lost.value.bytes[..Taken(s.lost.value)]);
    }
  }

  /** The client of an alias's run is sent what the reply to its last call says. */
  lemma ClientIsSent(cfg: Config, w: WorldView, r: Resolved, alias: Alias, body: Body, out: OutcomeView,
                     script: nat -> Turn)
    ensures Sends(cfg.mode, true, AliasRun(cfg, w, r, alias, body, out, script))
  {
    var run := AliasRun(cfg, w, r, alias, body, out, script);
    AliasAnswers(cfg, w, r, alias, body, out, script);
    OneResponse(cfg, w, r, alias, body, out, script);
    LastCallIsFinal(run.tries, ForwardResult(0, "", None, false));
    var x := LastCall(run.tries).value;
    WrittenIsSent(cfg.mode, alias.targets, run, x);
    CallSendsReply(cfg, x.world, x.provider, x.key, x.turn, run, true);
  }

  lemma SingleClientIsSent(cfg: Config, w: WorldView, r: Resolved, body: Body, out: OutcomeView, turn: Turn)
    ensures Sends(cfg.mode, false, SingleRun(cfg, w, r, body, out, turn))
  {
    CallSendsReply(cfg, w, r.provider, r.key, turn, SingleRun(cfg, w, r, body, out, turn), false);
  }

  predicate Refuses(sent: seq<Sent>, status: int, kind: string) {
    |sent| == 2 && sent[0] == Head(status) && sent[1].ErrorBody? && sent[1].kind == kind
  }

  /** The refusal of a request that does not resolve. */
  predicate SendsRefusal(e: ResolveError, sent: seq<Sent>) {
    match e
    case ProviderNotFound => Refuses(sent, 404, "not_found")
    case UnknownModel => Refuses(sent, 404, "not_found")
    case AliasNoTargets => Refuses(sent, 503, "service_unavailable")
    case NoAPIKey => Refuses(sent, 503, "service_unavailable")
    case ProtocolMismatch => Refuses(sent, 400, "invalid_request")
    case Database => Refuses(sent, 500, "internal_error")
  }

  /** What any request has its client sent: the refusal of what does not resolve or is inadmissible, and
      otherwise what the reply to its last call says. */
  lemma RequestIsAnswered(cfg: Config, w: WorldView, rr: map<string, nat>, directive: string, draw: nat, g: Gaps,
                          body: Body, script: nat -> Turn)
    ensures var run := RequestRun(cfg, w, rr, directive, draw, g, body, script);
            var e := ResolutionOf(w, cfg.cooldown, rr, directive, draw, g);
            match e.result
            case Err(err) => SendsRefusal(err, run.sent)
            case Ok(r) =>
              if Inadmissible(cfg.mode, r, body) then Refuses(run.sent, 400, "invalid_request")
              else Sends(cfg.mode, AliasThere(cfg, e.world, r, directive, script(0)), run)
  {
    var e := ResolutionOf(w, cfg.cooldown, rr, directive, draw, g);
    if e.result.Ok? {
      var r := e.result.value;
      var out := OutcomeView(r.provider.slug, r.modelName, "", 0, [], Usage(0, 0), "", cfg.mode == Chat(true));
      ResolvedIsAnswered(cfg, e.world, r, directive, body, out, script);
    }
  }

  lemma ResolvedIsAnswered(cfg: Config, w: WorldView, r: Resolved, directive: string, body: Body, out: OutcomeView,
                           script: nat -> Turn)
    ensures var run := ResolvedRun(cfg, w, r, directive, body, out, script);
            if Inadmissible(cfg.mode, r, body) then Refuses(run.sent, 400, "invalid_request")
            else Sends(cfg.mode, AliasThere(cfg, w, r, directive, script(0)), run)
  {
    if !Inadmissible(cfg.mode, r, body) {
      var b := Prepared(cfg.mode, body, r.modelName, r.provider.protocol).value;
      var w' := EnvAll(w, cfg.cooldown, script(0).gaps.beforeCache);
      if AliasThere(cfg, w, r, directive, script(0)) {
        ClientIsSent(cfg, w', r, FindAlias(w'.db.aliases.value, directive).value, b, out, script);
      } else if r.routing == "" {
        SingleClientIsSent(cfg, w, r, b, out, script(0));
      } else {
        SingleClientIsSent(cfg, w', r, b, out, script(0));
      }
    }
  }

  // ---------- runs in which it happens ----------

  const QUIET := Gaps([], [], [], [])

  /** What a run of one call comes to when its alias has no other target. */
  lemma LoneAttempt(cfg: Config, w: WorldView, r: Resolved, alias: Alias, body: Body, out: OutcomeView,
                    script: nat -> Turn)
    requires alias.targets == [TargetOf(r)] && cfg.mode == Chat(false)
    ensures var run := AliasRun(cfg, w, r, alias, body, out, script);
            var call := Call(cfg, w, r.provider, r.key, script(0));
            ShouldFailover(ClassifyResult(call.result)) && !call.result.wrote ==>
              && run.sent == Deliver(cfg.mode, call.result)
              && run.out == Logged(cfg, out.(aliasName := alias.name), r.provider.slug, r.modelName, r.key, call)
  {
    var call := Call(cfg, w, r.provider, r.key, script(0));
    var c := ClassifyResult(call.result);
    var w' := SoftMarked(cfg, call.world, r.provider.id, r.modelName, c);
    var o := Logged(cfg, out.(aliasName := alias.name), r.provider.slug, r.modelName, r.key, call);
    var tried := {TargetKey(TargetOf(r))};
    if ShouldFailover(c) && !call.result.wrote {
      var move := NextMove(cfg, w', alias, body, tried, script(1).gaps);
      assert FirstUntried(SurveyOf(w', cfg.cooldown, alias.id, script(1).gaps), alias.targets, tried).None?;
      assert Continue(cfg, w', alias, body, tried, call.result, o, script, 1) ==
             RunEnd(move.world, o, Deliver(cfg.mode, call.result), [], tried, Exhausted(move.survey));
    }
  }

  /** Such a run: an alias with a single target, and an upstream that cannot be reached. The client
      is sent a head of code 0 while the log records a 502. */
  lemma ZeroHeadHappens(w: WorldView, r: Resolved, body: Body, out: OutcomeView)
    requires r.provider.protocol.OpenAI?
    ensures var cfg := Config(Chat(false), 30, true, (s: string) => None);
            var alias := Alias("a", "fast", "failover", true, [TargetOf(r)]);
            var script := (k: nat) => Turn(QUIET, [], Unreachable("connection refused", false), []);
            var run := AliasRun(cfg, w, r, alias, body, out, script);
            run.sent == [Head(0), Data("")] && run.out.status == 502
  {
    LoneAttempt(Config(Chat(false), 30, true, (s: string) => None), w, r,
                Alias("a", "fast", "failover", true, [TargetOf(r)]), body, out,
                (k: nat) => Turn(QUIET, [], Unreachable("connection refused", false), []));
  }

  /** Likewise a 200 answer whose body cannot be read is delivered, when no target is left, as an
      empty 200. */
  lemma EmptySuccessHappens(w: WorldView, r: Resolved, body: Body, out: OutcomeView)
    requires r.provider.protocol.OpenAI?
    ensures var cfg := Config(Chat(false), 30, true, (s: string) => None);
            var alias := Alias("a", "fast", "failover", true, [TargetOf(r)]);
            var script := (k: nat) => Turn(QUIET, [], Answered(200, "", StreamEnd([], None, None), Unreadable("reset")),
                                           []);
            var run := AliasRun(cfg, w, r, alias, body, out, script);
            run.sent == [Head(200), Data("")] && run.out.status == 200 && run.out.errorClass == "down"
  {
    LoneAttempt(Config(Chat(false), 30, true, (s: string) => None), w, r,
                Alias("a", "fast", "failover", true, [TargetOf(r)]), body, out,
                (k: nat) => Turn(QUIET, [], Answered(200, "", StreamEnd([], None, None), Unreadable("reset")), []));
  }
}
