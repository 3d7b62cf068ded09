/** What holds of every failover run, whatever the upstreams answer and whatever other requests,
    refreshes and administrators do between any two of its steps. */
module FailoverTheorems {
  import opened Prelude
  import opened KeyPool
  import opened Store
  import opened World
  import opened Routing
  import opened UsageTap
  import opened Proxy
  import opened Failover

  // ---------- termination, and no target twice ----------

  ghost predicate FreshTries(tries: seq<Try>, targets: seq<AliasTarget>, tried: set<string>) {
    && (forall i | 0 <= i < |tries| :: TargetKey(tries[i].target) in TargetKeys(targets) - tried)
    && (forall i, j | 0 <= i < j < |tries| :: TargetKey(tries[i].target) != TargetKey(tries[j].target))
  }

  function KeysTried(tries: seq<Try>): set<string> {
    set x | x in tries :: TargetKey(x.target)
  }

  lemma FreshCons(x: Try, rest: seq<Try>, targets: seq<AliasTarget>, tried: set<string>)
    requires TargetKey(x.target) in TargetKeys(targets) - tried
    requires FreshTries(rest, targets, tried + {TargetKey(x.target)})
    ensures FreshTries([x] + rest, targets, tried)
    ensures KeysTried([x] + rest) == {TargetKey(x.target)} + KeysTried(rest)
  {
    var all := [x] + rest;
    forall i, j | 0 <= i < j < |all|
      ensures TargetKey(all[i].target) != TargetKey(all[j].target)
    {
      assert all[j] == rest[j - 1];
    }
    forall i | 0 <= i < |all|
      ensures TargetKey(all[i].target) in TargetKeys(targets) - tried
    {
      assert i > 0 ==> all[i] == rest[i - 1];
    }
  }

  lemma {:induction false} ContinueFresh(cfg: Config, w: WorldView, alias: Alias, body: Body, tried: set<string>,
                                         last: ForwardResult, out: OutcomeView, script: nat -> Turn, k: nat)
    ensures var r := Continue(cfg, w, alias, body, tried, last, out, script, k);
            && FreshTries(r.tries, alias.targets, tried)
            && r.tried == tried + KeysTried(r.tries)
    decreases TargetKeys(alias.targets) - tried, 0
  {
    MoveFacts(cfg, w, alias, body, tried, script(k).gaps);
    match NextMove(cfg, w, alias, body, tried, script(k).gaps)
    case Stop(_, _) =>
    case Pass(t, provider, w') =>
      var tried' := tried + {TargetKey(t)};
      ContinueFresh(cfg, w', alias, body, tried', last, out, script, k + 1);
      FreshCons(Skipped(t, provider, w'), Continue(cfg, w', alias, body, tried', last, out, script, k + 1).tries,
                alias.targets, tried);
    case Go(t, provider, w', key, prepared) =>
      var tried' := tried + {TargetKey(t)};
      AttemptFresh(cfg, w', alias, t, provider, key, prepared, body, tried', out, script, k);
      var r := AttemptThen(cfg, w', alias, t, provider, key, prepared, body, tried', out, script, k);
      FreshCons(r.tries[0], r.tries[1..], alias.targets, tried);
      assert r.tries == [r.tries[0]] + r.tries[1..];
  }

  lemma {:induction false} AttemptFresh(cfg: Config, w: WorldView, alias: Alias, target: AliasTarget,
                                        provider: Provider, key: Key, prepared: Body, body: Body, tried: set<string>,
                                        out: OutcomeView, script: nat -> Turn, k: nat)
    ensures var r := AttemptThen(cfg, w, alias, target, provider, key, prepared, body, tried, out, script, k);
            && |r.tries| >= 1 && r.tries[0].target == target
            && FreshTries(r.tries[1..], alias.targets, tried)
            && r.tried == tried + KeysTried(r.tries[1..])
    decreases TargetKeys(alias.targets) - tried, 1
  {
    var call := Call(cfg, w, provider, key, script(k));
    var c := ClassifyResult(call.result);
    if !call.result.wrote && ShouldFailover(c) {
      var w' := SoftMarked(cfg, call.world, provider.id, target.modelName, c);
      var out' := Logged(cfg, out, provider.slug, target.modelName, key, call);
      ContinueFresh(cfg, w', alias, body, tried, call.result, out', script, k + 1);
      var rest := Continue(cfg, w', alias, body, tried, call.result, out', script, k + 1);
      var r := AttemptThen(cfg, w, alias, target, provider, key, prepared, body, tried, out, script, k);
      assert r.tries[1..] == rest.tries;
    }
  }

  lemma {:induction false} FreshBound(tries: seq<Try>, targets: seq<AliasTarget>, tried: set<string>)
    requires FreshTries(tries, targets, tried)
    ensures |tries| == |KeysTried(tries)| <= |targets|
  {
    var keys := seq(|tries|, i requires 0 <= i < |tries| => TargetKey(tries[i].target));
    DistinctCount(keys);
    assert Elements(keys) == KeysTried(tries) by {
      forall x | x in tries
        ensures TargetKey(x.target) in keys
      {
        var i :| 0 <= i < |tries| && tries[i] == x;
        assert keys[i] == TargetKey(x.target);
      }
    }
    assert KeysTried(tries) <= TargetKeys(targets);
    SubsetBound(KeysTried(tries), TargetKeys(targets));
    TargetKeysBound(targets);
  }

  lemma {:induction false} DistinctCount(s: seq<string>)
    requires forall i, j | 0 <= i < j < |s| :: s[i] != s[j]
    ensures |Elements(s)| == |s|
  {
    if s != [] {
      DistinctCount(s[1..]);
      assert Elements(s) == {s[0]} + Elements(s[1..]);
    }
  }

  lemma {:induction false} TargetKeysBound(targets: seq<AliasTarget>)
    ensures |TargetKeys(targets)| <= |targets|
  {
    if targets != [] {
      TargetKeysBound(targets[1..]);
      assert TargetKeys(targets) == {TargetKey(targets[0])} + TargetKeys(targets[1..]);
    }
  }

  lemma FirstAndFresh(tries: seq<Try>, targets: seq<AliasTarget>)
    requires |tries| >= 1 && FreshTries(tries[1..], targets, {TargetKey(tries[0].target)})
    ensures |tries| <= |targets| + 1
    ensures forall i | 1 <= i < |tries| :: TargetKey(tries[i].target) in TargetKeys(targets)
    ensures forall i, j | 0 <= i < j < |tries| :: TargetKey(tries[i].target) != TargetKey(tries[j].target)
    ensures KeysTried(tries) == {TargetKey(tries[0].target)} + KeysTried(tries[1..])
  {
    var rest := tries[1..];
    FreshBound(rest, targets, {TargetKey(tries[0].target)});
    forall i, j | 0 <= i < j < |tries|
      ensures TargetKey(tries[i].target) != TargetKey(tries[j].target)
    {
      assert tries[j] == rest[j - 1];
      assert i > 0 ==> tries[i] == rest[i - 1];
    }
    forall i | 1 <= i < |tries|
      ensures TargetKey(tries[i].target) in TargetKeys(targets)
    {
      assert tries[i] == rest[i - 1];
    }
    assert tries == [tries[0]] + rest;
  }

  /** Although staleness, providers and keys may change between rounds, a run ends: it is defined for
      every script, treats no target twice, the first included, and so makes at most one call more
      than the alias has targets. */
  lemma NoTargetTwice(cfg: Config, w: WorldView, r: Resolved, alias: Alias, body: Body, out: OutcomeView,
                      script: nat -> Turn)
    ensures var run := AliasRun(cfg, w, r, alias, body, out, script);
            && 1 <= |run.tries| <= |alias.targets| + 1
            && run.tries[0].target == TargetOf(r)
            && (forall i | 1 <= i < |run.tries| :: TargetKey(run.tries[i].target) in TargetKeys(alias.targets))
            && (forall i, j | 0 <= i < j < |run.tries| ::
                TargetKey(run.tries[i].target) != TargetKey(run.tries[j].target))
            && run.tried == KeysTried(run.tries)
  {
    var prepared := FirstBody(cfg, r, body);
    AttemptFresh(cfg, w, alias, TargetOf(r), r.provider, r.key, prepared, body, {TargetKey(TargetOf(r))},
                 out.(aliasName := alias.name), script, 0);
    FirstAndFresh(AliasRun(cfg, w, r, alias, body, out, script).tries, alias.targets);
  }

  // ---------- one answer, and no premature surrender ----------

  /** A call after which the run goes on: nothing has reached the client. */
  ghost predicate Retried(x: Try) {
    x.Called? ==>
      !x.call.result.wrote && ShouldFailover(ClassifyResult(x.call.result)) && x.call.sent == []
  }

  /** Why a target was passed over, or with what it was called. */
  ghost predicate Accounted(cfg: Config, body: Body, x: Try) {
    && x.provider.id == x.target.providerID
    && var usable := Usable(x.world.pool, x.target.providerID, x.world.now);
       var prepared := Prepared(cfg.mode, body, x.target.modelName, x.provider.protocol);
       match x
       case Skipped(_, provider, _) =>
         (cfg.mode.Embeddings? && !SupportsEmbeddings(provider.protocol)) || usable.None? || prepared.Err?
       case Called(_, provider, w, key, b, turn, call) =>
         usable == Some(key) && prepared == Ok(b) && call == Call(cfg, w, provider, key, turn)
  }

  /** The result of the last call, `last` when there was none. */
  function FinalResult(tries: seq<Try>, last: ForwardResult): ForwardResult {
    if tries == [] then last
    else
      var x := tries[|tries| - 1];
      if x.Called? then x.call.result else FinalResult(tries[..|tries| - 1], last)
  }

  lemma {:induction false} FinalResultCons(x: Try, rest: seq<Try>, last: ForwardResult)
    ensures FinalResult([x] + rest, last) == FinalResult(rest, if x.Called? then x.call.result else last)
  {
    if rest == [] {
      assert [x] + rest == [x] && [x][..0] == [];
    } else {
      FinalResultCons(x, rest[..|rest| - 1], last);
      assert ([x] + rest)[..|rest|] == [x] + rest[..|rest| - 1];
    }
  }

  ghost predicate EndsWithCall(tries: seq<Try>) {
    && |tries| >= 1 && tries[|tries| - 1].Called?
    && forall i | 0 <= i < |tries| - 1 :: Retried(tries[i])
  }

  /** How a run ends: with a stream, with an answer not worth retrying, or with no target left. */
  ghost predicate OneAnswer(mode: Mode, targets: seq<AliasTarget>, last: ForwardResult, r: RunEnd) {
    var n := |r.tries|;
    match r.ending
    case Streamed =>
      && EndsWithCall(r.tries)
      && var call := r.tries[n - 1].call;
         call.result.wrote && r.sent == call.sent
    case Answer =>
      && EndsWithCall(r.tries)
      && var result := r.tries[n - 1].call.result;
         !result.wrote && !ShouldFailover(ClassifyResult(result)) && r.sent == Deliver(mode, result)
    case Exhausted(s) =>
      && (forall x | x in r.tries :: Retried(x))
      && r.sent == Deliver(mode, FinalResult(r.tries, last))
      && (forall t | t in targets :: TargetKey(t) in r.tried || !Eligible(s, t))
    case Rejected => false
  }

  /** The world in which the round after `tries` begins. */
  function WorldAfter(cfg: Config, w: WorldView, tries: seq<Try>): WorldView {
    if tries == [] then w
    else
      match tries[|tries| - 1]
      case Skipped(_, _, w') => w'
      case Called(t, provider, _, _, _, _, call) =>
        SoftMarked(cfg, call.world, provider.id, t.modelName, ClassifyResult(call.result))
  }

  /** The survey on which a run gives up is that of its last round, which turn k + |tries| plays. */
  ghost predicate SeenAtEnd(cfg: Config, w: WorldView, alias: Alias, script: nat -> Turn, k: nat, r: RunEnd) {
    r.ending.Exhausted? ==>
      var w' := WorldAfter(cfg, w, r.tries);
      var g := script(k + |r.tries|).gaps;
      && r.ending.survey == SurveyOf(w', cfg.cooldown, alias.id, g)
      && r.world == AtProviders(w', cfg.cooldown, g)
  }

  lemma SeenAtEndCons(cfg: Config, w: WorldView, alias: Alias, script: nat -> Turn, k: nat, x: Try, r: RunEnd)
    requires SeenAtEnd(cfg, WorldAfter(cfg, w, [x]), alias, script, k + 1, r)
    ensures SeenAtEnd(cfg, w, alias, script, k, After([x], r))
  {
    var all := [x] + r.tries;
    assert k + |all| == k + 1 + |r.tries|;
    if r.tries != [] {
      assert all[|all| - 1] == r.tries[|r.tries| - 1];
    } else {
      assert all == [x];
    }
  }

  lemma {:induction false} ContinueSeen(cfg: Config, w: WorldView, alias: Alias, body: Body, tried: set<string>,
                                        last: ForwardResult, out: OutcomeView, script: nat -> Turn, k: nat)
    ensures SeenAtEnd(cfg, w, alias, script, k, Continue(cfg, w, alias, body, tried, last, out, script, k))
    decreases TargetKeys(alias.targets) - tried, 0
  {
    MoveFacts(cfg, w, alias, body, tried, script(k).gaps);
    match NextMove(cfg, w, alias, body, tried, script(k).gaps)
    case Stop(_, _) =>
    case Pass(t, provider, w') =>
      var tried' := tried + {TargetKey(t)};
      ContinueSeen(cfg, w', alias, body, tried', last, out, script, k + 1);
      SeenAtEndCons(cfg, w, alias, script, k, Skipped(t, provider, w'),
                    Continue(cfg, w', alias, body, tried', last, out, script, k + 1));
    case Go(t, provider, w', key, prepared) =>
      AttemptSeen(cfg, w', alias, t, provider, key, prepared, body, tried + {TargetKey(t)}, out, script, k);
      AttemptHasTries(cfg, w', alias, t, provider, key, prepared, body, tried + {TargetKey(t)}, out, script, k);
  }

  lemma {:induction false} AttemptSeen(cfg: Config, w: WorldView, alias: Alias, target: AliasTarget, provider: Provider,
                                       key: Key, prepared: Body, body: Body, tried: set<string>, out: OutcomeView,
                                       script: nat -> Turn, k: nat)
    ensures SeenAtEnd(cfg, w, alias, script, k,
                      AttemptThen(cfg, w, alias, target, provider, key, prepared, body, tried, out, script, k))
    decreases TargetKeys(alias.targets) - tried, 1
  {
    var call := Call(cfg, w, provider, key, script(k));
    var c := ClassifyResult(call.result);
    if !call.result.wrote && ShouldFailover(c) {
      var w' := SoftMarked(cfg, call.world, provider.id, target.modelName, c);
      var out' := Logged(cfg, out, provider.slug, target.modelName, key, call);
      ContinueSeen(cfg, w', alias, body, tried, call.result, out', script, k + 1);
      SeenAtEndCons(cfg, w, alias, script, k, Called(target, provider, w, key, prepared, script(k), call),
                    Continue(cfg, w', alias, body, tried, call.result, out', script, k + 1));
    }
  }

  lemma AttemptHasTries(cfg: Config, w: WorldView, alias: Alias, target: AliasTarget, provider: Provider, key: Key,
                        prepared: Body, body: Body, tried: set<string>, out: OutcomeView, script: nat -> Turn, k: nat)
    ensures |AttemptThen(cfg, w, alias, target, provider, key, prepared, body, tried, out, script, k).tries| >= 1
  {
  }

  lemma OneAnswerCons(mode: Mode, targets: seq<AliasTarget>, last: ForwardResult, x: Try, r: RunEnd)
    requires Retried(x)
    requires OneAnswer(mode, targets, if x.Called? then x.call.result else last, r)
    ensures OneAnswer(mode, targets, last, After([x], r))
  {
    var all := After([x], r);
    FinalResultCons(x, r.tries, last);
    assert forall i | 1 <= i < |all.tries| :: all.tries[i] == r.tries[i - 1];
    if !r.ending.Exhausted? {
      forall i | 0 <= i < |all.tries| - 1
        ensures Retried(all.tries[i])
      {
        assert i > 0 ==> all.tries[i] == r.tries[i - 1];
      }
    }
  }

  lemma {:induction false} ContinueAnswers(cfg: Config, w: WorldView, alias: Alias, body: Body, tried: set<string>,
                                           last: ForwardResult, out: OutcomeView, script: nat -> Turn, k: nat)
    ensures var r := Continue(cfg, w, alias, body, tried, last, out, script, k);
            && OneAnswer(cfg.mode, alias.targets, last, r)
            && (forall x | x in r.tries :: Accounted(cfg, body, x))
    decreases TargetKeys(alias.targets) - tried, 0
  {
    MoveFacts(cfg, w, alias, body, tried, script(k).gaps);
    match NextMove(cfg, w, alias, body, tried, script(k).gaps)
    case Stop(_, _) =>
    case Pass(t, provider, w') =>
      var tried' := tried + {TargetKey(t)};
      ContinueAnswers(cfg, w', alias, body, tried', last, out, script, k + 1);
      OneAnswerCons(cfg.mode, alias.targets, last, Skipped(t, provider, w'),
                    Continue(cfg, w', alias, body, tried', last, out, script, k + 1));
    case Go(t, provider, w', key, prepared) =>
      var tried' := tried + {TargetKey(t)};
      AttemptAnswers(cfg, w', alias, t, provider, key, prepared, body, tried', out, script, k, last);
      var r := AttemptThen(cfg, w', alias, t, provider, key, prepared, body, tried', out, script, k);
      assert r.tries == [r.tries[0]] + r.tries[1..];
  }

  lemma {:induction false} AttemptAnswers(cfg: Config, w: WorldView, alias: Alias, target: AliasTarget,
                                          provider: Provider, key: Key, prepared: Body, body: Body, tried: set<string>,
                                          out: OutcomeView, script: nat -> Turn, k: nat, last: ForwardResult)
    ensures var r := AttemptThen(cfg, w, alias, target, provider, key, prepared, body, tried, out, script, k);
            && OneAnswer(cfg.mode, alias.targets, last, r)
            && |r.tries| >= 1
            && r.tries[0] == Called(target, provider, w, key, prepared, script(k),
                                    Call(cfg, w, provider, key, script(k)))
            && (forall x | x in r.tries[1..] :: Accounted(cfg, body, x))
    decreases TargetKeys(alias.targets) - tried, 1
  {
    var call := Call(cfg, w, provider, key, script(k));
    var this' := Called(target, provider, w, key, prepared, script(k), call);
    var c := ClassifyResult(call.result);
    if !call.result.wrote && ShouldFailover(c) {
      var w' := SoftMarked(cfg, call.world, provider.id, target.modelName, c);
      var out' := Logged(cfg, out, provider.slug, target.modelName, key, call);
      ContinueAnswers(cfg, w', alias, body, tried, call.result, out', script, k + 1);
      var rest := Continue(cfg, w', alias, body, tried, call.result, out', script, k + 1);
      OneAnswerCons(cfg.mode, alias.targets, last, this', rest);
      assert ([this'] + rest.tries)[1..] == rest.tries;
    }
  }

  /** Exactly one response head, and it comes first. */
  ghost predicate OneHead(sent: seq<Sent>) {
    |sent| >= 1 && sent[0].Head? && forall i | 1 <= i < |sent| :: !sent[i].Head?
  }

  lemma AliasAnswers(cfg: Config, w: WorldView, r: Resolved, alias: Alias, body: Body, out: OutcomeView,
                     script: nat -> Turn)
    ensures var run := AliasRun(cfg, w, r, alias, body, out, script);
            && |run.tries| >= 1 && run.tries[0].Called? && run.tries[0].target == TargetOf(r)
            && OneAnswer(cfg.mode, alias.targets, FinalResult(run.tries, ForwardResult(0, "", None, false)), run)
            && (forall x | x in run.tries[1..] :: Accounted(cfg, body, x))
            && (forall x | x in run.tries && x.Called? :: x.call == Call(cfg, x.world, x.provider, x.key, x.turn))
  {
    var prepared := FirstBody(cfg, r, body);
    var run := AliasRun(cfg, w, r, alias, body, out, script);
    var none := ForwardResult(0, "", None, false);
    AttemptAnswers(cfg, w, alias, TargetOf(r), r.provider, r.key, prepared, body, {TargetKey(TargetOf(r))},
                   out.(aliasName := alias.name), script, 0, FinalResult(run.tries, none));
    assert run.tries == [run.tries[0]] + run.tries[1..];
  }

  lemma CallSends(cfg: Config, w: WorldView, provider: Provider, key: Key, turn: Turn)
    ensures var call := Call(cfg, w, provider, key, turn);
            if call.result.wrote then OneHead(call.sent) && call.sent[0] == Head(200)
            else call.sent == [] && call.usage == Usage(0, 0)
  {
  }

  /** Over a whole run exactly one response head is sent. A call that reached the client is the last
      thing the run does and all the client sees; every other call left the client untouched, and
      what is then sent is the last call's result. */
  lemma OneResponse(cfg: Config, w: WorldView, r: Resolved, alias: Alias, body: Body, out: OutcomeView,
                    script: nat -> Turn)
    ensures var run := AliasRun(cfg, w, r, alias, body, out, script);
            var n := |run.tries|;
            && OneHead(run.sent)
            && (forall i | 0 <= i < n && run.tries[i].Called? && run.tries[i].call.result.wrote ::
                  i == n - 1 && run.ending.Streamed? && run.sent == run.tries[i].call.sent)
            && (forall i | 0 <= i < n && run.tries[i].Called? && !run.tries[i].call.result.wrote ::
                  run.tries[i].call.sent == [])
            && (!run.ending.Streamed? ==>
                run.sent == Deliver(cfg.mode, FinalResult(run.tries, ForwardResult(0, "", None, false))))
  {
    AliasAnswers(cfg, w, r, alias, body, out, script);
    var run := AliasRun(cfg, w, r, alias, body, out, script);
    forall x | x in run.tries && x.Called?
      ensures SendsOwn(x.call)
    {
      CallSends(cfg, x.world, x.provider, x.key, x.turn);
    }
    AnswerIsOne(cfg.mode, alias.targets, run);
  }

  /** What a call sends itself: a whole response, or nothing. */
  ghost predicate SendsOwn(call: CallEnd) {
    if call.result.wrote then OneHead(call.sent) else call.sent == []
  }

  lemma AnswerIsOne(mode: Mode, targets: seq<AliasTarget>, run: RunEnd)
    requires |run.tries| >= 1 && forall x | x in run.tries && x.Called? :: SendsOwn(x.call)
    requires OneAnswer(mode, targets, FinalResult(run.tries, ForwardResult(0, "", None, false)), run)
    ensures OneHead(run.sent)
    ensures forall i | 0 <= i < |run.tries| && run.tries[i].Called? && run.tries[i].call.result.wrote ::
              i == |run.tries| - 1 && run.ending.Streamed? && run.sent == run.tries[i].call.sent
    ensures forall i | 0 <= i < |run.tries| && run.tries[i].Called? && !run.tries[i].call.result.wrote ::
              run.tries[i].call.sent == []
    ensures !run.ending.Streamed? ==>
            run.sent == Deliver(mode, FinalResult(run.tries, ForwardResult(0, "", None, false)))
  {
    FinalOfFinal(run.tries, ForwardResult(0, "", None, false));
    var last := run.tries[|run.tries| - 1];
    assert last in run.tries;
    if run.ending.Exhausted? {
      assert forall i | 0 <= i < |run.tries| :: run.tries[i] in run.tries && Retried(run.tries[i]);
    }
  }

  lemma {:induction false} FinalOfFinal(tries: seq<Try>, last: ForwardResult)
    ensures FinalResult(tries, FinalResult(tries, last)) == FinalResult(tries, last)
  {
    if tries != [] {
      FinalOfFinal(tries[..|tries| - 1], last);
    }
  }

  /** The same of any request: resolved or not, direct or by alias, chat or embeddings. */
  lemma OneResponsePerRequest(cfg: Config, w: WorldView, rr: map<string, nat>, directive: string, draw: nat, g: Gaps,
                              body: Body, script: nat -> Turn)
    ensures OneHead(RequestRun(cfg, w, rr, directive, draw, g, body, script).sent)
  {
    var resolution := ResolutionOf(w, cfg.cooldown, rr, directive, draw, g);
    if resolution.result.Ok? {
      var r := resolution.result.value;
      var out := OutcomeView(r.provider.slug, r.modelName, "", 0, [], Usage(0, 0), "", cfg.mode == Chat(true));
      ResolvedRunOneHead(cfg, resolution.world, r, directive, body, out, script);
    }
  }

  lemma ResolvedRunOneHead(cfg: Config, w: WorldView, r: Resolved, directive: string, body: Body, out: OutcomeView,
                           script: nat -> Turn)
    ensures OneHead(ResolvedRun(cfg, w, r, directive, body, out, script).sent)
  {
    var prepared := Prepared(cfg.mode, body, r.modelName, r.provider.protocol);
    if prepared.Ok? {
      RetryRunOneHead(cfg, w, r, directive, prepared.value, out, script);
      CallSends(cfg, w, r.provider, r.key, script(0));
    }
  }

  lemma RetryRunOneHead(cfg: Config, w: WorldView, r: Resolved, directive: string, body: Body, out: OutcomeView,
                        script: nat -> Turn)
    ensures OneHead(RetryRun(cfg, w, r, directive, body, out, script).sent)
  {
    var w' := EnvAll(w, cfg.cooldown, script(0).gaps.beforeCache);
    CallSends(cfg, w', r.provider, r.key, script(0));
    if w'.db.aliases.Some? {
      var alias := FindAlias(w'.db.aliases.value, directive);
      if alias.Some? {
        OneResponse(cfg, w', r, alias.value, body, out, script);
      }
    }
  }

  /** A run gives up exactly when every call it made failed in a retryable way. In its last round, which
      begins where its last try ended, each target of the alias is stale, or its provider is missing,
      disabled or unreadable, or it was tried, provider ids being free of colons; and each one tried was
      called and failed, or had no usable key (or serves no embeddings) when its turn came. */
  lemma NoPrematureSurrender(cfg: Config, w: WorldView, r: Resolved, alias: Alias, body: Body, out: OutcomeView,
                             script: nat -> Turn)
    requires body.Object?
    ensures var run := AliasRun(cfg, w, r, alias, body, out, script);
            && (run.ending.Exhausted? <==>
                forall x | x in run.tries && x.Called? ::
                  !x.call.result.wrote && ShouldFailover(ClassifyResult(x.call.result)))
            && SeenAtEnd(cfg, w, alias, script, 0, run)
            && (run.ending.Exhausted? ==>
                forall t | t in alias.targets ::
                  || !Eligible(run.ending.survey, t)
                  || exists x | x in run.tries :: TargetKey(x.target) == TargetKey(t) && GaveNothing(cfg, x))
            && (run.ending.Exhausted? ==>
                AllSpent(cfg, WorldAfter(cfg, w, run.tries), alias, script(|run.tries|).gaps, run.tries))
  {
    AliasAnswers(cfg, w, r, alias, body, out, script);
    AttemptSeen(cfg, w, alias, TargetOf(r), r.provider, r.key, FirstBody(cfg, r, body), body, {TargetKey(TargetOf(r))},
                out.(aliasName := alias.name), script, 0);
    NoTargetTwice(cfg, w, r, alias, body, out, script);
    var run := AliasRun(cfg, w, r, alias, body, out, script);
    assert run.tries == [run.tries[0]] + run.tries[1..];
    EndsExhausted(cfg.mode, alias.targets, FinalResult(run.tries, ForwardResult(0, "", None, false)), run);
    if run.ending.Exhausted? {
      AllGaveNothing(cfg, body, run);
      forall t | t in alias.targets && Eligible(run.ending.survey, t)
        ensures exists x | x in run.tries :: TargetKey(x.target) == TargetKey(t) && GaveNothing(cfg, x)
      {
        assert TargetKey(t) in KeysTried(run.tries);
      }
      AllAreSpent(cfg, WorldAfter(cfg, w, run.tries), alias, script(|run.tries|).gaps, run);
    }
  }

  /** Every target of the alias is stale, or has no enabled provider, or was tried in vain. */
  ghost predicate AllSpent(cfg: Config, w: WorldView, alias: Alias, g: Gaps, tries: seq<Try>) {
    ColonFree(AtAliases(w, cfg.cooldown, g).db.aliases) ==>
      forall t | t in alias.targets && ':' !in t.providerID ::
        || Unavailable(w, cfg.cooldown, t, g)
        || exists x | x in tries :: TargetKey(x.target) == TargetKey(t) && GaveNothing(cfg, x)
  }

  lemma AllAreSpent(cfg: Config, w: WorldView, alias: Alias, g: Gaps, run: RunEnd)
    requires run.ending.Exhausted? && run.ending.survey == SurveyOf(w, cfg.cooldown, alias.id, g)
    requires forall t | t in alias.targets ::
               || !Eligible(run.ending.survey, t)
               || exists x | x in run.tries :: TargetKey(x.target) == TargetKey(t) && GaveNothing(cfg, x)
    ensures AllSpent(cfg, w, alias, g, run.tries)
  {
    if ColonFree(AtAliases(w, cfg.cooldown, g).db.aliases) {
      forall t | t in alias.targets && ':' !in t.providerID && !Eligible(run.ending.survey, t)
        ensures Unavailable(w, cfg.cooldown, t, g)
      {
        IneligibleIsUnavailable(w, cfg.cooldown, alias.id, t, g);
      }
    }
  }

  lemma EndsExhausted(mode: Mode, targets: seq<AliasTarget>, last: ForwardResult, run: RunEnd)
    requires |run.tries| >= 1 && OneAnswer(mode, targets, last, run)
    ensures run.ending.Exhausted? <==>
            forall x | x in run.tries && x.Called? ::
              !x.call.result.wrote && ShouldFailover(ClassifyResult(x.call.result))
  {
    if !run.ending.Exhausted? {
      assert run.tries[|run.tries| - 1] in run.tries;
    }
  }

  lemma AllGaveNothing(cfg: Config, body: Body, run: RunEnd)
    requires body.Object? && |run.tries| >= 1 && run.tries[0].Called? && forall x | x in run.tries :: Retried(x)
    requires forall x | x in run.tries[1..] :: Accounted(cfg, body, x)
    ensures forall x | x in run.tries :: GaveNothing(cfg, x)
  {
    forall x | x in run.tries
      ensures GaveNothing(cfg, x)
    {
      assert Retried(x);
      if x.Skipped? {
        assert run.tries == [run.tries[0]] + run.tries[1..];
        assert x in run.tries[1..] && Accounted(cfg, body, x);
      }
    }
  }

  ghost predicate GaveNothing(cfg: Config, x: Try) {
    match x
    case Called(_, _, _, _, _, _, call) => !call.result.wrote && ShouldFailover(ClassifyResult(call.result))
    case Skipped(t, provider, w) =>
      || Usable(w.pool, t.providerID, w.now).None?
      || (cfg.mode.Embeddings? && !SupportsEmbeddings(provider.protocol))
  }

  /** Every call after the first asks its own target's model of it, and is the client's request in
      all but the model and the stream options. */
  lemma BodiesAskForTheirTarget(cfg: Config, w: WorldView, r: Resolved, alias: Alias, body: Body, out: OutcomeView,
                                script: nat -> Turn)
    requires body.Object?
    ensures var run := AliasRun(cfg, w, r, alias, body, out, script);
            forall i | 0 <= i < |run.tries| && run.tries[i].Called? ::
              && SameRequest(body, run.tries[i].body)
              && (i >= 1 ==> AsksFor(run.tries[i].body, run.tries[i].target.modelName))
  {
    var prepared := FirstBody(cfg, r, body);
    AttemptAnswers(cfg, w, alias, TargetOf(r), r.provider, r.key, prepared, body, {TargetKey(TargetOf(r))},
                   out.(aliasName := alias.name), script, 0, ForwardResult(0, "", None, false));
    var run := AliasRun(cfg, w, r, alias, body, out, script);
    forall i | 0 <= i < |run.tries| && run.tries[i].Called?
      ensures SameRequest(body, run.tries[i].body)
      ensures i >= 1 ==> AsksFor(run.tries[i].body, run.tries[i].target.modelName)
    {
      if i == 0 {
        PreparedBody(cfg.mode, body, r.modelName, r.provider.protocol);
      } else {
        assert run.tries[i] == run.tries[1..][i - 1];
        assert Accounted(cfg, body, run.tries[i]);
        PreparedBody(cfg.mode, body, run.tries[i].target.modelName, run.tries[i].provider.protocol);
      }
    }
  }

  ghost predicate AsksFor(b: Body, model: string) {
    b.Object? && "model" in b.fields && b.fields["model"] == Str(model)
  }

  lemma PreparedBody(mode: Mode, body: Body, model: string, protocol: Protocol)
    requires body.Object?
    ensures SameRequest(body, body) && SameRequest(body, EnsureStreamIncludeUsage(body))
    ensures var p := Prepared(mode, body, model, protocol);
            p.Ok? && SameRequest(body, p.value) && AsksFor(p.value, model)
  {
    var r := RewriteModel(body, model).value;
    var e := EnsureStreamIncludeUsage(r);
    assert SameRequest(body, r) && SameRequest(body, e);
    assert e.fields["model"] == r.fields["model"];
  }

  // ---------- what the upstreams are asked ----------

  function OptionsOf(b: Body): map<string, Json>
    requires b.Object?
  {
    if "stream_options" in b.fields && b.fields["stream_options"].Obj? then b.fields["stream_options"].fields else map[]
  }

  /** The second body asks for usage, with all other stream options of the first. */
  ghost predicate AsksForUsage(a: Body, b: Body) {
    && a.Object? && b.Object? && "stream_options" in b.fields && b.fields["stream_options"].Obj?
    && "include_usage" in OptionsOf(b) && OptionsOf(b)["include_usage"] == Flag(true)
    && forall k | k != "include_usage" ::
         (k in OptionsOf(b) <==> k in OptionsOf(a)) && (k in OptionsOf(b) ==> OptionsOf(b)[k] == OptionsOf(a)[k])
  }

  ghost predicate SameOptions(a: Body, b: Body) {
    && a.Object? && b.Object?
    && ("stream_options" in b.fields <==> "stream_options" in a.fields)
    && ("stream_options" in b.fields ==> b.fields["stream_options"] == a.fields["stream_options"])
  }

  /** The body asks `model` for the client's request; of an OpenAI stream it asks for usage, and it never
      changes the stream options otherwise. */
  ghost predicate Asks(mode: Mode, client: Body, protocol: Protocol, model: string, b: Body) {
    && AsksFor(b, model) && SameRequest(client, b)
    && (AsksForUsage(client, b) || SameOptions(client, b))
    && (mode == Chat(true) && protocol.OpenAI? ==> AsksForUsage(client, b))
  }

  lemma PreparedAsks(mode: Mode, client: Body, body: Body, protocol: Protocol, model: string)
    requires body.Object? && SameRequest(client, body) && (AsksForUsage(client, body) || SameOptions(client, body))
    ensures var p := Prepared(mode, body, model, protocol);
            p.Ok? && Asks(mode, client, protocol, model, p.value)
  {
    PreparedBody(mode, body, model, protocol);
    var r := RewriteModel(body, model).value;
    assert SameOptions(client, body) ==> OptionsOf(r) == OptionsOf(client);
    assert OptionsOf(r) == OptionsOf(body);
  }

  /** Every call of a resolved request asks its own target's model of the client's request, the first one
      the model that was resolved. */
  lemma EveryCallAsks(cfg: Config, w: WorldView, r: Resolved, directive: string, body: Body, out: OutcomeView,
                      script: nat -> Turn)
    requires body.Object?
    ensures var run := ResolvedRun(cfg, w, r, directive, body, out, script);
            && (forall x | x in run.tries && x.Called? ::
                  Asks(cfg.mode, body, x.provider.protocol, x.target.modelName, x.body))
            && (run.tries != [] ==> run.tries[0].target == AliasTarget(r.provider.id, r.modelName))
  {
    PreparedAsks(cfg.mode, body, body, r.provider.protocol, r.modelName);
    var b := Prepared(cfg.mode, body, r.modelName, r.provider.protocol).value;
    var w' := EnvAll(w, cfg.cooldown, script(0).gaps.beforeCache);
    if r.routing != "" && w'.db.aliases.Some? && FindAlias(w'.db.aliases.value, directive).Some? {
      AliasAsks(cfg, w', r, FindAlias(w'.db.aliases.value, directive).value, body, b, out, script);
    }
  }

  lemma AliasAsks(cfg: Config, w: WorldView, r: Resolved, alias: Alias, client: Body, body: Body, out: OutcomeView,
                  script: nat -> Turn)
    requires Asks(cfg.mode, client, r.provider.protocol, r.modelName, body)
    ensures var run := AliasRun(cfg, w, r, alias, body, out, script);
            && (forall x | x in run.tries && x.Called? ::
                  Asks(cfg.mode, client, x.provider.protocol, x.target.modelName, x.body))
            && run.tries != [] && run.tries[0].target == TargetOf(r)
  {
    var run := AliasRun(cfg, w, r, alias, body, out, script);
    AttemptAnswers(cfg, w, alias, TargetOf(r), r.provider, r.key, FirstBody(cfg, r, body), body,
                   {TargetKey(TargetOf(r))}, out.(aliasName := alias.name), script, 0, ForwardResult(0, "", None,
                                                                                                     false));
    UsageTwice(cfg.mode, client, r.provider.protocol, r.modelName, body);
    assert run.tries == [run.tries[0]] + run.tries[1..];
    forall x | x in run.tries[1..] && x.Called?
      ensures Asks(cfg.mode, client, x.provider.protocol, x.target.modelName, x.body)
    {
      assert Accounted(cfg, body, x);
      PreparedAsks(cfg.mode, client, body, x.provider.protocol, x.target.modelName);
    }
  }

  lemma UsageTwice(mode: Mode, client: Body, protocol: Protocol, model: string, body: Body)
    requires Asks(mode, client, protocol, model, body)
    ensures mode == Chat(true) && protocol.OpenAI? ==>
            Asks(mode, client, protocol, model, EnsureStreamIncludeUsage(body))
  {
    var e := EnsureStreamIncludeUsage(body);
    assert e.fields["model"] == body.fields["model"];
    assert SameRequest(body, e);
  }

  // ---------- the record agrees with what happened ----------

  function LogAll(cfg: Config, out: OutcomeView, tries: seq<Try>): OutcomeView
    decreases |tries|
  {
    if tries == [] then out
    else
      var x := tries[0];
      var out' := if x.Called? then Logged(cfg, out, x.provider.slug, x.target.modelName, x.key, x.call) else out;
      LogAll(cfg, out', tries[1..])
  }

  lemma {:induction false} ContinueLogs(cfg: Config, w: WorldView, alias: Alias, body: Body, tried: set<string>,
                                        last: ForwardResult, out: OutcomeView, script: nat -> Turn, k: nat)
    ensures var r := Continue(cfg, w, alias, body, tried, last, out, script, k);
            r.out == LogAll(cfg, out, r.tries)
    decreases TargetKeys(alias.targets) - tried, 0
  {
    MoveFacts(cfg, w, alias, body, tried, script(k).gaps);
    match NextMove(cfg, w, alias, body, tried, script(k).gaps)
    case Stop(_, _) =>
    case Pass(t, provider, w') =>
      ContinueLogs(cfg, w', alias, body, tried + {TargetKey(t)}, last, out, script, k + 1);
      var rest := Continue(cfg, w', alias, body, tried + {TargetKey(t)}, last, out, script, k + 1).tries;
      assert ([Skipped(t, provider, w')] + rest)[1..] == rest;
    case Go(t, provider, w', key, prepared) =>
      AttemptLogs(cfg, w', alias, t, provider, key, prepared, body, tried + {TargetKey(t)}, out, script, k);
  }

  lemma {:induction false} AttemptLogs(cfg: Config, w: WorldView, alias: Alias, target: AliasTarget, provider: Provider,
                                       key: Key, prepared: Body, body: Body, tried: set<string>, out: OutcomeView,
                                       script: nat -> Turn, k: nat)
    ensures var r := AttemptThen(cfg, w, alias, target, provider, key, prepared, body, tried, out, script, k);
            r.out == LogAll(cfg, out, r.tries)
    decreases TargetKeys(alias.targets) - tried, 1
  {
    var call := Call(cfg, w, provider, key, script(k));
    var this' := Called(target, provider, w, key, prepared, script(k), call);
    var c := ClassifyResult(call.result);
    var out' := Logged(cfg, out, provider.slug, target.modelName, key, call);
    if !call.result.wrote && ShouldFailover(c) {
      var w' := SoftMarked(cfg, call.world, provider.id, target.modelName, c);
      ContinueLogs(cfg, w', alias, body, tried, call.result, out', script, k + 1);
      var rest := Continue(cfg, w', alias, body, tried, call.result, out', script, k + 1).tries;
      assert ([this'] + rest)[1..] == rest;
    } else {
      assert [this'][1..] == [];
      FinalizeChangesNothing(out', call.result);
    }
  }

  lemma FinalizeChangesNothing(o: OutcomeView, r: ForwardResult)
    requires |o.attempts| >= 1 && o.status == ResultStatus(r) && o.errorClass == ClassName(ClassifyResult(r))
    requires o.attempts[|o.attempts| - 1].status == o.status && o.attempts[|o.attempts| - 1].failClass == o.errorClass
    ensures Finalized(o, r) == o
  {
    assert o.attempts[|o.attempts| - 1 := o.attempts[|o.attempts| - 1]] == o.attempts;
  }
}
