/** What a failover run does to the shared state, and what that state does to the run: cooling keys,
    soft-stale marks, and the order of targets. */
module FailoverState {
  import opened Prelude
  import opened KeyPool
  import opened Store
  import opened World
  import opened Routing
  import opened Proxy
  import opened Failover
  import Discovery

  function StepsOf(turn: Turn): seq<EnvStep> {
    turn.gaps.beforeCache + turn.gaps.beforeAliases + turn.gaps.beforeProviders + turn.gaps.beforeKey
    + turn.beforeReply + turn.afterReply
  }

  lemma {:induction false} EnvConcat(w: WorldView, d: int, a: seq<EnvStep>, b: seq<EnvStep>)
    ensures EnvAll(EnvAll(w, d, a), d, b) == EnvAll(w, d, a + b)
  {
    if b == [] {
      assert a + b == a;
    } else {
      var n := |b| - 1;
      EnvConcat(w, d, a, b[..n]);
      assert (a + b)[..|a + b| - 1] == a + b[..n];
    }
  }

  /** The world a round's move is made in is reached by steps of its turn alone. */
  lemma MoveEvolves(cfg: Config, w: WorldView, alias: Alias, body: Body, tried: set<string>, turn: Turn)
    returns (steps: seq<EnvStep>)
    ensures NextMove(cfg, w, alias, body, tried, turn.gaps).world == EnvAll(w, cfg.cooldown, steps)
    ensures forall e | e in steps :: e in StepsOf(turn)
  {
    var g, d := turn.gaps, cfg.cooldown;
    EnvConcat(w, d, g.beforeCache, g.beforeAliases);
    EnvConcat(w, d, g.beforeCache + g.beforeAliases, g.beforeProviders);
    EnvConcat(w, d, g.beforeCache + g.beforeAliases + g.beforeProviders, g.beforeKey);
    if NextMove(cfg, w, alias, body, tried, g).world == AtProviders(w, d, g) {
      return g.beforeCache + g.beforeAliases + g.beforeProviders;
    }
    return g.beforeCache + g.beforeAliases + g.beforeProviders + g.beforeKey;
  }

  // ---------- a key that answered 429 or 5xx is left alone until its cooldown ends ----------

  /** Nobody reloads the pool from turn k on. */
  ghost predicate NoReloadFrom(script: nat -> Turn, k: nat) {
    forall j | j >= k :: ReloadPool !in StepsOf(script(j))
  }

  ghost predicate Guarded(w: WorldView, cooldown: int, p: string, id: string, until: int) {
    UniqueIds(w.pool) && Cooling(w.pool, p, id, until) && until <= w.now + cooldown
  }

  lemma {:induction false} EnvGuarded(w: WorldView, d: int, steps: seq<EnvStep>, p: string, id: string, until: int)
    requires ReloadPool !in steps && UniqueIds(w.pool)
    ensures var w' := EnvAll(w, d, steps);
            UniqueIds(w'.pool) && w'.now >= w.now && (Guarded(w, d, p, id, until) ==> Guarded(w', d, p, id, until))
  {
    if steps != [] {
      var n := |steps| - 1;
      EnvGuarded(w, d, steps[..n], p, id, until);
      var w1 := EnvAll(w, d, steps[..n]);
      assert steps[n] in steps;
      if steps[n].CoolKey? {
        CooledEffect(w1.pool, steps[n].provider, steps[n].id, w1.now + d);
      }
    }
  }

  lemma CallGuarded(cfg: Config, w: WorldView, provider: Provider, key: Key, turn: Turn, p: string, id: string,
                    until: int)
    requires ReloadPool !in StepsOf(turn) && Guarded(w, cfg.cooldown, p, id, until)
    ensures Guarded(Call(cfg, w, provider, key, turn).world, cfg.cooldown, p, id, until)
  {
    var w1 := AtReply(cfg, w, turn);
    EnvGuarded(w, cfg.cooldown, turn.beforeReply, p, id, until);
    CooledEffect(w1.pool, provider.id, key.id, w1.now + cfg.cooldown);
    var w2 := if Cools(cfg.mode, provider, turn.reply)
              then w1.(pool := Cooled(w1.pool, provider.id, key.id, w1.now + cfg.cooldown)) else w1;
    EnvGuarded(w2, cfg.cooldown, turn.afterReply, p, id, until);
  }

  /** A call whose answer cools its key, in a pool that nobody reloads before the call returns. */
  ghost predicate CoolsForGood(cfg: Config, x: Try) {
    && x.Called? && Cools(cfg.mode, x.provider, x.turn.reply)
    && UniqueIds(AtReply(cfg, x.world, x.turn).pool) && ReloadPool !in x.turn.afterReply
  }

  lemma CoolGuards(cfg: Config, x: Try)
    requires CoolsForGood(cfg, x)
    ensures var until := AtReply(cfg, x.world, x.turn).now + cfg.cooldown;
            Guarded(Call(cfg, x.world, x.provider, x.key, x.turn).world, cfg.cooldown, x.provider.id, x.key.id, until)
  {
    var w1 := AtReply(cfg, x.world, x.turn);
    var until := w1.now + cfg.cooldown;
    CooledEffect(w1.pool, x.provider.id, x.key.id, until);
    EnvGuarded(w1.(pool := Cooled(w1.pool, x.provider.id, x.key.id, until)), cfg.cooldown, x.turn.afterReply,
               x.provider.id, x.key.id, until);
  }

  /** The call does not use key `id` of provider p before `until`. */
  ghost predicate Avoids(x: Try, p: string, id: string, until: int) {
    x.Called? && x.target.providerID == p && x.world.now < until ==> x.key.id != id
  }

  lemma {:induction false} ContinueAvoids(cfg: Config, w: WorldView, alias: Alias, body: Body, tried: set<string>,
                                          last: ForwardResult, out: OutcomeView, script: nat -> Turn, k: nat,
                                          p: string, id: string, until: int)
    requires NoReloadFrom(script, k) && Guarded(w, cfg.cooldown, p, id, until)
    ensures forall x | x in Continue(cfg, w, alias, body, tried, last, out, script, k).tries :: Avoids(x, p, id, until)
    decreases TargetKeys(alias.targets) - tried, 0
  {
    MoveFacts(cfg, w, alias, body, tried, script(k).gaps);
    var steps := MoveEvolves(cfg, w, alias, body, tried, script(k));
    EnvGuarded(w, cfg.cooldown, steps, p, id, until);
    match NextMove(cfg, w, alias, body, tried, script(k).gaps)
    case Stop(_, _) =>
    case Pass(t, _, w') =>
      ContinueAvoids(cfg, w', alias, body, tried + {TargetKey(t)}, last, out, script, k + 1, p, id, until);
    case Go(t, provider, w', key, prepared) =>
      if t.providerID == p && w'.now < until {
        CoolingNotUsable(w'.pool, p, id, until, w'.now);
      }
      AttemptAvoids(cfg, w', alias, t, provider, key, prepared, body, tried + {TargetKey(t)}, out, script, k, p, id,
                    until);
  }

  lemma {:induction false} AttemptAvoids(cfg: Config, w: WorldView, alias: Alias, target: AliasTarget,
                                         provider: Provider, key: Key, prepared: Body, body: Body, tried: set<string>,
                                         out: OutcomeView, script: nat -> Turn, k: nat, p: string, id: string,
                                         until: int)
    requires NoReloadFrom(script, k) && Guarded(w, cfg.cooldown, p, id, until)
    requires target.providerID == p && w.now < until ==> key.id != id
    ensures var r := AttemptThen(cfg, w, alias, target, provider, key, prepared, body, tried, out, script, k);
            forall x | x in r.tries :: Avoids(x, p, id, until)
    decreases TargetKeys(alias.targets) - tried, 1
  {
    var call := Call(cfg, w, provider, key, script(k));
    var c := ClassifyResult(call.result);
    CallGuarded(cfg, w, provider, key, script(k), p, id, until);
    if !call.result.wrote && ShouldFailover(c) {
      ContinueAvoids(cfg, SoftMarked(cfg, call.world, provider.id, target.modelName, c), alias, body, tried,
                     call.result, Logged(cfg, out, provider.slug, target.modelName, key, call), script, k + 1, p, id,
                     until);
    }
  }

  /** After a cooling answer, and with no reload of the pool after it, the later calls of the run, whose
      tries begin with turn k, avoid the key until the cooldown ends. */
  ghost predicate CoolsThenAvoids(cfg: Config, script: nat -> Turn, k: nat, tries: seq<Try>) {
    forall i, j | 0 <= i < j < |tries| && CoolsForGood(cfg, tries[i]) && NoReloadFrom(script, k + i + 1) ::
      Avoids(tries[j], tries[i].provider.id, tries[i].key.id,
             AtReply(cfg, tries[i].world, tries[i].turn).now + cfg.cooldown)
  }

  lemma CoolsThenAvoidsCons(cfg: Config, script: nat -> Turn, k: nat, x: Try, rest: seq<Try>)
    requires CoolsThenAvoids(cfg, script, k + 1, rest)
    requires CoolsForGood(cfg, x) && NoReloadFrom(script, k + 1) ==>
               forall y | y in rest ::
                 Avoids(y, x.provider.id, x.key.id, AtReply(cfg, x.world, x.turn).now + cfg.cooldown)
    ensures CoolsThenAvoids(cfg, script, k, [x] + rest)
  {
    var all := [x] + rest;
    forall i, j | 0 <= i < j < |all| && CoolsForGood(cfg, all[i]) && NoReloadFrom(script, k + i + 1)
      ensures Avoids(all[j], all[i].provider.id, all[i].key.id,
                     AtReply(cfg, all[i].world, all[i].turn).now + cfg.cooldown)
    {
      assert all[j] == rest[j - 1] && rest[j - 1] in rest;
      if i > 0 {
        assert all[i] == rest[i - 1] && k + i + 1 == (k + 1) + (i - 1) + 1;
      }
    }
  }

  lemma {:induction false} ContinueCools(cfg: Config, w: WorldView, alias: Alias, body: Body, tried: set<string>,
                                         last: ForwardResult, out: OutcomeView, script: nat -> Turn, k: nat)
    ensures CoolsThenAvoids(cfg, script, k, Continue(cfg, w, alias, body, tried, last, out, script, k).tries)
    decreases TargetKeys(alias.targets) - tried, 0
  {
    MoveFacts(cfg, w, alias, body, tried, script(k).gaps);
    match NextMove(cfg, w, alias, body, tried, script(k).gaps)
    case Stop(_, _) =>
    case Pass(t, provider, w') =>
      ContinueCools(cfg, w', alias, body, tried + {TargetKey(t)}, last, out, script, k + 1);
      CoolsThenAvoidsCons(cfg, script, k, Skipped(t, provider, w'),
                          Continue(cfg, w', alias, body, tried + {TargetKey(t)}, last, out, script, k + 1).tries);
    case Go(t, provider, w', key, prepared) =>
      AttemptCools(cfg, w', alias, t, provider, key, prepared, body, tried + {TargetKey(t)}, out, script, k);
  }

  lemma {:induction false} AttemptCools(cfg: Config, w: WorldView, alias: Alias, target: AliasTarget,
                                        provider: Provider, key: Key, prepared: Body, body: Body, tried: set<string>,
                                        out: OutcomeView, script: nat -> Turn, k: nat)
    ensures CoolsThenAvoids(cfg, script, k,
                            AttemptThen(cfg, w, alias, target, provider, key, prepared, body, tried, out, script,
                                        k).tries)
    decreases TargetKeys(alias.targets) - tried, 1
  {
    var call := Call(cfg, w, provider, key, script(k));
    var this' := Called(target, provider, w, key, prepared, script(k), call);
    var c := ClassifyResult(call.result);
    if !call.result.wrote && ShouldFailover(c) {
      var w' := SoftMarked(cfg, call.world, provider.id, target.modelName, c);
      var out' := Logged(cfg, out, provider.slug, target.modelName, key, call);
      ContinueCools(cfg, w', alias, body, tried, call.result, out', script, k + 1);
      if CoolsForGood(cfg, this') && NoReloadFrom(script, k + 1) {
        CoolGuards(cfg, this');
        ContinueAvoids(cfg, w', alias, body, tried, call.result, out', script, k + 1, provider.id, key.id,
                       AtReply(cfg, w, script(k)).now + cfg.cooldown);
      }
      CoolsThenAvoidsCons(cfg, script, k, this',
                          Continue(cfg, w', alias, body, tried, call.result, out', script, k + 1).tries);
    }
  }

  /** A key whose upstream answered 429 or 5xx is not used again in the run before its cooldown ends,
      not even for another model of its provider, unless the pool is reloaded after that answer. */
  lemma CooledKeysRest(cfg: Config, w: WorldView, r: Resolved, alias: Alias, body: Body, out: OutcomeView,
                       script: nat -> Turn)
    ensures CoolsThenAvoids(cfg, script, 0, AliasRun(cfg, w, r, alias, body, out, script).tries)
  {
    AttemptCools(cfg, w, alias, TargetOf(r), r.provider, r.key, FirstBody(cfg, r, body), body, {TargetKey(TargetOf(r))},
                 out.(aliasName := alias.name), script, 0);
  }

  // ---------- soft-stale marks ----------

  ghost predicate Missing(x: Try, p: string, m: string) {
    && x.Called? && x.provider.id == p && x.target.modelName == m
    && !x.call.result.wrote && ClassifyResult(x.call.result) == ModelMissing
  }

  /** No refresh of p succeeds among the steps. */
  ghost predicate NoRefreshIn(steps: seq<EnvStep>, p: string) {
    forall e | e in steps && e.CacheStep? :: !Discovery.GoodRefresh(e.event, p)
  }

  ghost predicate CacheUntouched(steps: seq<EnvStep>) {
    forall e | e in steps :: !e.CacheStep?
  }

  ghost predicate IsMarked(w: WorldView, p: string, m: string) {
    m in Discovery.MarksOf(w.cache, p)
  }

  lemma {:induction false} EnvMarks(w: WorldView, d: int, steps: seq<EnvStep>, p: string, m: string)
    ensures NoRefreshIn(steps, p) && IsMarked(w, p, m) ==> IsMarked(EnvAll(w, d, steps), p, m)
    ensures CacheUntouched(steps) ==> EnvAll(w, d, steps).cache == w.cache
  {
    if steps != [] {
      var n := |steps| - 1;
      assert steps == steps[..n] + [steps[n]];
      EnvMarks(w, d, steps[..n], p, m);
    }
  }

  lemma CallMarks(cfg: Config, w: WorldView, provider: Provider, key: Key, turn: Turn, p: string, m: string)
    ensures var w' := Call(cfg, w, provider, key, turn).world;
            && (NoRefreshIn(StepsOf(turn), p) && IsMarked(w, p, m) ==> IsMarked(w', p, m))
            && (CacheUntouched(StepsOf(turn)) ==> w'.cache == w.cache)
  {
    var w1 := AtReply(cfg, w, turn);
    EnvMarks(w, cfg.cooldown, turn.beforeReply, p, m);
    var w2 := if Cools(cfg.mode, provider, turn.reply)
              then w1.(pool := Cooled(w1.pool, provider.id, key.id, w1.now + cfg.cooldown)) else w1;
    EnvMarks(w2, cfg.cooldown, turn.afterReply, p, m);
  }

  /** No refresh of p succeeds from turn k on. */
  ghost predicate NoRefreshFrom(script: nat -> Turn, k: nat, p: string) {
    forall j | j >= k :: NoRefreshIn(StepsOf(script(j)), p)
  }

  /** A mark that stands when turn k begins, and one that a later try adds, is there at the end of the
      run if no refresh of p succeeds after it. */
  ghost predicate MarksStand(cfg: Config, w: WorldView, script: nat -> Turn, k: nat, r: RunEnd, p: string, m: string) {
    && (NoRefreshFrom(script, k, p) && IsMarked(w, p, m) ==> IsMarked(r.world, p, m))
    && forall i | 0 <= i < |r.tries| ::
         cfg.hasCache && Missing(r.tries[i], p, m) && NoRefreshFrom(script, k + i + 1, p) ==> IsMarked(r.world, p, m)
  }

  lemma MarksStandCons(cfg: Config, w: WorldView, w': WorldView, script: nat -> Turn, k: nat, x: Try, rest: RunEnd,
                       p: string, m: string)
    requires NoRefreshFrom(script, k, p) && IsMarked(w, p, m) ==> IsMarked(w', p, m)
    requires cfg.hasCache && Missing(x, p, m) ==> IsMarked(w', p, m)
    requires MarksStand(cfg, w', script, k + 1, rest, p, m)
    ensures MarksStand(cfg, w, script, k, After([x], rest), p, m)
  {
    var r := After([x], rest);
    assert NoRefreshFrom(script, k, p) ==> NoRefreshFrom(script, k + 1, p);
    forall i | 0 <= i < |r.tries| && cfg.hasCache && Missing(r.tries[i], p, m) && NoRefreshFrom(script, k + i + 1, p)
      ensures IsMarked(r.world, p, m)
    {
      if i > 0 {
        assert r.tries[i] == rest.tries[i - 1] && k + i + 1 == (k + 1) + (i - 1) + 1;
      }
    }
  }

  lemma {:induction false} ContinueStands(cfg: Config, w: WorldView, alias: Alias, body: Body, tried: set<string>,
                                          last: ForwardResult, out: OutcomeView, script: nat -> Turn, k: nat, p: string,
                                          m: string)
    ensures MarksStand(cfg, w, script, k, Continue(cfg, w, alias, body, tried, last, out, script, k), p, m)
    decreases TargetKeys(alias.targets) - tried, 0
  {
    MoveFacts(cfg, w, alias, body, tried, script(k).gaps);
    var steps := MoveEvolves(cfg, w, alias, body, tried, script(k));
    assert NoRefreshIn(StepsOf(script(k)), p) ==> NoRefreshIn(steps, p);
    EnvMarks(w, cfg.cooldown, steps, p, m);
    match NextMove(cfg, w, alias, body, tried, script(k).gaps)
    case Stop(_, _) =>
    case Pass(t, provider, w') =>
      ContinueStands(cfg, w', alias, body, tried + {TargetKey(t)}, last, out, script, k + 1, p, m);
      MarksStandCons(cfg, w, w', script, k, Skipped(t, provider, w'),
                     Continue(cfg, w', alias, body, tried + {TargetKey(t)}, last, out, script, k + 1), p, m);
    case Go(t, provider, w', key, prepared) =>
      AttemptStands(cfg, w', alias, t, provider, key, prepared, body, tried + {TargetKey(t)}, out, script, k, p, m);
  }

  lemma {:induction false} AttemptStands(cfg: Config, w: WorldView, alias: Alias, target: AliasTarget,
                                         provider: Provider, key: Key, prepared: Body, body: Body, tried: set<string>,
                                         out: OutcomeView, script: nat -> Turn, k: nat, p: string, m: string)
    ensures MarksStand(cfg, w, script, k,
                       AttemptThen(cfg, w, alias, target, provider, key, prepared, body, tried, out, script, k), p, m)
    decreases TargetKeys(alias.targets) - tried, 1
  {
    var call := Call(cfg, w, provider, key, script(k));
    var c := ClassifyResult(call.result);
    CallMarks(cfg, w, provider, key, script(k), p, m);
    if !call.result.wrote && ShouldFailover(c) {
      var w' := SoftMarked(cfg, call.world, provider.id, target.modelName, c);
      var out' := Logged(cfg, out, provider.slug, target.modelName, key, call);
      ContinueStands(cfg, w', alias, body, tried, call.result, out', script, k + 1, p, m);
      MarksStandCons(cfg, w, w', script, k, Called(target, provider, w, key, prepared, script(k), call),
                     Continue(cfg, w', alias, body, tried, call.result, out', script, k + 1), p, m);
    }
  }

  /** Nothing is marked at the end but what was, and what the tries add; no entry changes. */
  ghost predicate MarksArise(cfg: Config, w: WorldView, r: RunEnd, p: string, m: string) {
    && r.world.cache.entries == w.cache.entries
    && (IsMarked(r.world, p, m) ==> IsMarked(w, p, m) || (cfg.hasCache && exists x | x in r.tries :: Missing(x, p, m)))
  }

  lemma MarksAriseCons(cfg: Config, w: WorldView, w': WorldView, x: Try, rest: RunEnd, p: string, m: string)
    requires w'.cache.entries == w.cache.entries
    requires IsMarked(w', p, m) ==> IsMarked(w, p, m) || (cfg.hasCache && Missing(x, p, m))
    requires MarksArise(cfg, w', rest, p, m)
    ensures MarksArise(cfg, w, After([x], rest), p, m)
  {
    var r := After([x], rest);
    assert r.tries[0] == x && forall y | y in rest.tries :: y in r.tries;
  }

  lemma {:induction false} ContinueArises(cfg: Config, w: WorldView, alias: Alias, body: Body, tried: set<string>,
                                          last: ForwardResult, out: OutcomeView, script: nat -> Turn, k: nat, p: string,
                                          m: string)
    requires forall k :: CacheUntouched(StepsOf(script(k)))
    ensures MarksArise(cfg, w, Continue(cfg, w, alias, body, tried, last, out, script, k), p, m)
    decreases TargetKeys(alias.targets) - tried, 0
  {
    MoveFacts(cfg, w, alias, body, tried, script(k).gaps);
    var steps := MoveEvolves(cfg, w, alias, body, tried, script(k));
    assert CacheUntouched(StepsOf(script(k))) && CacheUntouched(steps);
    EnvMarks(w, cfg.cooldown, steps, p, m);
    match NextMove(cfg, w, alias, body, tried, script(k).gaps)
    case Stop(_, _) =>
    case Pass(t, provider, w') =>
      ContinueArises(cfg, w', alias, body, tried + {TargetKey(t)}, last, out, script, k + 1, p, m);
      MarksAriseCons(cfg, w, w', Skipped(t, provider, w'),
                     Continue(cfg, w', alias, body, tried + {TargetKey(t)}, last, out, script, k + 1), p, m);
    case Go(t, provider, w', key, prepared) =>
      AttemptArises(cfg, w', alias, t, provider, key, prepared, body, tried + {TargetKey(t)}, out, script, k, p, m);
  }

  lemma {:induction false} AttemptArises(cfg: Config, w: WorldView, alias: Alias, target: AliasTarget,
                                         provider: Provider, key: Key, prepared: Body, body: Body, tried: set<string>,
                                         out: OutcomeView, script: nat -> Turn, k: nat, p: string, m: string)
    requires forall k :: CacheUntouched(StepsOf(script(k)))
    ensures MarksArise(cfg, w, AttemptThen(cfg, w, alias, target, provider, key, prepared, body, tried, out, script, k),
                       p, m)
    decreases TargetKeys(alias.targets) - tried, 1
  {
    var call := Call(cfg, w, provider, key, script(k));
    var c := ClassifyResult(call.result);
    assert CacheUntouched(StepsOf(script(k)));
    CallMarks(cfg, w, provider, key, script(k), p, m);
    if !call.result.wrote && ShouldFailover(c) {
      var w' := SoftMarked(cfg, call.world, provider.id, target.modelName, c);
      var out' := Logged(cfg, out, provider.slug, target.modelName, key, call);
      ContinueArises(cfg, w', alias, body, tried, call.result, out', script, k + 1, p, m);
      MarksAriseCons(cfg, w, w', Called(target, provider, w, key, prepared, script(k), call),
                     Continue(cfg, w', alias, body, tried, call.result, out', script, k + 1), p, m);
    }
  }

  /** A pair that drew a 404 in the run is stale when it ends, and stays so, whatever others do to the
      cache short of a successful refresh of its provider after that call. */
  lemma MissingTurnsStale(cfg: Config, w: WorldView, r: Resolved, alias: Alias, body: Body, out: OutcomeView,
                          script: nat -> Turn, i: nat, later: seq<Discovery.Event>)
    requires cfg.hasCache && i < |AliasRun(cfg, w, r, alias, body, out, script).tries|
    requires var x := AliasRun(cfg, w, r, alias, body, out, script).tries[i];
             && Missing(x, x.provider.id, x.target.modelName)
             && NoRefreshFrom(script, i + 1, x.provider.id) && Discovery.NoGoodRefresh(later, x.provider.id)
    ensures var run := AliasRun(cfg, w, r, alias, body, out, script);
            Discovery.IsStale(Discovery.Replay(run.world.cache, later), run.tries[i].provider.id,
                              run.tries[i].target.modelName)
  {
    var run := AliasRun(cfg, w, r, alias, body, out, script);
    var x := run.tries[i];
    AttemptStands(cfg, w, alias, TargetOf(r), r.provider, r.key, FirstBody(cfg, r, body), body,
                  {TargetKey(TargetOf(r))},
                  out.(aliasName := alias.name), script, 0, x.provider.id, x.target.modelName);
    Discovery.MarkLasts(run.world.cache, x.provider.id, x.target.modelName, later);
  }

  /** And so no later request, first choice or failover, takes the pair for an alias whose stored row
      still lists it, until a refresh of its provider succeeds. */
  lemma MissingNotSelectedAgain(cfg: Config, w: WorldView, r: Resolved, alias: Alias, body: Body, out: OutcomeView,
                                script: nat -> Turn, i: nat, later: seq<Discovery.Event>,
                                w2: WorldView, asked: Alias, row: Alias, tried: set<string>, g: Gaps)
    requires cfg.hasCache && i < |AliasRun(cfg, w, r, alias, body, out, script).tries|
    requires var x := AliasRun(cfg, w, r, alias, body, out, script).tries[i];
             && Missing(x, x.provider.id, x.target.modelName)
             && NoRefreshFrom(script, i + 1, x.provider.id) && Discovery.NoGoodRefresh(later, x.provider.id)
             && AliasTarget(x.provider.id, x.target.modelName) in row.targets
    requires AtCache(w2, cfg.cooldown, g).cache
             == Discovery.Replay(AliasRun(cfg, w, r, alias, body, out, script).world.cache, later)
    requires AtAliases(w2, cfg.cooldown, g).db.aliases.Some? && row in AtAliases(w2, cfg.cooldown, g).db.aliases.value
    requires row.id == asked.id
    ensures var x := AliasRun(cfg, w, r, alias, body, out, script).tries[i];
            var s := SurveyOf(w2, cfg.cooldown, asked.id, g);
            var t := AliasTarget(x.provider.id, x.target.modelName);
            t !in Active(s, asked.targets) && FirstUntried(s, asked.targets, tried) != Some(t)
  {
    var x := AliasRun(cfg, w, r, alias, body, out, script).tries[i];
    MissingTurnsStale(cfg, w, r, alias, body, out, script, i, later);
    StaleNeverSelected(w2, cfg.cooldown, asked, row, AliasTarget(x.provider.id, x.target.modelName), tried, g);
  }

  /** With no other hand on the cache, the pairs the run leaves marked beyond those it found are
      exactly those whose call was answered 404. */
  lemma MarksAreMissing(cfg: Config, w: WorldView, r: Resolved, alias: Alias, body: Body, out: OutcomeView,
                        script: nat -> Turn)
    requires forall k :: CacheUntouched(StepsOf(script(k)))
    ensures var run := AliasRun(cfg, w, r, alias, body, out, script);
            && run.world.cache.entries == w.cache.entries
            && forall p, m :: IsMarked(run.world, p, m) <==>
                 IsMarked(w, p, m) || (cfg.hasCache && exists x | x in run.tries :: Missing(x, p, m))
  {
    var run := AliasRun(cfg, w, r, alias, body, out, script);
    forall p, m
      ensures MarksArise(cfg, w, run, p, m) && MarksStand(cfg, w, script, 0, run, p, m)
    {
      AttemptArises(cfg, w, alias, TargetOf(r), r.provider, r.key, FirstBody(cfg, r, body), body,
                    {TargetKey(TargetOf(r))},
                    out.(aliasName := alias.name), script, 0, p, m);
      AttemptStands(cfg, w, alias, TargetOf(r), r.provider, r.key, FirstBody(cfg, r, body), body,
                    {TargetKey(TargetOf(r))},
                    out.(aliasName := alias.name), script, 0, p, m);
    }
    forall p, k: nat
      ensures NoRefreshFrom(script, k, p)
    {
      assert forall j :: CacheUntouched(StepsOf(script(j)));
    }
    assert MarksArise(cfg, w, run, "", "");
    forall p, m
      ensures IsMarked(run.world, p, m) <==>
                IsMarked(w, p, m) || (cfg.hasCache && exists x | x in run.tries :: Missing(x, p, m))
    {
      assert MarksArise(cfg, w, run, p, m) && MarksStand(cfg, w, script, 0, run, p, m) && NoRefreshFrom(script, 0, p);
      forall x | x in run.tries && cfg.hasCache && Missing(x, p, m)
        ensures IsMarked(run.world, p, m)
      {
        var i :| 0 <= i < |run.tries| && run.tries[i] == x;
        assert NoRefreshFrom(script, i + 1, p);
      }
    }
  }

  // ---------- order ----------

  /** Nothing but the run itself changes the tables or the cache. */
  ghost predicate Still(steps: seq<EnvStep>) {
    forall e | e in steps :: !e.SetTables? && !e.CacheStep?
  }

  function StillSurvey(w: WorldView, aliasID: string): Survey {
    Survey(StaleKeys(w.cache, w.db.aliases, aliasID),
           match w.db.providers
           case None => None
           case Some(rows) => Some(ProviderMap(rows)))
  }

  lemma {:induction false} EnvStill(w: WorldView, d: int, steps: seq<EnvStep>)
    requires Still(steps)
    ensures var w' := EnvAll(w, d, steps);
            w'.db == w.db && w'.cache == w.cache
  {
    if steps != [] {
      var n := |steps| - 1;
      assert steps == steps[..n] + [steps[n]];
      EnvStill(w, d, steps[..n]);
    }
  }

  lemma SurveyStill(w: WorldView, d: int, aliasID: string, turn: Turn)
    requires Still(StepsOf(turn))
    ensures SurveyOf(w, d, aliasID, turn.gaps) == StillSurvey(w, aliasID)
  {
    EnvStill(w, d, turn.gaps.beforeCache);
    EnvStill(AtCache(w, d, turn.gaps), d, turn.gaps.beforeAliases);
    EnvStill(AtAliases(w, d, turn.gaps), d, turn.gaps.beforeProviders);
  }

  /** A mark can only take targets out of the running. */
  lemma MarkShrinks(cfg: Config, w: WorldView, p: string, m: string, c: FailClass, aliasID: string, t: AliasTarget)
    requires Eligible(StillSurvey(SoftMarked(cfg, w, p, m, c), aliasID), t)
    ensures Eligible(StillSurvey(w, aliasID), t)
  {
    var w' := SoftMarked(cfg, w, p, m, c);
    if w.db.aliases.Some? {
      var rows := w.db.aliases.value;
      forall st | st in Discovery.AllStale(w.cache, rows)
        ensures st in Discovery.AllStale(w'.cache, rows)
      {
        Discovery.AllStaleIsExact(w.cache, rows, st);
        Discovery.AllStaleIsExact(w'.cache, rows, st);
      }
    }
  }

  ghost predicate Behind(w: WorldView, alias: Alias, tried: set<string>, b: nat) {
    b <= |alias.targets| &&
    forall i | 0 <= i < b :: TargetKey(alias.targets[i]) in tried
      || !Eligible(StillSurvey(w, alias.id), alias.targets[i])
  }

  /** The targets tried stand in the list at strictly increasing positions, from b on. */
  ghost predicate Ascending(targets: seq<AliasTarget>, tries: seq<Try>, b: nat) {
    && (forall i | 0 <= i < |tries| :: b <= IndexOf(targets, tries[i].target) < |targets|)
    && (forall i, j | 0 <= i < j < |tries| :: IndexOf(targets, tries[i].target) < IndexOf(targets, tries[j].target))
  }

  lemma AscendingCons(targets: seq<AliasTarget>, x: Try, rest: seq<Try>, b: nat)
    requires b <= IndexOf(targets, x.target) < |targets|
    requires Ascending(targets, rest, IndexOf(targets, x.target) + 1)
    ensures Ascending(targets, [x] + rest, b)
  {
    var all := [x] + rest;
    assert forall i | 1 <= i < |all| :: all[i] == rest[i - 1];
  }

  lemma TakenIsNext(w: WorldView, alias: Alias, tried: set<string>, t: AliasTarget, provider: Provider, b: nat)
    requires Behind(w, alias, tried, b) && Takes(StillSurvey(w, alias.id), alias, tried, t, provider)
    ensures b <= IndexOf(alias.targets, t) < |alias.targets|
    ensures Behind(w, alias, tried + {TargetKey(t)}, IndexOf(alias.targets, t) + 1)
  {
    var s := StillSurvey(w, alias.id);
    FirstUntriedIsFirst(s, alias.targets, tried);
    var i :| 0 <= i < |alias.targets| && alias.targets[i] == t
             && forall j | 0 <= j < i :: TargetKey(alias.targets[j]) in tried || !Eligible(s, alias.targets[j]);
    IndexOfIs(alias.targets, t, i);
  }

  lemma {:induction false} ContinueAscends(cfg: Config, w: WorldView, alias: Alias, body: Body, tried: set<string>,
                                           last: ForwardResult, out: OutcomeView, script: nat -> Turn, k: nat, b: nat)
    requires (forall k :: Still(StepsOf(script(k)))) && Behind(w, alias, tried, b)
    ensures Ascending(alias.targets, Continue(cfg, w, alias, body, tried, last, out, script, k).tries, b)
    decreases TargetKeys(alias.targets) - tried, 0
  {
    MoveFacts(cfg, w, alias, body, tried, script(k).gaps);
    SurveyStill(w, cfg.cooldown, alias.id, script(k));
    var steps := MoveEvolves(cfg, w, alias, body, tried, script(k));
    assert Still(steps);
    EnvStill(w, cfg.cooldown, steps);
    match NextMove(cfg, w, alias, body, tried, script(k).gaps)
    case Stop(_, _) =>
    case Pass(t, provider, w') =>
      var at := IndexOf(alias.targets, t);
      TakenIsNext(w, alias, tried, t, provider, b);
      ContinueAscends(cfg, w', alias, body, tried + {TargetKey(t)}, last, out, script, k + 1, at + 1);
      AscendingCons(alias.targets, Skipped(t, provider, w'),
                    Continue(cfg, w', alias, body, tried + {TargetKey(t)}, last, out, script, k + 1).tries, b);
    case Go(t, provider, w', key, prepared) =>
      TakenIsNext(w, alias, tried, t, provider, b);
      AttemptAscends(cfg, w', alias, t, provider, key, prepared, body, tried + {TargetKey(t)}, out, script, k,
                     IndexOf(alias.targets, t) + 1);
      var r := AttemptThen(cfg, w', alias, t, provider, key, prepared, body, tried + {TargetKey(t)}, out, script, k);
      AscendingCons(alias.targets, r.tries[0], r.tries[1..], b);
      assert r.tries == [r.tries[0]] + r.tries[1..];
  }

  lemma {:induction false} AttemptAscends(cfg: Config, w: WorldView, alias: Alias, target: AliasTarget,
                                          provider: Provider, key: Key, prepared: Body, body: Body, tried: set<string>,
                                          out: OutcomeView, script: nat -> Turn, k: nat, b: nat)
    requires (forall k :: Still(StepsOf(script(k)))) && Behind(w, alias, tried, b)
    ensures var r := AttemptThen(cfg, w, alias, target, provider, key, prepared, body, tried, out, script, k);
            |r.tries| >= 1 && r.tries[0].target == target && Ascending(alias.targets, r.tries[1..], b)
    decreases TargetKeys(alias.targets) - tried, 1
  {
    var call := Call(cfg, w, provider, key, script(k));
    var c := ClassifyResult(call.result);
    CallStill(cfg, w, provider, key, script(k));
    if !call.result.wrote && ShouldFailover(c) {
      var w' := SoftMarked(cfg, call.world, provider.id, target.modelName, c);
      var out' := Logged(cfg, out, provider.slug, target.modelName, key, call);
      forall i | 0 <= i < b && Eligible(StillSurvey(w', alias.id), alias.targets[i])
        ensures TargetKey(alias.targets[i]) in tried
      {
        MarkShrinks(cfg, call.world, provider.id, target.modelName, c, alias.id, alias.targets[i]);
        assert StillSurvey(call.world, alias.id) == StillSurvey(w, alias.id);
      }
      ContinueAscends(cfg, w', alias, body, tried, call.result, out', script, k + 1, b);
      var r := AttemptThen(cfg, w, alias, target, provider, key, prepared, body, tried, out, script, k);
      assert r.tries[1..] == Continue(cfg, w', alias, body, tried, call.result, out', script, k + 1).tries;
    }
  }

  lemma CallStill(cfg: Config, w: WorldView, provider: Provider, key: Key, turn: Turn)
    requires Still(StepsOf(turn))
    ensures var w' := Call(cfg, w, provider, key, turn).world;
            w'.db == w.db && w'.cache == w.cache
  {
    EnvStill(w, cfg.cooldown, turn.beforeReply);
    var w1 := AtReply(cfg, w, turn);
    var w2 := if Cools(cfg.mode, provider, turn.reply)
              then w1.(pool := Cooled(w1.pool, provider.id, key.id, w1.now + cfg.cooldown)) else w1;
    EnvStill(w2, cfg.cooldown, turn.afterReply);
  }

  /** While nobody else changes the tables or the cache, the targets after the first are taken in
      strictly increasing list order. */
  lemma RetriesFollowListOrder(cfg: Config, w: WorldView, r: Resolved, alias: Alias, body: Body, out: OutcomeView,
                               script: nat -> Turn)
    requires forall k :: Still(StepsOf(script(k)))
    ensures Ascending(alias.targets, AliasRun(cfg, w, r, alias, body, out, script).tries[1..], 0)
  {
    var prepared := FirstBody(cfg, r, body);
    AttemptAscends(cfg, w, alias, TargetOf(r), r.provider, r.key, prepared, body, {TargetKey(TargetOf(r))},
                   out.(aliasName := alias.name), script, 0, 0);
  }
}
