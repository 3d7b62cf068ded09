/** The cache of discovered models and of targets that drew a 404
    (internal/discovery/discovery.go). */
module Discovery {
  import opened Prelude
  import opened KeyPool
  import opened Store

  /** `fetchedAt` is None for Go's zero time: no refresh has succeeded yet. */
  datatype Entry = Entry(models: seq<string>, fetchedAt: Option<nat>, error: Option<string>)

  type Entries = map<string, Entry>
  type Marks = map<string, map<string, nat>>

  datatype CacheState = CacheState(entries: Entries, runtimeStale: Marks)

  const EMPTY := CacheState(map[], map[])

  /** The atomic steps other goroutines and the proxy take on the cache. */
  datatype Event =
    | RefreshOk(provider: string, models: seq<string>, at: nat)
    | RefreshFailed(provider: string, error: string)
    | Mark(provider: string, model: string, at: nat)
    | Remove(provider: string)

  function EntryOf(s: CacheState, p: string): Entry {
    if p in s.entries then s.entries[p] else Entry([], None, None)
  }

  function MarksOf(s: CacheState, p: string): map<string, nat> {
    if p in s.runtimeStale then s.runtimeStale[p] else map[]
  }

  /** The cache after one step. A failed refresh, for want of a key or of an answer, keeps models
      and time; only a successful one clears the marks; removal forgets the entry, not the marks. */
  function Apply(s: CacheState, e: Event): CacheState {
    match e
    case RefreshOk(p, models, at) =>
      CacheState(
        s.entries[p := Entry(models, Some(at), None)],
        if p in s.runtimeStale then s.runtimeStale[p := map[]] else s.runtimeStale)
    case RefreshFailed(p, error) =>
      s.(entries := s.entries[p := EntryOf(s, p).(error := Some(error))])
    case Mark(p, m, at) =>
      s.(runtimeStale := s.runtimeStale[p := MarksOf(s, p)[m := at]])
    case Remove(p) =>
      s.(entries := s.entries - {p})
  }

  function Replay(s: CacheState, history: seq<Event>): CacheState {
    if history == [] then s
    else Apply(Replay(s, history[..|history| - 1]), history[|history| - 1])
  }

  predicate Discovered(s: CacheState, p: string) {
    p in s.entries && !(s.entries[p].fetchedAt.None? && s.entries[p].models == [])
  }

  predicate Known(s: CacheState, p: string) {
    Discovered(s, p) || p in s.runtimeStale
  }

  predicate Live(s: CacheState, p: string, m: string) {
    Discovered(s, p) && m in s.entries[p].models && m !in MarksOf(s, p)
  }

  predicate IsStale(s: CacheState, p: string, m: string) {
    Known(s, p) && !Live(s, p, m)
  }

  datatype StaleTarget = StaleTarget(aliasID: string, aliasName: string, target: AliasTarget)

  function StaleOf(s: CacheState, alias: Alias, targets: seq<AliasTarget>): seq<StaleTarget> {
    if targets == [] then []
    else
      var rest := StaleOf(s, alias, targets[..|targets| - 1]);
      var t := targets[|targets| - 1];
      if IsStale(s, t.providerID, t.modelName) then rest + [StaleTarget(alias.id, alias.name, t)] else rest
  }

  function AllStale(s: CacheState, aliases: seq<Alias>): seq<StaleTarget> {
    if aliases == [] then []
    else
      var last := aliases[|aliases| - 1];
      AllStale(s, aliases[..|aliases| - 1]) + StaleOf(s, last, last.targets)
  }

  type KnownModels = map<string, map<string, bool>>

  ghost predicate Reflects(known: KnownModels, s: CacheState) {
    && (forall p :: p in known <==> Known(s, p))
    && (forall p, m | p in known :: (m in known[p] && known[p][m]) <==> Live(s, p, m))
  }

  class Cache {
    var entries: Entries
    var runtimeStale: Marks

    ghost function View(): CacheState
      reads this
    {
      CacheState(entries, runtimeStale)
    }

    constructor ()
      ensures View() == EMPTY
    {
      entries, runtimeStale := map[], map[];
    }

    method RemoveProvider(p: string)
      modifies this
      ensures View() == Apply(old(View()), Remove(p))
    {
      entries := entries - {p};
    }

    method MarkRuntimeStale(p: string, m: string, now: nat)
      modifies this
      ensures View() == Apply(old(View()), Mark(p, m, now))
    {
      if p !in runtimeStale {
        runtimeStale := runtimeStale[p := map[]];
      }
      var marks: map<string, nat> := runtimeStale[p];
      runtimeStale := runtimeStale[p := marks[m := now]];
    }

    method ClearRuntimeStaleFor(p: string)
      modifies this`runtimeStale
      ensures runtimeStale == if p in old(runtimeStale) then old(runtimeStale)[p := map[]] else old(runtimeStale)
    {
      if p in runtimeStale {
        runtimeStale := runtimeStale[p := map[]];
      }
    }

    /** One refresh: the row found for the provider (a failed query is an error), the pool's key for
        it, and what fetching its model list gave. */
    method RefreshProvider(p: string, row: Result<Option<Provider>, string>, key: Option<Key>,
                           fetched: Result<seq<string>, string>, now: nat)
      returns (r: Result<(), string>)
      modifies this
      ensures r.Ok? ==> fetched.Ok? && View() == Apply(old(View()), RefreshOk(p, fetched.value, now))
      ensures r.Err? && !(row.Ok? && row.value.Some? && row.value.value.enabled) ==> View() == old(View())
      ensures r.Err? && row.Ok? && row.value.Some? && row.value.value.enabled ==>
                exists why :: View() == Apply(old(View()), RefreshFailed(p, why))
      ensures r.Ok? <==> row.Ok? && row.value.Some? && row.value.value.enabled && key.Some? && fetched.Ok?
    {
      if row.Err? {
        return Err(row.error);
      }
      if row.value.None? {
        return Err("provider not found");
      }
      if !row.value.value.enabled {
        return Err("provider is disabled");
      }
      if key.None? {
        KeepPrevious(p, "no enabled API keys");
        return Err("no enabled API keys");
      }
      if fetched.Err? {
        KeepPrevious(p, fetched.error);
        return Err(fetched.error);
      }
      entries := entries[p := Entry(fetched.value, Some(now), None)];
      ClearRuntimeStaleFor(p);
      return Ok(());
    }

    method KeepPrevious(p: string, why: string)
      modifies this
      ensures View() == Apply(old(View()), RefreshFailed(p, why))
    {
      var prev := if p in entries then entries[p] else Entry([], None, None);
      entries := entries[p := Entry(prev.models, prev.fetchedAt, Some(why))];
    }

    method InjectRuntimeStale(before: KnownModels) returns (known: KnownModels)
      requires forall p :: p in before <==> Discovered(View(), p)
      requires forall p, m | p in before && p in entries ::
                 (m in before[p] && before[p][m]) <==> m in entries[p].models
      ensures Reflects(known, View())
    {
      known := before;
      var pids := runtimeStale.Keys;
      while pids != {}
        invariant pids <= runtimeStale.Keys
        invariant known.Keys == before.Keys + (runtimeStale.Keys - pids)
        invariant forall p, m | p in known ::
                    (m in known[p] && known[p][m]) <==>
                    && Discovered(View(), p) && m in entries[p].models
                    && !(p in runtimeStale && p !in pids && m in runtimeStale[p])
        decreases pids
      {
        var pid :| pid in pids;
        if pid !in known {
          known := known[pid := map[]];
        }
        var flags := known[pid];
        var models := runtimeStale[pid].Keys;
        while models != {}
          invariant models <= runtimeStale[pid].Keys
          invariant forall m :: (m in flags && flags[m]) <==>
                                && Discovered(View(), pid) && m in entries[pid].models
                                && !(m in runtimeStale[pid] && m !in models)
          decreases models
        {
          var m :| m in models;
          flags := flags[m := false];
          models := models - {m};
        }
        known := known[pid := flags];
        pids := pids - {pid};
      }
    }

    /** The section of `StaleTargets` under the read lock. */
    method KnownByProvider() returns (known: KnownModels)
      ensures Reflects(known, View())
    {
      known := map[];
      var pids := entries.Keys;
      while pids != {}
        invariant pids <= entries.Keys
        invariant forall p :: p in known <==> p in entries && p !in pids && Discovered(View(), p)
        invariant forall p, m | p in known :: (m in known[p] && known[p][m]) <==> m in entries[p].models
        decreases pids
      {
        var pid :| pid in pids;
        pids := pids - {pid};
        var e := entries[pid];
        if e.fetchedAt.None? && |e.models| == 0 {
          continue;
        }
        var flags: map<string, bool> := map[];
        for i := 0 to |e.models|
          invariant forall m :: (m in flags && flags[m]) <==> m in e.models[..i]
        {
          flags := flags[e.models[i] := true];
        }
        assert e.models[..|e.models|] == e.models;
        known := known[pid := flags];
      }
      known := InjectRuntimeStale(known);
    }
  }

  /** The part of `StaleTargets` after the lock is released: it walks whatever the alias query then
      answers, and reports nothing when that query fails. */
  method StaleTargets(ghost s: CacheState, known: KnownModels, aliases: Option<seq<Alias>>)
    returns (stale: seq<StaleTarget>)
    requires Reflects(known, s)
    ensures stale == if aliases.Some? then AllStale(s, aliases.value) else []
  {
    stale := [];
    if aliases.None? {
      return;
    }
    var rows := aliases.value;
    for a := 0 to |rows|
      invariant stale == AllStale(s, rows[..a])
    {
      assert rows[..a + 1][..a] == rows[..a];
      var alias := rows[a];
      ghost var before := stale;
      for i := 0 to |alias.targets|
        invariant stale == before + StaleOf(s, alias, alias.targets[..i])
      {
        assert alias.targets[..i + 1][..i] == alias.targets[..i];
        var t := alias.targets[i];
        if t.providerID !in known {
          continue;
        }
        if !(t.modelName in known[t.providerID] && known[t.providerID][t.modelName]) {
          stale := stale + [StaleTarget(alias.id, alias.name, t)];
        }
      }
      assert alias.targets[..|alias.targets|] == alias.targets;
    }
    assert rows[..|rows|] == rows;
  }

  // ---------- what the report means ----------

  lemma {:induction false} StaleOfIsExact(s: CacheState, alias: Alias, targets: seq<AliasTarget>, st: StaleTarget)
    ensures st in StaleOf(s, alias, targets) <==>
            && st.aliasID == alias.id && st.aliasName == alias.name
            && st.target in targets && IsStale(s, st.target.providerID, st.target.modelName)
  {
    if targets != [] {
      var n := |targets| - 1;
      StaleOfIsExact(s, alias, targets[..n], st);
      assert targets == targets[..n] + [targets[n]];
    }
  }

  /** `StaleTargets` reports a target exactly when some listed alias has it and the cache holds it
      stale. */
  lemma {:induction false} AllStaleIsExact(s: CacheState, aliases: seq<Alias>, st: StaleTarget)
    ensures st in AllStale(s, aliases) <==>
            exists a | a in aliases ::
              && st.aliasID == a.id && st.aliasName == a.name
              && st.target in a.targets && IsStale(s, st.target.providerID, st.target.modelName)
  {
    if aliases != [] {
      var n := |aliases| - 1;
      AllStaleIsExact(s, aliases[..n], st);
      StaleOfIsExact(s, aliases[n], aliases[n].targets, st);
      assert aliases == aliases[..n] + [aliases[n]];
    }
  }

  // ---------- refinement: the cache against its history ----------

  /** The last successful refresh of `p` since it was last removed. */
  function LastGood(history: seq<Event>, p: string): Option<Event> {
    if history == [] then None
    else
      var e := history[|history| - 1];
      if e.RefreshOk? && e.provider == p then Some(e)
      else if e.Remove? && e.provider == p then None
      else LastGood(history[..|history| - 1], p)
  }

  /** Some step marked (p, m) and no refresh of p succeeded after it. */
  ghost predicate MarkPending(history: seq<Event>, p: string, m: string) {
    exists i | 0 <= i < |history| ::
      && history[i].Mark? && history[i].provider == p && history[i].model == m
      && forall j | i < j < |history| :: !GoodRefresh(history[j], p)
  }

  predicate GoodRefresh(e: Event, p: string) {
    e.RefreshOk? && e.provider == p
  }

  predicate NoGoodRefresh(history: seq<Event>, p: string) {
    forall i | 0 <= i < |history| :: !GoodRefresh(history[i], p)
  }

  ghost predicate EverMarked(history: seq<Event>, p: string) {
    exists i | 0 <= i < |history| :: history[i].Mark? && history[i].provider == p
  }

  lemma {:induction false} EntriesRefineHistory(history: seq<Event>, p: string)
    ensures var e := EntryOf(Replay(EMPTY, history), p);
            match LastGood(history, p)
            case Some(good) => good.RefreshOk? && e.models == good.models && e.fetchedAt == Some(good.at)
            case None => e.models == [] && e.fetchedAt == None
    ensures Discovered(Replay(EMPTY, history), p) <==> LastGood(history, p).Some?
  {
    if history != [] {
      EntriesRefineHistory(history[..|history| - 1], p);
    }
  }

  lemma {:induction false} MarksRefineHistory(history: seq<Event>, p: string, m: string)
    ensures p in Replay(EMPTY, history).runtimeStale <==> EverMarked(history, p)
    ensures m in MarksOf(Replay(EMPTY, history), p) <==> MarkPending(history, p, m)
  {
    if history != [] {
      var n := |history| - 1;
      var before, e := history[..n], history[n];
      MarksRefineHistory(before, p, m);
      assert forall i | 0 <= i < n :: before[i] == history[i];
      MarkPendingExtends(before, e, p, m);
      assert before + [e] == history;
    }
  }

  lemma MarkPendingExtends(before: seq<Event>, e: Event, p: string, m: string)
    ensures MarkPending(before + [e], p, m) <==>
            || (e.Mark? && e.provider == p && e.model == m)
            || (MarkPending(before, p, m) && !GoodRefresh(e, p))
  {
    var h, n := before + [e], |before|;
    assert h[n] == e && forall j | 0 <= j < n :: h[j] == before[j];
    if MarkPending(before, p, m) && !GoodRefresh(e, p) {
      var i :| 0 <= i < n && before[i].Mark? && before[i].provider == p && before[i].model == m
               && forall j | i < j < n :: !GoodRefresh(before[j], p);
      assert h[i].Mark?;
    }
    if MarkPending(h, p, m) && !(e.Mark? && e.provider == p && e.model == m) {
      var i :| 0 <= i < |h| && h[i].Mark? && h[i].provider == p && h[i].model == m
               && forall j | i < j < |h| :: !GoodRefresh(h[j], p);
      assert before[i].Mark?;
    }
  }

  /** Exactly when a pair is stale, in terms of what happened: the provider has been discovered or
      ever marked, and the pair is not both listed by the last good refresh and free of a pending
      404. A first 404 on a provider never discovered thus makes all its models stale. */
  lemma StaleIffHistory(history: seq<Event>, p: string, m: string)
    ensures IsStale(Replay(EMPTY, history), p, m) <==>
            && (LastGood(history, p).Some? || EverMarked(history, p))
            && !(LastGood(history, p).Some? && LastGood(history, p).value.RefreshOk?
                 && m in LastGood(history, p).value.models && !MarkPending(history, p, m))
  {
    EntriesRefineHistory(history, p);
    MarksRefineHistory(history, p, m);
  }

  /** What the documentation promises of a 404, that it makes stale the one pair that drew it,
      holds exactly for providers with a successful refresh since their last removal, or already
      marked before: otherwise every other model of the provider turns stale with it. */
  lemma MarkTouchesOnePairIff(history: seq<Event>, p: string, m: string, at: nat)
    ensures var s := Replay(EMPTY, history);
            var after := Apply(s, Mark(p, m, at));
            && IsStale(after, p, m)
            && (forall q, k | q != p :: IsStale(after, q, k) <==> IsStale(s, q, k))
            && ((forall k | k != m :: IsStale(after, p, k) <==> IsStale(s, p, k)) <==>
                LastGood(history, p).Some? || EverMarked(history, p))
  {
    var s := Replay(EMPTY, history);
    var after := Apply(s, Mark(p, m, at));
    EntriesRefineHistory(history, p);
    MarksRefineHistory(history, p, m);
    if !Known(s, p) {
      var k := m + "x";
      assert k != m && IsStale(after, p, k) && !IsStale(s, p, k);
    }
  }

  /** Such a first 404: with nothing known, one on the model m makes another one stale too. */
  lemma FirstMarkSpreads(p: string, m: string, other: string, at: nat)
    requires other != m
    ensures !IsStale(EMPTY, p, other) && IsStale(Apply(EMPTY, Mark(p, m, at)), p, other)
  {
  }

  /** A marked pair stays stale through every step but a later successful refresh of its provider. */
  lemma {:induction false} MarkLasts(s: CacheState, p: string, m: string, later: seq<Event>)
    requires m in MarksOf(s, p)
    requires NoGoodRefresh(later, p)
    ensures m in MarksOf(Replay(s, later), p)
    ensures IsStale(Replay(s, later), p, m)
  {
    if later != [] {
      var n := |later| - 1;
      assert forall i | 0 <= i < n :: later[..n][i] == later[i];
      MarkLasts(s, p, m, later[..n]);
    }
  }
}
