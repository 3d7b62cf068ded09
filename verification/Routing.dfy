/** Resolving a directive to a first target and finding the next one after a failure
    (internal/routing/routing.go). */
module Routing {
  import opened Prelude
  import opened KeyPool
  import opened Store
  import opened World
  import Discovery

  datatype ResolveError =
    | ProviderNotFound | UnknownModel | AliasNoTargets | ProtocolMismatch | NoAPIKey | Database

  /** `routing` is empty for a direct `provider:model` directive. */
  datatype Resolved = Resolved(provider: Provider, key: Key, modelName: string, routing: string)

  /** What other goroutines do between the separate reads of one selection. */
  datatype Gaps = Gaps(
    beforeCache: seq<EnvStep>,
    beforeAliases: seq<EnvStep>,
    beforeProviders: seq<EnvStep>,
    beforeKey: seq<EnvStep>)

  /** What one selection gets to see: the stale keys of its alias and the provider table. */
  datatype Survey = Survey(stale: set<string>, providers: Option<map<string, Provider>>)

  function StaleKeys(s: Discovery.CacheState, aliases: Option<seq<Alias>>, aliasID: string): set<string> {
    if aliases.None? then {}
    else set st | st in Discovery.AllStale(s, aliases.value) && st.aliasID == aliasID :: TargetKey(st.target)
  }

  function AtCache(w: WorldView, d: int, g: Gaps): WorldView {
    EnvAll(w, d, g.beforeCache)
  }

  function AtAliases(w: WorldView, d: int, g: Gaps): WorldView {
    EnvAll(AtCache(w, d, g), d, g.beforeAliases)
  }

  function AtProviders(w: WorldView, d: int, g: Gaps): WorldView {
    EnvAll(AtAliases(w, d, g), d, g.beforeProviders)
  }

  function SurveyOf(w: WorldView, d: int, aliasID: string, g: Gaps): Survey {
    Survey(
      StaleKeys(AtCache(w, d, g).cache, AtAliases(w, d, g).db.aliases, aliasID),
      match AtProviders(w, d, g).db.providers
      case None => None
      case Some(rows) => Some(ProviderMap(rows)))
  }

  predicate Eligible(s: Survey, t: AliasTarget) {
    && s.providers.Some?
    && TargetKey(t) !in s.stale
    && t.providerID in s.providers.value
    && s.providers.value[t.providerID].enabled
  }

  function Active(s: Survey, targets: seq<AliasTarget>): seq<AliasTarget> {
    if targets == [] then []
    else
      var rest := Active(s, targets[..|targets| - 1]);
      var t := targets[|targets| - 1];
      if Eligible(s, t) then rest + [t] else rest
  }

  function FirstUntried(s: Survey, targets: seq<AliasTarget>, tried: set<string>): Option<AliasTarget> {
    if targets == [] then None
    else if TargetKey(targets[0]) !in tried && Eligible(s, targets[0]) then Some(targets[0])
    else FirstUntried(s, targets[1..], tried)
  }

  function PositionOf(rr: map<string, nat>, aliasID: string): nat {
    if aliasID in rr then rr[aliasID] else 0
  }

  /** Which of `n` active targets a selection takes; `draw` stands for the random number. */
  function Choice(routing: string, pos: nat, draw: nat, n: nat): (i: nat)
    requires n > 0
    ensures i < n
  {
    if routing == "round_robin" then pos % n
    else if routing == "random" then draw % n
    else 0
  }

  function NextPositions(rr: map<string, nat>, alias: Alias): map<string, nat> {
    if alias.routing == "round_robin" then rr[alias.id := PositionOf(rr, alias.id) + 1] else rr
  }

  function DirectResolution(w: WorldView, ref: string, modelName: string): Result<Resolved, ResolveError> {
    if w.db.providers.None? then Err(Database)
    else
      var rows := w.db.providers.value;
      var byID := FindProvider(rows, (p: Provider) => p.id == ref);
      var bySlug := if byID.Some? then byID else FindProvider(rows, (p: Provider) => p.slug == ref);
      var found := if bySlug.Some? then bySlug else FindProvider(rows, (p: Provider) => p.name == ref);
      if found.None? || !found.value.enabled then Err(ProviderNotFound)
      else if found.value.protocol.Unregistered? then Err(ProtocolMismatch)
      else
        match Usable(w.pool, found.value.id, w.now)
        case None => Err(NoAPIKey)
        case Some(key) => Ok(Resolved(found.value, key, modelName, ""))
  }

  datatype Resolution = Resolution(
    world: WorldView, positions: map<string, nat>, result: Result<Resolved, ResolveError>)

  function ResolutionOfAlias(w: WorldView, d: int, rr: map<string, nat>, name: string, draw: nat, g: Gaps): Resolution {
    if w.db.aliases.None? then Resolution(w, rr, Err(Database))
    else
      match FindAlias(w.db.aliases.value, name)
      case None => Resolution(w, rr, Err(UnknownModel))
      case Some(alias) =>
        if !alias.enabled then Resolution(w, rr, Err(UnknownModel))
        else
          var s := SurveyOf(w, d, alias.id, g);
          var seen := AtProviders(w, d, g);
          var active := Active(s, alias.targets);
          if s.providers.None? then Resolution(seen, rr, Err(Database))
          else if active == [] then Resolution(seen, rr, Err(AliasNoTargets))
          else
            var t := active[Choice(alias.routing, PositionOf(rr, alias.id), draw, |active|)];
            ActiveAreEligible(s, alias.targets, t);
            var w' := EnvAll(seen, d, g.beforeKey);
            var r := match Usable(w'.pool, t.providerID, w'.now)
                     case None => Err(NoAPIKey)
                     case Some(key) => Ok(Resolved(s.providers.value[t.providerID], key, t.modelName, alias.routing));
            Resolution(w', NextPositions(rr, alias), r)
  }

  function ResolutionOf(w: WorldView, d: int, rr: map<string, nat>, directive: string, draw: nat, g: Gaps): Resolution {
    var i := IndexOf(directive, ':');
    if i < |directive| then Resolution(w, rr, DirectResolution(w, directive[..i], directive[i + 1..]))
    else ResolutionOfAlias(w, d, rr, directive, draw, g)
  }

  class Selector {
    const world: World
    var rrPositions: map<string, nat>

    constructor (world: World)
      ensures this.world == world && rrPositions == map[]
    {
      this.world := world;
      rrPositions := map[];
    }

    method Resolve(directive: string, draw: nat, g: Gaps) returns (r: Result<Resolved, ResolveError>)
      modifies this, world, world.pool, world.cache
      ensures var e := ResolutionOf(old(world.View()), world.cooldown, old(rrPositions), directive, draw, g);
              r == e.result && rrPositions == e.positions && world.View() == e.world
    {
      var i := IndexOf(directive, ':');
      if i < |directive| {
        r := ResolveDirect(directive[..i], directive[i + 1..]);
      } else {
        r := ResolveAlias(directive, draw, g);
      }
    }

    method ResolveDirect(ref: string, modelName: string) returns (r: Result<Resolved, ResolveError>)
      ensures r == DirectResolution(world.View(), ref, modelName)
    {
      if world.db.providers.None? {
        return Err(Database);
      }
      var rows := world.db.providers.value;
      var found := FindProvider(rows, (p: Provider) => p.id == ref);
      if found.None? {
        found := FindProvider(rows, (p: Provider) => p.slug == ref);
      }
      if found.None? {
        found := FindProvider(rows, (p: Provider) => p.name == ref);
      }
      if found.None? || !found.value.enabled {
        return Err(ProviderNotFound);
      }
      if found.value.protocol.Unregistered? {
        return Err(ProtocolMismatch);
      }
      var key := world.pool.Get(found.value.id, world.now);
      if key.None? {
        return Err(NoAPIKey);
      }
      return Ok(Resolved(found.value, key.value, modelName, ""));
    }

    method ResolveAlias(name: string, draw: nat, g: Gaps) returns (r: Result<Resolved, ResolveError>)
      modifies this, world, world.pool, world.cache
      ensures var e := ResolutionOfAlias(old(world.View()), world.cooldown, old(rrPositions), name, draw, g);
              r == e.result && rrPositions == e.positions && world.View() == e.world
    {
      var found := LookupAlias(name);
      if found.Err? {
        return Err(Database);
      }
      if found.value.None? || !found.value.value.enabled {
        return Err(UnknownModel);
      }
      var alias := found.value.value;
      var staleSet, provMap := TakeSurvey(alias.id, g);
      if provMap.None? {
        return Err(Database);
      }
      ghost var s := Survey(staleSet, provMap);
      var active := [];
      for i := 0 to |alias.targets|
        invariant active == Active(s, alias.targets[..i])
      {
        assert alias.targets[..i + 1][..i] == alias.targets[..i];
        var t := alias.targets[i];
        if TargetKey(t) in staleSet {
          continue;
        }
        if t.providerID !in provMap.value || !provMap.value[t.providerID].enabled {
          continue;
        }
        active := active + [t];
      }
      assert alias.targets[..|alias.targets|] == alias.targets;
      if |active| == 0 {
        return Err(AliasNoTargets);
      }
      var target := SelectTarget(alias, active, draw);
      ActiveAreEligible(s, alias.targets, target);
      var prov := provMap.value[target.providerID];
      world.Interfere(g.beforeKey);
      var key := world.pool.Get(target.providerID, world.now);
      if key.None? {
        return Err(NoAPIKey);
      }
      return Ok(Resolved(prov, key.value, target.modelName, alias.routing));
    }

    method SelectTarget(alias: Alias, active: seq<AliasTarget>, draw: nat) returns (t: AliasTarget)
      requires |active| > 0
      modifies this
      ensures t == active[Choice(alias.routing, PositionOf(old(rrPositions), alias.id), draw, |active|)]
      ensures rrPositions == NextPositions(old(rrPositions), alias)
    {
      if alias.routing == "round_robin" {
        var pos := if alias.id in rrPositions then rrPositions[alias.id] else 0;
        rrPositions := rrPositions[alias.id := pos + 1];
        return active[pos % |active|];
      } else if alias.routing == "random" {
        return active[draw % |active|];
      }
      return active[0];
    }

    method LookupAlias(name: string) returns (r: Result<Option<Alias>, ResolveError>)
      ensures r == if world.db.aliases.None? then Err(Database) else Ok(FindAlias(world.db.aliases.value, name))
    {
      if world.db.aliases.None? {
        return Err(Database);
      }
      return Ok(FindAlias(world.db.aliases.value, name));
    }

    method BuildStaleSet(aliasID: string, g: Gaps) returns (stale: set<string>)
      modifies world, world.pool, world.cache
      ensures world.View() == AtAliases(old(world.View()), world.cooldown, g)
      ensures stale == StaleKeys(AtCache(old(world.View()), world.cooldown, g).cache, world.View().db.aliases, aliasID)
    {
      world.Interfere(g.beforeCache);
      ghost var s := world.cache.View();
      var known := world.cache.KnownByProvider();
      world.Interfere(g.beforeAliases);
      var listed := Discovery.StaleTargets(s, known, world.db.aliases);
      stale := {};
      for i := 0 to |listed|
        invariant stale == set st | st in listed[..i] && st.aliasID == aliasID :: TargetKey(st.target)
      {
        assert listed[..i + 1] == listed[..i] + [listed[i]];
        if listed[i].aliasID == aliasID {
          stale := stale + {TargetKey(listed[i].target)};
        }
      }
      assert listed[..|listed|] == listed;
    }

    method LoadProviderMap() returns (m: Option<map<string, Provider>>)
      ensures m == match world.db.providers case None => None case Some(rows) => Some(ProviderMap(rows))
    {
      if world.db.providers.None? {
        return None;
      }
      var rows := world.db.providers.value;
      var byID: map<string, Provider> := map[];
      for i := 0 to |rows|
        invariant byID == ProviderMap(rows[..i])
      {
        assert rows[..i + 1][..i] == rows[..i];
        byID := byID[rows[i].id := rows[i]];
      }
      assert rows[..|rows|] == rows;
      return Some(byID);
    }

    /** What both selections start from. */
    method TakeSurvey(aliasID: string, g: Gaps) returns (stale: set<string>, provMap: Option<map<string, Provider>>)
      modifies world, world.pool, world.cache
      ensures world.View() == AtProviders(old(world.View()), world.cooldown, g)
      ensures Survey(stale, provMap) == SurveyOf(old(world.View()), world.cooldown, aliasID, g)
    {
      stale := BuildStaleSet(aliasID, g);
      world.Interfere(g.beforeProviders);
      provMap := LoadProviderMap();
    }

    method NextFailoverTarget(alias: Alias, tried: set<string>, g: Gaps)
      returns (r: Result<(AliasTarget, Provider), ResolveError>)
      modifies world, world.pool, world.cache
      ensures world.View() == AtProviders(old(world.View()), world.cooldown, g)
      ensures var s := SurveyOf(old(world.View()), world.cooldown, alias.id, g);
              match FirstUntried(s, alias.targets, tried)
              case Some(t) =>
                s.providers.Some? && t.providerID in s.providers.value && r == Ok((t, s.providers.value[t.providerID]))
              case None => r == Err(if s.providers.None? then Database else AliasNoTargets)
    {
      var staleSet, provMap := TakeSurvey(alias.id, g);
      ghost var s := Survey(staleSet, provMap);
      if provMap.None? {
        NoneWithoutProviders(s, alias.targets, tried);
        return Err(Database);
      }
      for i := 0 to |alias.targets|
        invariant FirstUntried(s, alias.targets, tried) == FirstUntried(s, alias.targets[i..], tried)
      {
        var t := alias.targets[i];
        var key := TargetKey(t);
        if key in tried {
          continue;
        }
        if key in staleSet {
          continue;
        }
        if t.providerID !in provMap.value || !provMap.value[t.providerID].enabled {
          continue;
        }
        return Ok((t, provMap.value[t.providerID]));
      }
      return Err(AliasNoTargets);
    }
  }

  lemma {:induction false} NoneWithoutProviders(s: Survey, targets: seq<AliasTarget>, tried: set<string>)
    requires s.providers.None?
    ensures FirstUntried(s, targets, tried).None?
  {
    if targets != [] {
      NoneWithoutProviders(s, targets[1..], tried);
    }
  }

  lemma {:induction false} ActiveAreEligible(s: Survey, targets: seq<AliasTarget>, t: AliasTarget)
    ensures t in Active(s, targets) <==> t in targets && Eligible(s, t)
  {
    if targets != [] {
      var n := |targets| - 1;
      ActiveAreEligible(s, targets[..n], t);
      assert targets == targets[..n] + [targets[n]];
    }
  }

  lemma {:induction false} NoneUntried(s: Survey, targets: seq<AliasTarget>, tried: set<string>)
    ensures FirstUntried(s, targets, tried).None? <==>
            forall t | t in targets :: TargetKey(t) in tried || !Eligible(s, t)
  {
    if targets != [] {
      NoneUntried(s, targets[1..], tried);
      assert targets == [targets[0]] + targets[1..];
    }
  }

  /** The next target is the first one in list order that is untried and eligible; there is none
      exactly when every target was tried or is stale or has no enabled provider. */
  lemma {:induction false} FirstUntriedIsFirst(s: Survey, targets: seq<AliasTarget>, tried: set<string>)
    ensures FirstUntried(s, targets, tried).None? <==>
            forall t | t in targets :: TargetKey(t) in tried || !Eligible(s, t)
    ensures FirstUntried(s, targets, tried).Some? ==>
              exists i | 0 <= i < |targets| ::
                && targets[i] == FirstUntried(s, targets, tried).value
                && TargetKey(targets[i]) !in tried && Eligible(s, targets[i])
                && forall j | 0 <= j < i :: TargetKey(targets[j]) in tried || !Eligible(s, targets[j])
  {
    NoneUntried(s, targets, tried);
    if FirstUntried(s, targets, tried).Some? {
      var i := UntriedAt(s, targets, tried);
    }
  }

  lemma {:induction false} UntriedAt(s: Survey, targets: seq<AliasTarget>, tried: set<string>) returns (i: nat)
    requires FirstUntried(s, targets, tried).Some?
    ensures i < |targets| && targets[i] == FirstUntried(s, targets, tried).value
    ensures TargetKey(targets[i]) !in tried && Eligible(s, targets[i])
    ensures forall j | 0 <= j < i :: TargetKey(targets[j]) in tried || !Eligible(s, targets[j])
  {
    if TargetKey(targets[0]) !in tried && Eligible(s, targets[0]) {
      return 0;
    }
    var k := UntriedAt(s, targets[1..], tried);
    assert forall j | 1 <= j < k + 1 :: targets[j] == targets[1..][j - 1];
    return k + 1;
  }

  /** A stale pair is kept out of every selection for an alias whose stored row, as the stale report
      reads it, still lists the pair. The alias in hand may be an older copy: then it is not. */
  lemma StaleIsExcluded(w: WorldView, d: int, alias: Alias, row: Alias, t: AliasTarget, g: Gaps)
    requires AtAliases(w, d, g).db.aliases.Some?
    requires row in AtAliases(w, d, g).db.aliases.value && row.id == alias.id && t in row.targets
    requires Discovery.IsStale(AtCache(w, d, g).cache, t.providerID, t.modelName)
    ensures !Eligible(SurveyOf(w, d, alias.id, g), t)
  {
    var st := Discovery.StaleTarget(row.id, row.name, t);
    Discovery.AllStaleIsExact(AtCache(w, d, g).cache, AtAliases(w, d, g).db.aliases.value, st);
  }

  /** Some row stored for the alias lists a stale target under the key of t. */
  ghost predicate Reported(w: WorldView, d: int, aliasID: string, t: AliasTarget, g: Gaps) {
    var aliases := AtAliases(w, d, g).db.aliases;
    aliases.Some? &&
    exists row, x | row in aliases.value && x in row.targets ::
      row.id == aliasID && TargetKey(x) == TargetKey(t)
      && Discovery.IsStale(AtCache(w, d, g).cache, x.providerID, x.modelName)
  }

  /** What keeps a target out of a selection, exactly: no enabled provider in the table, or a row
      stored for the alias that lists its key as a stale target. When the alias query fails nothing
      counts as stale. */
  lemma EligibleIff(w: WorldView, d: int, aliasID: string, t: AliasTarget, g: Gaps)
    ensures var s := SurveyOf(w, d, aliasID, g);
            Eligible(s, t) <==>
              && s.providers.Some? && t.providerID in s.providers.value && s.providers.value[t.providerID].enabled
              && !Reported(w, d, aliasID, t, g)
  {
    var aliases, s := AtAliases(w, d, g).db.aliases, SurveyOf(w, d, aliasID, g);
    if aliases.Some? {
      var all := Discovery.AllStale(AtCache(w, d, g).cache, aliases.value);
      forall st
        ensures st in all <==>
                exists a | a in aliases.value ::
                  && st.aliasID == a.id && st.aliasName == a.name
                  && st.target in a.targets
                  && Discovery.IsStale(AtCache(w, d, g).cache, st.target.providerID, st.target.modelName)
      {
        Discovery.AllStaleIsExact(AtCache(w, d, g).cache, aliases.value, st);
      }
      if Reported(w, d, aliasID, t, g) {
        var row, x :| row in aliases.value && x in row.targets && row.id == aliasID && TargetKey(x) == TargetKey(t)
                      && Discovery.IsStale(AtCache(w, d, g).cache, x.providerID, x.modelName);
        assert Discovery.StaleTarget(row.id, row.name, x) in all;
      }
    }
  }

  /** Provider ids are generated without colons. */
  ghost predicate ColonFree(aliases: Option<seq<Alias>>) {
    aliases.Some? ==> forall a, t | a in aliases.value && t in a.targets :: ':' !in t.providerID
  }

  /** So a stale target of an enabled provider is kept out if and only if the alias query succeeds and
      a row stored for the alias still lists it: one listed by an older copy in hand alone is taken. */
  lemma StaleIsExcludedIff(w: WorldView, d: int, aliasID: string, t: AliasTarget, g: Gaps)
    requires ColonFree(AtAliases(w, d, g).db.aliases) && ':' !in t.providerID
    requires Discovery.IsStale(AtCache(w, d, g).cache, t.providerID, t.modelName)
    requires var s := SurveyOf(w, d, aliasID, g);
             s.providers.Some? && t.providerID in s.providers.value && s.providers.value[t.providerID].enabled
    ensures !Eligible(SurveyOf(w, d, aliasID, g), t) <==>
            var aliases := AtAliases(w, d, g).db.aliases;
            aliases.Some? && exists row | row in aliases.value :: row.id == aliasID && t in row.targets
  {
    EligibleIff(w, d, aliasID, t, g);
    var aliases := AtAliases(w, d, g).db.aliases;
    if aliases.Some? {
      forall row, x | row in aliases.value && x in row.targets && TargetKey(x) == TargetKey(t)
        ensures x == t
      {
        TargetKeyInjective(x, t);
      }
    }
  }

  /** Such a case: a copy in hand lists a pair that drew a 404, and the stored row no longer
      does, or cannot be read. Failover takes the pair again. */
  lemma StaleTakenHappens(pool: Keys, now: nat, readable: bool)
    ensures var t := AliasTarget("p", "m");
            var inHand := Alias("a", "fast", "failover", true, [t]);
            var stored := if readable then Some([inHand.(targets := [])]) else None;
            var cache := Discovery.Apply(Discovery.EMPTY, Discovery.Mark("p", "m", now));
            var w := WorldView(Tables(Some([Provider("p", "n", "s", OpenAI, true)]), stored, map[]), pool, cache, now);
            && Discovery.IsStale(cache, "p", "m")
            && FirstUntried(SurveyOf(w, 30, inHand.id, Gaps([], [], [], [])), inHand.targets, {}) == Some(t)
  {
    var t := AliasTarget("p", "m");
    var stored := if readable then Some([Alias("a", "fast", "failover", true, [])]) else None;
    var cache := Discovery.Apply(Discovery.EMPTY, Discovery.Mark("p", "m", now));
    var rows := [Provider("p", "n", "s", OpenAI, true)];
    var w := WorldView(Tables(Some(rows), stored, map[]), pool, cache, now);
    var g := Gaps([], [], [], []);
    ProviderMapById(rows);
    assert rows[0] in rows && "p" in ProviderMap(rows);
    EligibleIff(w, 30, "a", t, g);
  }

  /** Why a target is out of the running, as its row and the cache have it. */
  ghost predicate Unavailable(w: WorldView, d: int, t: AliasTarget, g: Gaps) {
    || Discovery.IsStale(AtCache(w, d, g).cache, t.providerID, t.modelName)
    || match AtProviders(w, d, g).db.providers
       case None => true
       case Some(rows) =>
         (forall p | p in rows :: p.id != t.providerID) || (exists p | p in rows :: p.id == t.providerID && !p.enabled)
  }

  lemma IneligibleIsUnavailable(w: WorldView, d: int, aliasID: string, t: AliasTarget, g: Gaps)
    requires ColonFree(AtAliases(w, d, g).db.aliases) && ':' !in t.providerID
    requires !Eligible(SurveyOf(w, d, aliasID, g), t)
    ensures Unavailable(w, d, t, g)
  {
    EligibleIff(w, d, aliasID, t, g);
    var rows := AtProviders(w, d, g).db.providers;
    if rows.Some? {
      ProviderMapById(rows.value);
    }
    if Reported(w, d, aliasID, t, g) {
      var aliases := AtAliases(w, d, g).db.aliases;
      var row, x :| row in aliases.value && x in row.targets && row.id == aliasID && TargetKey(x) == TargetKey(t)
                    && Discovery.IsStale(AtCache(w, d, g).cache, x.providerID, x.modelName);
      TargetKeyInjective(x, t);
    }
  }

  /** Neither the first selection nor a failover ever takes such a pair, by string key and so, ids
      being free of colons, as a pair. */
  lemma StaleNeverSelected(w: WorldView, d: int, alias: Alias, row: Alias, t: AliasTarget,
                           tried: set<string>, g: Gaps)
    requires AtAliases(w, d, g).db.aliases.Some?
    requires row in AtAliases(w, d, g).db.aliases.value && row.id == alias.id && t in row.targets
    requires Discovery.IsStale(AtCache(w, d, g).cache, t.providerID, t.modelName)
    ensures var s := SurveyOf(w, d, alias.id, g);
            && (forall x | x in Active(s, alias.targets) :: TargetKey(x) != TargetKey(t))
            && FirstUntried(s, alias.targets, tried) != Some(t)
  {
    var s := SurveyOf(w, d, alias.id, g);
    StaleIsExcluded(w, d, alias, row, t, g);
    var st := Discovery.StaleTarget(row.id, row.name, t);
    Discovery.AllStaleIsExact(AtCache(w, d, g).cache, AtAliases(w, d, g).db.aliases.value, st);
    assert TargetKey(t) in s.stale;
    forall x | x in Active(s, alias.targets)
      ensures TargetKey(x) != TargetKey(t)
    {
      ActiveAreEligible(s, alias.targets, x);
    }
    FirstUntriedIsFirst(s, alias.targets, tried);
  }

  lemma {:induction false} FindAliasFinds(aliases: seq<Alias>, name: string)
    ensures match FindAlias(aliases, name)
            case Some(a) => a in aliases && a.name == name
            case None => forall a | a in aliases :: a.name != name
  {
    if aliases != [] && aliases[0].name != name {
      FindAliasFinds(aliases[1..], name);
    }
  }

  lemma {:induction false} FindProviderFinds(providers: seq<Provider>, p: Provider -> bool)
    ensures match FindProvider(providers, p)
            case Some(x) => x in providers && p(x)
            case None => forall x | x in providers :: !p(x)
  {
    if providers != [] && !p(providers[0]) {
      FindProviderFinds(providers[1..], p);
    }
  }

  /** A resolved alias is enabled, and its target one of its own that is not stale; provider, model
      and key belong together, and the key is usable at that moment. It is refused for want of
      targets exactly when none is eligible. */
  lemma AliasResolutionIsSound(w: WorldView, d: int, rr: map<string, nat>, name: string, draw: nat, g: Gaps)
    requires w.db.aliases.Some?
    ensures var e := ResolutionOfAlias(w, d, rr, name, draw, g);
            match FindAlias(w.db.aliases.value, name)
            case None => e.result == Err(UnknownModel) && forall a | a in w.db.aliases.value :: a.name != name
            case Some(alias) =>
              && alias in w.db.aliases.value && alias.name == name
              && (e.result == Err(UnknownModel) <==> !alias.enabled)
              && (alias.enabled ==> ResolvesTo(alias, SurveyOf(w, d, alias.id, g), e))
  {
    FindAliasFinds(w.db.aliases.value, name);
    var found := FindAlias(w.db.aliases.value, name);
    if found.Some? && found.value.enabled {
      var alias, s := found.value, SurveyOf(w, d, found.value.id, g);
      forall t
        ensures t in Active(s, alias.targets) <==> t in alias.targets && Eligible(s, t)
      {
        ActiveAreEligible(s, alias.targets, t);
      }
      if s.providers.Some? {
        ProviderMapById(AtProviders(w, d, g).db.providers.value);
      }
      var active := Active(s, alias.targets);
      if s.providers.Some? && active != [] {
        var t := active[Choice(alias.routing, PositionOf(rr, alias.id), draw, |active|)];
        assert t in active && Eligible(s, t);
      }
    }
  }

  ghost predicate ResolvesTo(alias: Alias, s: Survey, e: Resolution) {
    && (e.result == Err(Database) <==> s.providers.None?)
    && (e.result == Err(AliasNoTargets) <==> s.providers.Some? && forall t | t in alias.targets :: !Eligible(s, t))
    && match e.result
       case Ok(r) =>
         && AliasTarget(r.provider.id, r.modelName) in alias.targets
         && Eligible(s, AliasTarget(r.provider.id, r.modelName))
         && r.provider == s.providers.value[r.provider.id] && r.provider.enabled
         && Usable(e.world.pool, r.provider.id, e.world.now) == Some(r.key)
         && r.routing == alias.routing
       case Err(NoAPIKey) =>
         exists t :: t in alias.targets && Eligible(s, t) && Usable(e.world.pool, t.providerID, e.world.now).None?
       case Err(_) => true
  }

  /** A directly named provider is taken by id before slug before name; it is answered for only when
      enabled, of a known protocol and with a usable key. */
  lemma DirectResolutionIsSound(w: WorldView, ref: string, modelName: string)
    requires w.db.providers.Some?
    ensures var rows := w.db.providers.value;
            match DirectResolution(w, ref, modelName)
            case Ok(r) =>
              && r.provider in rows && r.provider.enabled && !r.provider.protocol.Unregistered?
              && r.modelName == modelName && r.routing == ""
              && Usable(w.pool, r.provider.id, w.now) == Some(r.key)
              && (r.provider.id == ref || ((forall p | p in rows :: p.id != ref) &&
                   (r.provider.slug == ref || ((forall p | p in rows :: p.slug != ref) && r.provider.name == ref))))
            case Err(e) =>
              (forall p | p in rows && p.enabled :: p.id != ref && p.slug != ref && p.name != ref) ==>
                e == ProviderNotFound
  {
    var rows := w.db.providers.value;
    FindProviderFinds(rows, (p: Provider) => p.id == ref);
    FindProviderFinds(rows, (p: Provider) => p.slug == ref);
    FindProviderFinds(rows, (p: Provider) => p.name == ref);
  }

  // ---------- which target a resolution takes ----------

  function EligibleCount(s: Survey, targets: seq<AliasTarget>): nat {
    if targets == [] then 0
    else EligibleCount(s, targets[..|targets| - 1]) + if Eligible(s, targets[|targets| - 1]) then 1 else 0
  }

  /** The target at i is eligible, with exactly k eligible ones before it. */
  ghost predicate IsEligibleAt(s: Survey, targets: seq<AliasTarget>, t: AliasTarget, i: nat, k: nat) {
    i < |targets| && targets[i] == t && Eligible(s, t) && EligibleCount(s, targets[..i]) == k
  }

  lemma {:induction false} ActiveAt(s: Survey, targets: seq<AliasTarget>, k: nat)
    ensures |Active(s, targets)| == EligibleCount(s, targets)
    ensures k < |Active(s, targets)| ==> exists i: nat :: IsEligibleAt(s, targets, Active(s, targets)[k], i, k)
  {
    if targets != [] {
      var n := |targets| - 1;
      ActiveAt(s, targets[..n], k);
      var before := Active(s, targets[..n]);
      if k < |before| {
        var i: nat :| IsEligibleAt(s, targets[..n], before[k], i, k);
        assert targets[..n][..i] == targets[..i];
        assert Active(s, targets)[k] == before[k];
        assert IsEligibleAt(s, targets, before[k], i, k);
      } else if k < |Active(s, targets)| {
        assert Active(s, targets)[k] == targets[n];
        assert IsEligibleAt(s, targets, targets[n], n, k);
      }
    }
  }

  lemma {:induction false} NoneEligible(s: Survey, targets: seq<AliasTarget>)
    requires EligibleCount(s, targets) == 0
    ensures forall t | t in targets :: !Eligible(s, t)
  {
    if targets != [] {
      var n := |targets| - 1;
      NoneEligible(s, targets[..n]);
      assert targets == targets[..n] + [targets[n]];
    }
  }

  /** Where the target of a resolved alias stands: for round_robin, after as many eligible targets as the
      alias's position leaves modulo their number, and the position then moves on; for random, wherever
      the draw falls; for any other routing, first among the eligible, positions being left alone. */
  ghost predicate StandsAt(s: Survey, alias: Alias, rr: map<string, nat>, draw: nat, t: AliasTarget,
                           after: map<string, nat>) {
    var n := EligibleCount(s, alias.targets);
    var pos := if alias.id in rr then rr[alias.id] else 0;
    && n > 0
    && (alias.routing == "round_robin" ==>
          after == rr[alias.id := pos + 1] && exists i: nat :: IsEligibleAt(s, alias.targets, t, i, pos % n))
    && (alias.routing != "round_robin" ==> after == rr)
    && (alias.routing == "random" ==> exists i: nat :: IsEligibleAt(s, alias.targets, t, i, draw % n))
    && (alias.routing !in {"round_robin", "random"} ==>
          exists i | 0 <= i < |alias.targets| ::
            && alias.targets[i] == t && Eligible(s, t)
            && forall j | 0 <= j < i :: !Eligible(s, alias.targets[j]))
  }

  lemma AliasResolutionStands(w: WorldView, d: int, rr: map<string, nat>, name: string, draw: nat, g: Gaps)
    requires w.db.aliases.Some? && ResolutionOfAlias(w, d, rr, name, draw, g).result.Ok?
    ensures var e := ResolutionOfAlias(w, d, rr, name, draw, g);
            var r := e.result.value;
            exists alias | alias in w.db.aliases.value ::
              && alias.name == name && alias.enabled
              && StandsAt(SurveyOf(w, d, alias.id, g), alias, rr, draw,
                          AliasTarget(r.provider.id, r.modelName), e.positions)
  {
    AliasResolutionIsSound(w, d, rr, name, draw, g);
    var alias := FindAlias(w.db.aliases.value, name).value;
    var s := SurveyOf(w, d, alias.id, g);
    var active := Active(s, alias.targets);
    if s.providers.Some? {
      ProviderMapById(AtProviders(w, d, g).db.providers.value);
    }
    ChoiceStands(s, alias, rr, draw);
    ActiveAreEligible(s, alias.targets, active[Choice(alias.routing, PositionOf(rr, alias.id), draw, |active|)]);
  }

  lemma ChoiceStands(s: Survey, alias: Alias, rr: map<string, nat>, draw: nat)
    requires Active(s, alias.targets) != []
    ensures var active := Active(s, alias.targets);
            var t := active[Choice(alias.routing, PositionOf(rr, alias.id), draw, |active|)];
            StandsAt(s, alias, rr, draw, t, NextPositions(rr, alias))
  {
    var active := Active(s, alias.targets);
    var k := Choice(alias.routing, PositionOf(rr, alias.id), draw, |active|);
    ActiveAt(s, alias.targets, k);
    var i: nat :| IsEligibleAt(s, alias.targets, active[k], i, k);
    if k == 0 {
      NoneEligible(s, alias.targets[..i]);
      assert forall j | 0 <= j < i :: alias.targets[..i][j] in alias.targets[..i];
    }
  }

  // ---------- directives ----------

  /** A directive with a colon names a provider before its first colon and a model after it; one without
      is the name of an alias. */
  lemma DirectiveSplits(w: WorldView, d: int, rr: map<string, nat>, ref: string, model: string, draw: nat, g: Gaps)
    requires ':' !in ref
    ensures ResolutionOf(w, d, rr, ref + ":" + model, draw, g) == Resolution(w, rr, DirectResolution(w, ref, model))
    ensures ResolutionOf(w, d, rr, ref, draw, g) == ResolutionOfAlias(w, d, rr, ref, draw, g)
  {
    var directive := ref + ":" + model;
    assert directive[..|ref|] == ref && directive[|ref| + 1..] == model;
    IndexOfIs(directive, ':', |ref|);
    assert IndexOf(ref, ':') == |ref|;
  }

  /** A row that a direct reference names: by id, or for want of one by slug, or for want of both by name. */
  ghost predicate Names(rows: seq<Provider>, ref: string, p: Provider) {
    p in rows &&
    (|| p.id == ref
     || ((forall q | q in rows :: q.id != ref) &&
         (p.slug == ref || ((forall q | q in rows :: q.slug != ref) && p.name == ref))))
  }

  /** A direct reference is refused only for a reason: none is named, or one named is disabled, of an
      unknown protocol, or without a usable key. */
  lemma DirectRefusalsHaveReasons(w: WorldView, ref: string, modelName: string)
    requires w.db.providers.Some?
    ensures var rows := w.db.providers.value;
            match DirectResolution(w, ref, modelName)
            case Ok(r) => Names(rows, ref, r.provider)
            case Err(e) =>
              || (e == ProviderNotFound && forall p :: !Names(rows, ref, p))
              || exists p :: Names(rows, ref, p) &&
                   if !p.enabled then e == ProviderNotFound
                   else if p.protocol.Unregistered? then e == ProtocolMismatch
                   else e == NoAPIKey && Usable(w.pool, p.id, w.now).None?
  {
    var rows := w.db.providers.value;
    var byID := FindProvider(rows, (p: Provider) => p.id == ref);
    var bySlug := if byID.Some? then byID else FindProvider(rows, (p: Provider) => p.slug == ref);
    var found := if bySlug.Some? then bySlug else FindProvider(rows, (p: Provider) => p.name == ref);
    FindProviderFinds(rows, (p: Provider) => p.id == ref);
    FindProviderFinds(rows, (p: Provider) => p.slug == ref);
    FindProviderFinds(rows, (p: Provider) => p.name == ref);
    if found.Some? {
      assert Names(rows, ref, found.value);
    }
  }
}
