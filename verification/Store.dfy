/** The tables the gateway reads, as the answers its queries give at one moment; None is a query
    that fails (internal/store, internal/model). */
module Store {
  import opened Prelude
  import opened KeyPool

  datatype Protocol = OpenAI | Anthropic | Gemini | Unregistered(name: string)

  datatype Provider = Provider(id: string, name: string, slug: string, protocol: Protocol, enabled: bool)

  datatype AliasTarget = AliasTarget(providerID: string, modelName: string)

  /** `targets` is in position order. */
  datatype Alias = Alias(id: string, name: string, routing: string, enabled: bool, targets: seq<AliasTarget>)

  datatype Tables = Tables(
    providers: Option<seq<Provider>>,
    aliases: Option<seq<Alias>>,
    keys: KeyTable)

  /** The string under which a target is remembered as tried or stale. */
  function TargetKey(t: AliasTarget): string {
    t.providerID + ":" + t.modelName
  }

  /** Provider ids are generated without colons, model names may hold some: then the string
      determines the target. */
  lemma TargetKeyInjective(a: AliasTarget, b: AliasTarget)
    requires ':' !in a.providerID && ':' !in b.providerID
    requires TargetKey(a) == TargetKey(b)
    ensures a == b
  {
    var k, n, m := TargetKey(a), |a.providerID|, |b.providerID|;
    assert k[n] == ':' && k[m] == ':';
    assert forall i | 0 <= i < n :: k[i] == a.providerID[i];
    assert forall i | 0 <= i < m :: k[i] == b.providerID[i];
    assert k[..n] == a.providerID && k[..m] == b.providerID;
    assert k[n + 1..] == a.modelName && k[m + 1..] == b.modelName;
  }

  function FindAlias(aliases: seq<Alias>, name: string): Option<Alias> {
    if aliases == [] then None
    else if aliases[0].name == name then Some(aliases[0])
    else FindAlias(aliases[1..], name)
  }

  function FindProvider(providers: seq<Provider>, p: Provider -> bool): Option<Provider> {
    if providers == [] then None
    else if p(providers[0]) then Some(providers[0])
    else FindProvider(providers[1..], p)
  }

  /** The provider table by id, later rows winning (routing.go:185-195). */
  function ProviderMap(providers: seq<Provider>): map<string, Provider> {
    if providers == [] then map[]
    else
      var last := providers[|providers| - 1];
      ProviderMap(providers[..|providers| - 1])[last.id := last]
  }

  /** The map holds a row of the table for exactly the ids the table has. */
  lemma {:induction false} ProviderMapById(providers: seq<Provider>)
    ensures forall p | p in providers :: p.id in ProviderMap(providers)
    ensures forall id | id in ProviderMap(providers) :: ProviderMap(providers)[id].id == id
    ensures forall id | id in ProviderMap(providers) :: ProviderMap(providers)[id] in providers
  {
    if providers != [] {
      var n := |providers| - 1;
      ProviderMapById(providers[..n]);
      assert providers == providers[..n] + [providers[n]];
    }
  }

  function ProviderIds(providers: seq<Provider>): seq<string> {
    seq(|providers|, i requires 0 <= i < |providers| => providers[i].id)
  }
}
