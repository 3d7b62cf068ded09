/** Statistics over the log: totals, groups, time buckets and the 95th percentile
    (internal/metrics/logs.go:255-439). */
module LogStats {
  import opened Arithmetic
  import opened Sorting
  import opened LogStore

  /** All that is summed up, of one group or of everything. Each report shows some of it: providers
      their requests, tokens and errors, keys their requests and tokens, classes their requests, and
      buckets their requests by class and their tokens. */
  datatype Sums = Sums(requests: int, ok: int, clientErr: int, serverErr: int, prompt: int, completion: int) {
    function Tokens(): int { prompt + completion }
    function Errors(): int { clientErr + serverErr }
  }

  const ZERO := Sums(0, 0, 0, 0, 0, 0)

  function Plus(a: Sums, b: Sums): Sums {
    Sums(a.requests + b.requests, a.ok + b.ok, a.clientErr + b.clientErr, a.serverErr + b.serverErr,
         a.prompt + b.prompt, a.completion + b.completion)
  }

  function Of(e: RequestLog): Sums {
    var c := StatusClass(e.status);
    Sums(1, if c == "ok" then 1 else 0, if c == "client_err" then 1 else 0, if c == "server_err" then 1 else 0,
         e.tokensPrompt, e.tokensCompletion)
  }

  function Total(entries: seq<RequestLog>): Sums {
    if entries == [] then ZERO else Plus(Total(entries[..|entries| - 1]), Of(entries[|entries| - 1]))
  }

  /** The sums of the entries that `groupOf` puts into group k. */
  function TotalFor<K(==)>(entries: seq<RequestLog>, groupOf: RequestLog -> K, k: K): Sums {
    if entries == [] then ZERO
    else
      var last := entries[|entries| - 1];
      var before := TotalFor(entries[..|entries| - 1], groupOf, k);
      if groupOf(last) == k then Plus(before, Of(last)) else before
  }

  datatype Group<K> = Group(key: K, sums: Sums)

  function SumGroups<K>(groups: seq<Group<K>>): Sums {
    if groups == [] then ZERO else Plus(SumGroups(groups[..|groups| - 1]), groups[|groups| - 1].sums)
  }

  ghost predicate Has<K(!new)>(entries: seq<RequestLog>, groupOf: RequestLog -> K, k: K) {
    exists e | e in entries :: groupOf(e) == k
  }

  /** The groups of the entries: one for each label that occurs, with the sums of its entries. */
  ghost predicate Groups<K(!new)>(groups: seq<Group<K>>, entries: seq<RequestLog>, groupOf: RequestLog -> K) {
    && (forall i, j | 0 <= i < j < |groups| :: groups[i].key != groups[j].key)
    && (forall g | g in groups :: g.sums == TotalFor(entries, groupOf, g.key))
    && (forall e | e in entries :: exists g | g in groups :: g.key == groupOf(e))
    && (forall g | g in groups :: Has(entries, groupOf, g.key))
  }

  // ---------- grouping ----------

  type Tally<K> = map<K, Sums>

  ghost predicate Tallies<K(!new)>(m: Tally<K>, entries: seq<RequestLog>, groupOf: RequestLog -> K) {
    && (forall k :: k in m <==> Has(entries, groupOf, k))
    && (forall k | k in m :: m[k] == TotalFor(entries, groupOf, k))
  }

  function Counted<K>(m: Tally<K>, k: K, e: RequestLog): Tally<K> {
    m[k := Plus(if k in m then m[k] else ZERO, Of(e))]
  }

  lemma {:induction false} NotOccurring<K>(entries: seq<RequestLog>, groupOf: RequestLog -> K, k: K)
    requires forall e | e in entries :: groupOf(e) != k
    ensures TotalFor(entries, groupOf, k) == ZERO
  {
    if entries != [] {
      NotOccurring(entries[..|entries| - 1], groupOf, k);
    }
  }

  lemma CountedTallies<K(!new)>(m: Tally<K>, entries: seq<RequestLog>, groupOf: RequestLog -> K, e: RequestLog)
    requires Tallies(m, entries, groupOf)
    ensures Tallies(Counted(m, groupOf(e), e), entries + [e], groupOf)
  {
    var all := entries + [e];
    assert all[..|entries|] == entries && all[|entries|] == e;
    forall k
      ensures Has(all, groupOf, k) <==> Has(entries, groupOf, k) || groupOf(e) == k
    {
      if groupOf(e) == k {
        assert e in all;
      }
      if Has(entries, groupOf, k) {
        var x :| x in entries && groupOf(x) == k;
        assert x in all;
      }
    }
    if groupOf(e) !in m {
      NotOccurring(entries, groupOf, groupOf(e));
    }
  }

  /** The values of a tally in no particular order, as Go ranges over a map. */
  method Collect<K(!new)>(m: Tally<K>) returns (groups: seq<Group<K>>)
    ensures |groups| == |m|
    ensures forall k | k in m :: multiset(groups)[Group(k, m[k])] == 1
    ensures forall g | g in groups :: g.key in m && g.sums == m[g.key]
  {
    groups := [];
    var keys := m.Keys;
    while keys != {}
      invariant keys <= m.Keys && |groups| + |keys| == |m|
      invariant forall k | k in m :: multiset(groups)[Group(k, m[k])] == if k in keys then 0 else 1
      invariant forall g | g in groups :: g.key in m && g.sums == m[g.key]
      decreases keys
    {
      var k :| k in keys;
      groups := groups + [Group(k, m[k])];
      keys := keys - {k};
    }
  }

  lemma TwiceCounts<T>(s: seq<T>, i: nat, j: nat)
    requires i < j < |s| && s[i] == s[j]
    ensures multiset(s)[s[i]] >= 2
  {
    assert s == s[..j] + [s[j]] + s[j + 1..];
    assert s[i] in s[..j];
  }

  /** A sorted collection of a tally is the groups of its entries. */
  lemma CollectedGroups<K(!new)>(m: Tally<K>, collected: seq<Group<K>>, groups: seq<Group<K>>,
                                 entries: seq<RequestLog>, groupOf: RequestLog -> K)
    requires Tallies(m, entries, groupOf)
    requires forall k | k in m :: multiset(collected)[Group(k, m[k])] == 1
    requires forall g | g in collected :: g.key in m && g.sums == m[g.key]
    requires multiset(groups) == multiset(collected)
    ensures Groups(groups, entries, groupOf)
  {
    forall g | g in groups
      ensures g.key in m && g.sums == m[g.key]
    {
      assert g in multiset(groups);
      assert g in collected;
    }
    forall i, j | 0 <= i < j < |groups|
      ensures groups[i].key != groups[j].key
    {
      if groups[i].key == groups[j].key {
        assert groups[i] in groups && groups[j] in groups;
        TwiceCounts(groups, i, j);
      }
    }
    forall e | e in entries
      ensures exists g | g in groups :: g.key == groupOf(e)
    {
      var g := Group(groupOf(e), m[groupOf(e)]);
      assert g in multiset(groups);
    }
  }

  // ---------- the result ----------

  datatype StatsResult = StatsResult(
    window: string, from: int, to: int, oldestTs: int, truncated: bool,
    total: Sums, errorRate: real, p95: int,
    byProvider: seq<Group<string>>, byGatewayKey: seq<Group<string>>, byStatusClass: seq<Group<string>>,
    buckets: seq<Group<int>>)

  const MINUTE := 60 * 1000
  const HOUR := 60 * MINUTE
  const DAY := 24 * HOUR

  function WindowDuration(w: string): int {
    if w == "1h" then HOUR else if w == "7d" then 7 * DAY else DAY
  }

  function BucketDuration(groupBy: string, window: string): (d: int)
    ensures d > 0
  {
    if groupBy == "day" then DAY
    else if groupBy == "hour" then HOUR
    else if window == "1h" then 5 * MINUTE
    else if window == "7d" then DAY
    else HOUR
  }

  function ProviderLabel(e: RequestLog): string { if e.provider == "" then "(unresolved)" else e.provider }

  function KeyLabel(e: RequestLog): string { if e.gatewayKeyID == "" then "(none)" else e.gatewayKeyID }

  function ClassLabel(e: RequestLog): string { StatusClass(e.status) }

  function BucketLabel(size: int): RequestLog -> int
    requires size > 0
  {
    (e: RequestLog) => e.ts - Rem(e.ts, size)
  }

  function InWindow(all: seq<RequestLog>, from: int, to: int): seq<RequestLog> {
    if all == [] then []
    else
      var last := all[|all| - 1];
      InWindow(all[..|all| - 1], from, to) + if from <= last.ts <= to then [last] else []
  }

  function Durations(entries: seq<RequestLog>): seq<int> {
    seq(|entries|, i requires 0 <= i < |entries| => entries[i].durationMs)
  }

  function Identity(): int -> int { (x: int) => x }

  function P95Index(n: nat): nat
    requires n > 0
  {
    (n - 1) * 95 / 100
  }

  function Percentile95(vals: seq<int>): int {
    SortSorts(vals, Identity());
    if vals == [] then 0 else SortBy(vals, Identity())[P95Index(|vals|)]
  }

  method Percentile(vals: seq<int>) returns (p: int)
    ensures p == Percentile95(vals)
  {
    if |vals| == 0 {
      return 0;
    }
    SortSorts(vals, Identity());
    var sorted := SortBy(vals, Identity());
    var idx := (|sorted| - 1) * 95 / 100;
    return sorted[idx];
  }

  function ByRequests<K>(): Group<K> -> int { (g: Group<K>) => -g.sums.requests }

  function ByKey(): Group<int> -> int { (g: Group<int>) => g.key }

  /** The maps that the counting loop fills. */
  datatype Tallied = Tallied(
    total: Sums, durations: seq<int>,
    providers: Tally<string>, keys: Tally<string>, classes: Tally<string>, buckets: Tally<int>)

  ghost predicate CountsOf(t: Tallied, entries: seq<RequestLog>, size: int)
    requires size > 0
  {
    && t.total == Total(entries) && t.durations == Durations(entries)
    && Tallies(t.providers, entries, ProviderLabel) && Tallies(t.keys, entries, KeyLabel)
    && Tallies(t.classes, entries, ClassLabel) && Tallies(t.buckets, entries, BucketLabel(size))
  }

  /** One map's share of the counting loop: `k` is the entry's group in it. */
  method Count<K(!new)>(m: Tally<K>, k: K, e: RequestLog, ghost before: seq<RequestLog>, ghost groupOf: RequestLog -> K)
    returns (m': Tally<K>)
    requires Tallies(m, before, groupOf) && k == groupOf(e)
    ensures Tallies(m', before + [e], groupOf)
  {
    CountedTallies(m, before, groupOf, e);
    m' := m;
    if k !in m' {
      m' := m'[k := ZERO];
    }
    m' := m'[k := Plus(m'[k], Of(e))];
  }

  /** The body of the counting loop for one entry of the window. */
  method CountEntry(t: Tallied, e: RequestLog, size: int, ghost before: seq<RequestLog>) returns (t': Tallied)
    requires size > 0 && CountsOf(t, before, size)
    ensures CountsOf(t', before + [e], size)
  {
    TotalsNext(before, e);
    var ps := e.provider;
    if ps == "" {
      ps := "(unresolved)";
    }
    var providers := Count(t.providers, ps, e, before, ProviderLabel);
    var gk := e.gatewayKeyID;
    if gk == "" {
      gk := "(none)";
    }
    var keys := Count(t.keys, gk, e, before, KeyLabel);
    var classes := Count(t.classes, StatusClass(e.status), e, before, ClassLabel);
    var bt := e.ts - Rem(e.ts, size);
    var buckets := Count(t.buckets, bt, e, before, BucketLabel(size));
    t' := Tallied(Plus(t.total, Of(e)), t.durations + [e.durationMs], providers, keys, classes, buckets);
  }

  lemma TotalsNext(before: seq<RequestLog>, e: RequestLog)
    ensures Total(before + [e]) == Plus(Total(before), Of(e))
    ensures Durations(before + [e]) == Durations(before) + [e.durationMs]
  {
    assert (before + [e])[..|before|] == before;
  }

  method CountAll(all: seq<RequestLog>, from: int, to: int, size: int) returns (t: Tallied)
    requires size > 0
    ensures CountsOf(t, InWindow(all, from, to), size)
  {
    t := Tallied(ZERO, [], map[], map[], map[], map[]);
    for i := 0 to |all|
      invariant CountsOf(t, InWindow(all[..i], from, to), size)
    {
      assert all[..i + 1][..i] == all[..i];
      var e := all[i];
      if e.ts < from || e.ts > to {
        assert InWindow(all[..i + 1], from, to) == InWindow(all[..i], from, to);
        continue;
      }
      t := CountEntry(t, e, size, InWindow(all[..i], from, to));
    }
    assert all[..|all|] == all;
  }

  /** A map's groups, largest first. */
  method Ranked<K(!new)>(m: Tally<K>, ghost entries: seq<RequestLog>, ghost groupOf: RequestLog -> K)
    returns (groups: seq<Group<K>>)
    requires Tallies(m, entries, groupOf)
    ensures Groups(groups, entries, groupOf) && Ordered(groups, ByRequests())
  {
    var collected := Collect(m);
    SortSorts(collected, ByRequests());
    groups := SortBy(collected, ByRequests());
    CollectedGroups(m, collected, groups, entries, groupOf);
  }

  method Chronological(m: Tally<int>, ghost entries: seq<RequestLog>, ghost groupOf: RequestLog -> int)
    returns (groups: seq<Group<int>>)
    requires Tallies(m, entries, groupOf)
    ensures Groups(groups, entries, groupOf) && Ordered(groups, ByKey())
  {
    var collected := Collect(m);
    SortSorts(collected, ByKey());
    groups := SortBy(collected, ByKey());
    CollectedGroups(m, collected, groups, entries, groupOf);
  }

  /** What `Stats` promises of its result. */
  ghost predicate Reports(r: StatsResult, all: seq<RequestLog>, window: string, groupBy: string, now: int) {
    var w := if window == "" then "24h" else window;
    var entries := InWindow(all, r.from, r.to);
    && r.window == w && r.to == now && r.from == now - WindowDuration(w)
    && r.oldestTs == OldestOf(all) && (r.truncated <==> r.oldestTs > 0 && r.oldestTs > r.from)
    && r.total == Total(entries)
    && (r.total.requests > 0 ==> r.errorRate == r.total.Errors() as real / r.total.requests as real)
    && (r.total.requests <= 0 ==> r.errorRate == 0.0)
    && r.p95 == Percentile95(Durations(entries))
    && Groups(r.byProvider, entries, ProviderLabel) && Ordered(r.byProvider, ByRequests())
    && Groups(r.byGatewayKey, entries, KeyLabel) && Ordered(r.byGatewayKey, ByRequests())
    && Groups(r.byStatusClass, entries, ClassLabel) && Ordered(r.byStatusClass, ByRequests())
    && Groups(r.buckets, entries, BucketLabel(BucketDuration(groupBy, w))) && Ordered(r.buckets, ByKey())
  }

  method Stats(ring: Ring, queryWindow: string, groupBy: string, now: int) returns (r: StatsResult)
    requires ring.Valid()
    ensures Reports(r, Last(ring.history, ring.cap), queryWindow, groupBy, now)
  {
    var window := if queryWindow == "" then "24h" else queryWindow;
    var from := now - WindowDuration(window);
    var all, oldest := ring.Snapshot();
    var size := BucketDuration(groupBy, window);
    var t := CountAll(all, from, now, size);
    ghost var entries := InWindow(all, from, now);
    var providers := Ranked(t.providers, entries, ProviderLabel);
    var keys := Ranked(t.keys, entries, KeyLabel);
    var classes := Ranked(t.classes, entries, ClassLabel);
    var buckets := Chronological(t.buckets, entries, BucketLabel(size));
    var rate := 0.0;
    if t.total.requests > 0 {
      rate := t.total.Errors() as real / t.total.requests as real;
    }
    var p95 := Percentile(t.durations);
    r := StatsResult(window, from, now, oldest, oldest > 0 && oldest > from, t.total, rate, p95,
                     providers, keys, classes, buckets);
  }

  // ---------- conservation ----------

  /** Adding up, over distinct groups, the sums of one more entry changes the total by that entry, or
      not at all when its label is not among them. */
  function SumOver<K(==)>(entries: seq<RequestLog>, groupOf: RequestLog -> K, groups: seq<Group<K>>): Sums {
    if groups == [] then ZERO
    else Plus(SumOver(entries, groupOf, groups[..|groups| - 1]), TotalFor(entries, groupOf, groups[|groups| - 1].key))
  }

  ghost predicate DistinctKeys<K>(groups: seq<Group<K>>) {
    forall i, j | 0 <= i < j < |groups| :: groups[i].key != groups[j].key
  }

  predicate Occurs<K(==)>(groups: seq<Group<K>>, k: K) {
    exists i | 0 <= i < |groups| :: groups[i].key == k
  }

  lemma {:induction false} SumOverSnoc<K(!new)>(entries: seq<RequestLog>, e: RequestLog, groupOf: RequestLog -> K,
                                                groups: seq<Group<K>>)
    requires DistinctKeys(groups)
    ensures SumOver(entries + [e], groupOf, groups)
            == if Occurs(groups, groupOf(e)) then Plus(SumOver(entries, groupOf, groups), Of(e))
              else SumOver(entries, groupOf, groups)
  {
    if groups != [] {
      var n := |groups| - 1;
      SumOverSnoc(entries, e, groupOf, groups[..n]);
      assert (entries + [e])[..|entries|] == entries;
      assert forall i | 0 <= i < n :: groups[..n][i] == groups[i];
      assert Occurs(groups, groupOf(e)) <==> Occurs(groups[..n], groupOf(e)) || groups[n].key == groupOf(e);
    }
  }

  lemma {:induction false} SumOverAll<K(!new)>(entries: seq<RequestLog>, groupOf: RequestLog -> K,
                                               groups: seq<Group<K>>)
    requires DistinctKeys(groups) && forall e | e in entries :: Occurs(groups, groupOf(e))
    ensures SumOver(entries, groupOf, groups) == Total(entries)
  {
    if entries == [] {
      SumOverNone(groupOf, groups);
    } else {
      var n := |entries| - 1;
      assert entries == entries[..n] + [entries[n]];
      SumOverAll(entries[..n], groupOf, groups);
      SumOverSnoc(entries[..n], entries[n], groupOf, groups);
    }
  }

  lemma {:induction false} SumOverNone<K>(groupOf: RequestLog -> K, groups: seq<Group<K>>)
    ensures SumOver([], groupOf, groups) == ZERO
  {
    if groups != [] {
      SumOverNone(groupOf, groups[..|groups| - 1]);
    }
  }

  lemma {:induction false} SumGroupsIsSumOver<K>(entries: seq<RequestLog>, groupOf: RequestLog -> K,
                                                 groups: seq<Group<K>>)
    requires forall g | g in groups :: g.sums == TotalFor(entries, groupOf, g.key)
    ensures SumGroups(groups) == SumOver(entries, groupOf, groups)
  {
    if groups != [] {
      SumGroupsIsSumOver(entries, groupOf, groups[..|groups| - 1]);
    }
  }

  /** Groups of the entries under any label add up to the total, in requests, in each status class and
      in tokens of either kind. */
  lemma GroupsConserve<K(!new)>(groups: seq<Group<K>>, entries: seq<RequestLog>, groupOf: RequestLog -> K)
    requires Groups(groups, entries, groupOf)
    ensures SumGroups(groups) == Total(entries)
  {
    GroupsCover(groups, entries, groupOf);
    SumOverAll(entries, groupOf, groups);
    SumGroupsIsSumOver(entries, groupOf, groups);
  }

  lemma GroupsCover<K(!new)>(groups: seq<Group<K>>, entries: seq<RequestLog>, groupOf: RequestLog -> K)
    requires Groups(groups, entries, groupOf)
    ensures DistinctKeys(groups) && forall e | e in entries :: Occurs(groups, groupOf(e))
  {
    forall e | e in entries
      ensures Occurs(groups, groupOf(e))
    {
      var g :| g in groups && g.key == groupOf(e);
      var i :| 0 <= i < |groups| && groups[i] == g;
      assert groups[i].key == groupOf(e);
    }
  }

  lemma {:induction false} TotalSplits(entries: seq<RequestLog>)
    ensures var t := Total(entries);
            t.requests == |entries| && t.requests == t.ok + t.clientErr + t.serverErr
  {
    if entries != [] {
      TotalSplits(entries[..|entries| - 1]);
    }
  }

  /** Whatever the log holds: requests, tokens and errors in total are their sums over providers, over
      gateway keys, over status classes and over time buckets, and the requests those of the window. */
  lemma StatsConserve(r: StatsResult, all: seq<RequestLog>, window: string, groupBy: string, now: int)
    requires Reports(r, all, window, groupBy, now)
    ensures SumGroups(r.byProvider) == r.total
    ensures SumGroups(r.byGatewayKey) == r.total
    ensures SumGroups(r.byStatusClass) == r.total
    ensures SumGroups(r.buckets) == r.total
    ensures r.total.requests == |InWindow(all, r.from, r.to)| == r.total.ok + r.total.clientErr + r.total.serverErr
  {
    var entries := InWindow(all, r.from, r.to);
    var w := if window == "" then "24h" else window;
    GroupsConserve(r.byProvider, entries, ProviderLabel);
    GroupsConserve(r.byGatewayKey, entries, KeyLabel);
    GroupsConserve(r.byStatusClass, entries, ClassLabel);
    GroupsConserve(r.buckets, entries, BucketLabel(BucketDuration(groupBy, w)));
    TotalSplits(entries);
  }

  // ---------- time buckets ----------

  lemma RemFacts(ts: int, size: int)
    requires size > 0
    ensures ts >= 0 ==> 0 <= Rem(ts, size) < size
    ensures ts < 0 ==> -size < Rem(ts, size) <= 0
    ensures (ts - Rem(ts, size)) % size == 0
    ensures Rem(ts, size) == 0 <==> ts % size == 0
  {
    if ts >= 0 {
      var q := ts / size;
      assert ts - Rem(ts, size) == q * size;
      MultipleMod(q, size);
    } else {
      var q := (-ts) / size;
      assert -ts == q * size + (-ts) % size;
      assert ts - Rem(ts, size) == (-q) * size;
      MultipleMod(-q, size);
      NegRem(ts, size);
    }
  }

  lemma NegRem(ts: int, size: int)
    requires size > 0 && ts < 0
    ensures (-ts) % size == 0 <==> ts % size == 0
  {
    if (-ts) % size == 0 {
      assert ts == (-((-ts) / size)) * size;
      MultipleMod(-((-ts) / size), size);
    }
    if ts % size == 0 {
      assert -ts == (-(ts / size)) * size;
      MultipleMod(-(ts / size), size);
    }
  }

  ghost predicate InBucket(e: RequestLog, bucket: int, size: int) {
    bucket <= e.ts < bucket + size
  }

  lemma BucketHoldsIff(e: RequestLog, size: int)
    requires size > 0
    ensures BucketLabel(size)(e) % size == 0
    ensures InBucket(e, BucketLabel(size)(e), size) <==> e.ts >= 0 || e.ts % size == 0
  {
    RemFacts(e.ts, size);
  }

  /** Such an entry: one millisecond before 1970 it is counted under 0. */
  lemma NegativeTimeHappens(e: RequestLog)
    requires e.ts == -1
    ensures BucketLabel(MINUTE)(e) == 0 && !InBucket(e, 0, MINUTE)
  {
  }

  lemma AscendingTimes(buckets: seq<Group<int>>)
    requires Ordered(buckets, ByKey()) && DistinctKeys(buckets)
    ensures forall i, j | 0 <= i < j < |buckets| :: buckets[i].key < buckets[j].key
  {
    forall i, j | 0 <= i < j < |buckets|
      ensures buckets[i].key < buckets[j].key
    {
      assert ByKey()(buckets[i]) <= ByKey()(buckets[j]);
    }
  }

  /** The buckets' times are strictly ascending multiples of the bucket size, and each entry falls in
      the one bucket of its label. That bucket begins at or before the entry and ends after it exactly
      when the entry's time is not negative or is itself a multiple of the size; then no other bucket
      does. */
  lemma BucketsPartition(r: StatsResult, all: seq<RequestLog>, window: string, groupBy: string, now: int)
    requires Reports(r, all, window, groupBy, now)
    ensures var size := BucketDuration(groupBy, if window == "" then "24h" else window);
            && (forall i, j | 0 <= i < j < |r.buckets| :: r.buckets[i].key < r.buckets[j].key)
            && (forall b | b in r.buckets :: b.key % size == 0)
            && (forall e | e in InWindow(all, r.from, r.to) ::
                  && Occurs(r.buckets, BucketLabel(size)(e))
                  && (InBucket(e, BucketLabel(size)(e), size) <==> e.ts >= 0 || e.ts % size == 0)
                  && (e.ts >= 0 || e.ts % size == 0 ==>
                        forall b | b in r.buckets :: InBucket(e, b.key, size) <==> b.key == BucketLabel(size)(e)))
  {
    var size := BucketDuration(groupBy, if window == "" then "24h" else window);
    BucketFacts(r.buckets, InWindow(all, r.from, r.to), size);
  }

  lemma BucketFacts(buckets: seq<Group<int>>, entries: seq<RequestLog>, size: int)
    requires size > 0 && Groups(buckets, entries, BucketLabel(size)) && Ordered(buckets, ByKey())
    ensures forall i, j | 0 <= i < j < |buckets| :: buckets[i].key < buckets[j].key
    ensures forall b | b in buckets :: b.key % size == 0
    ensures forall e | e in entries ::
              && Occurs(buckets, BucketLabel(size)(e))
              && (InBucket(e, BucketLabel(size)(e), size) <==> e.ts >= 0 || e.ts % size == 0)
              && (e.ts >= 0 || e.ts % size == 0 ==>
                    forall b | b in buckets :: InBucket(e, b.key, size) <==> b.key == BucketLabel(size)(e))
  {
    GroupsCover(buckets, entries, BucketLabel(size));
    AscendingTimes(buckets);
    forall b | b in buckets
      ensures b.key % size == 0
    {
      assert Has(entries, BucketLabel(size), b.key);
      var e :| e in entries && BucketLabel(size)(e) == b.key;
      BucketHoldsIff(e, size);
    }
    forall e | e in entries
      ensures InBucket(e, BucketLabel(size)(e), size) <==> e.ts >= 0 || e.ts % size == 0
      ensures e.ts >= 0 || e.ts % size == 0 ==>
                forall b | b in buckets :: InBucket(e, b.key, size) <==> b.key == BucketLabel(size)(e)
    {
      BucketHoldsIff(e, size);
      forall b | b in buckets && InBucket(e, b.key, size) && (e.ts >= 0 || e.ts % size == 0)
        ensures b.key == BucketLabel(size)(e)
      {
        OneBucketHolds(e, b.key, size);
      }
    }
  }

  lemma OneBucketHolds(e: RequestLog, bucket: int, size: int)
    requires size > 0 && bucket % size == 0
    requires InBucket(e, bucket, size) && InBucket(e, BucketLabel(size)(e), size)
    ensures bucket == BucketLabel(size)(e)
  {
    BucketHoldsIff(e, size);
    var own := BucketLabel(size)(e);
    if bucket <= own {
      MultiplesApart(bucket, own, size);
    } else {
      MultiplesApart(own, bucket, size);
    }
  }

  // ---------- the 95th percentile ----------

  function AtMost(vals: seq<int>, x: int): nat {
    if vals == [] then 0 else AtMost(vals[..|vals| - 1], x) + if vals[|vals| - 1] <= x then 1 else 0
  }

  function AtLeast(vals: seq<int>, x: int): nat {
    if vals == [] then 0 else AtLeast(vals[..|vals| - 1], x) + if vals[|vals| - 1] >= x then 1 else 0
  }

  lemma {:induction false} CountsConcat(a: seq<int>, b: seq<int>, x: int)
    ensures AtMost(a + b, x) == AtMost(a, x) + AtMost(b, x) && AtLeast(a + b, x) == AtLeast(a, x) + AtLeast(b, x)
  {
    if b == [] {
      assert a + b == a;
    } else {
      var n := |b| - 1;
      CountsConcat(a, b[..n], x);
      assert (a + b)[..|a + b| - 1] == a + b[..n];
    }
  }

  lemma CountsWithout(b: seq<int>, j: nat, x: int)
    requires j < |b|
    ensures var rest := b[..j] + b[j + 1..];
            && AtMost(b, x) == AtMost(rest, x) + (if b[j] <= x then 1 else 0)
            && AtLeast(b, x) == AtLeast(rest, x) + (if b[j] >= x then 1 else 0)
  {
    var low, mid, high := b[..j], b[..j + 1], b[j + 1..];
    assert b == mid + high && mid[..j] == low && mid[j] == b[j];
    CountsConcat(mid, high, x);
    CountsConcat(low, high, x);
  }

  lemma Without(a: seq<int>, b: seq<int>, j: nat)
    requires multiset(a) == multiset(b) && a != [] && j < |b| && b[j] == a[|a| - 1]
    ensures multiset(a[..|a| - 1]) == multiset(b[..j] + b[j + 1..])
  {
    var n, y := |a| - 1, b[j];
    assert a == a[..n] + [y];
    assert b == b[..j] + ([y] + b[j + 1..]);
    assert multiset(a[..n]) == multiset(a) - multiset{y};
    assert multiset(b[..j] + b[j + 1..]) == multiset(b) - multiset{y};
  }

  lemma {:induction false} CountsPermute(a: seq<int>, b: seq<int>, x: int)
    requires multiset(a) == multiset(b)
    ensures AtMost(a, x) == AtMost(b, x) && AtLeast(a, x) == AtLeast(b, x)
    decreases |a|
  {
    assert |a| == |multiset(a)| == |multiset(b)| == |b|;
    if a != [] {
      var n := |a| - 1;
      assert a[n] in multiset(b);
      var j :| 0 <= j < |b| && b[j] == a[n];
      Without(a, b, j);
      CountsPermute(a[..n], b[..j] + b[j + 1..], x);
      CountsWithout(b, j, x);
    }
  }

  lemma AtMostInOrder(s: seq<int>, k: nat, x: int)
    requires (forall i, j | 0 <= i < j < |s| :: s[i] <= s[j]) && k < |s| && x == s[k]
    ensures AtMost(s, x) >= k + 1
  {
    var low, high := s[..k + 1], s[k + 1..];
    assert forall i | 0 <= i < |low| :: low[i] == s[i] && low[i] <= x;
    AllAtMost(low, x);
    CountsConcat(low, high, x);
    assert s == low + high;
  }

  lemma AtLeastInOrder(s: seq<int>, k: nat, x: int)
    requires (forall i, j | 0 <= i < j < |s| :: s[i] <= s[j]) && k < |s| && x == s[k]
    ensures AtLeast(s, x) >= |s| - k
  {
    var low, high := s[..k], s[k..];
    assert forall i | 0 <= i < |high| :: high[i] == s[k + i] && high[i] >= x;
    AllAtLeast(high, x);
    CountsConcat(low, high, x);
    assert s == low + high;
  }

  lemma {:induction false} AllAtMost(s: seq<int>, x: int)
    requires forall i | 0 <= i < |s| :: s[i] <= x
    ensures AtMost(s, x) == |s|
  {
    if s != [] {
      AllAtMost(s[..|s| - 1], x);
    }
  }

  lemma {:induction false} AllAtLeast(s: seq<int>, x: int)
    requires forall i | 0 <= i < |s| :: s[i] >= x
    ensures AtLeast(s, x) == |s|
  {
    if s != [] {
      AllAtLeast(s[..|s| - 1], x);
    }
  }

  /** The 95th percentile is one of the durations, with at least floor((n - 1) * 95 / 100) + 1 of them
      not above it and at least n minus that floor not below it. */
  lemma P95Ranks(vals: seq<int>)
    requires vals != []
    ensures var p, k := Percentile95(vals), P95Index(|vals|);
            p in vals && AtMost(vals, p) >= k + 1 && AtLeast(vals, p) >= |vals| - k
  {
    var sorted, k := SortBy(vals, Identity()), P95Index(|vals|);
    SortSorts(vals, Identity());
    forall i, j | 0 <= i < j < |sorted|
      ensures sorted[i] <= sorted[j]
    {
      assert Identity()(sorted[i]) <= Identity()(sorted[j]);
    }
    AtMostInOrder(sorted, k, sorted[k]);
    AtLeastInOrder(sorted, k, sorted[k]);
    CountsPermute(vals, sorted, sorted[k]);
    assert sorted[k] in multiset(vals);
  }

  // ---------- what is counted ----------

  /** How many entries with p there are, how many of each class of status, and their tokens. */
  function SumsOf(all: seq<RequestLog>, p: RequestLog -> bool): Sums {
    if all == [] then Sums(0, 0, 0, 0, 0, 0)
    else
      var s, e := SumsOf(all[..|all| - 1], p), all[|all| - 1];
      if !p(e) then s
      else Sums(s.requests + 1,
                s.ok + (if 200 <= e.status < 400 then 1 else 0),
                s.clientErr + (if 400 <= e.status < 500 then 1 else 0),
                s.serverErr + (if 200 <= e.status < 500 then 0 else 1),
                s.prompt + e.tokensPrompt, s.completion + e.tokensCompletion)
  }

  function Within(from: int, to: int): RequestLog -> bool {
    (e: RequestLog) => from <= e.ts <= to
  }

  function OfProvider(from: int, to: int, slug: string): RequestLog -> bool {
    (e: RequestLog) => from <= e.ts <= to && slug == if e.provider == "" then "(unresolved)" else e.provider
  }

  function OfKey(from: int, to: int, id: string): RequestLog -> bool {
    (e: RequestLog) => from <= e.ts <= to && id == if e.gatewayKeyID == "" then "(none)" else e.gatewayKeyID
  }

  function OfClass(from: int, to: int, class_: string): RequestLog -> bool {
    (e: RequestLog) => from <= e.ts <= to && class_ == ClassSays(e.status)
  }

  function InSpan(from: int, to: int, begin: int, size: int): RequestLog -> bool {
    (e: RequestLog) => from <= e.ts <= to && begin <= e.ts < begin + size
  }

  lemma {:induction false} TotalsAreSums(all: seq<RequestLog>, from: int, to: int, p: RequestLog -> bool)
    requires forall e :: p(e) <==> from <= e.ts <= to
    ensures Total(InWindow(all, from, to)) == SumsOf(all, p)
  {
    if all != [] {
      var n := |all| - 1;
      TotalsAreSums(all[..n], from, to, p);
      WindowNext(all, from, to);
      TotalNext(InWindow(all[..n], from, to), all[n]);
      SumsNext(all, p);
    }
  }

  lemma SumsNext(all: seq<RequestLog>, p: RequestLog -> bool)
    requires all != []
    ensures var n := |all| - 1;
            SumsOf(all, p) == if p(all[n]) then Plus(SumsOf(all[..n], p), Of(all[n])) else SumsOf(all[..n], p)
  {
    OneIs(all[|all| - 1]);
  }

  lemma OneIs(e: RequestLog)
    ensures Of(e) == Sums(1, if 200 <= e.status < 400 then 1 else 0, if 400 <= e.status < 500 then 1 else 0,
                          if 200 <= e.status < 500 then 0 else 1, e.tokensPrompt, e.tokensCompletion)
  {
  }

  lemma {:induction false} GroupsAreSums<K>(all: seq<RequestLog>, from: int, to: int, groupOf: RequestLog -> K, k: K,
                                            p: RequestLog -> bool)
    requires forall e :: p(e) <==> from <= e.ts <= to && groupOf(e) == k
    ensures TotalFor(InWindow(all, from, to), groupOf, k) == SumsOf(all, p)
  {
    if all != [] {
      var n := |all| - 1;
      GroupsAreSums(all[..n], from, to, groupOf, k, p);
      WindowNext(all, from, to);
      GroupNext(InWindow(all[..n], from, to), all[n], groupOf, k);
      SumsNext(all, p);
    }
  }

  lemma TotalNext(before: seq<RequestLog>, e: RequestLog)
    ensures Total(before + [e]) == Plus(Total(before), Of(e))
  {
    assert (before + [e])[..|before|] == before;
  }

  lemma WindowNext(all: seq<RequestLog>, from: int, to: int)
    requires all != []
    ensures var n := |all| - 1;
            var before := InWindow(all[..n], from, to);
            InWindow(all, from, to) == if from <= all[n].ts <= to then before + [all[n]] else before
  {
  }

  lemma GroupNext<K>(before: seq<RequestLog>, e: RequestLog, groupOf: RequestLog -> K, k: K)
    ensures TotalFor(before + [e], groupOf, k)
            == if groupOf(e) == k then Plus(TotalFor(before, groupOf, k), Of(e)) else TotalFor(before, groupOf, k)
  {
    assert (before + [e])[..|before|] == before;
  }

  /** What a report says, counted over the whole log: its window reaches back the hour or week asked for,
      and a day for any other; totals and groups are the sums of the entries in it, and of those with the
      group's provider, key or class. */
  lemma ReportsCount(r: StatsResult, all: seq<RequestLog>, window: string, groupBy: string, now: int)
    requires Reports(r, all, window, groupBy, now)
    ensures r.to == now
    ensures r.from == now - (if window == "1h" then 3600000 else if window == "7d" then 604800000 else 86400000)
    ensures r.total == SumsOf(all, Within(r.from, r.to))
    ensures forall g | g in r.byProvider :: g.sums == SumsOf(all, OfProvider(r.from, r.to, g.key))
    ensures forall g | g in r.byGatewayKey :: g.sums == SumsOf(all, OfKey(r.from, r.to, g.key))
    ensures forall g | g in r.byStatusClass :: g.sums == SumsOf(all, OfClass(r.from, r.to, g.key))
    ensures r.total.requests > 0 ==>
              r.errorRate == (r.total.clientErr + r.total.serverErr) as real / r.total.requests as real
  {
    TotalsAreSums(all, r.from, r.to, Within(r.from, r.to));
    ProvidersCount(r.byProvider, all, r.from, r.to);
    KeysCount(r.byGatewayKey, all, r.from, r.to);
    ClassesCount(r.byStatusClass, all, r.from, r.to);
  }

  /** And its buckets begin at multiples of five minutes, an hour or a day, with the sums of the entries
      between one and the next. */
  lemma BucketsReport(r: StatsResult, all: seq<RequestLog>, window: string, groupBy: string, now: int)
    requires Reports(r, all, window, groupBy, now) && r.from >= 0
    ensures SpansSum(r.buckets, all, r.from, r.to, SpanOf(groupBy, window))
  {
    SpanIs(groupBy, window);
    var size := SpanOf(groupBy, window);
    BucketsCount(r.buckets, all, r.from, r.to, size);
  }

  function SpanOf(groupBy: string, window: string): int {
    if groupBy == "day" then 86400000
    else if groupBy == "hour" then 3600000
    else if window == "1h" then 300000
    else if window == "7d" then 86400000
    else 3600000
  }

  lemma SpanIs(groupBy: string, window: string)
    ensures SpanOf(groupBy, window) == BucketDuration(groupBy, if window == "" then "24h" else window)
  {
  }

  ghost predicate SpansSum(buckets: seq<Group<int>>, all: seq<RequestLog>, from: int, to: int, size: int)
    requires size > 0
  {
    forall b | b in buckets :: b.key % size == 0 && b.sums == SumsOf(all, InSpan(from, to, b.key, size))
  }

  lemma BucketsCount(groups: seq<Group<int>>, all: seq<RequestLog>, from: int, to: int, size: int)
    requires size > 0 && from >= 0 && Groups(groups, InWindow(all, from, to), BucketLabel(size))
    requires Ordered(groups, ByKey())
    ensures SpansSum(groups, all, from, to, size)
  {
    BucketFacts(groups, InWindow(all, from, to), size);
    forall g | g in groups
      ensures g.sums == SumsOf(all, InSpan(from, to, g.key, size))
    {
      forall e: RequestLog
        ensures InSpan(from, to, g.key, size)(e) <==> from <= e.ts <= to && BucketLabel(size)(e) == g.key
      {
        if from <= e.ts <= to {
          BucketHoldsIff(e, size);
          if InBucket(e, g.key, size) {
            OneBucketHolds(e, g.key, size);
          }
        }
      }
      GroupsAreSums(all, from, to, BucketLabel(size), g.key, InSpan(from, to, g.key, size));
    }
  }

  lemma ProvidersCount(groups: seq<Group<string>>, all: seq<RequestLog>, from: int, to: int)
    requires Groups(groups, InWindow(all, from, to), ProviderLabel)
    ensures forall g | g in groups :: g.sums == SumsOf(all, OfProvider(from, to, g.key))
  {
    forall g | g in groups
      ensures g.sums == SumsOf(all, OfProvider(from, to, g.key))
    {
      GroupsAreSums(all, from, to, ProviderLabel, g.key, OfProvider(from, to, g.key));
    }
  }

  lemma KeysCount(groups: seq<Group<string>>, all: seq<RequestLog>, from: int, to: int)
    requires Groups(groups, InWindow(all, from, to), KeyLabel)
    ensures forall g | g in groups :: g.sums == SumsOf(all, OfKey(from, to, g.key))
  {
    forall g | g in groups
      ensures g.sums == SumsOf(all, OfKey(from, to, g.key))
    {
      GroupsAreSums(all, from, to, KeyLabel, g.key, OfKey(from, to, g.key));
    }
  }

  lemma ClassesCount(groups: seq<Group<string>>, all: seq<RequestLog>, from: int, to: int)
    requires Groups(groups, InWindow(all, from, to), ClassLabel)
    ensures forall g | g in groups :: g.sums == SumsOf(all, OfClass(from, to, g.key))
  {
    forall g | g in groups
      ensures g.sums == SumsOf(all, OfClass(from, to, g.key))
    {
      GroupsAreSums(all, from, to, ClassLabel, g.key, OfClass(from, to, g.key));
    }
  }
}
