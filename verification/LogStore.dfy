/** The request log: a ring buffer, and pages over it (internal/metrics/logs.go:115-253). */
module LogStore {
  import opened Arithmetic
  import opened Sorting

  datatype RequestLog = RequestLog(
    id: string, ts: int, gatewayKeyID: string, directive: string, provider: string,
    status: int, durationMs: int, tokensPrompt: int, tokensCompletion: int)

  /** The last `cap` of the entries. */
  function Last(history: seq<RequestLog>, cap: nat): seq<RequestLog> {
    if |history| <= cap then history else history[|history| - cap..]
  }

  function Stamped(log: RequestLog, newID: string, now: int): RequestLog {
    log.(id := if log.id == "" then newID else log.id, ts := if log.ts == 0 then now else log.ts)
  }

  function OldestOf(s: seq<RequestLog>): int {
    if s == [] then 0 else s[0].ts
  }

  class Ring {
    var buf: array<RequestLog>
    const cap: nat
    var head: nat
    var size: nat

    /** All entries appended since the last clearing. */
    ghost var history: seq<RequestLog>

    ghost predicate Valid()
      reads this, buf
    {
      && cap > 0 && buf.Length == cap
      && size == (if |history| < cap then |history| else cap)
      && head == |history| % cap
      && forall k | |history| - size <= k < |history| :: buf[k % cap] == history[k]
    }

    constructor (capacity: int)
      ensures Valid() && history == [] && fresh(buf)
      ensures cap == if capacity <= 0 then 10000 else capacity
    {
      var c := if capacity <= 0 then 10000 else capacity;
      cap := c;
      buf := new RequestLog[c];
      head, size, history := 0, 0, [];
    }

    method Append(log: RequestLog, newID: string, now: int)
      requires Valid()
      modifies this, buf
      ensures Valid() && buf == old(buf)
      ensures history == old(history) + [Stamped(log, newID, now)]
    {
      var entry := log;
      if entry.id == "" {
        entry := entry.(id := newID);
      }
      if entry.ts == 0 {
        entry := entry.(ts := now);
      }
      ghost var n := |history|;
      forall k | n - cap < k < n && 0 <= k
        ensures k % cap != n % cap
      {
        ModDistinct(k, n, cap);
      }
      ModAddMany(n, cap, 1);
      buf[head] := entry;
      head := (head + 1) % cap;
      if size < cap {
        size := size + 1;
      }
      history := history + [entry];
    }

    method Clear()
      requires Valid()
      modifies this
      ensures Valid() && history == [] && fresh(buf)
    {
      head, size := 0, 0;
      buf := new RequestLog[cap];
      history := [];
    }

    /** The entries kept, oldest first, and the oldest one's time. */
    method Snapshot() returns (out: seq<RequestLog>, oldest: int)
      requires Valid()
      ensures out == Last(history, cap) && oldest == OldestOf(out)
    {
      if size == 0 {
        return [], 0;
      }
      ghost var n := |history|;
      if n < cap {
        StartWhenNotFull(n, cap);
      }
      var start := if size == cap then head else (head - size + cap) % cap;
      out := [];
      for i := 0 to size
        invariant out == history[n - size..n - size + i]
      {
        if n >= cap {
          SlotWhenFull(n, cap, i);
        }
        var x := buf[(start + i) % cap];
        assert x == history[n - size + i];
        out := out + [x];
      }
      assert out == history[n - size..];
      oldest := out[0].ts;
    }

    method List(q: ListQuery, lower: string -> string) returns (r: ListResult)
      requires Valid()
      ensures r == Page(Last(history, cap), cap, q, lower)
    {
      var all, oldest := Snapshot();
      var filtered := Filter(all, q, lower);
      SortSorts(filtered, SortKey(q.order));
      var sorted := SortBy(filtered, SortKey(q.order));
      r := CutPage(sorted, oldest, |all|, cap, q);
    }
  }

  /** The end of `List`. */
  method CutPage(filtered: seq<RequestLog>, oldest: int, size: nat, cap: nat, q: ListQuery) returns (r: ListResult)
    ensures r == PageOf(filtered, oldest, size, cap, q)
  {
    var limit := if q.limit <= 0 || q.limit > 500 then 100 else q.limit;
    var offset := if q.offset < 0 then 0 else q.offset;
    var total := |filtered|;
    var truncated := oldest > 0 && q.from > 0 && oldest > q.from;
    if offset >= total {
      return ListResult([], total, oldest, cap, size, truncated);
    }
    var end := offset + limit;
    if end > total {
      end := total;
    }
    return ListResult(filtered[offset..end], total, oldest, cap, size, truncated);
  }

  /** The filtering loop of `List`. */
  method Filter(all: seq<RequestLog>, q: ListQuery, lower: string -> string) returns (filtered: seq<RequestLog>)
    ensures filtered == Matching(all, q, lower)
  {
    filtered := [];
    for i := 0 to |all|
      invariant filtered == Matching(all[..i], q, lower)
    {
      assert all[..i + 1][..i] == all[..i];
      var e := all[i];
      if q.from > 0 && e.ts < q.from {
        continue;
      }
      if q.to > 0 && e.ts > q.to {
        continue;
      }
      if q.gatewayKeyID != "" && e.gatewayKeyID != q.gatewayKeyID {
        continue;
      }
      if q.providerSlug != "" && e.provider != q.providerSlug {
        continue;
      }
      if q.directive != "" && !Contains(lower(e.directive), lower(q.directive)) {
        continue;
      }
      if q.statusClass != "" && StatusClass(e.status) != q.statusClass {
        continue;
      }
      filtered := filtered + [e];
    }
    assert all[..|all|] == all;
  }

  lemma SlotWhenFull(n: nat, cap: nat, i: nat)
    requires 0 < cap <= n
    ensures (n % cap + i) % cap == (n - cap + i) % cap
  {
    ModAddMany(n, cap, i);
    ModAdd(n - cap + i, cap);
    assert n - cap + i + cap == n + i;
  }

  lemma StartWhenNotFull(n: nat, cap: nat)
    requires n < cap
    ensures n % cap == n && (n % cap - n + cap) % cap == 0
  {
    ModSmall(n, cap);
    ModAdd(0, cap);
    ModSmall(0, cap);
  }

  // ---------- queries ----------

  datatype ListQuery = ListQuery(
    from: int, to: int, gatewayKeyID: string, providerSlug: string, statusClass: string, directive: string,
    limit: int, offset: int, order: string)

  datatype ListResult = ListResult(
    items: seq<RequestLog>, total: nat, oldestTs: int, capacity: nat, size: nat, truncated: bool)

  function StatusClass(status: int): string {
    if 200 <= status < 400 then "ok"
    else if 400 <= status < 500 then "client_err"
    else "server_err"
  }

  predicate Contains(s: string, sub: string) {
    sub <= s || (s != "" && Contains(s[1..], sub))
  }

  /** `lower` is Unicode lower-casing. */
  predicate Matches(e: RequestLog, q: ListQuery, lower: string -> string) {
    && (q.from > 0 ==> e.ts >= q.from)
    && (q.to > 0 ==> e.ts <= q.to)
    && (q.gatewayKeyID != "" ==> e.gatewayKeyID == q.gatewayKeyID)
    && (q.providerSlug != "" ==> e.provider == q.providerSlug)
    && (q.directive != "" ==> Contains(lower(e.directive), lower(q.directive)))
    && (q.statusClass != "" ==> StatusClass(e.status) == q.statusClass)
  }

  function Matching(all: seq<RequestLog>, q: ListQuery, lower: string -> string): seq<RequestLog> {
    if all == [] then []
    else
      var last := all[|all| - 1];
      Matching(all[..|all| - 1], q, lower) + if Matches(last, q, lower) then [last] else []
  }

  function SortKey(order: string): RequestLog -> int {
    if order == "ts_asc" then (e: RequestLog) => e.ts
    else if order == "dur_desc" then (e: RequestLog) => -e.durationMs
    else (e: RequestLog) => -e.ts
  }

  function Limit(q: ListQuery): nat {
    if q.limit <= 0 || q.limit > 500 then 100 else q.limit
  }

  function Min(a: int, b: int): int {
    if a < b then a else b
  }

  function Max(a: int, b: int): int {
    if a < b then b else a
  }

  /** The matching entries in the order asked for. */
  function Listing(all: seq<RequestLog>, q: ListQuery, lower: string -> string): seq<RequestLog> {
    SortBy(Matching(all, q, lower), SortKey(q.order))
  }

  function CutAt<T>(s: seq<T>, offset: int, limit: nat): seq<T> {
    var lo := Min(Max(offset, 0), |s|);
    s[lo..Min(lo + limit, |s|)]
  }

  /** One page of a listing. */
  function PageOf(listing: seq<RequestLog>, oldest: int, size: nat, cap: nat, q: ListQuery): ListResult {
    ListResult(CutAt(listing, q.offset, Limit(q)), |listing|, oldest, cap, size,
               oldest > 0 && q.from > 0 && oldest > q.from)
  }

  function Page(all: seq<RequestLog>, cap: nat, q: ListQuery, lower: string -> string): ListResult {
    PageOf(Listing(all, q, lower), OldestOf(all), |all|, cap, q)
  }

  // ---------- the ring as its history ----------

  /** An append, with the id and the time it would stamp on an entry without, or a clearing. */
  datatype Op = DoAppend(entry: RequestLog, newID: string, now: int) | DoClear

  function HistoryAfter(ops: seq<Op>): seq<RequestLog> {
    if ops == [] then []
    else
      match ops[|ops| - 1]
      case DoAppend(e, newID, now) => HistoryAfter(ops[..|ops| - 1]) + [Stamped(e, newID, now)]
      case DoClear => []
  }

  /** Any run of appends and clearings: what a snapshot then gives is, in append order, the last
      min(cap, n) of the n entries appended since the last clearing. */
  method Play(capacity: int, ops: seq<Op>) returns (out: seq<RequestLog>, ring: Ring)
    ensures ring.Valid() && fresh(ring)
    ensures out == Last(HistoryAfter(ops), ring.cap)
    ensures |out| == Min(ring.cap, |HistoryAfter(ops)|)
  {
    ring := new Ring(capacity);
    for i := 0 to |ops|
      invariant ring.Valid() && fresh(ring) && fresh(ring.buf)
      invariant ring.history == HistoryAfter(ops[..i])
    {
      assert ops[..i + 1][..i] == ops[..i];
      match ops[i]
      case DoAppend(e, newID, now) => ring.Append(e, newID, now);
      case DoClear => ring.Clear();
    }
    assert ops[..|ops|] == ops;
    var oldest;
    out, oldest := ring.Snapshot();
  }

  // ---------- pages ----------

  /** The class a status is put into. */
  function ClassSays(status: int): string {
    if status < 200 || status >= 500 then "server_err" else if status >= 400 then "client_err" else "ok"
  }

  ghost predicate PartAt(s: string, sub: string, i: nat) {
    i + |sub| <= |s| && s[i..i + |sub|] == sub
  }

  ghost predicate HasPart(s: string, sub: string) {
    exists i: nat :: PartAt(s, sub, i)
  }

  lemma {:induction false} ContainsIff(s: string, sub: string)
    ensures Contains(s, sub) <==> HasPart(s, sub)
  {
    if sub <= s {
      assert PartAt(s, sub, 0);
    } else if s != "" {
      ContainsIff(s[1..], sub);
      if i: nat :| PartAt(s, sub, i) {
        assert i > 0 && s[1..][i - 1..i - 1 + |sub|] == s[i..i + |sub|];
        assert PartAt(s[1..], sub, i - 1);
      }
      if i: nat :| PartAt(s[1..], sub, i) {
        assert s[1..][i..i + |sub|] == s[i + 1..i + 1 + |sub|];
        assert PartAt(s, sub, i + 1);
      }
    }
  }

  /** The entries a query asks for. */
  ghost predicate Wanted(e: RequestLog, q: ListQuery, lower: string -> string) {
    && (q.from <= 0 || q.from <= e.ts) && (q.to <= 0 || e.ts <= q.to)
    && q.gatewayKeyID in {"", e.gatewayKeyID} && q.providerSlug in {"", e.provider}
    && (q.directive == "" || HasPart(lower(e.directive), lower(q.directive)))
    && q.statusClass in {"", ClassSays(e.status)}
  }

  lemma MatchesIff(e: RequestLog, q: ListQuery, lower: string -> string)
    ensures Matches(e, q, lower) <==> Wanted(e, q, lower)
  {
    ContainsIff(lower(e.directive), lower(q.directive));
  }

  /** In time order where that is asked for, by duration, longest first, where that is, and otherwise
      newest first. */
  ghost predicate InOrderAsked(items: seq<RequestLog>, order: string) {
    forall i, j | 0 <= i < j < |items| ::
      if order == "ts_asc" then items[i].ts <= items[j].ts
      else if order == "dur_desc" then items[i].durationMs >= items[j].durationMs
      else items[i].ts >= items[j].ts
  }

  /** What a query's answers are, page by page: all pages together hold the entries asked for, in the order
      asked for, and no other; each holds up to as many as asked for, or 100 where that is none or too
      many; and each tells how many there are, and whether the log begins later than was asked. */
  lemma PagesAnswer(all: seq<RequestLog>, cap: nat, q: ListQuery, lower: string -> string, k: nat)
    ensures var page := Page(all, cap, q, lower);
            var limit := if 1 <= q.limit <= 500 then q.limit else 100;
            && |page.items| == Max(0, Min(limit, page.total - Max(q.offset, 0)))
            && page.size == |all| && page.capacity == cap
            && (page.truncated <==> page.oldestTs > 0 && q.from > 0 && page.oldestTs > q.from)
            && (all != [] ==> page.oldestTs == all[0].ts)
    ensures k * Limit(q) >= Page(all, cap, q, lower).total ==>
              var items := Pages(all, cap, q, lower, k);
              && InOrderAsked(items, q.order) && |items| == Page(all, cap, q, lower).total
              && forall e :: multiset(items)[e] == if Wanted(e, q, lower) then multiset(all)[e] else 0
  {
    if k * Limit(q) >= Page(all, cap, q, lower).total {
      PagesTile(all, cap, q, lower, k);
      OrderedAsAsked(Pages(all, cap, q, lower, k), q.order);
      forall e
        ensures Matches(e, q, lower) <==> Wanted(e, q, lower)
      {
        MatchesIff(e, q, lower);
      }
    }
  }

  lemma OrderedAsAsked(items: seq<RequestLog>, order: string)
    requires Ordered(items, SortKey(order))
    ensures InOrderAsked(items, order)
  {
    forall i, j | 0 <= i < j < |items|
      ensures SortKey(order)(items[i]) <= SortKey(order)(items[j])
    {
    }
  }

  lemma {:induction false} MatchingIsExact(all: seq<RequestLog>, q: ListQuery, lower: string -> string, e: RequestLog)
    ensures multiset(Matching(all, q, lower))[e] == if Matches(e, q, lower) then multiset(all)[e] else 0
  {
    if all != [] {
      var n := |all| - 1;
      MatchingIsExact(all[..n], q, lower, e);
      assert all == all[..n] + [all[n]];
    }
  }

  /** The first k pages, one after the other. */
  function Pages(all: seq<RequestLog>, cap: nat, q: ListQuery, lower: string -> string, k: nat): seq<RequestLog> {
    InTurn(PageItems(all, cap, q, lower), Limit(q), k)
  }

  function PageItems(all: seq<RequestLog>, cap: nat, q: ListQuery, lower: string -> string): nat -> seq<RequestLog> {
    offset => Page(all, cap, q.(offset := offset), lower).items
  }

  function InTurn<T>(page: nat -> seq<T>, limit: nat, k: nat): seq<T> {
    if k == 0 then [] else InTurn(page, limit, k - 1) + page(OffsetOf(k - 1, limit))
  }

  function Cuts<T>(s: seq<T>, limit: nat, k: nat): seq<T> {
    if k == 0 then [] else Cuts(s, limit, k - 1) + CutAt(s, OffsetOf(k - 1, limit), limit)
  }

  /** Where page k begins. */
  function OffsetOf(k: nat, limit: nat): nat {
    k * limit
  }

  lemma NextCut<T>(s: seq<T>, a: nat, limit: nat)
    ensures s[..Min(a, |s|)] + CutAt(s, a, limit) == s[..Min(a + limit, |s|)]
  {
  }

  lemma {:induction false} CutsArePrefix<T>(s: seq<T>, limit: nat, k: nat)
    ensures k * limit >= 0 && Cuts(s, limit, k) == s[..Min(k * limit, |s|)]
  {
    if k > 0 {
      CutsArePrefix(s, limit, k - 1);
      NextCut(s, OffsetOf(k - 1, limit), limit);
      assert k * limit == (k - 1) * limit + limit;
    }
  }

  lemma PagesAreCuts(all: seq<RequestLog>, cap: nat, q: ListQuery, lower: string -> string, k: nat)
    ensures Pages(all, cap, q, lower, k) == Cuts(Listing(all, q, lower), Limit(q), k)
  {
    forall offset: nat
      ensures PageItems(all, cap, q, lower)(offset) == CutAt(Listing(all, q, lower), offset, Limit(q))
    {
      PageIsCut(all, cap, q, lower, offset);
    }
    InTurnCuts(PageItems(all, cap, q, lower), Listing(all, q, lower), Limit(q), k);
  }

  lemma {:induction false} InTurnCuts<T>(page: nat -> seq<T>, s: seq<T>, limit: nat, k: nat)
    requires forall offset: nat :: page(offset) == CutAt(s, offset, limit)
    ensures InTurn(page, limit, k) == Cuts(s, limit, k)
  {
    if k > 0 {
      InTurnCuts(page, s, limit, k - 1);
    }
  }

  /** The listing ignores the offset, and a page is cut out of it there. */
  lemma PageIsCut(all: seq<RequestLog>, cap: nat, q: ListQuery, lower: string -> string, offset: nat)
    ensures Page(all, cap, q.(offset := offset), lower).items == CutAt(Listing(all, q, lower), offset, Limit(q))
  {
    SameMatching(all, q, q.(offset := offset), lower);
  }

  lemma {:induction false} SameMatching(all: seq<RequestLog>, q: ListQuery, q': ListQuery, lower: string -> string)
    requires q' == q.(offset := q'.offset)
    ensures Matching(all, q', lower) == Matching(all, q, lower)
  {
    if all != [] {
      SameMatching(all[..|all| - 1], q, q', lower);
    }
  }

  /** The pages at offsets 0, L, 2L, ... up to the total tile one sequence: ordered as asked, with each
      matching entry as often as the log holds it and no other, and Total its length. */
  lemma PagesTile(all: seq<RequestLog>, cap: nat, q: ListQuery, lower: string -> string, k: nat)
    requires k * Limit(q) >= Page(all, cap, q, lower).total
    ensures var items := Pages(all, cap, q, lower, k);
            && Ordered(items, SortKey(q.order))
            && |items| == Page(all, cap, q, lower).total
            && forall e :: multiset(items)[e] == if Matches(e, q, lower) then multiset(all)[e] else 0
  {
    var listing := Listing(all, q, lower);
    SortSorts(Matching(all, q, lower), SortKey(q.order));
    PagesAreCuts(all, cap, q, lower, k);
    CutsArePrefix(listing, Limit(q), k);
    assert listing[..|listing|] == listing;
    forall e
      ensures multiset(listing)[e] == if Matches(e, q, lower) then multiset(all)[e] else 0
    {
      MatchingIsExact(all, q, lower, e);
    }
  }
}
