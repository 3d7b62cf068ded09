/** Public provider slugs: normalising, checking and allocating them (internal/store/slug.go). */
module Slug {
  import opened Prelude
  import opened Text

  /** Unicode's lower-casing and its letters and digits. */
  datatype CharTable = CharTable(lower: char -> char, letterOrDigit: char -> bool)

  predicate IsAlnum(c: char) {
    'a' <= c <= 'z' || '0' <= c <= '9'
  }

  /** What Unicode says of ASCII; nothing is supposed of other characters. */
  ghost predicate AsciiTrue(t: CharTable) {
    && (forall c | IsAlnum(c) :: t.lower(c) == c && t.letterOrDigit(c))
    && t.lower('-') == '-' && !t.letterOrDigit('-')
  }

  function Lowered(s: string, t: CharTable): string {
    seq(|s|, i requires 0 <= i < |s| => t.lower(s[i]))
  }

  function Mapped(s: string, t: CharTable): string {
    seq(|s|, i requires 0 <= i < |s| => if t.letterOrDigit(s[i]) then t.lower(s[i]) else '-')
  }

  /** Each maximal run of characters outside a-z and 0-9 replaced by one dash. */
  function Collapsed(s: string): string {
    if s == "" then ""
    else
      var before, c := Collapsed(s[..|s| - 1]), s[|s| - 1];
      if IsAlnum(c) then before + [c]
      else if before != "" && before[|before| - 1] == '-' then before
      else before + "-"
  }

  function TrimDashes(s: string): (r: string)
    ensures |r| <= |s|
  {
    if s == "" then ""
    else if s[0] == '-' then TrimDashes(s[1..])
    else if s[|s| - 1] == '-' then TrimDashes(s[..|s| - 1])
    else s
  }

  const MAX := 64
  const FALLBACK := "provider"

  function Shortened(s: string): string {
    var cut := if |s| > MAX then TrimDashes(s[..MAX]) else s;
    if cut == "" then FALLBACK else cut
  }

  function SlugOf(s: string, t: CharTable): string {
    Shortened(TrimDashes(Collapsed(Mapped(Lowered(Trim(s), t), t))))
  }

  method Slugify(input: string, t: CharTable) returns (r: string)
    ensures r == SlugOf(input, t)
  {
    var s := Lowered(Trim(input), t);
    var b := "";
    for i := 0 to |s|
      invariant b == Mapped(s[..i], t)
    {
      if t.letterOrDigit(s[i]) {
        b := b + [t.lower(s[i])];
      } else {
        b := b + "-";
      }
    }
    assert s[..|s|] == s;
    s := TrimDashes(Collapsed(b));
    if s == "" {
      return FALLBACK;
    }
    if |s| > MAX {
      s := TrimDashes(s[..MAX]);
    }
    if s == "" {
      return FALLBACK;
    }
    return s;
  }

  predicate SlugChar(c: char) {
    IsAlnum(c) || IsMark(c)
  }

  predicate IsMark(c: char) {
    c == '-' || c == '_' || c == '.'
  }

  predicate Valid(s: string) {
    && s != "" && |s| <= MAX
    && (forall c | c in s :: SlugChar(c))
    && !IsMark(s[0]) && !IsMark(s[|s| - 1])
  }

  method ValidSlug(s: string) returns (ok: bool)
    ensures ok <==> Valid(s)
  {
    if s == "" || |s| > MAX {
      return false;
    }
    if ':' in s {
      return false;
    }
    for i := 0 to |s|
      invariant forall j | 0 <= j < i :: SlugChar(s[j])
      invariant i > 0 ==> !IsMark(s[0])
    {
      var r := s[i];
      if !(('a' <= r <= 'z') || ('0' <= r <= '9') || r == '-' || r == '_' || r == '.') {
        assert r in s && !SlugChar(r);
        return false;
      }
      if i == 0 && (r == '-' || r == '_' || r == '.') {
        return false;
      }
    }
    var last := s[|s| - 1];
    if last == '-' || last == '_' || last == '.' {
      return false;
    }
    return true;
  }

  // ---------- normal forms ----------

  ghost predicate NoDoubleDash(s: string) {
    forall i | 0 <= i < |s| - 1 :: !(s[i] == '-' && s[i + 1] == '-')
  }

  ghost predicate Dashed(s: string) {
    (forall i | 0 <= i < |s| :: IsAlnum(s[i]) || s[i] == '-') && NoDoubleDash(s)
  }

  /** The normal forms: words of a-z and 0-9 joined by single dashes, of 1 to 64 characters. */
  ghost predicate Canonical(s: string) {
    s != "" && |s| <= MAX && Dashed(s) && s[0] != '-' && s[|s| - 1] != '-'
  }

  lemma {:induction false} CollapsedIsDashed(s: string)
    ensures Dashed(Collapsed(s))
  {
    if s != "" {
      CollapsedIsDashed(s[..|s| - 1]);
    }
  }

  lemma {:induction false} TrimDashesKeeps(s: string)
    requires Dashed(s)
    ensures var r := TrimDashes(s);
            Dashed(r) && (r != "" ==> r[0] != '-' && r[|r| - 1] != '-')
    decreases |s|
  {
    if s != "" {
      if s[0] == '-' {
        DashedPart(s, 1, |s|);
        TrimDashesKeeps(s[1..]);
      } else if s[|s| - 1] == '-' {
        DashedPart(s, 0, |s| - 1);
        TrimDashesKeeps(s[..|s| - 1]);
      }
    }
  }

  lemma DashedPart(s: string, i: nat, j: nat)
    requires Dashed(s) && i <= j <= |s|
    ensures Dashed(s[i..j])
  {
  }

  lemma FallbackIsCanonical()
    ensures Canonical(FALLBACK)
  {
    assert forall i | 0 <= i < 8 :: IsAlnum(FALLBACK[i]);
  }

  /** Whatever the input and whatever Unicode says of it, the slug is in normal form, and so valid. */
  lemma SlugIsCanonical(s: string, t: CharTable)
    ensures Canonical(SlugOf(s, t)) && Valid(SlugOf(s, t))
  {
    var collapsed := Collapsed(Mapped(Lowered(Trim(s), t), t));
    CollapsedIsDashed(Mapped(Lowered(Trim(s), t), t));
    TrimDashesKeeps(collapsed);
    var trimmed := TrimDashes(collapsed);
    if |trimmed| > MAX {
      DashedPart(trimmed, 0, MAX);
      assert trimmed[0..MAX] == trimmed[..MAX];
      TrimDashesKeeps(trimmed[..MAX]);
    }
    FallbackIsCanonical();
    CanonicalIsValid(SlugOf(s, t));
  }

  lemma CanonicalIsValid(s: string)
    requires Canonical(s)
    ensures Valid(s)
  {
    forall c | c in s
      ensures SlugChar(c)
    {
      var i :| 0 <= i < |s| && s[i] == c;
      assert IsAlnum(s[i]) || s[i] == '-';
    }
  }

  lemma {:induction false} CollapsedFixes(s: string)
    requires Dashed(s)
    ensures Collapsed(s) == s
  {
    if s != "" {
      var n := |s| - 1;
      DashedPart(s, 0, n);
      assert s[0..n] == s[..n];
      CollapsedFixes(s[..n]);
      LastPut(s);
      if s[n] == '-' && n > 0 {
        NoDashBefore(s);
      }
    }
  }

  lemma LastPut(s: string)
    requires s != ""
    ensures s == s[..|s| - 1] + [s[|s| - 1]]
  {
  }

  lemma NoDashBefore(s: string)
    requires |s| >= 2 && Dashed(s) && s[|s| - 1] == '-'
    ensures var b := s[..|s| - 1];
            b[|b| - 1] != '-'
  {
    var i := |s| - 2;
    assert s[i + 1] == '-';
    assert s[i] != '-';
  }

  /** Slugs are the fixed points: exactly the normal forms are left as they are, and so making a slug
      of a slug changes nothing. */
  lemma SlugFixesIff(s: string, t: CharTable)
    requires AsciiTrue(t)
    ensures SlugOf(s, t) == s <==> Canonical(s)
    ensures SlugOf(SlugOf(s, t), t) == SlugOf(s, t)
  {
    SlugIsCanonical(s, t);
    CanonicalFixed(SlugOf(s, t), t);
    if Canonical(s) {
      CanonicalFixed(s, t);
    }
  }

  lemma CanonicalFixed(s: string, t: CharTable)
    requires AsciiTrue(t) && Canonical(s)
    ensures SlugOf(s, t) == s
  {
    assert forall i | 0 <= i < |s| :: IsAlnum(s[i]) || s[i] == '-';
    assert Trim(s) == s by {
      assert Trimmed(s);
      TrimPadded(s);
    }
    assert Lowered(s, t) == s && Mapped(s, t) == s;
    CollapsedFixes(s);
    assert TrimDashes(s) == s;
  }

  // ---------- allocation ----------

  datatype Row = Row(id: string, name: string, slug: string)

  /** The row the query by slug finds. */
  function Holder(rows: seq<Row>, slug: string): Option<Row> {
    if rows == [] then None
    else if rows[0].slug == slug then Some(rows[0])
    else Holder(rows[1..], slug)
  }

  /** The k-th candidate: the base itself, then the base with -2, -3, ... */
  function Candidate(base: string, k: nat): string {
    if k < 2 then base else base + "-" + Itoa(k)
  }

  predicate Free(rows: seq<Row>, slug: string, exclude: string) {
    Holder(rows, slug).None? || (exclude != "" && Holder(rows, slug).value.id == exclude)
  }

  /** Candidates tried: the loop runs n from 2 to 999 and tests one in each round. */
  const TRIES := 998

  function FirstFree(rows: seq<Row>, base: string, exclude: string, k: nat): Option<string>
    decreases TRIES + 1 - k
  {
    if k > TRIES then None
    else if Free(rows, Candidate(base, k), exclude) then Some(Candidate(base, k))
    else FirstFree(rows, base, exclude, k + 1)
  }

  method UniqueProviderSlug(rows: seq<Row>, input: string, exclude: string, t: CharTable) returns (r: Option<string>)
    ensures r == FirstFree(rows, SlugOf(input, t), exclude, 1)
  {
    var base := Slugify(input, t);
    SlugIsCanonical(input, t);
    if base == "" {
      base := FALLBACK;
    }
    var candidate := base;
    for n := 2 to 1000
      invariant candidate == Candidate(base, n - 1)
      invariant FirstFree(rows, base, exclude, 1) == FirstFree(rows, base, exclude, n - 1)
    {
      var found := Holder(rows, candidate);
      if found.None? {
        return Some(candidate);
      }
      if exclude != "" && found.value.id == exclude {
        return Some(candidate);
      }
      candidate := base + "-" + Itoa(n);
    }
    return None;
  }

  ghost predicate DistinctIds(rows: seq<Row>) {
    forall i, j | 0 <= i < j < |rows| :: rows[i].id != rows[j].id
  }

  ghost predicate DistinctSlugs(rows: seq<Row>) {
    forall i, j | 0 <= i < j < |rows| && rows[i].slug != "" :: rows[i].slug != rows[j].slug
  }

  lemma {:induction false} HolderFinds(rows: seq<Row>, slug: string)
    ensures Holder(rows, slug).None? <==> forall r | r in rows :: r.slug != slug
    ensures Holder(rows, slug).Some? ==> Holder(rows, slug).value in rows && Holder(rows, slug).value.slug == slug
  {
    if rows != [] {
      HolderFinds(rows[1..], slug);
      assert rows == [rows[0]] + rows[1..];
    }
  }

  lemma {:induction false} FirstFreeIsFree(rows: seq<Row>, base: string, exclude: string, k: nat)
    ensures var r := FirstFree(rows, base, exclude, k);
            && (r.Some? ==> Free(rows, r.value, exclude)
                            && exists i | k <= i <= TRIES :: r.value == Candidate(base, i)
                                 && forall j | k <= j < i :: !Free(rows, Candidate(base, j), exclude))
            && (r.None? ==> forall i | k <= i <= TRIES :: !Free(rows, Candidate(base, i), exclude))
    decreases TRIES + 1 - k
  {
    if k <= TRIES && !Free(rows, Candidate(base, k), exclude) {
      FirstFreeIsFree(rows, base, exclude, k + 1);
      if FirstFree(rows, base, exclude, k + 1).Some? {
        var i :| k + 1 <= i <= TRIES && FirstFree(rows, base, exclude, k + 1).value == Candidate(base, i)
                 && forall j | k + 1 <= j < i :: !Free(rows, Candidate(base, j), exclude);
        assert forall j | k <= j < i :: !Free(rows, Candidate(base, j), exclude);
      }
    }
  }

  /** A slug handed out is held by no row but the excluded one. */
  lemma AllocatedIsUnheld(rows: seq<Row>, base: string, exclude: string)
    requires base != "" && DistinctSlugs(rows)
    ensures var r := FirstFree(rows, base, exclude, 1);
            r.Some? ==> r.value != "" && forall x | x in rows && x.slug == r.value :: exclude != "" && x.id == exclude
  {
    FirstFreeIsFree(rows, base, exclude, 1);
    var r := FirstFree(rows, base, exclude, 1);
    if r.Some? {
      HolderFinds(rows, r.value);
      forall x | x in rows && x.slug == r.value
        ensures exclude != "" && x.id == exclude
      {
        var h := Holder(rows, r.value).value;
        var i :| 0 <= i < |rows| && rows[i] == x;
        var j :| 0 <= j < |rows| && rows[j] == h;
        assert i == j;
      }
    }
  }

  /** A candidate of a normal-form base is a valid slug exactly when it is short enough: the suffix
      may carry it past 64 characters. */
  lemma CandidateValidIff(base: string, k: nat)
    requires Canonical(base)
    ensures Valid(Candidate(base, k)) <==> |Candidate(base, k)| <= MAX
  {
    CanonicalIsValid(base);
    if k >= 2 {
      var c := Candidate(base, k);
      assert c[0] == base[0] && c[|c| - 1] == Itoa(k)[|Itoa(k)| - 1];
      forall x | x in c
        ensures SlugChar(x)
      {
        assert x in base || x == '-' || x in Itoa(k);
      }
      assert Itoa(k)[|Itoa(k)| - 1] in Itoa(k);
    }
  }

  lemma CandidatesGrow(base: string, i: nat, j: nat)
    requires 1 <= i <= j
    ensures |Candidate(base, i)| <= |Candidate(base, j)|
    ensures j <= TRIES ==> |Candidate(base, j)| <= |base| + 4
  {
    ItoaLengths(i, j);
  }

  /** The slug handed out is valid exactly when one of the free candidates is short enough; a base of
      at most 60 characters always gives a valid one. */
  lemma AllocatedValidIff(rows: seq<Row>, base: string, exclude: string)
    requires Canonical(base) && FirstFree(rows, base, exclude, 1).Some?
    ensures Valid(FirstFree(rows, base, exclude, 1).value) <==>
            exists i | 1 <= i <= TRIES :: |Candidate(base, i)| <= MAX && Free(rows, Candidate(base, i), exclude)
    ensures |base| <= 60 ==> Valid(FirstFree(rows, base, exclude, 1).value)
  {
    FirstFreeIsFree(rows, base, exclude, 1);
    var first :| 1 <= first <= TRIES && FirstFree(rows, base, exclude, 1).value == Candidate(base, first)
                 && forall j | 1 <= j < first :: !Free(rows, Candidate(base, j), exclude);
    CandidateValidIff(base, first);
    CandidatesGrow(base, first, first);
    forall i | 1 <= i <= TRIES && Free(rows, Candidate(base, i), exclude)
      ensures |Candidate(base, first)| <= |Candidate(base, i)|
    {
      CandidatesGrow(base, first, i);
    }
  }

  /** Such a case: a base of 64 characters already taken. */
  lemma LongCandidateHappens(base: string)
    requires Canonical(base) && |base| == MAX
    ensures var r := FirstFree([Row("p1", "n", base)], base, "", 1);
            r.Some? && r.value == base + "-2" && !Valid(r.value)
  {
    var rows := [Row("p1", "n", base)];
    assert Holder(rows, base) == Some(rows[0]);
    assert rows[1..] == [];
    assert Itoa(2) == "2";
    assert Candidate(base, 2) == base + "-2" && |base + "-2"| == 66;
    assert rows[0].slug != base + "-2";
    assert Holder(rows, base + "-2").None?;
    CandidateValidIff(base, 2);
  }

  // ---------- the pigeonhole ----------

  lemma CandidatesDiffer(base: string, i: nat, j: nat)
    requires 1 <= i < j
    ensures Candidate(base, i) != Candidate(base, j)
  {
    var a, b := Candidate(base, i), Candidate(base, j);
    if i < 2 {
      assert |a| < |b|;
    } else if a == b {
      assert a[|base| + 1..] == Itoa(i) && b[|base| + 1..] == Itoa(j);
      ItoaInjective(i, j);
    }
  }

  /** The rows, other than the excluded one, that hold a slug. */
  function Others(rows: seq<Row>, exclude: string): seq<Row> {
    if rows == [] then []
    else
      var last := rows[|rows| - 1];
      Others(rows[..|rows| - 1], exclude) +
      if last.slug != "" && (last.id != exclude || exclude == "") then [last] else []
  }

  lemma {:induction false} OthersHold(rows: seq<Row>, exclude: string, r: Row)
    ensures r in Others(rows, exclude) <==> r in rows && r.slug != "" && (r.id != exclude || exclude == "")
    ensures |Others(rows, exclude)| <= |rows|
  {
    if rows != [] {
      OthersHold(rows[..|rows| - 1], exclude, r);
      assert rows == rows[..|rows| - 1] + [rows[|rows| - 1]];
    }
  }

  function Slugs(rows: seq<Row>): set<string> {
    set r | r in rows :: r.slug
  }

  lemma {:induction false} SlugsBound(rows: seq<Row>)
    ensures |Slugs(rows)| <= |rows|
  {
    if rows != [] {
      SlugsBound(rows[1..]);
      assert Slugs(rows) == {rows[0].slug} + Slugs(rows[1..]);
    }
  }

  function Candidates(base: string, k: nat): set<string> {
    if k == 0 then {} else Candidates(base, k - 1) + {Candidate(base, k)}
  }

  lemma {:induction false} CandidatesCount(base: string, k: nat)
    ensures |Candidates(base, k)| == k
    ensures forall c | c in Candidates(base, k) :: exists i | 1 <= i <= k :: c == Candidate(base, i)
  {
    if k > 0 {
      CandidatesCount(base, k - 1);
      forall i | 1 <= i <= k - 1
        ensures Candidate(base, i) != Candidate(base, k)
      {
        CandidatesDiffer(base, i, k);
      }
    }
  }

  /** With fewer than 998 other providers there is always a slug to hand out. */
  lemma AllocationSucceeds(rows: seq<Row>, base: string, exclude: string)
    requires base != "" && |Others(rows, exclude)| < TRIES
    ensures FirstFree(rows, base, exclude, 1).Some?
  {
    FirstFreeIsFree(rows, base, exclude, 1);
    if FirstFree(rows, base, exclude, 1).None? {
      var others := Others(rows, exclude);
      CandidatesCount(base, TRIES);
      forall c | c in Candidates(base, TRIES)
        ensures c in Slugs(others)
      {
        var i :| 1 <= i <= TRIES && c == Candidate(base, i);
        assert !Free(rows, Candidate(base, i), exclude) && c != "";
        HolderFinds(rows, c);
        OthersHold(rows, exclude, Holder(rows, c).value);
      }
      SubsetBound(Candidates(base, TRIES), Slugs(others));
      SlugsBound(others);
    }
  }

  // ---------- backfill ----------

  /** The providers table, as far as slugs go. */
  class ProviderTable {
    var rows: seq<Row>

    constructor (rows: seq<Row>)
      ensures this.rows == rows
    {
      this.rows := rows;
    }

    /** Gives every row of that id the slug, and leaves the others alone. */
    method SetSlug(id: string, slug: string)
      modifies this
      ensures WithSlug(old(rows), rows, id, slug)
    {
      var before := rows;
      rows := seq(|before|, i requires 0 <= i < |before| =>
                    if before[i].id == id then before[i].(slug := slug) else before[i]);
    }

    /** Gives every row without a slug one of its own; false when one cannot be found. Rows that have
        a slug keep it, no two rows come to share one, and up to 998 providers it succeeds. */
    method EnsureProviderSlugs(t: CharTable) returns (ok: bool)
      requires DistinctIds(rows) && DistinctSlugs(rows)
      modifies this
      ensures DistinctIds(rows) && DistinctSlugs(rows) && SlugsKept(old(rows), rows)
      ensures ok <==> forall r | r in rows :: r.slug != ""
      ensures |rows| <= TRIES ==> ok
    {
      var need := Needing(rows);
      for k := 0 to |need|
        invariant DistinctIds(rows) && DistinctSlugs(rows) && SlugsKept(old(rows), rows)
        invariant Backlog(rows, need[k..])
      {
        assert need[k..][0] == need[k] && need[k..][1..] == need[k + 1..];
        ok := FillOne(need[k], t, need[k..], old(rows));
        if !ok {
          return;
        }
      }
      BacklogDone(rows);
      return true;
    }

    /** One row's turn. */
    method FillOne(r: Row, t: CharTable, ghost todo: seq<Row>, ghost start: seq<Row>) returns (ok: bool)
      requires DistinctIds(rows) && DistinctSlugs(rows) && SlugsKept(start, rows)
      requires todo != [] && todo[0] == r && Backlog(rows, todo)
      modifies this
      ensures DistinctIds(rows) && DistinctSlugs(rows) && SlugsKept(start, rows)
      ensures ok ==> Backlog(rows, todo[1..])
      ensures !ok ==> |rows| > TRIES && exists x | x in rows :: x.slug == ""
    {
      SlugIsCanonical(r.name, t);
      var slug := UniqueProviderSlug(rows, r.name, r.id, t);
      AllocatedIsUnheld(rows, SlugOf(r.name, t), r.id);
      if slug.None? {
        BacklogHead(rows, todo);
        FewOthers(rows, r.id);
        if |rows| <= TRIES {
          AllocationSucceeds(rows, SlugOf(r.name, t), r.id);
        }
        return false;
      }
      ghost var before := rows;
      SetSlug(r.id, slug.value);
      SetKeepsDistinct(before, rows, r.id, slug.value);
      BacklogStep(before, rows, todo, slug.value);
      KeptStep(start, before, rows, todo, slug.value);
      return true;
    }
  }

  ghost predicate WithSlug(before: seq<Row>, after: seq<Row>, id: string, slug: string) {
    && |after| == |before|
    && forall i | 0 <= i < |after| :: after[i] == if before[i].id == id then before[i].(slug := slug) else before[i]
  }

  /** The same rows, those with a slug still with theirs. */
  ghost predicate SlugsKept(before: seq<Row>, after: seq<Row>) {
    && |after| == |before|
    && forall i | 0 <= i < |after| ::
         && after[i].id == before[i].id && after[i].name == before[i].name
         && (before[i].slug != "" ==> after[i].slug == before[i].slug)
  }

  ghost predicate Bare(rows: seq<Row>, id: string) {
    exists i | 0 <= i < |rows| :: rows[i].id == id && rows[i].slug == ""
  }

  ghost predicate Listed(todo: seq<Row>, id: string) {
    exists a | 0 <= a < |todo| :: todo[a].id == id
  }

  /** The rows without a slug are those still to do, each listed once. */
  ghost predicate Backlog(rows: seq<Row>, todo: seq<Row>) {
    && (forall id :: Bare(rows, id) <==> Listed(todo, id))
    && DistinctIds(todo)
  }

  /** The query's rows: those without a slug. */
  method Needing(rows: seq<Row>) returns (need: seq<Row>)
    requires DistinctIds(rows)
    ensures Backlog(rows, need)
  {
    need := [];
    for i := 0 to |rows|
      invariant Backlog(rows[..i], need)
    {
      ghost var head := rows[..i];
      assert rows[..i + 1] == head + [rows[i]];
      if rows[i].slug == "" {
        BacklogGrows(head, need, rows[i]);
        need := need + [rows[i]];
      } else {
        SameBare(head, rows[i]);
      }
    }
    assert rows[..|rows|] == rows;
  }

  lemma SameBare(head: seq<Row>, r: Row)
    requires r.slug != ""
    ensures forall id :: Bare(head + [r], id) <==> Bare(head, id)
  {
    forall id | Bare(head, id)
      ensures Bare(head + [r], id)
    {
      var i :| 0 <= i < |head| && head[i].id == id && head[i].slug == "";
      assert (head + [r])[i] == head[i];
    }
  }

  lemma BacklogGrows(head: seq<Row>, need: seq<Row>, r: Row)
    requires Backlog(head, need) && r.slug == "" && DistinctIds(head + [r])
    ensures Backlog(head + [r], need + [r])
  {
    var all, todo := head + [r], need + [r];
    assert all[|head|] == r && todo[|need|] == r;
    forall id
      ensures Bare(all, id) <==> Bare(head, id) || id == r.id
      ensures Listed(todo, id) <==> Listed(need, id) || id == r.id
    {
      if Bare(head, id) {
        var i :| 0 <= i < |head| && head[i].id == id && head[i].slug == "";
        assert all[i] == head[i];
      }
      if Listed(need, id) {
        var a :| 0 <= a < |need| && need[a].id == id;
        assert todo[a] == need[a];
      }
    }
    forall a | 0 <= a < |need|
      ensures need[a].id != r.id
    {
      assert Listed(need, need[a].id) && Bare(head, need[a].id);
      var i :| 0 <= i < |head| && head[i].id == need[a].id;
      assert all[i].id != all[|head|].id;
    }
  }

  lemma BacklogHead(rows: seq<Row>, todo: seq<Row>)
    requires Backlog(rows, todo) && todo != []
    ensures exists r | r in rows :: r.slug == ""
  {
    assert Listed(todo, todo[0].id) && Bare(rows, todo[0].id);
    var i :| 0 <= i < |rows| && rows[i].id == todo[0].id && rows[i].slug == "";
    assert rows[i] in rows;
  }

  lemma BacklogDone(rows: seq<Row>)
    requires Backlog(rows, [])
    ensures forall r | r in rows :: r.slug != ""
  {
    forall r | r in rows
      ensures r.slug != ""
    {
      var i :| 0 <= i < |rows| && rows[i] == r;
      assert !Listed([], rows[i].id) && !Bare(rows, rows[i].id);
    }
  }

  lemma BacklogStep(before: seq<Row>, after: seq<Row>, todo: seq<Row>, slug: string)
    requires todo != [] && slug != "" && Backlog(before, todo) && WithSlug(before, after, todo[0].id, slug)
    ensures Backlog(after, todo[1..])
  {
    var id0, rest := todo[0].id, todo[1..];
    assert forall a | 0 <= a < |rest| :: rest[a] == todo[a + 1];
    forall id
      ensures Bare(after, id) <==> Bare(before, id) && id != id0
      ensures Listed(rest, id) <==> Listed(todo, id) && id != id0
    {
      if Bare(before, id) && id != id0 {
        var i :| 0 <= i < |before| && before[i].id == id && before[i].slug == "";
        assert after[i] == before[i];
      }
      if Bare(after, id) {
        var i :| 0 <= i < |after| && after[i].id == id && after[i].slug == "";
        assert after[i] == before[i];
      }
      if Listed(todo, id) && id != id0 {
        var a :| 0 <= a < |todo| && todo[a].id == id;
        assert rest[a - 1] == todo[a];
      }
      if Listed(rest, id) {
        var a :| 0 <= a < |rest| && rest[a].id == id;
        assert todo[a + 1] == rest[a];
      }
    }
  }

  lemma KeptStep(start: seq<Row>, before: seq<Row>, after: seq<Row>, todo: seq<Row>, slug: string)
    requires todo != [] && SlugsKept(start, before) && Backlog(before, todo) && DistinctIds(before)
    requires WithSlug(before, after, todo[0].id, slug)
    ensures SlugsKept(start, after)
  {
    assert Listed(todo, todo[0].id) && Bare(before, todo[0].id);
    var j :| 0 <= j < |before| && before[j].id == todo[0].id && before[j].slug == "";
    forall i | 0 <= i < |after| && i != j
      ensures after[i] == before[i]
    {
      assert before[i].id != before[j].id;
    }
  }

  /** With a row that still has no slug, those that hold one are fewer than all. */
  lemma {:induction false} FewOthers(rows: seq<Row>, exclude: string)
    ensures |Others(rows, exclude)| <= |rows|
    ensures (exists r | r in rows :: r.slug == "") ==> |Others(rows, exclude)| < |rows|
  {
    if rows != [] {
      var n := |rows| - 1;
      assert rows == rows[..n] + [rows[n]];
      FewOthers(rows[..n], exclude);
    }
  }

  lemma SetKeepsDistinct(before: seq<Row>, after: seq<Row>, id: string, slug: string)
    requires DistinctIds(before) && DistinctSlugs(before) && WithSlug(before, after, id, slug)
    requires forall x | x in before && x.slug == slug :: x.id == id
    ensures DistinctIds(after) && DistinctSlugs(after)
  {
    forall i, j | 0 <= i < j < |after| && after[i].slug != ""
      ensures after[i].slug != after[j].slug
    {
      assert before[i] in before && before[j] in before;
      assert before[i].id != before[j].id;
    }
  }

  // ---------- a slug is the words of its input ----------

  /** The maximal runs of a-z and 0-9, in order. */
  function Runs(s: string): (r: seq<string>)
    ensures s != "" && IsAlnum(s[|s| - 1]) ==> r != []
  {
    if s == "" then []
    else
      var n := |s| - 1;
      var r := Runs(s[..n]);
      if !IsAlnum(s[n]) then r
      else if n > 0 && IsAlnum(s[n - 1]) then r[..|r| - 1] + [r[|r| - 1] + [s[n]]]
      else r + [[s[n]]]
  }

  /** The characters of the trimmed input as they count: lower-cased, and no letter or digit where Unicode
      has none. */
  function Counted(s: string, t: CharTable): string {
    var c := Trim(s);
    seq(|c|, i requires 0 <= i < |c| => if t.letterOrDigit(t.lower(c[i])) then t.lower(t.lower(c[i])) else ' ')
  }

  ghost predicate AlnumEnds(x: string) {
    x != "" && IsAlnum(x[0]) && IsAlnum(x[|x| - 1])
  }

  function Dash(here: bool): string {
    if here then "-" else ""
  }

  lemma {:induction false} JoinLast(r: seq<string>, w: string)
    requires r != []
    ensures Join(r + [w], "-") == Join(r, "-") + ("-" + w)
  {
    if |r| == 1 {
      assert r + [w] == [r[0], w] && (r + [w])[1..] == [w];
    } else {
      JoinLast(r[1..], w);
      assert (r + [w])[0] == r[0] && (r + [w])[1..] == r[1..] + [w];
      ConcatAssoc(r[0] + "-", Join(r[1..], "-"), "-" + w);
    }
  }

  lemma {:induction false} JoinLonger(r: seq<string>, c: char)
    requires r != []
    ensures Join(r[..|r| - 1] + [r[|r| - 1] + [c]], "-") == Join(r, "-") + [c]
  {
    var longer := r[..|r| - 1] + [r[|r| - 1] + [c]];
    if |r| == 1 {
      assert longer == [r[0] + [c]];
    } else {
      JoinLonger(r[1..], c);
      assert longer[0] == r[0] && longer[1..] == r[1..][..|r| - 2] + [r[|r| - 1] + [c]];
      ConcatAssoc(r[0] + "-", Join(r[1..], "-"), [c]);
    }
  }

  /** Collapsing joins the runs by dashes, with one more in front or at the end where other characters are. */
  ghost predicate CollapsesTo(s: string, runs: seq<string>, collapsed: string)
    requires s != ""
  {
    if runs == [] then collapsed == "-" && forall i | 0 <= i < |s| :: !IsAlnum(s[i])
    else
      && collapsed == Dash(!IsAlnum(s[0])) + Join(runs, "-") + Dash(!IsAlnum(s[|s| - 1]))
      && AlnumEnds(Join(runs, "-"))
  }

  lemma {:induction false} CollapsedJoins(s: string)
    requires s != ""
    ensures CollapsesTo(s, Runs(s), Collapsed(s))
  {
    var n := |s| - 1;
    var b := s[..n];
    if n == 0 {
      assert b == "" && Runs(b) == [] && Collapsed(b) == "";
      if IsAlnum(s[0]) {
        assert Runs(s) == [[s[0]]] && Collapsed(s) == [s[0]];
      } else {
        assert Collapsed(s) == "-";
      }
    } else {
      CollapsedJoins(b);
      var r := Runs(b);
      if r == [] {
        NextFirst(s, Collapsed(b));
      } else if !IsAlnum(s[n]) {
        NextOther(s, r, Collapsed(b));
      } else if IsAlnum(s[n - 1]) {
        NextLonger(s, r, Collapsed(b));
      } else {
        NextRun(s, r, Collapsed(b));
      }
    }
  }

  lemma NextFirst(s: string, before: string)
    requires |s| >= 2 && CollapsesTo(s[..|s| - 1], [], before)
    ensures var c := s[|s| - 1];
            if IsAlnum(c) then CollapsesTo(s, [[c]], before + [c]) else CollapsesTo(s, [], before)
  {
    var n := |s| - 1;
    assert forall i | 0 <= i < n :: s[..n][i] == s[i];
    var w := [s[n]];
    assert Join([w], "-") == w && "-" + w + "" == "-" + w;
  }

  lemma NextOther(s: string, r: seq<string>, before: string)
    requires |s| >= 2 && r != [] && CollapsesTo(s[..|s| - 1], r, before) && !IsAlnum(s[|s| - 1])
    ensures before != "" && CollapsesTo(s, r, if before[|before| - 1] == '-' then before else before + "-")
  {
    var n := |s| - 1;
    assert s[..n][0] == s[0] && s[..n][n - 1] == s[n - 1];
    DashOnce(Dash(!IsAlnum(s[0])), Join(r, "-"), IsAlnum(s[n - 1]));
  }

  lemma NextLonger(s: string, r: seq<string>, before: string)
    requires |s| >= 2 && r != [] && CollapsesTo(s[..|s| - 1], r, before)
    requires IsAlnum(s[|s| - 1]) && IsAlnum(s[|s| - 2])
    ensures CollapsesTo(s, r[..|r| - 1] + [r[|r| - 1] + [s[|s| - 1]]], before + [s[|s| - 1]])
  {
    var n := |s| - 1;
    var front, joined, c := Dash(!IsAlnum(s[0])), Join(r, "-"), s[n];
    assert s[..n][0] == s[0] && s[..n][n - 1] == s[n - 1];
    JoinLonger(r, c);
    assert before == front + joined + "";
    assert before + [c] == front + (joined + [c]) + "";
    assert (joined + [c])[0] == joined[0];
  }

  lemma NextRun(s: string, r: seq<string>, before: string)
    requires |s| >= 2 && r != [] && CollapsesTo(s[..|s| - 1], r, before)
    requires IsAlnum(s[|s| - 1]) && !IsAlnum(s[|s| - 2])
    ensures CollapsesTo(s, r + [[s[|s| - 1]]], before + [s[|s| - 1]])
  {
    var n := |s| - 1;
    var front, joined, w := Dash(!IsAlnum(s[0])), Join(r, "-"), [s[n]];
    assert s[..n][0] == s[0] && s[..n][n - 1] == s[n - 1];
    JoinLast(r, w);
    assert before == front + joined + "-";
    assert before + w == front + (joined + ("-" + w)) + "";
    assert (joined + ("-" + w))[0] == joined[0];
  }

  lemma DashOnce(front: string, joined: string, ends: bool)
    requires AlnumEnds(joined)
    ensures var before := front + joined + Dash(!ends);
            before != "" && (before[|before| - 1] == '-' <==> !ends)
            && front + joined + Dash(true) == if ends then before + "-" else before
  {
  }

  lemma TrimDashesBetween(x: string, front: bool, back: bool)
    requires AlnumEnds(x)
    ensures TrimDashes(Dash(front) + x + Dash(back)) == x
  {
    var y := x + Dash(back);
    TrimBack(x, back);
    if front {
      assert ("-" + x + Dash(back))[1..] == y;
    } else {
      assert "" + x + Dash(back) == y;
    }
  }

  lemma TrimBack(x: string, back: bool)
    requires AlnumEnds(x)
    ensures TrimDashes(x + Dash(back)) == x
  {
    if back {
      assert (x + "-")[..|x|] == x && (x + "-")[0] == x[0];
      assert TrimDashes(x) == x;
    } else {
      assert x + "" == x;
    }
  }

  /** The slug of an input is its words, lower-cased, joined by dashes; cut to 64 characters, without a dash
      left at the end, where that is longer; and the fallback where it has none. */
  lemma SlugIsItsWords(s: string, t: CharTable)
    ensures var joined := Join(Runs(Counted(s, t)), "-");
            if Runs(Counted(s, t)) == [] then SlugOf(s, t) == FALLBACK
            else if |joined| <= MAX then SlugOf(s, t) == joined
            else SlugOf(s, t) <= joined[..MAX] && |SlugOf(s, t)| >= MAX - 1
  {
    var mapped, counted := Mapped(Lowered(Trim(s), t), t), Counted(s, t);
    SameRuns(mapped, counted);
    if mapped != "" {
      CollapsedJoins(mapped);
      if Runs(mapped) == [] {
        assert "-"[1..] == "" && TrimDashes("-") == "";
      } else {
        var joined := Join(Runs(mapped), "-");
        TrimDashesBetween(joined, !IsAlnum(mapped[0]), !IsAlnum(mapped[|mapped| - 1]));
        if |joined| > MAX {
          CollapsedIsDashed(mapped);
          TrimDashesKeeps(Collapsed(mapped));
          CutOnce(joined);
        }
      }
    }
  }

  lemma CutOnce(joined: string)
    requires AlnumEnds(joined) && Dashed(joined) && |joined| > MAX
    ensures Shortened(joined) <= joined[..MAX] && |Shortened(joined)| >= MAX - 1
  {
    var cut := joined[..MAX];
    assert cut[0] == joined[0] && cut[MAX - 1] == joined[MAX - 1] && cut[MAX - 2] == joined[MAX - 2];
    if cut[MAX - 1] == '-' {
      var short := cut[..MAX - 1];
      var i := MAX - 2;
      assert joined[i + 1] == '-';
      assert joined[i] != '-';
      assert short[0] == cut[0] && short[|short| - 1] == joined[MAX - 2];
      assert AlnumEnds(short) && short + "-" == cut;
      TrimBack(short, true);
      assert short == joined[..MAX][..MAX - 1];
    } else {
      TrimBack(cut, false);
      assert cut + "" == cut;
    }
  }

  lemma {:induction false} SameRuns(a: string, b: string)
    requires |a| == |b| && forall i | 0 <= i < |a| :: a[i] == b[i] || (!IsAlnum(a[i]) && !IsAlnum(b[i]))
    ensures Runs(a) == Runs(b)
  {
    if a != "" {
      SameRuns(a[..|a| - 1], b[..|b| - 1]);
    }
  }

  /** A slug handed out is the first that is free of the base and its numbered forms, the number counting
      from 2 to 998. */
  lemma AllocatedIsFirst(rows: seq<Row>, base: string, exclude: string)
    requires FirstFree(rows, base, exclude, 1).Some?
    ensures var slug := FirstFree(rows, base, exclude, 1).value;
            && Free(rows, slug, exclude)
            && (slug == base || exists k | 2 <= k <= 998 ::
                  && slug == base + "-" + Itoa(k) && !Free(rows, base, exclude)
                  && forall j | 2 <= j < k :: !Free(rows, base + "-" + Itoa(j), exclude))
  {
    FirstFreeIsFree(rows, base, exclude, 1);
    var k :| 1 <= k <= TRIES && FirstFree(rows, base, exclude, 1).value == Candidate(base, k)
             && forall j | 1 <= j < k :: !Free(rows, Candidate(base, j), exclude);
    if k >= 2 {
      assert !Free(rows, Candidate(base, 1), exclude);
      assert Candidate(base, k) == base + "-" + Itoa(k);
      forall j | 2 <= j < k
        ensures !Free(rows, base + "-" + Itoa(j), exclude)
      {
        assert !Free(rows, Candidate(base, j), exclude);
      }
    }
  }
}
