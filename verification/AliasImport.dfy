/** Importing aliases from pasted text (ui/src/features/aliases/parseAliasLines.ts). */
module AliasImport {
  import opened Prelude
  import opened Text

  // ---------- text ----------

  /** What JavaScript's trim and \s take for white space. */
  predicate Space(c: char) {
    || c == '\t' || c == '\n' || c == '\U{0B}' || c == '\U{0C}' || c == '\r' || c == ' '
    || c == '\U{A0}' || c == '\U{1680}' || '\U{2000}' <= c <= '\U{200A}'
    || c == '\U{2028}' || c == '\U{2029}' || c == '\U{202F}' || c == '\U{205F}' || c == '\U{3000}' || c == '\U{FEFF}'
  }

  function TrimStart(s: string): string {
    if s != "" && Space(s[0]) then TrimStart(s[1..]) else s
  }

  function TrimEnd(s: string): string {
    if s != "" && Space(s[|s| - 1]) then TrimEnd(s[..|s| - 1]) else s
  }

  /** Splitting at /\r?\n/. */
  function SplitLines(s: string): (lines: seq<string>)
    ensures lines != []
    decreases |s|
  {
    var i := IndexOf(s, '\n');
    if i == |s| then [s] else [DropCR(s[..i])] + SplitLines(s[i + 1..])
  }

  /** The words of s after the characters `word` of one begun: split(/\s+/) without the empty ones. */
  function WordsFrom(s: string, word: string): seq<string>
    decreases |s|
  {
    if s == "" then Finished(word)
    else if Space(s[0]) then Finished(word) + WordsFrom(s[1..], "")
    else WordsFrom(s[1..], word + [s[0]])
  }

  function Finished(word: string): seq<string> {
    if word == "" then [] else [word]
  }

  function Words(s: string): seq<string> {
    WordsFrom(s, "")
  }

  // ---------- parsing ----------

  datatype TargetRef = TargetRef(slug: string, modelName: string)

  datatype ParsedLine = ParsedLine(
    line: nat, raw: string, name: string, routing: string, targets: seq<TargetRef>, parseError: Option<string>)

  predicate IsRoutingMode(s: string) {
    s == "random" || s == "round_robin" || s == "priority" || s == "failover"
  }

  function ParseTargetToken(token: string): Option<TargetRef> {
    var i := IndexOf(token, ':');
    if i == |token| || i == 0 || i == |token| - 1 then None
    else Some(TargetRef(token[..i], token[i + 1..]))
  }

  /** The targets among the tokens, bad ones left out. */
  function Targets(tokens: seq<string>): seq<TargetRef> {
    if tokens == [] then []
    else
      var t := ParseTargetToken(tokens[|tokens| - 1]);
      Targets(tokens[..|tokens| - 1]) + if t.Some? then [t.value] else []
  }

  function BadToken(token: string): string {
    "invalid target \"" + token + "\" (expected slug:model)"
  }

  /** The first error of a line: a colon in its name, or its first bad token. */
  function LineError(name: string, tokens: seq<string>): Option<string> {
    if tokens == [] then (if ':' in name then Some("alias name must not contain ':'") else None)
    else
      var before := LineError(name, tokens[..|tokens| - 1]);
      var token := tokens[|tokens| - 1];
      if before.None? && ParseTargetToken(token).None? then Some(BadToken(token)) else before
  }

  /** What one line gives, if it is not blank and no comment. */
  function LineOf(line: string, number: nat, defaultRouting: string): Option<ParsedLine> {
    var trimmed := TrimEnd(TrimStart(line));
    if trimmed == "" || trimmed[0] == '#' then None
    else
      var parts := Words(trimmed);
      if parts == [] then None
      else
        var explicit := |parts| > 1 && IsRoutingMode(parts[1]);
        var tokens := parts[if explicit then 2 else 1..];
        Some(ParsedLine(number, trimmed, parts[0], if explicit then parts[1] else defaultRouting,
                        Targets(tokens), LineError(parts[0], tokens)))
  }

  function LinesOf(lines: seq<string>, defaultRouting: string): seq<ParsedLine> {
    if lines == [] then []
    else
      var n := |lines| - 1;
      var last := LineOf(lines[n], n + 1, defaultRouting);
      LinesOf(lines[..n], defaultRouting) + if last.Some? then [last.value] else []
  }

  method ParseLine(raw: string, number: nat, defaultRouting: string) returns (r: Option<ParsedLine>)
    ensures r == LineOf(raw, number, defaultRouting)
  {
    var trimmed := TrimEnd(TrimStart(raw));
    if trimmed == "" || trimmed[0] == '#' {
      return None;
    }
    var parts := Words(trimmed);
    if |parts| == 0 {
      return None;
    }
    var name := parts[0];
    var routing := defaultRouting;
    var targetStart := 1;
    if |parts| > 1 && IsRoutingMode(parts[1]) {
      routing := parts[1];
      targetStart := 2;
    }
    var tokens := parts[targetStart..];
    var targets, parseError := ParseTokens(name, tokens);
    return Some(ParsedLine(number, trimmed, name, routing, targets, parseError));
  }

  method ParseTokens(name: string, tokens: seq<string>) returns (targets: seq<TargetRef>, parseError: Option<string>)
    ensures targets == Targets(tokens) && parseError == LineError(name, tokens)
  {
    targets, parseError := [], None;
    if ':' in name {
      parseError := Some("alias name must not contain ':'");
    }
    for i := 0 to |tokens|
      invariant targets == Targets(tokens[..i]) && parseError == LineError(name, tokens[..i])
    {
      assert tokens[..i + 1][..i] == tokens[..i];
      var t := ParseTargetToken(tokens[i]);
      if t.None? {
        if parseError.None? {
          parseError := Some(BadToken(tokens[i]));
        }
        continue;
      }
      targets := targets + [t.value];
    }
    assert tokens[..|tokens|] == tokens;
  }

  method ParseAliasText(text: string, defaultRouting: string) returns (out: seq<ParsedLine>)
    ensures out == LinesOf(SplitLines(text), defaultRouting)
  {
    var lines := SplitLines(text);
    out := [];
    for idx := 0 to |lines|
      invariant out == LinesOf(lines[..idx], defaultRouting)
    {
      assert lines[..idx + 1][..idx] == lines[..idx];
      var parsed := ParseLine(lines[idx], idx + 1, defaultRouting);
      if parsed.None? {
        continue;
      }
      out := out + [parsed.value];
    }
    assert lines[..|lines|] == lines;
  }

  // ---------- printing, and reading back ----------

  datatype AliasRow = AliasRow(name: string, routing: string, targets: seq<TargetRef>)

  predicate Word(w: string) {
    w != "" && forall i | 0 <= i < |w| :: !Space(w[i])
  }

  predicate WellFormed(r: AliasRow) {
    && Word(r.name) && ':' !in r.name && r.name[0] != '#' && IsRoutingMode(r.routing)
    && forall i | 0 <= i < |r.targets| ::
         Word(r.targets[i].slug) && ':' !in r.targets[i].slug && Word(r.targets[i].modelName)
  }

  function Token(t: TargetRef): string {
    t.slug + ":" + t.modelName
  }

  function Tokens(targets: seq<TargetRef>): seq<string> {
    seq(|targets|, i requires 0 <= i < |targets| => Token(targets[i]))
  }

  function PrintRow(r: AliasRow): string {
    Join([r.name, r.routing] + Tokens(r.targets), " ")
  }

  function RowLines(rows: seq<AliasRow>): seq<string> {
    seq(|rows|, i requires 0 <= i < |rows| => PrintRow(rows[i]))
  }

  function PrintRows(rows: seq<AliasRow>): string {
    Join(RowLines(rows), "\n")
  }

  lemma {:induction false} WordRead(w: string, rest: string, begun: string)
    requires forall i | 0 <= i < |w| :: !Space(w[i])
    ensures WordsFrom(w + rest, begun) == WordsFrom(rest, begun + w)
    decreases |w|
  {
    if w == "" {
      assert w + rest == rest && begun + w == begun;
    } else {
      assert (w + rest)[0] == w[0] && (w + rest)[1..] == w[1..] + rest;
      WordRead(w[1..], rest, begun + [w[0]]);
      assert begun + [w[0]] + w[1..] == begun + w;
    }
  }

  lemma {:induction false} WordsOfJoined(words: seq<string>)
    requires forall i | 0 <= i < |words| :: Word(words[i])
    ensures Words(Join(words, " ")) == words
  {
    if |words| == 1 {
      WordRead(words[0], "", "");
      assert words[0] + "" == words[0] && "" + words[0] == words[0];
    } else if |words| > 1 {
      var rest := Join(words[1..], " ");
      WordsOfJoined(words[1..]);
      WordRead(words[0], " " + rest, "");
      assert words[0] + " " + rest == words[0] + (" " + rest);
      assert "" + words[0] == words[0];
      assert (" " + rest)[1..] == rest;
      assert words == [words[0]] + words[1..];
    }
  }

  /** The joined words begin and end in characters of words. */
  lemma {:induction false} JoinedEnds(words: seq<string>)
    requires words != [] && Word(words[0]) && forall i | 0 <= i < |words| :: Word(words[i])
    ensures var s := Join(words, " ");
            && s != "" && s[0] == words[0][0]
            && !Space(s[|s| - 1]) && (forall i | 0 <= i < |s| :: s[i] == ' ' || !Space(s[i]))
  {
    if |words| > 1 {
      JoinedEnds(words[1..]);
      var rest := Join(words[1..], " ");
      var s := Join(words, " ");
      assert s == words[0] + " " + rest;
      forall i | 0 <= i < |s|
        ensures s[i] == ' ' || !Space(s[i])
      {
        if i < |words[0]| {
          assert s[i] == words[0][i];
        } else if i > |words[0]| {
          assert s[i] == rest[i - |words[0]| - 1];
        }
      }
    }
  }

  lemma TokenReads(t: TargetRef)
    requires Word(t.slug) && ':' !in t.slug && Word(t.modelName)
    ensures ParseTargetToken(Token(t)) == Some(t) && Word(Token(t))
  {
    var token := Token(t);
    assert token[|t.slug|] == ':' && token[..|t.slug|] == t.slug && token[|t.slug| + 1..] == t.modelName;
    forall j | 0 <= j < |t.slug|
      ensures token[j] != ':'
    {
      assert token[j] == t.slug[j];
    }
    IndexOfIs(token, ':', |t.slug|);
    assert !Space(':');
  }

  lemma {:induction false} TokensRead(name: string, targets: seq<TargetRef>)
    requires ':' !in name
    requires forall i | 0 <= i < |targets| ::
               Word(targets[i].slug) && ':' !in targets[i].slug && Word(targets[i].modelName)
    ensures Targets(Tokens(targets)) == targets && LineError(name, Tokens(targets)) == None
  {
    if targets != [] {
      var n := |targets| - 1;
      TokensRead(name, targets[..n]);
      assert Tokens(targets)[..n] == Tokens(targets[..n]);
      TokenReads(targets[n]);
      assert targets == targets[..n] + [targets[n]];
    }
  }

  lemma RowWords(r: AliasRow)
    requires WellFormed(r)
    ensures var words := [r.name, r.routing] + Tokens(r.targets);
            forall i | 0 <= i < |words| :: Word(words[i])
  {
    var words := [r.name, r.routing] + Tokens(r.targets);
    forall i | 0 <= i < |words|
      ensures Word(words[i])
    {
      if i >= 2 {
        TokenReads(r.targets[i - 2]);
      }
    }
  }

  lemma RowReads(r: AliasRow, number: nat, defaultRouting: string)
    requires WellFormed(r)
    ensures LineOf(PrintRow(r), number, defaultRouting)
            == Some(ParsedLine(number, PrintRow(r), r.name, r.routing, r.targets, None))
  {
    var words := [r.name, r.routing] + Tokens(r.targets);
    RowWords(r);
    JoinedEnds(words);
    WordsOfJoined(words);
    TokensRead(r.name, r.targets);
    assert words[2..] == Tokens(r.targets);
    assert TrimEnd(TrimStart(PrintRow(r))) == PrintRow(r);
  }

  /** A line that a line feed may follow without its end being mistaken for part of the break. */
  predicate Line(line: string) {
    line != "" && '\n' !in line && line[|line| - 1] != '\r'
  }

  lemma LastLine(line: string)
    requires Line(line)
    ensures SplitLines(line) == [line]
  {
    assert IndexOf(line, '\n') == |line|;
  }

  lemma FirstLine(line: string, rest: string)
    requires Line(line)
    ensures SplitLines(line + "\n" + rest) == [line] + SplitLines(rest)
  {
    var s := line + "\n" + rest;
    IndexOfIs(s, '\n', |line|);
    assert s[..|line|] == line && s[|line| + 1..] == rest;
  }

  lemma {:induction false} LinesSplit(lines: seq<string>)
    requires lines != []
    requires forall i | 0 <= i < |lines| :: Line(lines[i])
    ensures SplitLines(Join(lines, "\n")) == lines
  {
    if |lines| == 1 {
      LastLine(lines[0]);
    } else {
      LinesSplit(lines[1..]);
      FirstLine(lines[0], Join(lines[1..], "\n"));
      assert lines == [lines[0]] + lines[1..];
    }
  }

  function AsParsed(r: AliasRow, number: nat): ParsedLine {
    ParsedLine(number, PrintRow(r), r.name, r.routing, r.targets, None)
  }

  /** The rows as parsed, each with the number of its line. */
  function AllParsed(rows: seq<AliasRow>): seq<ParsedLine> {
    seq(|rows|, i requires 0 <= i < |rows| => AsParsed(rows[i], i + 1))
  }

  lemma LastRow(rows: seq<AliasRow>)
    requires rows != []
    ensures var n := |rows| - 1;
            && RowLines(rows)[..n] == RowLines(rows[..n])
            && AllParsed(rows) == AllParsed(rows[..n]) + [AsParsed(rows[n], n + 1)]
  {
  }

  lemma {:induction false} RowsRead(rows: seq<AliasRow>, defaultRouting: string)
    requires forall i | 0 <= i < |rows| :: WellFormed(rows[i])
    ensures LinesOf(RowLines(rows), defaultRouting) == AllParsed(rows)
  {
    if rows != [] {
      var n := |rows| - 1;
      RowsRead(rows[..n], defaultRouting);
      LastRow(rows);
      RowReads(rows[n], n + 1, defaultRouting);
    }
  }

  /** Printing well-formed rows, one a line, and parsing the text gives the rows back in order, without
      an error, whatever the default routing. */
  lemma PrintParseRoundTrip(rows: seq<AliasRow>, defaultRouting: string)
    requires forall i | 0 <= i < |rows| :: WellFormed(rows[i])
    ensures LinesOf(SplitLines(PrintRows(rows)), defaultRouting) == AllParsed(rows)
  {
    var lines := RowLines(rows);
    forall i | 0 <= i < |lines|
      ensures Line(lines[i])
    {
      RowWords(rows[i]);
      JoinedEnds([rows[i].name, rows[i].routing] + Tokens(rows[i].targets));
      assert Space('\n') && Space('\r');
    }
    if rows != [] {
      LinesSplit(lines);
    }
    RowsRead(rows, defaultRouting);
  }

  // ---------- resolving ----------

  datatype ProviderRef = ProviderRef(id: string, slug: string)

  datatype ImportTarget = ImportTarget(providerID: string, modelName: string, position: nat)

  datatype Status = Good | Warn | Skip | Bad

  datatype ResolvedRow = ResolvedRow(
    line: nat, raw: string, status: Status, name: string, routing: string, targets: seq<ImportTarget>,
    messages: seq<string>, warnings: seq<string>, needsOverride: bool)

  datatype Options = Options(
    providers: seq<ProviderRef>, existing: set<string>, discovery: map<string, seq<string>>, allowUnknownModels: bool)

  function FindBy(providers: seq<ProviderRef>, p: ProviderRef -> bool): Option<string> {
    if providers == [] then None
    else if p(providers[0]) then Some(providers[0].id)
    else FindBy(providers[1..], p)
  }

  function ResolveProviderId(ref: string, providers: seq<ProviderRef>): Option<string> {
    var bySlug := FindBy(providers, (p: ProviderRef) => p.slug == ref);
    if bySlug.Some? then bySlug else FindBy(providers, (p: ProviderRef) => p.id == ref)
  }

  /** The provider of a target; an empty id counts as none. */
  function ProviderOf(t: TargetRef, o: Options): Option<string> {
    match ResolveProviderId(t.slug, o.providers)
    case None => None
    case Some(id) => if id == "" then None else Some(id)
  }

  function PairKey(id: string, model: string): string {
    id + "\0" + model
  }

  /** Whether discovery lists models for the provider, and not this one. */
  predicate Undiscovered(id: string, model: string, o: Options) {
    id in o.discovery && o.discovery[id] != [] && model !in o.discovery[id]
  }

  ghost predicate AllResolve(targets: seq<TargetRef>, o: Options) {
    && (forall i | 0 <= i < |targets| :: ProviderOf(targets[i], o).Some?)
    && (forall i, j | 0 <= i < j < |targets| && ProviderOf(targets[i], o).Some? && ProviderOf(targets[j], o).Some? ::
          PairKey(ProviderOf(targets[i], o).value, targets[i].modelName)
          != PairKey(ProviderOf(targets[j], o).value, targets[j].modelName))
  }

  /** The targets of a row that all resolve: one for each reference, at its own position. */
  ghost predicate ResolvedTargets(out: seq<ImportTarget>, targets: seq<TargetRef>, o: Options) {
    && |out| == |targets|
    && forall i | 0 <= i < |out| ::
         ProviderOf(targets[i], o).Some?
           && out[i] == ImportTarget(ProviderOf(targets[i], o).value, targets[i].modelName, i)
  }

  ghost predicate NeedsOverride(targets: seq<TargetRef>, o: Options) {
    && !o.allowUnknownModels
    && exists i | 0 <= i < |targets| ::
         ProviderOf(targets[i], o).Some? && Undiscovered(ProviderOf(targets[i], o).value, targets[i].modelName, o)
  }

  ghost predicate KeysOf(pairKeys: set<string>, targets: seq<TargetRef>, o: Options) {
    forall k :: k in pairKeys <==>
      exists i | 0 <= i < |targets| ::
        ProviderOf(targets[i], o).Some? && PairKey(ProviderOf(targets[i], o).value, targets[i].modelName) == k
  }

  /** The loop over one row's targets. */
  method ResolveTargets(targets: seq<TargetRef>, o: Options)
    returns (out: seq<ImportTarget>, messages: seq<string>, warnings: seq<string>, needsOverride: bool)
    ensures messages == [] <==> AllResolve(targets, o)
    ensures messages == [] ==> ResolvedTargets(out, targets, o) && (needsOverride <==> NeedsOverride(targets, o))
  {
    out, messages, warnings, needsOverride := [], [], [], false;
    var pairKeys: set<string> := {};
    for i := 0 to |targets|
      invariant messages == [] <==> AllResolve(targets[..i], o)
      invariant messages == [] ==>
                  ResolvedTargets(out, targets[..i], o) && (needsOverride <==> NeedsOverride(targets[..i], o))
      invariant KeysOf(pairKeys, targets[..i], o)
    {
      var t := targets[i];
      TargetsNext(targets, i, o, pairKeys);
      ResolvedNext(out, targets, i, o);
      var providerId, problem := ResolveTarget(t, o, pairKeys);
      if problem.Some? {
        messages := messages + [problem.value];
        continue;
      }
      pairKeys := pairKeys + {PairKey(providerId, t.modelName)};
      if Undiscovered(providerId, t.modelName, o) {
        warnings := warnings + [Token(t) + " not in discovery"];
        if !o.allowUnknownModels {
          needsOverride := true;
        }
      }
      out := out + [ImportTarget(providerId, t.modelName, |out|)];
    }
    assert targets[..|targets|] == targets;
  }

  /** The provider of one target, or what is wrong with it. */
  method ResolveTarget(t: TargetRef, o: Options, pairKeys: set<string>) returns (id: string, problem: Option<string>)
    ensures problem.None? <==> ProviderOf(t, o).Some? && PairKey(ProviderOf(t, o).value, t.modelName) !in pairKeys
    ensures problem.None? ==> id == ProviderOf(t, o).value
  {
    var providerId := ProviderOf(t, o);
    if providerId.None? {
      return "", Some("unknown provider \"" + t.slug + "\"");
    }
    if PairKey(providerId.value, t.modelName) in pairKeys {
      return "", Some("duplicate target " + Token(t));
    }
    return providerId.value, None;
  }

  lemma ResolvedNext(out: seq<ImportTarget>, targets: seq<TargetRef>, i: nat, o: Options)
    requires i < |targets|
    ensures var p := ProviderOf(targets[i], o);
            ResolvedTargets(out, targets[..i], o) && p.Some? ==>
              ResolvedTargets(out + [ImportTarget(p.value, targets[i].modelName, |out|)], targets[..i + 1], o)
  {
  }

  lemma TargetsNext(targets: seq<TargetRef>, i: nat, o: Options, pairKeys: set<string>)
    requires i < |targets| && KeysOf(pairKeys, targets[..i], o)
    ensures var p := ProviderOf(targets[i], o);
            && (p.None? ==> !AllResolve(targets[..i + 1], o) && KeysOf(pairKeys, targets[..i + 1], o))
            && (p.Some? ==>
                  var key := PairKey(p.value, targets[i].modelName);
                  && (AllResolve(targets[..i + 1], o) <==> AllResolve(targets[..i], o) && key !in pairKeys)
                  && KeysOf(pairKeys + {key}, targets[..i + 1], o)
                  && (NeedsOverride(targets[..i + 1], o) <==>
                      NeedsOverride(targets[..i], o)
                        || (!o.allowUnknownModels && Undiscovered(p.value, targets[i].modelName, o))))
  {
    var before, after := targets[..i], targets[..i + 1];
    assert forall j | 0 <= j < i :: after[j] == before[j];
    assert after[i] == targets[i];
    if NeedsOverride(before, o) {
      var j :| 0 <= j < i && ProviderOf(before[j], o).Some?
               && Undiscovered(ProviderOf(before[j], o).value, before[j].modelName, o);
      assert after[j] == before[j];
    }
  }

  /** The name of row j is taken by it: rows in error on parsing, and those skipped, take none. */
  ghost predicate Takes(row: ParsedLine, o: Options, name: string) {
    row.parseError.None? && row.name == name && name != "" && name !in o.existing
  }

  ghost predicate TakenBefore(rows: seq<ParsedLine>, i: nat, o: Options, name: string)
    requires i <= |rows|
  {
    exists j | 0 <= j < i :: Takes(rows[j], o, name)
  }

  /** Row i is accepted: parsed, named anew, and all its targets resolve. */
  ghost predicate Acceptable(rows: seq<ParsedLine>, i: nat, o: Options)
    requires i < |rows|
  {
    var row := rows[i];
    && row.parseError.None? && row.name != "" && row.name !in o.existing
    && !TakenBefore(rows, i, o, row.name) && AllResolve(row.targets, o)
  }

  predicate Accepted(r: ResolvedRow) {
    r.status == Good || r.status == Warn
  }

  ghost predicate RowResolved(r: ResolvedRow, rows: seq<ParsedLine>, i: nat, o: Options)
    requires i < |rows|
  {
    var row := rows[i];
    && r.line == row.line && r.raw == row.raw
    && (Accepted(r) <==> Acceptable(rows, i, o))
    && (r.status == Skip <==> row.parseError.None? && row.name != "" && row.name in o.existing)
    && (Accepted(r) ==>
          && r.name == row.name && r.routing == row.routing && ResolvedTargets(r.targets, row.targets, o)
          && (r.status == Warn <==> NeedsOverride(row.targets, o)))
  }

  /** The mapping of `resolveAliasLines` over the parsed lines. */
  method ResolveRows(rows: seq<ParsedLine>, o: Options) returns (out: seq<ResolvedRow>)
    ensures |out| == |rows| && forall i | 0 <= i < |rows| :: RowResolved(out[i], rows, i, o)
  {
    out := [];
    var seen: set<string> := {};
    for i := 0 to |rows|
      invariant |out| == i && forall j | 0 <= j < i :: RowResolved(out[j], rows, j, o)
      invariant forall name :: name in seen <==> TakenBefore(rows, i, o, name)
    {
      var row := rows[i];
      assert forall name :: TakenBefore(rows, i + 1, o, name) <==> TakenBefore(rows, i, o, name) || Takes(row, o, name);
      var r;
      r, seen := ResolveRow(row, seen, o, rows, i);
      out := out + [r];
    }
  }

  method ResolveRow(row: ParsedLine, seen: set<string>, o: Options, ghost rows: seq<ParsedLine>, ghost i: nat)
    returns (r: ResolvedRow, seen': set<string>)
    requires i < |rows| && rows[i] == row
    requires forall name :: name in seen <==> TakenBefore(rows, i, o, name)
    ensures RowResolved(r, rows, i, o)
    ensures forall name :: name in seen' <==> name in seen || Takes(row, o, name)
  {
    seen' := seen;
    if row.parseError.Some? {
      return ResolvedRow(row.line, row.raw, Bad, "", "", [], [row.parseError.value], [], false), seen';
    }
    if row.name == "" {
      return ResolvedRow(row.line, row.raw, Bad, "", "", [], ["name is required"], [], false), seen';
    }
    if row.name in o.existing {
      var why := ["alias already exists"];
      return ResolvedRow(row.line, row.raw, Skip, row.name, row.routing, [], why, [], false), seen';
    }
    if row.name in seen {
      return ResolvedRow(row.line, row.raw, Bad, row.name, "", [], ["duplicate name in paste"], [], false), seen';
    }
    seen' := seen + {row.name};
    var targets, messages, warnings, needsOverride := ResolveTargets(row.targets, o);
    if |messages| > 0 {
      return ResolvedRow(row.line, row.raw, Bad, row.name, row.routing, [], messages, warnings, needsOverride), seen';
    }
    if |targets| == 0 {
      warnings := warnings + ["no targets (alias will 503 until targets are added)"];
    }
    return ResolvedRow(row.line, row.raw, if needsOverride then Warn else Good, row.name, row.routing, targets, [],
                       warnings, needsOverride), seen';
  }

  datatype Alias = Alias(name: string, routing: string, targets: seq<ImportTarget>)

  function RowToAlias(r: ResolvedRow): Option<Alias> {
    if !Accepted(r) || r.name == "" || r.routing == "" then None
    else Some(Alias(r.name, r.routing, r.targets))
  }

  method ResolveAliasLines(text: string, defaultRouting: string, o: Options)
    returns (parsed: seq<ParsedLine>, out: seq<ResolvedRow>)
    ensures parsed == LinesOf(SplitLines(text), defaultRouting)
    ensures |out| == |parsed| && forall i | 0 <= i < |parsed| :: RowResolved(out[i], parsed, i, o)
  {
    parsed := ParseAliasText(text, defaultRouting);
    out := ResolveRows(parsed, o);
  }

  lemma {:induction false} FindByFinds(providers: seq<ProviderRef>, p: ProviderRef -> bool)
    ensures FindBy(providers, p).Some? ==> exists x | x in providers :: x.id == FindBy(providers, p).value
  {
    if providers != [] && !p(providers[0]) {
      FindByFinds(providers[1..], p);
    }
  }

  lemma ProviderIsKnown(t: TargetRef, o: Options)
    ensures ProviderOf(t, o).Some? ==> exists x | x in o.providers :: x.id == ProviderOf(t, o).value
  {
    FindByFinds(o.providers, (p: ProviderRef) => p.slug == t.slug);
    FindByFinds(o.providers, (p: ProviderRef) => p.id == t.slug);
  }

  ghost predicate SafeAlias(a: Alias, o: Options) {
    && a.name !in o.existing
    && (forall i | 0 <= i < |a.targets| ::
          a.targets[i].position == i && exists p | p in o.providers :: p.id == a.targets[i].providerID)
    && (forall i, j | 0 <= i < j < |a.targets| ::
          (a.targets[i].providerID, a.targets[i].modelName) != (a.targets[j].providerID, a.targets[j].modelName))
  }

  /** Of any text, the aliases made have pairwise distinct names, none of them existing; each has
      pairwise distinct targets, on known providers, at positions 0, 1, 2, ... */
  lemma ImportIsSafe(parsed: seq<ParsedLine>, out: seq<ResolvedRow>, o: Options)
    requires |out| == |parsed| && forall i | 0 <= i < |parsed| :: RowResolved(out[i], parsed, i, o)
    ensures forall i | 0 <= i < |out| && RowToAlias(out[i]).Some? :: SafeAlias(RowToAlias(out[i]).value, o)
    ensures forall i, j | 0 <= i < j < |out| && RowToAlias(out[i]).Some? && RowToAlias(out[j]).Some? ::
              RowToAlias(out[i]).value.name != RowToAlias(out[j]).value.name
  {
    forall i | 0 <= i < |out| && RowToAlias(out[i]).Some?
      ensures SafeAlias(RowToAlias(out[i]).value, o)
    {
      RowIsSafe(parsed, i, out[i], o);
    }
    forall i, j | 0 <= i < j < |out| && RowToAlias(out[i]).Some? && RowToAlias(out[j]).Some?
      ensures RowToAlias(out[i]).value.name != RowToAlias(out[j]).value.name
    {
      assert RowResolved(out[i], parsed, i, o) && RowResolved(out[j], parsed, j, o);
      assert Takes(parsed[i], o, parsed[i].name);
    }
  }

  lemma RowIsSafe(parsed: seq<ParsedLine>, i: nat, r: ResolvedRow, o: Options)
    requires i < |parsed| && RowResolved(r, parsed, i, o) && RowToAlias(r).Some?
    ensures SafeAlias(RowToAlias(r).value, o)
  {
    var refs, targets := parsed[i].targets, r.targets;
    forall k | 0 <= k < |targets|
      ensures targets[k].position == k && exists p | p in o.providers :: p.id == targets[k].providerID
    {
      ProviderIsKnown(refs[k], o);
    }
    forall a, b | 0 <= a < b < |targets|
      ensures (targets[a].providerID, targets[a].modelName) != (targets[b].providerID, targets[b].modelName)
    {
      assert PairKey(ProviderOf(refs[a], o).value, refs[a].modelName)
             != PairKey(ProviderOf(refs[b], o).value, refs[b].modelName);
    }
  }

  // ---------- what a line says ----------

  ghost predicate AllSpace(s: string) {
    forall i | 0 <= i < |s| :: Space(s[i])
  }

  /** The line's first character that is no space. */
  ghost predicate Begins(line: string, c: char) {
    exists i | 0 <= i < |line| :: line[i] == c && !Space(c) && AllSpace(line[..i])
  }

  lemma {:induction false} TrimStartBegins(s: string)
    ensures TrimStart(s) == "" <==> AllSpace(s)
    ensures TrimStart(s) != "" ==> !Space(TrimStart(s)[0]) && Begins(s, TrimStart(s)[0])
    ensures forall c | Begins(s, c) :: TrimStart(s) != "" && TrimStart(s)[0] == c
  {
    if s != "" && Space(s[0]) {
      var rest := s[1..];
      TrimStartBegins(rest);
      assert AllSpace(s) <==> AllSpace(rest);
      forall c | Begins(s, c)
        ensures Begins(rest, c)
      {
        var i :| 0 <= i < |s| && s[i] == c && !Space(c) && AllSpace(s[..i]);
        assert rest[i - 1] == c && rest[..i - 1] == s[..i][1..];
      }
      if TrimStart(rest) != "" {
        var c := TrimStart(rest)[0];
        var i :| 0 <= i < |rest| && rest[i] == c && !Space(c) && AllSpace(rest[..i]);
        assert s[i + 1] == c && s[..i + 1] == [s[0]] + rest[..i];
      }
    } else if s != "" {
      assert AllSpace(s[..0]);
    }
  }

  lemma {:induction false} TrimEndBegins(s: string)
    requires s != "" && !Space(s[0])
    ensures TrimEnd(s) != "" && TrimEnd(s)[0] == s[0]
    decreases |s|
  {
    if Space(s[|s| - 1]) {
      TrimEndBegins(s[..|s| - 1]);
    }
  }

  /** A line is passed over exactly when it is blank or a comment. */
  lemma LineIsSkippedIff(line: string, number: nat, defaultRouting: string)
    ensures LineOf(line, number, defaultRouting).None? <==> AllSpace(line) || Begins(line, '#')
  {
    TrimStartBegins(line);
    var start := TrimStart(line);
    if start != "" {
      TrimEndBegins(start);
      WordsBegin(TrimEnd(start));
    }
  }

  lemma WordsBegin(s: string)
    requires s != "" && !Space(s[0])
    ensures Words(s) != []
  {
    WordsKeep(s[1..], [s[0]]);
    assert "" + [s[0]] == [s[0]];
  }

  lemma {:induction false} WordsKeep(s: string, word: string)
    requires word != ""
    ensures WordsFrom(s, word) != []
    decreases |s|
  {
    if s != "" && !Space(s[0]) {
      WordsKeep(s[1..], word + [s[0]]);
    }
  }

  /** A token is a target: its slug, a colon, and its model, neither empty. */
  ghost predicate Says(token: string, t: TargetRef) {
    t.slug != "" && ':' !in t.slug && t.modelName != "" && token == t.slug + ":" + t.modelName
  }

  ghost predicate IsTarget(token: string) {
    exists t :: Says(token, t)
  }

  lemma TokenSays(token: string)
    ensures match ParseTargetToken(token)
            case Some(t) => Says(token, t) && forall u | Says(token, u) :: u == t
            case None => forall t :: !Says(token, t)
  {
    forall u | Says(token, u)
      ensures ParseTargetToken(token) == Some(u)
    {
      assert token[|u.slug|] == ':' && token[..|u.slug|] == u.slug && token[|u.slug| + 1..] == u.modelName;
      assert forall j | 0 <= j < |u.slug| :: token[j] == u.slug[j];
      IndexOfIs(token, ':', |u.slug|);
    }
    var i := IndexOf(token, ':');
    if i < |token| {
      assert token == token[..i] + ":" + token[i + 1..];
    }
  }

  /** The targets said by tokens, in order, each at the token `at` gives. */
  ghost predicate TargetsAt(targets: seq<TargetRef>, tokens: seq<string>, at: seq<nat>) {
    && |at| == |targets|
    && (forall i | 0 <= i < |at| :: at[i] < |tokens| && Says(tokens[at[i]], targets[i]))
    && (forall i, j | 0 <= i < j < |at| :: at[i] < at[j])
    && (forall k: nat, t | k < |tokens| && Says(tokens[k], t) :: k in at)
  }

  lemma {:induction false} TargetsAreSaid(tokens: seq<string>) returns (at: seq<nat>)
    ensures TargetsAt(Targets(tokens), tokens, at)
  {
    at := [];
    if tokens != [] {
      var n := |tokens| - 1;
      at := TargetsAreSaid(tokens[..n]);
      TokenSays(tokens[n]);
      var t := ParseTargetToken(tokens[n]);
      if t.Some? {
        TargetSaidNext(Targets(tokens[..n]), tokens, at, t.value);
        at := at + [n];
      } else {
        NoTargetNext(Targets(tokens[..n]), tokens, at);
        assert Targets(tokens[..n]) + [] == Targets(tokens[..n]);
      }
    }
  }

  lemma TargetSaidNext(targets: seq<TargetRef>, tokens: seq<string>, at: seq<nat>, t: TargetRef)
    requires tokens != [] && TargetsAt(targets, tokens[..|tokens| - 1], at) && Says(tokens[|tokens| - 1], t)
    ensures TargetsAt(targets + [t], tokens, at + [|tokens| - 1])
  {
    var n := |tokens| - 1;
    forall k: nat, u | k < |tokens| && Says(tokens[k], u)
      ensures k in at + [n]
    {
      if k < n {
        assert tokens[..n][k] == tokens[k];
      }
    }
  }

  lemma NoTargetNext(targets: seq<TargetRef>, tokens: seq<string>, at: seq<nat>)
    requires tokens != [] && TargetsAt(targets, tokens[..|tokens| - 1], at)
    requires !IsTarget(tokens[|tokens| - 1])
    ensures TargetsAt(targets, tokens, at)
  {
    var n := |tokens| - 1;
    forall k: nat, u | k < |tokens| && Says(tokens[k], u)
      ensures k in at
    {
      if k < n {
        assert tokens[..n][k] == tokens[k];
      }
    }
  }

  lemma {:induction false} ErrorIff(name: string, tokens: seq<string>)
    ensures LineError(name, tokens).Some? <==> ':' in name || exists i | 0 <= i < |tokens| :: !IsTarget(tokens[i])
  {
    if tokens != [] {
      var n := |tokens| - 1;
      ErrorIff(name, tokens[..n]);
      TokenSays(tokens[n]);
      assert ParseTargetToken(tokens[n]).None? <==> !IsTarget(tokens[n]);
      assert forall i | 0 <= i < n :: tokens[..n][i] == tokens[i];
    }
  }

  /** What a line of words says, its first being no comment: the name; the routing, the second word if it is
      one, and else the default; the targets among the words after that, in order; and an error exactly
      when the name holds a colon or one of those words is no target. */
  ghost predicate LineIs(line: ParsedLine, words: seq<string>, routed: bool, number: nat, defaultRouting: string)
    requires |words| >= if routed then 2 else 1
  {
    var tokens := words[if routed then 2 else 1..];
    && line.line == number && line.raw == Join(words, " ") && line.name == words[0]
    && line.routing == (if routed then words[1] else defaultRouting)
    && SaysTargets(line.targets, tokens)
    && (line.parseError.Some? <==> ':' in words[0] || exists i | 0 <= i < |tokens| :: !IsTarget(tokens[i]))
  }

  ghost predicate SaysTargets(targets: seq<TargetRef>, tokens: seq<string>) {
    exists at :: TargetsAt(targets, tokens, at)
  }

  lemma RoutingModes(w: string)
    ensures IsRoutingMode(w) <==> w in {"random", "round_robin", "priority", "failover"}
  {
  }

  lemma LineSays(words: seq<string>, number: nat, defaultRouting: string)
    requires words != [] && Word(words[0]) && words[0][0] != '#' && forall i | 0 <= i < |words| :: Word(words[i])
    ensures var line := LineOf(Join(words, " "), number, defaultRouting);
            var routed := |words| > 1 && IsRoutingMode(words[1]);
            line.Some? && LineIs(line.value, words, routed, number, defaultRouting)
  {
    var routed := |words| > 1 && IsRoutingMode(words[1]);
    LineOfWords(words, number, defaultRouting);
    TokensSay(words[0], words[if routed then 2 else 1..]);
  }

  lemma TokensSay(name: string, tokens: seq<string>)
    ensures SaysTargets(Targets(tokens), tokens)
    ensures LineError(name, tokens).Some? <==> ':' in name || exists i | 0 <= i < |tokens| :: !IsTarget(tokens[i])
  {
    var at := TargetsAreSaid(tokens);
    ErrorIff(name, tokens);
  }

  lemma LineOfWords(words: seq<string>, number: nat, defaultRouting: string)
    requires words != [] && Word(words[0]) && words[0][0] != '#' && forall i | 0 <= i < |words| :: Word(words[i])
    ensures var routed := |words| > 1 && IsRoutingMode(words[1]);
            var tokens := words[if routed then 2 else 1..];
            LineOf(Join(words, " "), number, defaultRouting)
            == Some(ParsedLine(number, Join(words, " "), words[0], if routed then words[1] else defaultRouting,
                               Targets(tokens), LineError(words[0], tokens)))
  {
    JoinedStays(words);
    WordsOfJoined(words);
  }

  lemma JoinedStays(words: seq<string>)
    requires words != [] && Word(words[0]) && forall i | 0 <= i < |words| :: Word(words[i])
    ensures var s := Join(words, " ");
            s != "" && s[0] == words[0][0] && TrimEnd(TrimStart(s)) == s
  {
    JoinedEnds(words);
  }

  /** A reference names a provider by its slug, or for want of one by its id; an empty id counts as none. */
  lemma ProviderIsNamed(t: TargetRef, o: Options)
    ensures match ProviderOf(t, o)
            case Some(id) =>
              id != "" && exists p | p in o.providers ::
                p.id == id && (p.slug == t.slug
                               || ((forall q | q in o.providers :: q.slug != t.slug) && p.id == t.slug))
            case None =>
              || (forall q | q in o.providers :: q.slug != t.slug && q.id != t.slug)
              || exists p | p in o.providers :: p.id == "" && t.slug in {p.slug, p.id}
  {
    FindByIs(o.providers, (p: ProviderRef) => p.slug == t.slug);
    FindByIs(o.providers, (p: ProviderRef) => p.id == t.slug);
  }

  lemma {:induction false} FindByIs(providers: seq<ProviderRef>, p: ProviderRef -> bool)
    ensures match FindBy(providers, p)
            case Some(id) => exists x | x in providers :: p(x) && x.id == id
            case None => forall x | x in providers :: !p(x)
  {
    if providers != [] && !p(providers[0]) {
      FindByIs(providers[1..], p);
    }
  }

  lemma LineOfCRLF(line: string, rest: string)
    requires '\n' !in line
    ensures SplitLines(line + "\r\n" + rest) == [line] + SplitLines(rest)
  {
    var s, cr := line + "\r\n" + rest, line + "\r";
    assert s[|cr|] == '\n' && s[..|cr|] == cr && s[|cr| + 1..] == rest;
    IndexOfIs(s, '\n', |cr|);
    assert cr[..|line|] == line;
  }

  /** Words end at any space. */
  lemma WordsSplit(a: string, c: char, b: string)
    requires Space(c)
    ensures Words(a + [c] + b) == Words(a) + Words(b)
  {
    WordsFromSplit(a, "", c, b);
  }

  lemma {:induction false} WordsFromSplit(a: string, word: string, c: char, b: string)
    requires Space(c)
    ensures WordsFrom(a + [c] + b, word) == WordsFrom(a, word) + WordsFrom(b, "")
    decreases |a|
  {
    var s := a + [c] + b;
    if a == "" {
      assert s[0] == c && s[1..] == b;
    } else {
      assert s[0] == a[0] && s[1..] == a[1..] + [c] + b;
      if Space(a[0]) {
        WordsFromSplit(a[1..], "", c, b);
        ConcatAssoc(Finished(word), WordsFrom(a[1..], ""), WordsFrom(b, ""));
      } else {
        WordsFromSplit(a[1..], word + [a[0]], c, b);
      }
    }
  }
}
