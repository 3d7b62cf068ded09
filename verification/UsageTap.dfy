/** The writer that notes token usage while a stream passes through it
    (internal/proxy/outcome.go:64-100). */
module UsageTap {
  import opened Prelude
  import opened Text

  /** What the client gets to see, in order; a stream's data are what its connection took. */
  datatype Sent = Head(code: int) | Data(bytes: string) | ErrorBody(kind: string, message: string)

  class ClientWriter {
    var trace: seq<Sent>

    constructor ()
      ensures trace == []
    {
      trace := [];
    }

    method Send(x: Sent)
      modifies this
      ensures trace == old(trace) + [x]
    {
      trace := trace + [x];
    }
  }

  datatype Usage = Usage(prompt: int, completion: int)

  /** The `usage` object of a JSON text; None when the text is no such JSON. */
  type UsageOf = string -> Option<Usage>

  datatype Tap = Tap(buf: string, usage: Usage)

  const FRESH := Tap("", Usage(0, 0))
  const DATA := "data:"

  function LineUsage(line: string, usageOf: UsageOf): Option<Usage> {
    var l := Trim(line);
    if !(DATA <= l) then None
    else
      var data := Trim(l[|DATA|..]);
      if data == "" || data == "[DONE]" then None else usageOf(data)
  }

  function Note(u: Usage, line: string, usageOf: UsageOf): Usage {
    match LineUsage(line, usageOf)
    case Some(v) => v
    case None => u
  }

  /** All complete lines taken off the buffer. */
  function Drain(t: Tap, usageOf: UsageOf): Tap
    decreases |t.buf|
  {
    var i := IndexOf(t.buf, '\n');
    if i == |t.buf| then t
    else Drain(Tap(t.buf[i + 1..], Note(t.usage, t.buf[..i], usageOf)), usageOf)
  }

  function Feed(t: Tap, p: string, usageOf: UsageOf): Tap {
    Drain(t.(buf := t.buf + p), usageOf)
  }

  function FeedAll(t: Tap, pieces: seq<string>, usageOf: UsageOf): Tap {
    if pieces == [] then t
    else Feed(FeedAll(t, pieces[..|pieces| - 1], usageOf), pieces[|pieces| - 1], usageOf)
  }

  class UsageCaptureWriter {
    const inner: ClientWriter
    const usageOf: UsageOf
    var buf: string
    var prompt: int
    var completion: int

    ghost function View(): Tap
      reads this
    {
      Tap(buf, Usage(prompt, completion))
    }

    constructor (inner: ClientWriter, usageOf: UsageOf)
      ensures this.inner == inner && this.usageOf == usageOf && View() == FRESH
    {
      this.inner, this.usageOf := inner, usageOf;
      buf, prompt, completion := "", 0, 0;
    }

    /** The connection takes `taken` of the bytes, and may fail: all of them are noted nonetheless. */
    method Write(p: string, taken: nat, failed: bool) returns (n: nat, ok: bool)
      requires taken <= |p|
      modifies this, inner
      ensures n == taken && ok == !failed
      ensures inner.trace == old(inner.trace) + [Data(p[..n])]
      ensures View() == Feed(old(View()), p, usageOf)
    {
      inner.Send(Data(p[..taken]));
      n, ok := taken, !failed;
      buf := buf + p;
      while true
        invariant inner.trace == old(inner.trace) + [Data(p[..n])]
        invariant Drain(View(), usageOf) == Feed(old(View()), p, usageOf)
        decreases |buf|
      {
        var i := IndexOf(buf, '\n');
        if i == |buf| {
          break;
        }
        var line := Trim(buf[..i]);
        buf := buf[i + 1..];
        if !(DATA <= line) {
          continue;
        }
        var data := Trim(line[|DATA|..]);
        if data == "" || data == "[DONE]" {
          continue;
        }
        var usage := usageOf(data);
        if usage.Some? {
          prompt, completion := usage.value.prompt, usage.value.completion;
        }
      }
    }
  }

  lemma {:induction false} DrainSplit(t: Tap, more: string, usageOf: UsageOf)
    ensures Feed(t, more, usageOf) == Feed(Drain(t, usageOf), more, usageOf)
    decreases |t.buf|
  {
    var i := IndexOf(t.buf, '\n');
    if i < |t.buf| {
      DrainFirst(t, i, more, usageOf);
      DrainSplit(Tap(t.buf[i + 1..], Note(t.usage, t.buf[..i], usageOf)), more, usageOf);
    }
  }

  lemma DrainFirst(t: Tap, i: nat, more: string, usageOf: UsageOf)
    requires i < |t.buf| && i == IndexOf(t.buf, '\n')
    ensures Feed(t, more, usageOf) == Feed(Tap(t.buf[i + 1..], Note(t.usage, t.buf[..i], usageOf)), more, usageOf)
  {
    var all := t.buf + more;
    IndexOfIs(all, '\n', i);
    assert all[..i] == t.buf[..i] && all[i + 1..] == t.buf[i + 1..] + more;
  }

  /** However the bytes are cut into writes, the tap ends in the state that one write of all of them
      gives. */
  lemma {:induction false} ChunkingInvariance(t: Tap, pieces: seq<string>, usageOf: UsageOf)
    requires Drain(t, usageOf) == t
    ensures FeedAll(t, pieces, usageOf) == Feed(t, Concat(pieces), usageOf)
  {
    if pieces == [] {
      assert t.buf + "" == t.buf;
    } else {
      var n := |pieces| - 1;
      var head, last := Concat(pieces[..n]), pieces[n];
      ChunkingInvariance(t, pieces[..n], usageOf);
      DrainSplit(t.(buf := t.buf + head), last, usageOf);
      ConcatAssoc(t.buf, head, last);
    }
  }

  /** b is what follows the last newline of s, or all of s when it has none. */
  ghost predicate IsTail(b: string, s: string) {
    && '\n' !in b && |b| <= |s| && s[|s| - |b|..] == b
    && (|b| < |s| ==> s[|s| - |b| - 1] == '\n')
  }

  lemma TailOfTail(b: string, s: string, i: nat)
    requires i < |s| && s[i] == '\n' && IsTail(b, s[i + 1..])
    ensures IsTail(b, s)
  {
    var rest := s[i + 1..];
    assert s[|s| - |b|..] == rest[|rest| - |b|..];
  }

  lemma TailOfSelf(s: string)
    requires '\n' !in s
    ensures IsTail(s, s)
  {
    assert s[0..] == s;
  }

  /** The buffer is exactly what follows the last newline. */
  lemma {:induction false} BufferIsTail(t: Tap, usageOf: UsageOf)
    ensures IsTail(Drain(t, usageOf).buf, t.buf)
    decreases |t.buf|
  {
    var i := IndexOf(t.buf, '\n');
    if i < |t.buf| {
      var rest := Tap(t.buf[i + 1..], Note(t.usage, t.buf[..i], usageOf));
      BufferIsTail(rest, usageOf);
      TailOfTail(Drain(rest, usageOf).buf, t.buf, i);
    } else {
      TailOfSelf(t.buf);
    }
  }

  /** One server-sent frame as the translators print it: the JSON on a data line, then a blank line. */
  function Frame(json: string): string {
    "data: " + json + "\n\n"
  }

  predicate OneLine(json: string) {
    Trimmed(json) && '\n' !in json
  }

  function Frames(jsons: seq<string>): string {
    if jsons == [] then "" else Frames(jsons[..|jsons| - 1]) + Frame(jsons[|jsons| - 1])
  }

  /** The usage of the last frame that carries any; the closing [DONE] carries none. */
  function LastUsage(u: Usage, jsons: seq<string>, usageOf: UsageOf): Usage {
    if jsons == [] then u
    else
      var j := jsons[|jsons| - 1];
      var before := LastUsage(u, jsons[..|jsons| - 1], usageOf);
      if j != "[DONE]" && usageOf(j).Some? then usageOf(j).value else before
  }

  lemma DataLineNoted(u: Usage, json: string, usageOf: UsageOf)
    requires OneLine(json)
    ensures Note(u, "data: " + json, usageOf)
            == (if json != "[DONE]" && usageOf(json).Some? then usageOf(json).value else u)
  {
    var line := "data: " + json;
    assert Trimmed(line);
    TrimPadded(line);
    assert DATA <= line && line[|DATA|..] == " " + json;
    TrimPadded(json);
  }

  lemma FrameNoted(u: Usage, json: string, usageOf: UsageOf)
    requires OneLine(json)
    ensures Drain(Tap(Frame(json), u), usageOf)
            == Tap("", if json != "[DONE]" && usageOf(json).Some? then usageOf(json).value else u)
  {
    var line, bytes := "data: " + json, Frame(json);
    var noted := Note(u, line, usageOf);
    assert bytes[|line|] == '\n' && bytes[..|line|] == line && bytes[|line| + 1..] == "\n";
    IndexOfIs(bytes, '\n', |line|);
    assert Drain(Tap(bytes, u), usageOf) == Drain(Tap("\n", noted), usageOf);
    BlankNoted(noted, usageOf);
    DataLineNoted(u, json, usageOf);
  }

  lemma BlankNoted(u: Usage, usageOf: UsageOf)
    ensures Drain(Tap("\n", u), usageOf) == Tap("", u)
  {
    IndexOfIs("\n", '\n', 0);
    assert "\n"[..0] == "" && "\n"[1..] == "";
    assert Trim("") == "" && LineUsage("", usageOf).None?;
  }

  /** On the frames of a translated stream, cut into writes anyhow, the tokens recorded are those of
      the last frame that carries usage. */
  lemma {:induction false} TapRecordsLastUsage(jsons: seq<string>, pieces: seq<string>, usageOf: UsageOf)
    requires forall j | j in jsons :: OneLine(j)
    requires Concat(pieces) == Frames(jsons)
    ensures FeedAll(FRESH, pieces, usageOf) == Tap("", LastUsage(Usage(0, 0), jsons, usageOf))
  {
    ChunkingInvariance(FRESH, pieces, usageOf);
    assert "" + Concat(pieces) == Concat(pieces);
    FramesNoted(jsons, usageOf);
  }

  lemma {:induction false} FramesNoted(jsons: seq<string>, usageOf: UsageOf)
    requires forall j | j in jsons :: OneLine(j)
    ensures Drain(Tap(Frames(jsons), Usage(0, 0)), usageOf) == Tap("", LastUsage(Usage(0, 0), jsons, usageOf))
  {
    if jsons != [] {
      var n := |jsons| - 1;
      var head, u := Frames(jsons[..n]), LastUsage(Usage(0, 0), jsons[..n], usageOf);
      FramesNoted(jsons[..n], usageOf);
      DrainSplit(Tap(head, Usage(0, 0)), Frame(jsons[n]), usageOf);
      assert "" + Frame(jsons[n]) == Frame(jsons[n]);
      FrameNoted(u, jsons[n], usageOf);
    }
  }

  /** A line is noted for its usage when it is data, after whatever space, that is neither empty nor [DONE]
      and has usage; any other line, and any part of one, leaves the tokens as they are. */
  lemma LineIsNoted(u: Usage, line: string, usageOf: UsageOf)
    requires '\n' !in line
    ensures var l := Trim(line);
            var data := if DATA <= l then Trim(l[|DATA|..]) else "";
            Drain(Tap(line + "\n", u), usageOf)
            == Tap("", if data !in {"", "[DONE]"} && usageOf(data).Some? then usageOf(data).value else u)
    ensures Drain(Tap(line, u), usageOf) == Tap(line, u)
  {
    var bytes := line + "\n";
    IndexOfIs(bytes, '\n', |line|);
    assert bytes[..|line|] == line && bytes[|line| + 1..] == "";
    assert Drain(Tap("", Note(u, line, usageOf)), usageOf) == Tap("", Note(u, line, usageOf));
    assert IndexOf(line, '\n') == |line|;
  }
}
