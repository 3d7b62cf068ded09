/** The tokens the access log records of a translated stream are those the client is told
    (internal/proxy/outcome.go:71-100 behind the stream translators). */
module StreamTokens {
  import opened Prelude
  import opened Text
  import opened UsageTap
  import Sse
  import opened ChatTypes

  function Printed(frames: seq<Frame>, show: Frame -> string): seq<string> {
    seq(|frames|, i requires 0 <= i < |frames| => show(frames[i]))
  }

  /** The printed JSON reads back, as far as usage goes, as the frame it was made of. */
  ghost predicate Faithful(show: Frame -> string, usageOf: UsageOf) {
    forall f ::
      && OneLine(show(f))
      && match f
         case Done => show(f) == "[DONE]"
         case ErrorFrame(_) => show(f) != "[DONE]" && usageOf(show(f)).None?
         case ChunkFrame(c) =>
           && show(f) != "[DONE]"
           && usageOf(show(f)) == UsageOfFrame(f)
  }

  lemma {:induction false} LastUsageIsTold(frames: seq<Frame>, show: Frame -> string, usageOf: UsageOf)
    requires Faithful(show, usageOf)
    ensures var told := Assemble(NOTHING, frames).usage;
            LastUsage(Usage(0, 0), Printed(frames, show), usageOf)
            == if told.None? then Usage(0, 0) else Usage(told.value.prompt, told.value.completion)
  {
    if frames != [] {
      var n := |frames| - 1;
      LastUsageIsTold(frames[..n], show, usageOf);
      var jsons := Printed(frames, show);
      assert jsons[..n] == Printed(frames[..n], show) && jsons[n] == show(frames[n]);
      assert OneLine(show(frames[n]));
    }
  }

  /** However the printed frames are cut into writes, the tap ends with the usage that the client of
      the stream has, and with nothing when it was told none. */
  lemma TapAgreesWithClient(frames: seq<Frame>, pieces: seq<string>, show: Frame -> string, usageOf: UsageOf)
    requires Faithful(show, usageOf)
    requires Concat(pieces) == Frames(Printed(frames, show))
    ensures var told := Assemble(NOTHING, frames).usage;
            FeedAll(FRESH, pieces, usageOf)
            == Tap("", if told.None? then Usage(0, 0) else Usage(told.value.prompt, told.value.completion))
  {
    var jsons := Printed(frames, show);
    forall j | j in jsons
      ensures OneLine(j)
    {
      var i :| 0 <= i < |jsons| && jsons[i] == j;
      assert j == show(frames[i]);
    }
    TapRecordsLastUsage(jsons, pieces, usageOf);
    LastUsageIsTold(frames, show, usageOf);
  }

  function UsageOfFrame(f: Frame): Option<Usage> {
    if f.ChunkFrame? && f.chunk.usage.Some? then Some(Usage(f.chunk.usage.value.prompt, f.chunk.usage.value.completion))
    else None
  }

  /** The tokens a client has been told, once it has these frames. */
  function Told(frames: seq<Frame>): Usage {
    var told := Assemble(NOTHING, frames).usage;
    if told.None? then Usage(0, 0) else Usage(told.value.prompt, told.value.completion)
  }

  /** The tap sees one frame more than a connection takes that breaks after `room` of them. So what is
      recorded is what the client was told exactly when the connection takes the whole stream, or the
      frame it breaks on carries no usage, or none but what the client was told before. */
  lemma TapAgreesWithClientIff(frames: seq<Frame>, room: nat, pieces: seq<string>, show: Frame -> string,
                               usageOf: UsageOf)
    requires Faithful(show, usageOf)
    requires Concat(pieces) == Frames(Printed(Sse.Reaches(frames, room + 1), show))
    ensures FeedAll(FRESH, pieces, usageOf) == Tap("", Told(Sse.Reaches(frames, room + 1)))
    ensures FeedAll(FRESH, pieces, usageOf).usage == Told(Sse.Reaches(frames, room)) <==>
            || |frames| <= room
            || UsageOfFrame(frames[room]).None?
            || UsageOfFrame(frames[room]) == Some(Told(Sse.Reaches(frames, room)))
  {
    TapAgreesWithClient(Sse.Reaches(frames, room + 1), pieces, show, usageOf);
    if |frames| > room {
      assert Sse.Reaches(frames, room + 1) == frames[..room] + [frames[room]];
      ToldNext(frames[..room], frames[room]);
    }
  }

  lemma ToldNext(frames: seq<Frame>, f: Frame)
    ensures Told(frames + [f]) == if UsageOfFrame(f).Some? then UsageOfFrame(f).value else Told(frames)
  {
    assert (frames + [f])[..|frames|] == frames;
  }

  /** Such a stream: it breaks on its closing chunk, whose usage is recorded all the same. */
  lemma LostUsageIsRecorded(model: string, show: Frame -> string, usageOf: UsageOf)
    requires Faithful(show, usageOf)
    ensures var closing := ChunkFrame(Chunk("id", model, EmptyDelta(), Some("stop"), Some(TokenUsage(3, 5, 8))));
            var pieces := Printed([closing], show);
            && Told(Sse.Reaches([closing], 0)) == Usage(0, 0)
            && FeedAll(FRESH, [UsageTap.Frame(pieces[0])], usageOf).usage == Usage(3, 5)
  {
    var closing := ChunkFrame(Chunk("id", model, EmptyDelta(), Some("stop"), Some(TokenUsage(3, 5, 8))));
    var jsons := Printed([closing], show);
    var none, empty: seq<string> := "", [];
    assert jsons[..0] == empty && Frames(jsons) == none + UsageTap.Frame(jsons[0]);
    assert [UsageTap.Frame(jsons[0])][..0] == empty;
    TapAgreesWithClient([closing], [UsageTap.Frame(jsons[0])], show, usageOf);
    AssembleOne(NOTHING, closing);
  }
}
