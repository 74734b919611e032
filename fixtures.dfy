/**
 * End-to-end statements about a combined-data stream, in the setting of the
 * fixture tests of ais/ais_test.go: PostCombined reads newline-separated JSON
 * (the plain pump) under context.Background(), which is never done, and decodes
 * every line into a fresh CombinedMultiple.
 */
module Fixtures {
  import opened Wrappers
  import opened Json
  import opened Errors
  import opened Session
  import opened Unions

  /** context.Background(): never done. */
  const Background := Ctx(_ => false, Canceled)

  /** The session PostCombined's stream runs. */
  function CombinedSession(codec: Codec, readError: Option<string>): Pump<CombinedMultiple> {
    Pump(Plain, CombinedDecoder(codec), readError, Background)
  }

  /** Every line parses, is classified as kind, and fills that kind's struct. */
  ghost predicate AllOfKind(codec: Codec, frames: seq<Bytes>, kind: CombinedKind) {
    forall k :: 0 <= k < |frames| ==>
      && codec.parse(frames[k]).Ok?
      && Classify(codec.parse(frames[k]).value) == Ok(kind)
      && codec.fill(kind.Shape(), Zero, frames[k]).Ok?
  }

  lemma LineOfKind(codec: Codec, frame: Bytes, kind: CombinedKind)
    requires codec.parse(frame).Ok? && Classify(codec.parse(frame).value) == Ok(kind)
    requires codec.fill(kind.Shape(), Zero, frame).Ok?
    ensures CombinedDecoder(codec)(frame).Ok?
    ensures CombinedDecoder(codec)(frame).value.typ == kind.Tag()
    ensures CombinedDecoder(codec)(frame).value.Variant(kind) == codec.fill(kind.Shape(), Zero, frame).value
  {
    CombinedDispatch(ZeroCombined, codec, frame);
  }

  /**
   * A body whose every line is a well-formed message of one kind: every line is
   * delivered, in order, tagged with that kind and carrying its decoded struct,
   * and the stream ends with the end-of-stream sentinel.
   */
  lemma FixtureOfOneKind(codec: Codec, frames: seq<Bytes>, kind: CombinedKind)
    requires AllOfKind(codec, frames, kind)
    ensures var o := Run(CombinedSession(codec, None), frames, 0);
      && |o.delivered| == |frames|
      && (forall k :: 0 <= k < |frames| ==>
            o.delivered[k].typ == kind.Tag() && o.delivered[k].Variant(kind) == codec.fill(kind.Shape(), Zero, frames[k]).value)
      && IsEOF(Some(o.reason))
  {
    var p := CombinedSession(codec, None);
    forall k | 0 <= k < |frames|
      ensures p.decode(frames[k]).Ok?
      ensures p.decode(frames[k]).value.typ == kind.Tag()
      ensures p.decode(frames[k]).value.Variant(kind) == codec.fill(kind.Shape(), Zero, frames[k]).value
    {
      LineOfKind(codec, frames[k], kind);
    }
    assert RunsThrough(p, frames, 0, |frames|);
    EndOfInput(p, frames);
    PlainDeliversEveryFrame(p.decode, frames);
  }

  /**
   * A body with a line that does not decode ends with an error that is not the
   * end-of-stream sentinel, whatever the other lines hold and whether or not the
   * scanner fails afterwards.
   */
  lemma BrokenFixture(codec: Codec, frames: seq<Bytes>, readError: Option<string>, k: nat)
    requires k < |frames| && CombinedDecoder(codec)(frames[k]).Err?
    ensures !IsEOF(Some(Run(CombinedSession(codec, readError), frames, 0).reason))
  {
    var p := CombinedSession(codec, readError);
    assert StepOf(p.framing, p.decode, frames[k]).Stop?;
    EofExactlyWhenClean(p, frames, 0);
  }
}
