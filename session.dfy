/**
 * What one stream session does, as a function of its input: the loop shared by
 * unmarshalDefault and unmarshalSSE (ais/response.go), one frame per iteration.
 * Each iteration first checks the context, then scans the next frame, then
 * decodes it and delivers, skips or stops.  The class in stream.dfy runs this
 * loop imperatively and is proved to end in the state Run describes.
 */
module Session {
  import opened Wrappers
  import opened Json
  import opened Errors
  import Sse

  /** Plain: one JSON document per line.  EventStream: `data:` lines of server-sent events. */
  datatype Framing = Plain | EventStream

  /**
   * The session's context: done(k) tells whether ctx.Done() is closed when the
   * k-th iteration looks at it, and cause is what ctx.Err() then returns.
   */
  datatype Ctx = Ctx(done: nat -> bool, cause: CtxCause)

  /** Everything a session depends on besides its frames. */
  datatype Pump<T> = Pump(framing: Framing, decode: Decoder<T>, readError: Option<string>, ctx: Ctx)

  /** What one scanned frame does to the session. */
  datatype Step<T> = Deliver(value: T) | Skip | Stop(reason: Error)

  /** The messages sent on the channel, in order; the error recorded in r.err; the number of Scan calls. */
  datatype Outcome<T> = Outcome(delivered: seq<T>, reason: Error, scans: nat)

  /**
   * One frame under each framing.  Plain framing has no skip path; event-stream
   * framing skips exactly the empty frames and the frames the data pattern rejects;
   * whatever stops a session at a frame is a decoding failure.
   */
  function StepOf<T>(framing: Framing, decode: Decoder<T>, frame: Bytes): (s: Step<T>)
    ensures framing == Plain ==> !s.Skip?
    ensures framing == EventStream ==> (s.Skip? <==> |frame| == 0 || Sse.DataCapture(frame).None?)
    ensures s.Stop? ==> s.reason.Decode?
  {
    match framing
    case Plain =>
      (match decode(frame)
       case Ok(v) => Deliver(v)
       case Err(e) => Stop(Decode(e)))
    case EventStream =>
      (match Sse.UnmarshalSSEData(decode, frame)
       case Ok(v) => Deliver(v)
       case Err(e) => if Is(e, Empty) || Is(e, NoMatch) then Skip else Stop(e))
  }

  /** Why the scanner stopped: the read error it reports, or else the end-of-stream sentinel. */
  function EndReason(readError: Option<string>): (e: Error)
    ensures readError.Some? ==> e == Read(readError.value)
    ensures readError.None? ==> e == Eof
    ensures IsEOF(Some(e)) <==> readError.None?
  {
    match readError
    case Some(m) => Read(m)
    case None => Eof
  }

  /** o preceded by the messages vs and n further Scan calls. */
  function After<T>(vs: seq<T>, n: nat, o: Outcome<T>): Outcome<T> {
    Outcome(vs + o.delivered, o.reason, n + o.scans)
  }

  lemma AfterAfter<T>(vs: seq<T>, n: nat, ws: seq<T>, m: nat, o: Outcome<T>)
    ensures After(vs, n, After(ws, m, o)) == After(vs + ws, n + m, o)
  {
    assert vs + (ws + o.delivered) == (vs + ws) + o.delivered;
  }

  /** The session from iteration i on, when frames[..i] have been consumed. */
  function Run<T>(p: Pump<T>, frames: seq<Bytes>, i: nat): (o: Outcome<T>)
    requires i <= |frames|
    ensures |o.delivered| <= |frames| - i
    ensures o.scans <= |frames| - i + 1
    decreases |frames| - i
  {
    if p.ctx.done(i) then Outcome([], Context(p.ctx.cause), 0)
    else if i == |frames| then Outcome([], EndReason(p.readError), 1)
    else
      match StepOf(p.framing, p.decode, frames[i])
      case Deliver(v) => After([v], 1, Run(p, frames, i + 1))
      case Skip => After([], 1, Run(p, frames, i + 1))
      case Stop(e) => Outcome([], e, 1)
  }

  /** The messages the frames yield, skipped and failing frames contributing none. */
  function Collect<T>(framing: Framing, decode: Decoder<T>, frames: seq<Bytes>): (vs: seq<T>)
    ensures |vs| <= |frames|
  {
    if frames == [] then []
    else
      match StepOf(framing, decode, frames[0])
      case Deliver(v) => [v] + Collect(framing, decode, frames[1..])
      case _ => Collect(framing, decode, frames[1..])
  }

  /** Iterations lo..hi-1 see no cancellation and none of frames[lo..hi) ends the session. */
  ghost predicate RunsThrough<T>(p: Pump<T>, frames: seq<Bytes>, lo: nat, hi: nat)
    requires lo <= hi <= |frames|
  {
    forall j :: lo <= j < hi ==> !p.ctx.done(j) && !StepOf(p.framing, p.decode, frames[j]).Stop?
  }

  /** The messages one step contributes. */
  function Emitted<T>(s: Step<T>): (vs: seq<T>)
    ensures |vs| <= 1
  {
    if s.Deliver? then [s.value] else []
  }

  /** One iteration that neither is cancelled nor stops. */
  lemma RunStep<T>(p: Pump<T>, frames: seq<Bytes>, i: nat)
    requires i < |frames| && !p.ctx.done(i) && !StepOf(p.framing, p.decode, frames[i]).Stop?
    ensures Run(p, frames, i) == After(Emitted(StepOf(p.framing, p.decode, frames[i])), 1, Run(p, frames, i + 1))
  {
  }

  /**
   * One iteration of a pump that has delivered vs over i iterations so far
   * (`Run(p, frames, 0) == After(vs, i, Run(p, frames, i))`): what the whole session
   * is once iteration i ends it, or how the invariant carries over to i + 1.
   */
  lemma IterationCancelled<T>(p: Pump<T>, frames: seq<Bytes>, vs: seq<T>, i: nat)
    requires i <= |frames| && p.ctx.done(i) && Run(p, frames, 0) == After(vs, i, Run(p, frames, i))
    ensures Run(p, frames, 0) == Outcome(vs, Context(p.ctx.cause), i)
  {
    assert vs + [] == vs;
  }

  lemma IterationAtEnd<T>(p: Pump<T>, frames: seq<Bytes>, vs: seq<T>)
    requires !p.ctx.done(|frames|) && Run(p, frames, 0) == After(vs, |frames|, Run(p, frames, |frames|))
    ensures Run(p, frames, 0) == Outcome(vs, EndReason(p.readError), |frames| + 1)
  {
    assert vs + [] == vs;
  }

  lemma IterationStops<T>(p: Pump<T>, frames: seq<Bytes>, vs: seq<T>, i: nat, e: Error)
    requires i < |frames| && !p.ctx.done(i) && StepOf(p.framing, p.decode, frames[i]) == Stop(e)
    requires Run(p, frames, 0) == After(vs, i, Run(p, frames, i))
    ensures Run(p, frames, 0) == Outcome(vs, e, i + 1)
  {
    assert vs + [] == vs;
  }

  lemma IterationContinues<T>(p: Pump<T>, frames: seq<Bytes>, vs: seq<T>, i: nat)
    requires i < |frames| && !p.ctx.done(i) && !StepOf(p.framing, p.decode, frames[i]).Stop?
    requires Run(p, frames, 0) == After(vs, i, Run(p, frames, i))
    ensures Run(p, frames, 0) == After(vs + Emitted(StepOf(p.framing, p.decode, frames[i])), i + 1, Run(p, frames, i + 1))
  {
    var es := Emitted(StepOf(p.framing, p.decode, frames[i]));
    RunStep(p, frames, i);
    AfterAfter(vs, i, es, 1, Run(p, frames, i + 1));
  }

  /** The event-stream step of a frame, read off the classifier's result. */
  lemma EventStreamStep<T>(decode: Decoder<T>, frame: Bytes)
    ensures var res := Sse.UnmarshalSSEData(decode, frame);
      && (res.Ok? ==> StepOf(EventStream, decode, frame) == Deliver(res.value))
      && (res.Err? && (Is(res.error, Empty) || Is(res.error, NoMatch)) ==> StepOf(EventStream, decode, frame) == Skip)
      && (res.Err? && !(Is(res.error, Empty) || Is(res.error, NoMatch)) ==> StepOf(EventStream, decode, frame) == Stop(res.error))
  {
  }

  lemma CollectFirst<T>(framing: Framing, decode: Decoder<T>, frames: seq<Bytes>)
    requires frames != []
    ensures Collect(framing, decode, frames) == Emitted(StepOf(framing, decode, frames[0])) + Collect(framing, decode, frames[1..])
  {
  }

  /** Running through frames[i..n) delivers exactly their messages, in order, one Scan call each. */
  lemma {:induction false} RunUntil<T>(p: Pump<T>, frames: seq<Bytes>, i: nat, n: nat)
    requires i <= n <= |frames|
    requires RunsThrough(p, frames, i, n)
    ensures Run(p, frames, i) == After(Collect(p.framing, p.decode, frames[i..n]), n - i, Run(p, frames, n))
    decreases n - i
  {
    if i < n {
      assert RunsThrough(p, frames, i + 1, n);
      RunUntil(p, frames, i + 1, n);
      RunStep(p, frames, i);
      CollectFirst(p.framing, p.decode, frames[i..n]);
      assert frames[i..n][0] == frames[i];
      assert frames[i..n][1..] == frames[i + 1..n];
      var e := Emitted(StepOf(p.framing, p.decode, frames[i]));
      var rest := Collect(p.framing, p.decode, frames[i + 1..n]);
      AfterAfter(e, 1, rest, n - (i + 1), Run(p, frames, n));
    } else {
      assert frames[i..n] == [];
    }
  }

  /**
   * End of input: with no cancellation and no failing frame, every frame is read,
   * all their messages are delivered in order, and the session ends with the
   * scanner's error or, without one, the end-of-stream sentinel.
   */
  lemma EndOfInput<T>(p: Pump<T>, frames: seq<Bytes>)
    requires RunsThrough(p, frames, 0, |frames|) && !p.ctx.done(|frames|)
    ensures Run(p, frames, 0)
         == Outcome(Collect(p.framing, p.decode, frames), EndReason(p.readError), |frames| + 1)
  {
    RunUntil(p, frames, 0, |frames|);
    assert frames[0..|frames|] == frames;
  }

  /**
   * The first failing frame ends the session with its error: the messages of the
   * frames before it are delivered, nothing after it is read, and the error is not
   * the end-of-stream sentinel.
   */
  lemma FirstFailure<T>(p: Pump<T>, frames: seq<Bytes>, k: nat)
    requires k < |frames| && RunsThrough(p, frames, 0, k) && !p.ctx.done(k)
    requires StepOf(p.framing, p.decode, frames[k]).Stop?
    ensures Run(p, frames, 0)
         == Outcome(Collect(p.framing, p.decode, frames[..k]), StepOf(p.framing, p.decode, frames[k]).reason, k + 1)
    ensures !IsEOF(Some(Run(p, frames, 0).reason))
  {
    RunUntil(p, frames, 0, k);
    assert frames[0..k] == frames[..k];
  }

  /**
   * Cancellation seen at iteration c ends the session with ctx.Err(): only the c
   * frames scanned before are delivered, and no further frame is read.
   */
  lemma CancelledAt<T>(p: Pump<T>, frames: seq<Bytes>, c: nat)
    requires c <= |frames| && RunsThrough(p, frames, 0, c) && p.ctx.done(c)
    ensures Run(p, frames, 0) == Outcome(Collect(p.framing, p.decode, frames[..c]), Context(p.ctx.cause), c)
  {
    RunUntil(p, frames, 0, c);
    assert frames[0..c] == frames[..c];
  }

  /**
   * A session ends with (a wrapper of) the end-of-stream sentinel exactly when it is
   * never cancelled, no frame fails, and the scanner reports no error.
   */
  lemma {:induction false} EofExactlyWhenClean<T>(p: Pump<T>, frames: seq<Bytes>, i: nat)
    requires i <= |frames|
    ensures IsEOF(Some(Run(p, frames, i).reason))
        <==> RunsThrough(p, frames, i, |frames|) && !p.ctx.done(|frames|) && p.readError.None?
    decreases |frames| - i
  {
    if p.ctx.done(i) {
      assert Root(Context(p.ctx.cause)) != Eof;
      assert i < |frames| ==> !RunsThrough(p, frames, i, |frames|);
    } else if i < |frames| {
      match StepOf(p.framing, p.decode, frames[i])
      case Stop(e) =>
        assert Root(e) != Eof;
        assert !RunsThrough(p, frames, i, |frames|);
      case _ =>
        EofExactlyWhenClean(p, frames, i + 1);
        assert RunsThrough(p, frames, i, |frames|) <==> RunsThrough(p, frames, i + 1, |frames|);
    }
  }

  /** The session always records one of its three kinds of termination reason. */
  lemma {:induction false} ReasonIsOneOf<T>(p: Pump<T>, frames: seq<Bytes>, i: nat)
    requires i <= |frames|
    ensures var r := Run(p, frames, i).reason;
            || r == Context(p.ctx.cause)
            || r == EndReason(p.readError)
            || exists k :: i <= k < |frames| && StepOf(p.framing, p.decode, frames[k]) == Stop(r)
    decreases |frames| - i
  {
    if !p.ctx.done(i) && i < |frames| && !StepOf(p.framing, p.decode, frames[i]).Stop? {
      ReasonIsOneOf(p, frames, i + 1);
    }
  }

  lemma {:induction false} CollectAppend<T>(framing: Framing, decode: Decoder<T>, a: seq<Bytes>, b: seq<Bytes>)
    ensures Collect(framing, decode, a + b) == Collect(framing, decode, a) + Collect(framing, decode, b)
  {
    if a != [] {
      assert (a + b)[0] == a[0];
      assert (a + b)[1..] == a[1..] + b;
      CollectAppend(framing, decode, a[1..], b);
    } else {
      assert a + b == b;
    }
  }

  /** Plain framing: when every frame decodes, there is one message per frame, in frame order. */
  lemma {:induction false} PlainDeliversEveryFrame<T>(decode: Decoder<T>, frames: seq<Bytes>)
    requires forall k :: 0 <= k < |frames| ==> decode(frames[k]).Ok?
    ensures |Collect(Plain, decode, frames)| == |frames|
    ensures forall k :: 0 <= k < |frames| ==> Collect(Plain, decode, frames)[k] == decode(frames[k]).value
  {
    if frames != [] {
      PlainDeliversEveryFrame(decode, frames[1..]);
      var rest := Collect(Plain, decode, frames[1..]);
      assert Collect(Plain, decode, frames) == [decode(frames[0]).value] + rest;
      forall k | 1 <= k < |frames|
        ensures Collect(Plain, decode, frames)[k] == decode(frames[k]).value
      {
        assert frames[1..][k - 1] == frames[k];
      }
    }
  }

  /**
   * Plain framing: a decoding failure after K good lines yields exactly those K
   * messages, then that failure (never the end-of-stream sentinel).
   */
  lemma PlainFailureAfterGoodLines<T>(p: Pump<T>, frames: seq<Bytes>, k: nat)
    requires p.framing == Plain
    requires k < |frames| && (forall j :: 0 <= j <= k ==> !p.ctx.done(j))
    requires forall j :: 0 <= j < k ==> p.decode(frames[j]).Ok?
    requires p.decode(frames[k]).Err?
    ensures |Run(p, frames, 0).delivered| == k
    ensures forall j :: 0 <= j < k ==> Run(p, frames, 0).delivered[j] == p.decode(frames[j]).value
    ensures Run(p, frames, 0).reason == Decode(p.decode(frames[k]).error)
    ensures !IsEOF(Some(Run(p, frames, 0).reason))
  {
    FirstFailure(p, frames, k);
    PlainDeliversEveryFrame(p.decode, frames[..k]);
  }

  /** Event-stream framing: a skipped frame contributes no message. */
  lemma SkippedFrameDeliversNothing<T>(decode: Decoder<T>, a: seq<Bytes>, f: Bytes, b: seq<Bytes>)
    requires StepOf(EventStream, decode, f).Skip?
    ensures Collect(EventStream, decode, a + [f] + b) == Collect(EventStream, decode, a + b)
  {
    CollectAppend(EventStream, decode, a + [f], b);
    CollectAppend(EventStream, decode, a, [f]);
    CollectAppend(EventStream, decode, a, b);
    assert Collect(EventStream, decode, [f]) == [];
  }

  /** Without cancellation, a session depends only on the frames still to come. */
  lemma {:induction false} RunDependsOnRest<T>(p: Pump<T>, a: seq<Bytes>, i: nat, b: seq<Bytes>, k: nat)
    requires i <= |a| && k <= |b| && a[i..] == b[k..]
    requires forall j :: !p.ctx.done(j)
    ensures Run(p, a, i) == Run(p, b, k)
    decreases |a| - i
  {
    assert |a| - i == |b| - k;
    if i < |a| {
      assert a[i] == a[i..][0] == b[k..][0] == b[k];
      assert a[i + 1..] == a[i..][1..] == b[k..][1..] == b[k + 1..];
      RunDependsOnRest(p, a, i + 1, b, k + 1);
    }
  }

  /** Two outcomes with the same messages and the same termination reason. */
  ghost predicate SameResult<T>(with: Outcome<T>, without: Outcome<T>) {
    with.delivered == without.delivered && with.reason == without.reason
  }

  lemma {:induction false} SkippedFrameIsInvisibleFrom<T>(p: Pump<T>, a: seq<Bytes>, f: Bytes, b: seq<Bytes>, i: nat)
    requires p.framing == EventStream && StepOf(EventStream, p.decode, f).Skip?
    requires forall j :: !p.ctx.done(j)
    requires i <= |a|
    ensures SameResult(Run(p, a + [f] + b, i), Run(p, a + b, i))
    ensures (forall j :: i <= j < |a| ==> !StepOf(p.framing, p.decode, a[j]).Stop?)
        ==> Run(p, a + [f] + b, i).scans == Run(p, a + b, i).scans + 1
    decreases |a| - i
  {
    var x, y := a + [f] + b, a + b;
    if i == |a| {
      assert x[i] == f;
      assert x[i + 1..] == b == y[i..];
      RunDependsOnRest(p, x, i + 1, y, i);
    } else {
      assert x[i] == a[i] == y[i];
      SkippedFrameIsInvisibleFrom(p, a, f, b, i + 1);
    }
  }

  /**
   * Event-stream framing: a skipped frame is neither delivered nor terminal.  Without
   * cancellation, inserting it anywhere leaves the messages and the termination
   * reason unchanged; when it is reached, it costs one Scan call.
   */
  lemma SkippedFrameIsInvisible<T>(p: Pump<T>, a: seq<Bytes>, f: Bytes, b: seq<Bytes>)
    requires p.framing == EventStream && StepOf(EventStream, p.decode, f).Skip?
    requires forall j :: !p.ctx.done(j)
    ensures SameResult(Run(p, a + [f] + b, 0), Run(p, a + b, 0))
    ensures (forall j :: 0 <= j < |a| ==> !StepOf(p.framing, p.decode, a[j]).Stop?)
        ==> Run(p, a + [f] + b, 0).scans == Run(p, a + b, 0).scans + 1
  {
    SkippedFrameIsInvisibleFrom(p, a, f, b, 0);
  }
}
