/**
 * StreamResponse (ais/response.go): a streaming API response that is consumed
 * by pumping its body into a channel.  The pumping goroutine is run to
 * completion inside the method; the channel is the sequence of values sent on
 * it, the body scanner is the sequence of its lines plus the error it reports
 * at the end, and ctx.Done() is the session's Ctx oracle.
 */
module Stream {
  import W = Wrappers
  import J = Json
  import E = Errors
  import Sse
  import S = Session

  /** How the body is framed, as the client decided from the endpoint. */
  type StreamType = int
  const None: StreamType := 0
  const Simple: StreamType := 1
  const SSE: StreamType := 2

  /** The resources the pump closes when it returns. */
  datatype Handle = Channel | Body

  class StreamResponse<T> {
    const streamType: StreamType
    /** The body's lines, as the scanner yields them. */
    const frames: seq<J.Bytes>
    /** The error the scanner reports once the lines run out, if any. */
    const readError: W.Option<string>
    const ctx: S.Ctx
    /** json.Unmarshal into a T. */
    const decode: J.Decoder<T>

    /** The reason the stream ended, as Error() returns it; None until then. */
    var err: W.Option<E.Error>
    /** Every value sent on the output channel, in order. */
    var delivered: seq<T>
    /** How many times the pump called Scan. */
    var scans: nat
    /** The resources closed so far, in the order they were closed. */
    var closed: seq<Handle>

    constructor (streamType: StreamType, frames: seq<J.Bytes>, readError: W.Option<string>, ctx: S.Ctx, decode: J.Decoder<T>)
      ensures this.streamType == streamType && this.frames == frames && this.readError == readError
      ensures this.ctx == ctx && this.decode == decode
      ensures Idle()
    {
      this.streamType := streamType;
      this.frames := frames;
      this.readError := readError;
      this.ctx := ctx;
      this.decode := decode;
      err := W.None;
      delivered := [];
      scans := 0;
      closed := [];
    }

    /** Not yet consumed: no reason, nothing sent, nothing read, nothing closed. */
    predicate Idle()
      reads this
    {
      err.None? && delivered == [] && scans == 0 && closed == []
    }

    /** The session as the pure model describes it, under the given framing. */
    function PumpOf(framing: S.Framing): S.Pump<T> {
      S.Pump(framing, decode, readError, ctx)
    }

    /**
     * Consumed under the given framing: the values sent, the recorded reason and
     * the number of Scan calls are those of the modelled session, and the deferred
     * calls have closed the channel and then the body.
     */
    ghost predicate Finished(framing: S.Framing)
      reads this
    {
      && err.Some?
      && S.Outcome(delivered, err.value, scans) == S.Run(PumpOf(framing), frames, 0)
      && closed == [Channel, Body]
    }

    /** Pumps a body of newline-separated JSON documents. */
    method UnmarshalDefault()
      requires Idle()
      modifies this
      ensures Finished(S.Plain)
    {
      ghost var p := PumpOf(S.Plain);
      var i := 0;
      while true
        invariant i <= |frames|
        invariant err.None? && closed == [] && scans == i
        invariant S.Run(p, frames, 0) == S.After(delivered, i, S.Run(p, frames, i))
        decreases |frames| - i
      {
        if ctx.done(i) {
          S.IterationCancelled(p, frames, delivered, i);
          err := W.Some(E.Context(ctx.cause));
          break;
        }
        scans := scans + 1;
        if i == |frames| {
          S.IterationAtEnd(p, frames, delivered);
          match readError {
            case Some(m) => err := W.Some(E.Read(m));
            case None => err := W.Some(E.Eof);
          }
          break;
        }
        match decode(frames[i]) {
          case Err(e) =>
            S.IterationStops(p, frames, delivered, i, E.Decode(e));
            err := W.Some(E.Decode(e));
            break;
          case Ok(v) =>
            S.IterationContinues(p, frames, delivered, i);
            delivered := delivered + [v];
        }
        i := i + 1;
      }
      closed := closed + [Channel];
      closed := closed + [Body];
    }

    /** Pumps a body of server-sent events, skipping lines that carry no data object. */
    method UnmarshalSSE()
      requires Idle()
      modifies this
      ensures Finished(S.EventStream)
    {
      ghost var p := PumpOf(S.EventStream);
      var i := 0;
      while true
        invariant i <= |frames|
        invariant err.None? && closed == [] && scans == i
        invariant S.Run(p, frames, 0) == S.After(delivered, i, S.Run(p, frames, i))
        decreases |frames| - i
      {
        if ctx.done(i) {
          S.IterationCancelled(p, frames, delivered, i);
          err := W.Some(E.Context(ctx.cause));
          break;
        }
        scans := scans + 1;
        if i == |frames| {
          S.IterationAtEnd(p, frames, delivered);
          match readError {
            case Some(m) => err := W.Some(E.Read(m));
            case None => err := W.Some(E.Eof);
          }
          break;
        }
        var res := Sse.UnmarshalSSEData(decode, frames[i]);
        S.EventStreamStep(decode, frames[i]);
        if res.Err? && (E.Is(res.error, E.Empty) || E.Is(res.error, E.NoMatch)) {
          // a frame without a data object: read past it
          S.IterationContinues(p, frames, delivered, i);
          assert delivered + [] == delivered;
        } else if res.Err? {
          S.IterationStops(p, frames, delivered, i, res.error);
          err := W.Some(res.error);
          break;
        } else {
          S.IterationContinues(p, frames, delivered, i);
          delivered := delivered + [res.value];
        }
        i := i + 1;
      }
      closed := closed + [Channel];
      closed := closed + [Body];
    }

    /**
     * Starts consuming the stream with the framing its type names.  Any other
     * stream type is refused with an error, and the response is left untouched.
     */
    method UnmarshalStream() returns (e: W.Option<E.Error>)
      requires Idle()
      modifies this
      ensures streamType == Simple ==> e.None? && Finished(S.Plain)
      ensures streamType == SSE ==> e.None? && Finished(S.EventStream)
      ensures streamType != Simple && streamType != SSE ==> e == W.Some(E.UnknownStreamType) && Idle()
    {
      if streamType == Simple {
        UnmarshalDefault();
        e := W.None;
      } else if streamType == SSE {
        UnmarshalSSE();
        e := W.None;
      } else {
        e := W.Some(E.UnknownStreamType);
      }
    }
  }
}
