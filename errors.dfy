/**
 * The error values a stream session can end with, and the errors.Is test that
 * IsEOF is built on (ais/response.go).
 */
module Errors {
  import opened Wrappers
  import opened Json

  /** The two values ctx.Err() can take once the context is done. */
  datatype CtxCause = Canceled | DeadlineExceeded

  datatype Error =
    | Eof                                // the package's end-of-stream sentinel
    | Empty                              // event-stream frame with no bytes
    | NoMatch                            // event-stream frame that is not a data line
    | UnknownStreamType                  // UnmarshalStream called with an unknown mode
    | Read(reason: string)               // the scanner could not read the body
    | Context(cause: CtxCause)           // ctx.Err()
    | Decode(failure: DecodeError)       // json.Unmarshal of a frame failed
    | Wrapped(note: string, inner: Error)  // a caller's fmt.Errorf("...%w", inner)

  /** The three distinguished error values the package compares against. */
  predicate IsSentinel(e: Error) {
    e == Eof || e == Empty || e == NoMatch
  }

  /** The error at the bottom of a chain of wrappers. */
  function Root(e: Error): (r: Error)
    ensures !r.Wrapped?
    ensures !e.Wrapped? ==> r == e
  {
    if e.Wrapped? then Root(e.inner) else e
  }

  /**
   * errors.Is(e, target) for a sentinel target: walks the chain of wrappers and
   * compares each link with the target.  It holds exactly when the chain ends
   * in that sentinel.
   */
  function Is(e: Error, target: Error): (r: bool)
    requires IsSentinel(target)
    ensures r <==> Root(e) == target
  {
    e == target || (e.Wrapped? && Is(e.inner, target))
  }

  /** IsEOF(err): true iff err is the end-of-stream sentinel or wraps it; false for nil. */
  predicate IsEOF(err: Option<Error>): (r: bool)
    ensures r <==> err.Some? && Root(err.value) == Eof
  {
    err.Some? && Is(err.value, Eof)
  }

  /** Wrapping an error neither creates nor hides the end-of-stream sentinel. */
  lemma WrappingPreservesEOF(e: Error, note: string)
    ensures IsEOF(Some(Wrapped(note, e))) <==> IsEOF(Some(e))
    ensures IsEOF(Some(Wrapped(note, Eof)))
  {
  }

  /** Only the sentinel itself (possibly wrapped) reports end of stream. */
  lemma OtherErrorsAreNotEOF(e: Error)
    requires Root(e) != Eof
    ensures !IsEOF(Some(e))
    ensures !IsEOF(None)
  {
  }
}
