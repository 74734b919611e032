/**
 * The event-stream frame classifier unmarshalSSEData (ais/response.go).  A frame
 * carries a message only when it matches the regular expression
 *     ^data:\s+(\{.*\})\s*$
 * (RE2 syntax: \s is tab, newline, form feed, carriage return or space; `.` is any
 * byte but a newline; `$` is the end of the text).  This is a narrow subset of the
 * server-sent events format of the WHATWG HTML Living Standard: `data:{...}` with no
 * space after the colon does not match.
 */
module Sse {
  import opened Wrappers
  import opened Json
  import opened Errors

  /** The bytes of "data:". */
  const DataPrefix: Bytes := [100, 97, 116, 97, 58]
  const OpenBrace: byte := 123
  const CloseBrace: byte := 125
  const Newline: byte := 10

  /** RE2's \s class. */
  predicate IsSpace(b: byte) {
    b == 9 || b == 10 || b == 12 || b == 13 || b == 32
  }

  predicate AllSpace(s: Bytes) {
    forall i :: 0 <= i < |s| ==> IsSpace(s[i])
  }

  /** Every byte is matched by the regex's `.`. */
  predicate NoNewline(s: Bytes) {
    forall i :: 0 <= i < |s| ==> s[i] != Newline
  }

  /** A captured group: `{`, bytes other than newline, then `}`. */
  predicate Braced(g: Bytes) {
    |g| >= 2 && g[0] == OpenBrace && g[|g| - 1] == CloseBrace && NoNewline(g[1..|g| - 1])
  }

  /**
   * The pattern read declaratively: the frame is "data:", at least one \s byte,
   * the captured group, then only \s bytes.
   */
  predicate MatchesWith(raw: Bytes, ws: Bytes, capture: Bytes, tail: Bytes) {
    && raw == DataPrefix + ws + capture + tail
    && |ws| >= 1 && AllSpace(ws)
    && Braced(capture)
    && AllSpace(tail)
  }

  /** Length of the run of \s bytes at the front of s. */
  function SpaceRun(s: Bytes): (n: nat)
    ensures n <= |s|
    ensures AllSpace(s[..n])
    ensures n < |s| ==> !IsSpace(s[n])
  {
    if |s| > 0 && IsSpace(s[0]) then 1 + SpaceRun(s[1..]) else 0
  }

  /** Position of the last occurrence of b in s. */
  function LastIndex(s: Bytes, b: byte): (r: Option<nat>)
    ensures r.Some? ==> r.value < |s| && s[r.value] == b
    ensures r.Some? ==> forall i :: r.value < i < |s| ==> s[i] != b
    ensures r.None? ==> forall i :: 0 <= i < |s| ==> s[i] != b
  {
    if |s| == 0 then None
    else if s[|s| - 1] == b then Some(|s| - 1)
    else LastIndex(s[..|s| - 1], b)
  }

  /**
   * The group at the front of what follows the \s+ run: it must start with `{`,
   * and the greedy `.*` makes it end at the last `}`, after which only \s may come.
   */
  function Group(body: Bytes): Option<Bytes> {
    if |body| == 0 || body[0] != OpenBrace then None
    else
      match LastIndex(body, CloseBrace)
      case None => None
      case Some(k) =>
        if AllSpace(body[k + 1..]) && NoNewline(body[1..k]) then Some(body[..k + 1]) else None
  }

  /** What follows "data:": a non-empty \s run, then the group. */
  function AfterPrefix(rest: Bytes): (r: Option<Bytes>)
    ensures r.Some? ==> Braced(r.value)
  {
    var n := SpaceRun(rest);
    if n == 0 then None
    else
      var g := Group(rest[n..]);
      if g.None? then None
      else
        GroupIsBraced(rest[n..]);
        g
  }

  /** re.FindSubmatch(raw)[1]: the captured `{...}` group, or None when the frame does not match. */
  function DataCapture(raw: Bytes): (r: Option<Bytes>)
    ensures r.Some? ==> |DataPrefix| <= |raw| && raw[..|DataPrefix|] == DataPrefix && Braced(r.value)
  {
    if |raw| < |DataPrefix| || raw[..|DataPrefix|] != DataPrefix then None
    else AfterPrefix(raw[|DataPrefix|..])
  }

  lemma {:induction false} SpaceRunAfterSpaces(ws: Bytes, s: Bytes)
    requires AllSpace(ws)
    requires |s| > 0 && !IsSpace(s[0])
    ensures SpaceRun(ws + s) == |ws|
  {
    if |ws| > 0 {
      assert (ws + s)[1..] == ws[1..] + s;
      SpaceRunAfterSpaces(ws[1..], s);
    }
  }

  /** A group Group finds is braced and followed by nothing but \s. */
  lemma GroupIsBraced(body: Bytes)
    requires Group(body).Some?
    ensures var g := Group(body).value;
      && Braced(g) && |g| <= |body| && body == g + body[|g|..] && AllSpace(body[|g|..])
  {
    var k := LastIndex(body, CloseBrace).value;
    var g := body[..k + 1];
    assert g[1..|g| - 1] == body[1..k];
  }

  /** A braced group followed by \s only is found, whole. */
  lemma GroupIsFound(g: Bytes, tail: Bytes)
    requires Braced(g) && AllSpace(tail)
    ensures Group(g + tail) == Some(g)
  {
    var body := g + tail;
    var last := |g| - 1;
    assert body[last] == CloseBrace;
    forall i | last < i < |body| ensures body[i] != CloseBrace {
      assert body[i] == tail[i - |g|];
      assert IsSpace(tail[i - |g|]);
    }
    assert LastIndex(body, CloseBrace) == Some(last);
    assert body[last + 1..] == tail;
    assert body[1..last] == g[1..|g| - 1];
    assert body[..last + 1] == g;
  }

  /** Reassembles a frame from its prefix, its \s run and what follows it. */
  lemma Reassemble(raw: Bytes, prefix: Bytes, ws: Bytes, body: Bytes, g: Bytes, tail: Bytes)
    requires |prefix| <= |raw| && raw[..|prefix|] == prefix
    requires raw[|prefix|..] == ws + body && body == g + tail
    ensures raw == prefix + ws + g + tail
  {
    assert raw == raw[..|prefix|] + raw[|prefix|..];
  }

  /** A captured group always has the shape the pattern demands. */
  lemma CaptureIsMatch(raw: Bytes)
    requires DataCapture(raw).Some?
    ensures exists ws, tail :: MatchesWith(raw, ws, DataCapture(raw).value, tail)
  {
    assert |raw| >= |DataPrefix| && raw[..|DataPrefix|] == DataPrefix;
    var rest := raw[|DataPrefix|..];
    assert DataCapture(raw) == AfterPrefix(rest);
    var n := SpaceRun(rest);
    var body := rest[n..];
    assert n >= 1 && AfterPrefix(rest) == Group(body);
    GroupIsBraced(body);
    var ws, capture := rest[..n], Group(body).value;
    var tail := body[|capture|..];
    assert rest == ws + body;
    Reassemble(raw, DataPrefix, ws, body, capture, tail);
    assert MatchesWith(raw, ws, capture, tail);
  }

  /**
   * Every way of reading the frame against the pattern yields the group DataCapture
   * returns: the match is unique, and DataCapture finds it.
   */
  lemma MatchIsCapture(raw: Bytes, ws: Bytes, capture: Bytes, tail: Bytes)
    requires MatchesWith(raw, ws, capture, tail)
    ensures DataCapture(raw) == Some(capture)
  {
    var rest := raw[|DataPrefix|..];
    assert raw[..|DataPrefix|] == DataPrefix;
    assert rest == ws + (capture + tail);
    SpaceRunAfterSpaces(ws, capture + tail);
    assert rest[|ws|..] == capture + tail;
    GroupIsFound(capture, tail);
  }

  /** The frame `data:{...}`, with no space after the colon, is not a match. */
  lemma NoSpaceIsNoMatch(rest: Bytes)
    requires |rest| > 0 && rest[0] == OpenBrace
    ensures DataCapture(DataPrefix + rest) == None
  {
    var raw := DataPrefix + rest;
    assert raw[..|DataPrefix|] == DataPrefix;
    assert raw[|DataPrefix|..] == rest;
  }

  /**
   * unmarshalSSEData: an empty frame is `empty`, a frame the pattern rejects is
   * `noMatch`, and a matching frame is decoded from its captured group; a decoding
   * failure of the group is reported as that failure.
   */
  function UnmarshalSSEData<T>(decode: Decoder<T>, raw: Bytes): (r: Result<T, Error>)
    ensures r == Err(Empty) <==> |raw| == 0
    ensures r == Err(NoMatch) <==> |raw| > 0 && DataCapture(raw).None?
    ensures r.Ok? ==> DataCapture(raw).Some? && decode(DataCapture(raw).value) == Ok(r.value)
    ensures r.Err? && r.error != Empty && r.error != NoMatch ==>
              && r.error.Decode?
              && DataCapture(raw).Some?
              && decode(DataCapture(raw).value) == Err(r.error.failure)
  {
    if |raw| == 0 then Err(Empty)
    else
      match DataCapture(raw)
      case None => Err(NoMatch)
      case Some(capture) =>
        match decode(capture)
        case Ok(v) => Ok(v)
        case Err(e) => Err(Decode(e))
  }
}
