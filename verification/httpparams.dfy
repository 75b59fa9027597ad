/**
 * Request-parameter rules shared by the HTTP handlers of the post, chat
 * and notification packages: an id taken from a segment of the URL path,
 * an integer query parameter that falls back to a default, and the
 * warning flag that goes with an error reply.
 */
module HttpParams {
  import opened Wrappers
  import opened Text

  const StatusOK := 200
  const StatusCreated := 201
  const StatusNoContent := 204
  const StatusBadRequest := 400
  const StatusUnauthorized := 401
  const StatusMethodNotAllowed := 405
  const StatusInternalServerError := 500

  /** An error reply: its status, its message, and whether it is logged as a warning. */
  datatype ErrorReply = ErrorReply(status: int, message: string, warning: bool)

  /** Either the request goes on with the values read from it, or it stops with an error reply. */
  datatype Outcome<T> = Proceed(value: T) | Stop(reply: ErrorReply)

  /** What a handler writes: an error reply, or a status and a body. */
  datatype Reply<T> = Failure(error: ErrorReply) | Success(status: int, body: T)

  /** `sendError`: the reply is flagged as a warning exactly for server errors. */
  function SendError(status: int, message: string): (e: ErrorReply)
    ensures e.status == status && e.message == message
  {
    ErrorReply(status, message, status >= 500)
  }

  /** Client errors are not warnings; a failed service call is. */
  lemma SendErrorWarnings(message: string)
    ensures !SendError(StatusBadRequest, message).warning
    ensures !SendError(StatusUnauthorized, message).warning
    ensures !SendError(StatusMethodNotAllowed, message).warning
    ensures SendError(StatusInternalServerError, message).warning
  {
  }

  /**
   * The id in the segment `fromEnd` places from the end of the path
   * (1 is the last), after checking that the path has at least
   * `minParts` segments. Both failures answer 400.
   */
  function SegmentId(path: string, minParts: nat, fromEnd: nat): (r: Result<int>)
    requires 1 <= fromEnd <= minParts
    ensures r.Ok? ==> (|Split(path, '/')| >= minParts
                       && Atoi(Split(path, '/')[|Split(path, '/')| - fromEnd]) == Some(r.value))
    ensures |Split(path, '/')| < minParts ==> r == Err("Invalid URL")
  {
    var parts := Split(path, '/');
    if |parts| < minParts then Err("Invalid URL")
    else
      match Atoi(parts[|parts| - fromEnd])
      case None => Err("Invalid id")
      case Some(v) => Ok(v)
  }

  /** The path `base/<n>` yields `n` from its last segment whenever `base` has two segments. */
  lemma SegmentIdLast(base: string, n: nat)
    requires |Split(base, '/')| >= 2 && n <= MaxInt64
    ensures SegmentId(base + "/" + NatToString(n), 3, 1) == Ok(n)
  {
    var d := NatToString(n);
    assert '/' !in d by {
      assert forall i :: 0 <= i < |d| ==> IsDigit(d[i]);
    }
    SplitAppend(base, '/', d);
    assert base + "/" + d == base + ['/'] + d;
    AtoiNatToString(n);
  }

  /** The path `base/<n>/<tail>` yields `n` from its second-to-last segment. */
  lemma SegmentIdSecondLast(base: string, n: nat, tail: string)
    requires |Split(base, '/')| >= 2 && n <= MaxInt64 && '/' !in tail
    ensures SegmentId(base + "/" + NatToString(n) + "/" + tail, 4, 2) == Ok(n)
  {
    var d := NatToString(n);
    assert '/' !in d by {
      assert forall i :: 0 <= i < |d| ==> IsDigit(d[i]);
    }
    SplitAppend(base, '/', d);
    SplitAppend(base + ['/'] + d, '/', tail);
    assert base + "/" + d + "/" + tail == (base + ['/'] + d) + ['/'] + tail;
    AtoiNatToString(n);
  }

  /**
   * An integer query parameter: the default when absent, and otherwise
   * the parsed value only if it parses and lies within `lo..hi`.
   */
  function IntParam(q: string, dflt: int, lo: int, hi: int): (v: int)
    ensures q == "" ==> v == dflt
    ensures v == dflt || (lo <= v <= hi && Atoi(q) == Some(v))
  {
    if q == "" then dflt
    else
      match Atoi(q)
      case Some(v) => if lo <= v <= hi then v else dflt
      case None => dflt
  }

  /** The parameter takes the given value exactly when it parses within bounds, and the default otherwise. */
  lemma IntParamSpec(q: string, dflt: int, lo: int, hi: int)
    ensures Atoi(q).Some? && lo <= Atoi(q).value <= hi ==> IntParam(q, dflt, lo, hi) == Atoi(q).value
    ensures !(Atoi(q).Some? && lo <= Atoi(q).value <= hi) ==> IntParam(q, dflt, lo, hi) == dflt
    ensures lo <= dflt <= hi ==> lo <= IntParam(q, dflt, lo, hi) <= hi
  {
  }
}
