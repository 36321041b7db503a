/** Error values of the Transmission client and the failure-compatible return types
    that stand for Go's `(T, error)` pairs. */
module Errors {

  /** Every error the client can hand back to its caller. The first two carry text produced
      by Go's libraries (net/url, net/http), which this model does not compute; the last
      three are the ones the client creates itself, with the text given by `Message`. */
  datatype Error =
    | ParseError(reason: string)      // url.Parse rejected the endpoint passed to New
    | TransportError(reason: string)  // the GET, the POST or reading the reply body failed
    | DecodeError                     // json.Unmarshal rejected the reply body
    | SessionIdNotFound               // the probe reply had no usable session-id header
    | ResultError(result: string)     // the service answered with a result other than "success"
    | EmptyResult                     // torrent-add reported success but named no torrent

  const ResultPrefix := "transmission: result: "

  /** Errors created by the client itself, whose text is fixed by transmission.go. */
  predicate ClientMade(e: Error) {
    e.SessionIdNotFound? || e.ResultError? || e.EmptyResult?
  }

  /** The text of `err.Error()` for the errors the client makes itself. */
  function Message(e: Error): (m: string)
    requires ClientMade(e)
    ensures e.ResultError? ==> |m| == |ResultPrefix| + |e.result|
    ensures e.ResultError? ==> m[..|ResultPrefix|] == ResultPrefix && m[|ResultPrefix|..] == e.result
  {
    match e
    case SessionIdNotFound => "transmission: sessionId not found"
    case ResultError(result) => ResultPrefix + result
    case EmptyResult => "transmission: empty result"
  }

  /** The remote reason is recoverable from a result error's text: two different results
      never produce the same message. */
  lemma ResultMessageInjective(a: string, b: string)
    requires Message(ResultError(a)) == Message(ResultError(b))
    ensures a == b
  {
  }

  /** A result error can never be mistaken for the two fixed messages of the client. */
  lemma ClientMessagesDistinct(result: string)
    ensures Message(ResultError(result)) != Message(SessionIdNotFound)
    ensures Message(ResultError(result)) != Message(EmptyResult)
    ensures Message(SessionIdNotFound) != Message(EmptyResult)
  {
    var m := Message(ResultError(result));
    assert m[14] == 'r';
    assert Message(SessionIdNotFound)[14] == 's';
    assert Message(EmptyResult)[14] == 'e';
  }

  datatype Option<+T> = None | Some(value: T) {
    predicate IsFailure() { None? }
    function PropagateFailure<U>(): Option<U> requires None? { None }
    function Extract(): T requires Some? { value }
  }

  /** `Ok(v)` is Go's `(v, nil)`, `Err(e)` is `(zero, e)`. */
  datatype Result<+T> = Ok(value: T) | Err(error: Error) {
    predicate IsFailure() { Err? }
    function PropagateFailure<U>(): Result<U> requires Err? { Err(error) }
    function Extract(): T requires Ok? { value }
  }
}
