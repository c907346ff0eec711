/** The part of an HTTP response that the handlers in this model write. */
module Http {
  import opened OrderedMaps
  import opened Json

  /** A response as the handler leaves it: the status it set, every
      `res.header(name, value)` call in the order it was made, and the value
      passed to `res.json`. */
  datatype Response = Response(status: int, headerLog: seq<(string, Value)>, body: Value)

  /** What an error-handling middleware does with an error: answer it, or
      hand it on with `next(err)`. */
  datatype HandlerResult = Responded(response: Response) | PassedToNext

  /** The `for (const [name, value] of Object.entries(headers))` loop: one
      `res.header(name, value)` call per entry, in entry order. */
  method WriteHeaders(headers: Fields) returns (log: seq<(string, Value)>)
    ensures Keys(log) == Keys(headers)
    ensures forall i :: 0 <= i < |log| ==> log[i].1 == headers[i].1
    ensures Keyed(headers) ==> Keyed(log) && forall name :: Get(log, name) == Get(headers, name)
  {
    log := [];
    var i := 0;
    while i < |headers|
      invariant 0 <= i <= |headers|
      invariant log == headers[..i]
    {
      var (name, value) := headers[i];
      log := log + [(name, value)];
      i := i + 1;
    }
    assert headers[..i] == headers;
  }
}
