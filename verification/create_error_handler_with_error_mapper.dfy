/** `createErrorHandlerWithErrorMapper`: an error-handling middleware over
    a mapper that returns a flat output, an object whose `statusCode` and
    optional `headers` keys sit beside the payload's own keys. */
module CreateErrorHandlerWithErrorMapper {
  import opened Wrappers
  import opened OrderedMaps
  import opened Json
  import opened Http
  import ErrorMapperBuilder

  /** What the flat output type promises: an object with a numeric
      `statusCode`, and `headers` absent, undefined, or a header record. */
  predicate WellFormedOutput(flat: Fields)
  {
    && Keyed(flat)
    && Get(flat, "statusCode").Some? && Get(flat, "statusCode").value.Num?
    && match Get(flat, "headers")
       case None => true
       case Some(h) => h.Undefined? || (h.Obj? && Keyed(h.fields))
  }

  /** The rest object of `const {statusCode, headers, ...payload} = output`. */
  function RestPayload(flat: Fields): (payload: Fields)
    ensures "statusCode" !in Keys(payload) && "headers" !in Keys(payload)
    ensures forall k :: k in Keys(payload) <==> k in Keys(flat) && k != "statusCode" && k != "headers"
    ensures Keyed(flat) ==> Keyed(payload)
    ensures Keyed(flat) ==> forall k :: k != "statusCode" && k != "headers" ==> Get(payload, k) == Get(flat, k)
    ensures Keys(payload) == Filter(Filter(Keys(flat), "statusCode"), "headers")
  {
    Remove(Remove(flat, "statusCode"), "headers")
  }

  /** The `if (headers)` block: one header call per entry of a header
      record, and none when `headers` is absent or undefined. */
  method WriteFlatHeaders(flat: Fields) returns (log: seq<(string, Value)>)
    requires WellFormedOutput(flat)
    ensures !(Get(flat, "headers").Some? && Get(flat, "headers").value.Obj?) ==> log == []
    ensures Get(flat, "headers").Some? && Get(flat, "headers").value.Obj? ==>
      var headers := Get(flat, "headers").value.fields;
      && Keys(log) == Keys(headers)
      && Keyed(log)
      && forall name :: Get(log, name) == Get(headers, name)
  {
    var headers := Get(flat, "headers");
    log := [];
    if headers.Some? && Truthy(headers.value) {
      log := WriteHeaders(headers.value.fields);
    }
  }

  /** The handler `createErrorHandlerWithErrorMapper(mapper)` returns,
      applied to `e`. It always responds and never calls `next`. */
  method HandleError(mapper: ErrorMapperBuilder.Error -> Fields, e: ErrorMapperBuilder.Error) returns (r: HandlerResult)
    requires WellFormedOutput(mapper(e))
    ensures r.Responded?
    ensures Get(mapper(e), "statusCode") == Some(Num(r.response.status))
    ensures r.response.body.Obj?
    ensures "statusCode" !in Keys(r.response.body.fields)
    ensures "headers" !in Keys(r.response.body.fields)
    ensures forall k :: k in Keys(r.response.body.fields) <==> k in Keys(mapper(e)) && k != "statusCode" && k != "headers"
    ensures forall k :: k != "statusCode" && k != "headers" ==> Get(r.response.body.fields, k) == Get(mapper(e), k)
    ensures Keyed(r.response.body.fields)
    ensures Keys(r.response.body.fields) == Filter(Filter(Keys(mapper(e)), "statusCode"), "headers")
    ensures !(Get(mapper(e), "headers").Some? && Get(mapper(e), "headers").value.Obj?) ==> r.response.headerLog == []
    ensures Get(mapper(e), "headers").Some? && Get(mapper(e), "headers").value.Obj? ==>
      var headers := Get(mapper(e), "headers").value.fields;
      && Keys(r.response.headerLog) == Keys(headers)
      && Keyed(r.response.headerLog)
      && forall name :: Get(r.response.headerLog, name) == Get(headers, name)
  {
    var flat := mapper(e);
    var statusCode := Get(flat, "statusCode").value.n;
    var log := WriteFlatHeaders(flat);
    var payload := RestPayload(flat);
    r := Responded(Response(statusCode, log, Obj(payload)));
  }
}
