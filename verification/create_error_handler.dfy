/** `createErrorHandler`: an error-handling middleware that maps the error
    to a boom output and writes its status, headers and payload. */
module CreateErrorHandler {
  import opened OrderedMaps
  import opened Json
  import opened Http
  import opened ErrorMapperBuilder

  /** The argument of `createErrorHandler`: a builder, whose `get()` mapper
      is used, or a mapper used as it is. The mapper `get()` returns reads
      the builder's lists on every call, so `builder` is the builder as it
      stands when the error is handled. */
  datatype MapperSource = UseBuilder(builder: Builder) | UseMapper(mapper: Error -> Output)

  /** The status, headers and JSON body written for one output. */
  method Send(output: Output) returns (r: HandlerResult)
    ensures r.Responded?
    ensures r.response.status == output.statusCode
    ensures r.response.body == Obj(output.payload)
    ensures output.headers.None? ==> r.response.headerLog == []
    ensures output.headers.Some? ==> Keys(r.response.headerLog) == Keys(output.headers.value)
    ensures output.headers.Some? && Keyed(output.headers.value) ==>
      && Keyed(r.response.headerLog)
      && forall name :: Get(r.response.headerLog, name) == Get(output.headers.value, name)
  {
    var log := [];
    if output.headers.Some? {
      log := WriteHeaders(output.headers.value);
    }
    r := Responded(Response(output.statusCode, log, Obj(output.payload)));
  }

  /** `finalErrorMapper(e)`: the builder's `get()` mapper, or the mapper itself. */
  function FinalErrorMapper(source: MapperSource, e: Error): Output
  {
    match source
    case UseBuilder(b) => MapError(b, e).output
    case UseMapper(f) => f(e)
  }

  /** The handler `createErrorHandler(source)` returns, applied to `e`. It
      always responds and never calls `next`; a builder's handler answers
      with the output of the builder's own mapper. */
  method HandleError(source: MapperSource, e: Error) returns (r: HandlerResult)
    ensures r.Responded?
    ensures source.UseBuilder? ==> r.response.status == MapError(source.builder, e).output.statusCode
    ensures source.UseBuilder? ==> r.response.body == Obj(MapError(source.builder, e).output.payload)
    ensures source.UseMapper? ==> r.response.status == source.mapper(e).statusCode
    ensures source.UseMapper? ==> r.response.body == Obj(source.mapper(e).payload)
    ensures var o := FinalErrorMapper(source, e);
      && (o.headers.None? ==> r.response.headerLog == [])
      && (o.headers.Some? ==> Keys(r.response.headerLog) == Keys(o.headers.value))
      && (o.headers.Some? && Keyed(o.headers.value) ==>
            && Keyed(r.response.headerLog)
            && forall name :: Get(r.response.headerLog, name) == Get(o.headers.value, name))
  {
    r := Send(FinalErrorMapper(source, e));
  }
}
