/** The error-mapping pipeline of `ErrorMapperBuilder`: a raw error is
    normalised into a boom error (passed through, claimed by the first
    matching mapper, or turned into an internal 500 after the unknown-error
    listeners are told), and the registered output transformers are folded
    over the boom error's output.

    The builder is an immutable record. The mapper that `get()` returns
    reads the builder's lists when it is called, not when it is created, so
    it is modelled as `MapError(b, e)` with `b` the builder as it stands at
    call time. */
module ErrorMapperBuilder {
  import opened Wrappers
  import opened OrderedMaps
  import opened Json

  /** The output of a boom error: status, optional header record, payload. */
  datatype Output = Output(statusCode: int, headers: Option<Fields>, payload: Fields)

  /** The parts of a boom error the pipeline reads: its message, its output
      and `data.code` (`Undefined` when there is no data or no code). */
  datatype Boom = Boom(message: string, output: Output, dataCode: Value)

  /** A raw error. `boom` is present exactly when the error already is a
      boom error; `stack` is present when the error has a `stack` property. */
  datatype Error = Error(message: string, stack: Option<string>, code: Value, boom: Option<Boom>)

  predicate IsBoom(e: Error)
  {
    e.boom.Some?
  }

  /** A mapper claims an error by returning a boom error, or declines it. */
  type ErrorMapper = Error -> Option<Boom>

  /** Unknown-error listeners only have side effects; each is a label, and
      its calls are recorded in the event trace by position. */
  type UnknownErrorListener = string

  /** The three built-in transformers, and any registered by the user. */
  datatype OutputTransformer =
    | StackTrace
    | ErrorCode
    | HideInternalMessage
    | Custom(transform: (Output, Error, Boom) -> Output)

  datatype Options = Options(showStackTrace: bool, showUnknownErrorMessage: bool)

  datatype Builder = Builder(
    options: Options,
    mappers: seq<ErrorMapper>,
    listeners: seq<UnknownErrorListener>,
    transformers: seq<OutputTransformer>)

  /** A side effect of mapping one error: mapper `index` was called, or
      unknown-error listener `index` was notified. */
  datatype Event = MapperCalled(index: nat) | ListenerCalled(index: nat)

  datatype Mapped = Mapped(boomed: Boom, events: seq<Event>)

  datatype MapperRun = MapperRun(output: Output, boomed: Boom, events: seq<Event>)

  /** The deployment classification `fromEnv` reads. */
  datatype AppEnv = Development | Test | Production

  const INTERNAL_ERROR_MESSAGE := "Internal server error. Please try again later."

  // ---------------------------------------------------------------------
  // Construction and registration

  /** Where a transformer may stand among the built-ins: stack, code, redaction. */
  function Rank(t: OutputTransformer): nat
  {
    match t
    case StackTrace => 0
    case ErrorCode => 1
    case HideInternalMessage => 2
    case Custom(_) => 3
  }

  /** `new ErrorMapperBuilder(options)`: no mappers or listeners; the
      stack transformer when stack traces are shown, the code transformer
      always, the redaction transformer when unknown-error messages are
      hidden, in that order. */
  function New(options: Options): (b: Builder)
    ensures b.options == options && b.mappers == [] && b.listeners == []
    ensures forall i, j :: 0 <= i < j < |b.transformers| ==> Rank(b.transformers[i]) < Rank(b.transformers[j])
    ensures forall i :: 0 <= i < |b.transformers| ==> !b.transformers[i].Custom?
    ensures (exists i :: 0 <= i < |b.transformers| && b.transformers[i].StackTrace?) <==> options.showStackTrace
    ensures exists i :: 0 <= i < |b.transformers| && b.transformers[i].ErrorCode?
    ensures (exists i :: 0 <= i < |b.transformers| && b.transformers[i].HideInternalMessage?) <==> !options.showUnknownErrorMessage
  {
    var empty := Builder(options, [], [], []);
    var withStack := if options.showStackTrace then RegisterOutputTransformer(empty, StackTrace) else empty;
    var withCode := RegisterOutputTransformer(withStack, ErrorCode);
    var b := if !options.showUnknownErrorMessage then RegisterOutputTransformer(withCode, HideInternalMessage) else withCode;
    assert b.transformers[|withStack.transformers|].ErrorCode?;
    b
  }

  /** `ErrorMapperBuilder.fromEnv()`: both flags are on in development and
      test, both off in production. */
  function FromEnv(env: AppEnv): (b: Builder)
    ensures b.options.showStackTrace == b.options.showUnknownErrorMessage
    ensures b.options.showStackTrace <==> env != Production
    ensures b == New(b.options)
  {
    var shown := env == Development || env == Test;
    New(Options(showStackTrace := shown, showUnknownErrorMessage := shown))
  }

  function OnUnknownError(b: Builder, listener: UnknownErrorListener): (r: Builder)
    ensures |r.listeners| == |b.listeners| + 1
    ensures r.listeners[..|b.listeners|] == b.listeners && r.listeners[|b.listeners|] == listener
    ensures r.mappers == b.mappers && r.transformers == b.transformers && r.options == b.options
  {
    b.(listeners := b.listeners + [listener])
  }

  function RegisterErrorMapper(b: Builder, mapper: ErrorMapper): (r: Builder)
    ensures |r.mappers| == |b.mappers| + 1
    ensures r.mappers[..|b.mappers|] == b.mappers && r.mappers[|b.mappers|] == mapper
    ensures r.listeners == b.listeners && r.transformers == b.transformers && r.options == b.options
  {
    b.(mappers := b.mappers + [mapper])
  }

  function RegisterOutputTransformer(b: Builder, t: OutputTransformer): (r: Builder)
    ensures |r.transformers| == |b.transformers| + 1
    ensures r.transformers[..|b.transformers|] == b.transformers && r.transformers[|b.transformers|] == t
    ensures r.mappers == b.mappers && r.listeners == b.listeners && r.options == b.options
  {
    b.(transformers := b.transformers + [t])
  }

  // ---------------------------------------------------------------------
  // Built-in transformers

  /** Copies the raw error's stack into `payload.stack` when it has one. */
  function ApplyStackTrace(o: Output, e: Error): (r: Output)
    ensures r.statusCode == o.statusCode && r.headers == o.headers
    ensures Keyed(o.payload) ==> Keyed(r.payload)
    ensures e.stack.None? ==> r == o
    ensures e.stack.Some? ==> Get(r.payload, "stack") == Some(Str(e.stack.value))
    ensures Keyed(o.payload) ==> forall k :: k != "stack" ==> Get(r.payload, k) == Get(o.payload, k)
  {
    if e.stack.Some? then o.(payload := Set(o.payload, "stack", Str(e.stack.value))) else o
  }

  /** The code the code transformer reads: `data.code` when the RAW error is
      a boom error, the raw error's own `code` otherwise. */
  function CodeOf(e: Error): Value
  {
    if IsBoom(e) then e.boom.value.dataCode else e.code
  }

  /** Copies a truthy code into `payload.code`; a falsy one changes nothing. */
  function ApplyErrorCode(o: Output, e: Error): (r: Output)
    ensures r.statusCode == o.statusCode && r.headers == o.headers
    ensures Keyed(o.payload) ==> Keyed(r.payload)
    ensures !Truthy(CodeOf(e)) ==> r == o
    ensures Truthy(CodeOf(e)) ==> Get(r.payload, "code") == Some(CodeOf(e))
    ensures Keyed(o.payload) ==> forall k :: k != "code" ==> Get(r.payload, k) == Get(o.payload, k)
  {
    var code := CodeOf(e);
    if Truthy(code) then o.(payload := Set(o.payload, "code", code)) else o
  }

  /** Replaces `payload.message` by the generic text when the boom error's
      own status is 500; any other status changes nothing. */
  function ApplyHideInternalMessage(o: Output, boomed: Boom): (r: Output)
    ensures r.statusCode == o.statusCode && r.headers == o.headers
    ensures Keyed(o.payload) ==> Keyed(r.payload)
    ensures boomed.output.statusCode != 500 ==> r == o
    ensures boomed.output.statusCode == 500 ==> Get(r.payload, "message") == Some(Str(INTERNAL_ERROR_MESSAGE))
    ensures Keyed(o.payload) ==> forall k :: k != "message" ==> Get(r.payload, k) == Get(o.payload, k)
  {
    if boomed.output.statusCode == 500 then o.(payload := Set(o.payload, "message", Str(INTERNAL_ERROR_MESSAGE))) else o
  }

  /** One step of the fold: every transformer is called with the output so
      far, the raw error and the boom error. */
  function ApplyTransformer(t: OutputTransformer, o: Output, e: Error, boomed: Boom): Output
  {
    match t
    case StackTrace => ApplyStackTrace(o, e)
    case ErrorCode => ApplyErrorCode(o, e)
    case HideInternalMessage => ApplyHideInternalMessage(o, boomed)
    case Custom(f) => f(o, e, boomed)
  }

  /** `transformers.reduce((output, t) => t(output, err, boomedError), start)`. */
  function Transform(ts: seq<OutputTransformer>, o: Output, e: Error, boomed: Boom): Output
    decreases |ts|
  {
    if |ts| == 0 then o else Transform(ts[1..], ApplyTransformer(ts[0], o, e, boomed), e, boomed)
  }

  // ---------------------------------------------------------------------
  // Normalising an error

  /** Mappers `lo .. hi-1` all decline `e`. */
  predicate Declines(ms: seq<ErrorMapper>, e: Error, lo: nat, hi: nat)
    requires hi <= |ms|
  {
    forall j :: lo <= j < hi ==> ms[j](e).None?
  }

  /** Mapper `k` is the first, in registration order, to claim `e`. */
  predicate FirstMatch(ms: seq<ErrorMapper>, e: Error, k: nat)
  {
    k < |ms| && ms[k](e).Some? && Declines(ms, e, 0, k)
  }

  predicate NoneMatch(ms: seq<ErrorMapper>, e: Error)
  {
    Declines(ms, e, 0, |ms|)
  }

  /** The trace of calling mappers `lo .. hi-1`, in order. */
  function MapperCalls(lo: nat, hi: nat): seq<Event>
    requires lo <= hi
  {
    seq(hi - lo, i requires 0 <= i < hi - lo => MapperCalled(lo + i))
  }

  /** The trace of notifying the first `n` listeners, in order. */
  function ListenerCalls(n: nat): seq<Event>
  {
    seq(n, i requires 0 <= i < n => ListenerCalled(i))
  }

  /** The `for … of this.errorMappers` loop from position `from`: the first
      boom error returned, and the mappers called to find it. */
  function Search(ms: seq<ErrorMapper>, e: Error, from: nat): (r: (Option<Boom>, seq<Event>))
    requires from <= |ms|
    ensures forall k :: from <= k < |ms| && ms[k](e).Some? && Declines(ms, e, from, k) ==>
      r == (ms[k](e), MapperCalls(from, k + 1))
    ensures Declines(ms, e, from, |ms|) ==> r == (None, MapperCalls(from, |ms|))
    decreases |ms| - from
  {
    if from == |ms| then
      assert MapperCalls(from, from) == [];
      (None, [])
    else
      var hit := ms[from](e);
      if hit.Some? then
        assert MapperCalls(from, from + 1) == [MapperCalled(from)];
        (hit, [MapperCalled(from)])
      else
        var rest := Search(ms, e, from + 1);
        assert forall hi :: from < hi <= |ms| ==> [MapperCalled(from)] + MapperCalls(from + 1, hi) == MapperCalls(from, hi);
        (rest.0, [MapperCalled(from)] + rest.1)
  }

  /** The boom error `boom.internal(err.message)` builds: status 500; its
      payload follows the boom library's own formatting. */
  function Internal(message: string): (b: Boom)
    ensures b.output.statusCode == 500
    ensures Keyed(b.output.payload)
  {
    Boom(message, Output(500, Some([]), [("statusCode", Num(500)), ("error", Str("Internal Server Error")), ("message", Str(message))]), Null)
  }

  /** `mapToBoom`: pass a boom error through; else take the first mapper's
      answer; else notify every unknown-error listener and build an
      internal 500. */
  function MapToBoom(b: Builder, e: Error): (r: Mapped)
    ensures IsBoom(e) ==> r == Mapped(e.boom.value, [])
    ensures !IsBoom(e) ==> forall k: nat :: FirstMatch(b.mappers, e, k) ==>
      r == Mapped(b.mappers[k](e).value, MapperCalls(0, k + 1))
    ensures !IsBoom(e) && NoneMatch(b.mappers, e) ==>
      r == Mapped(Internal(e.message), MapperCalls(0, |b.mappers|) + ListenerCalls(|b.listeners|))
  {
    if IsBoom(e) then Mapped(e.boom.value, [])
    else
      var (hit, calls) := Search(b.mappers, e, 0);
      match hit
      case Some(boomed) => Mapped(boomed, calls)
      case None => Mapped(Internal(e.message), calls + ListenerCalls(|b.listeners|))
  }

  /** The mapper returned by `get()`, called on `e` while the builder is `b`. */
  function MapError(b: Builder, e: Error): (r: MapperRun)
    ensures r.boomed == MapToBoom(b, e).boomed && r.events == MapToBoom(b, e).events
    ensures r.output == Transform(b.transformers, r.boomed.output, e, r.boomed)
  {
    var m := MapToBoom(b, e);
    MapperRun(Transform(b.transformers, m.boomed.output, e, m.boomed), m.boomed, m.events)
  }

  // ---------------------------------------------------------------------
  // Properties of the pipeline

  /** Folding one more transformer runs it on the fold of the others. */
  lemma {:induction false} TransformAppend(ts: seq<OutputTransformer>, t: OutputTransformer, o: Output, e: Error, boomed: Boom)
    ensures Transform(ts + [t], o, e, boomed) == ApplyTransformer(t, Transform(ts, o, e, boomed), e, boomed)
    decreases |ts|
  {
    if |ts| == 0 {
      assert ts + [t] == [t];
      assert [t][1..] == [];
    } else {
      assert (ts + [t])[1..] == ts[1..] + [t];
      TransformAppend(ts[1..], t, ApplyTransformer(ts[0], o, e, boomed), e, boomed);
    }
  }

  /** The fold is a left fold in registration order: it starts from the boom
      error's output, and step `i` feeds the output of steps `0 .. i-1`, with
      the same raw error and boom error, to transformer `i`. */
  lemma TransformIsLeftFold(ts: seq<OutputTransformer>, o: Output, e: Error, boomed: Boom)
    ensures Transform(ts[..0], o, e, boomed) == o
    ensures forall i :: 0 <= i < |ts| ==>
      Transform(ts[..i + 1], o, e, boomed) == ApplyTransformer(ts[i], Transform(ts[..i], o, e, boomed), e, boomed)
  {
    forall i | 0 <= i < |ts|
      ensures Transform(ts[..i + 1], o, e, boomed) == ApplyTransformer(ts[i], Transform(ts[..i], o, e, boomed), e, boomed)
    {
      assert ts[..i + 1] == ts[..i] + [ts[i]];
      TransformAppend(ts[..i], ts[i], o, e, boomed);
    }
  }

  /** A transformer registered on the builder runs last, on the output the
      earlier transformers produced, even for a mapper obtained before it
      was registered. */
  lemma RegisteredTransformerRunsLast(b: Builder, t: OutputTransformer, e: Error)
    ensures var before := MapError(b, e);
      var after := MapError(RegisterOutputTransformer(b, t), e);
      && after.boomed == before.boomed
      && after.events == before.events
      && after.output == ApplyTransformer(t, before.output, e, before.boomed)
  {
    var m := MapToBoom(b, e);
    TransformAppend(b.transformers, t, m.boomed.output, e, m.boomed);
  }

  /** A mapper registered on the builder is consulted by mappers obtained
      earlier, but only for errors that no earlier mapper claims: it then
      decides the boom error, and no listener is notified. */
  lemma RegisteredMapperIsSeenLive(b: Builder, mapper: ErrorMapper, e: Error)
    requires !IsBoom(e) && NoneMatch(b.mappers, e) && mapper(e).Some?
    ensures var after := MapError(RegisterErrorMapper(b, mapper), e);
      && after.boomed == mapper(e).value
      && after.events == MapperCalls(0, |b.mappers| + 1)
  {
  }

  /** Once mapper `k` claims an error, mappers registered after it are never
      called for that error and change nothing. */
  lemma LaterMapperNeverCalled(b: Builder, mapper: ErrorMapper, e: Error, k: nat)
    requires !IsBoom(e) && FirstMatch(b.mappers, e, k)
    ensures MapError(RegisterErrorMapper(b, mapper), e) == MapError(b, e)
    ensures MapError(b, e).events == MapperCalls(0, k + 1)
  {
  }

  /** A listener registered on the builder is notified last, and only for
      errors that are not boom errors and that no mapper claims. */
  lemma RegisteredListenerNotifiedLast(b: Builder, listener: UnknownErrorListener, e: Error)
    ensures var before := MapError(b, e);
      var after := MapError(OnUnknownError(b, listener), e);
      && after.output == before.output
      && after.boomed == before.boomed
      && after.events == (if !IsBoom(e) && NoneMatch(b.mappers, e)
                          then before.events + [ListenerCalled(|b.listeners|)]
                          else before.events)
  {
    var b' := OnUnknownError(b, listener);
    if !IsBoom(e) && NoneMatch(b.mappers, e) {
      assert ListenerCalls(|b'.listeners|) == ListenerCalls(|b.listeners|) + [ListenerCalled(|b.listeners|)];
    } else if !IsBoom(e) {
      FirstMatchOrNone(b.mappers, e);
      var k: nat :| FirstMatch(b.mappers, e, k);
      assert FirstMatch(b'.mappers, e, k);
    }
  }

  /** Some mapper claims `e` first, or none claims it. */
  lemma FirstMatchOrNone(ms: seq<ErrorMapper>, e: Error)
    ensures NoneMatch(ms, e) || exists k: nat :: FirstMatch(ms, e, k)
  {
    FirstMatchOrNoneFrom(ms, e, 0);
  }

  lemma {:induction false} FirstMatchOrNoneFrom(ms: seq<ErrorMapper>, e: Error, from: nat)
    requires from <= |ms| && Declines(ms, e, 0, from)
    ensures NoneMatch(ms, e) || exists k: nat :: FirstMatch(ms, e, k)
    decreases |ms| - from
  {
    if from < |ms| {
      if ms[from](e).Some? {
        assert FirstMatch(ms, e, from);
      } else {
        FirstMatchOrNoneFrom(ms, e, from + 1);
      }
    }
  }

  /** The built-in transformers of `New(options)`, folded: stack (if shown),
      then code, then redaction (if messages are hidden). */
  lemma BuiltInsFoldInOrder(options: Options, o: Output, e: Error, boomed: Boom)
    ensures var o1 := if options.showStackTrace then ApplyStackTrace(o, e) else o;
      var o2 := ApplyErrorCode(o1, e);
      Transform(New(options).transformers, o, e, boomed)
        == if !options.showUnknownErrorMessage then ApplyHideInternalMessage(o2, boomed) else o2
  {
    var s := if options.showStackTrace then [StackTrace] else [];
    var h := if !options.showUnknownErrorMessage then [HideInternalMessage] else [];
    assert New(options).transformers == s + [ErrorCode] + h;
    TransformAppend(s, ErrorCode, o, e, boomed);
    if options.showStackTrace {
      TransformAppend([], StackTrace, o, e, boomed);
    }
    if !options.showUnknownErrorMessage {
      TransformAppend(s + [ErrorCode], HideInternalMessage, o, e, boomed);
    }
  }

  /** What the built-in transformers do to a keyed output, key by key. */
  lemma BuiltInsEffect(options: Options, o: Output, e: Error, boomed: Boom)
    requires Keyed(o.payload)
    ensures var r := Transform(New(options).transformers, o, e, boomed);
      && r.statusCode == o.statusCode
      && r.headers == o.headers
      && Get(r.payload, "stack") ==
           (if options.showStackTrace && e.stack.Some? then Some(Str(e.stack.value)) else Get(o.payload, "stack"))
      && Get(r.payload, "code") ==
           (if Truthy(CodeOf(e)) then Some(CodeOf(e)) else Get(o.payload, "code"))
      && Get(r.payload, "message") ==
           (if !options.showUnknownErrorMessage && boomed.output.statusCode == 500
            then Some(Str(INTERNAL_ERROR_MESSAGE)) else Get(o.payload, "message"))
      && forall k :: k != "stack" && k != "code" && k != "message" ==> Get(r.payload, k) == Get(o.payload, k)
  {
    BuiltInsFoldInOrder(options, o, e, boomed);
    var o1 := if options.showStackTrace then ApplyStackTrace(o, e) else o;
    var o2 := ApplyErrorCode(o1, e);
    assert Keyed(o1.payload) && Keyed(o2.payload);
    assert Get(o1.payload, "code") == Get(o.payload, "code");
    assert Get(o1.payload, "message") == Get(o.payload, "message");
    assert Get(o2.payload, "stack") == Get(o1.payload, "stack");
    assert Get(o2.payload, "message") == Get(o.payload, "message");
  }

  /** A fresh builder has no mappers or listeners: a boom error passes
      through, anything else becomes the internal 500, and nothing is called. */
  lemma FreshBuilderNormalises(options: Options, e: Error)
    ensures MapToBoom(New(options), e) == Mapped(if IsBoom(e) then e.boom.value else Internal(e.message), [])
  {
  }

  /** The output of a freshly constructed builder's mapper: the boom error's
      status and headers are kept; `stack` is set exactly when stack traces
      are shown and the raw error has one; `code` exactly when the raw
      error's code is truthy; `message` is replaced exactly when unknown
      messages are hidden and the status is 500; nothing else changes. */
  lemma FreshBuilderOutput(options: Options, e: Error)
    requires IsBoom(e) ==> Keyed(e.boom.value.output.payload)
    ensures var run := MapError(New(options), e);
      var start := run.boomed.output;
      && run.boomed == (if IsBoom(e) then e.boom.value else Internal(e.message))
      && run.events == []
      && run.output.statusCode == start.statusCode
      && run.output.headers == start.headers
      && Get(run.output.payload, "stack") ==
           (if options.showStackTrace && e.stack.Some? then Some(Str(e.stack.value)) else Get(start.payload, "stack"))
      && Get(run.output.payload, "code") ==
           (if Truthy(CodeOf(e)) then Some(CodeOf(e)) else Get(start.payload, "code"))
      && Get(run.output.payload, "message") ==
           (if !options.showUnknownErrorMessage && start.statusCode == 500
            then Some(Str(INTERNAL_ERROR_MESSAGE)) else Get(start.payload, "message"))
      && forall k :: k != "stack" && k != "code" && k != "message" ==>
           Get(run.output.payload, k) == Get(start.payload, k)
  {
    var b := New(options);
    FreshBuilderNormalises(options, e);
    var m := MapToBoom(b, e);
    var run := MapError(b, e);
    assert run.output == Transform(b.transformers, m.boomed.output, e, m.boomed);
    BuiltInsEffect(options, m.boomed.output, e, m.boomed);
  }
}
