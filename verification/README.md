# http-endpoint error mapping and health check, in Dafny

This project models the decision logic of the `@pallad/http-endpoint`
packages, and proves properties of that model:

- **`ErrorMapperBuilder`** (error-handler package). It normalises a raw error into a boom
  error in one of three ways:
  - it passes an error that already is a boom error through;
  - otherwise it uses the first registered mapper that claims the error;
  - otherwise it notifies every unknown-error listener and builds an
    internal 500 (section 15.6.1 of RFC 9110).

  It then left-folds the output transformers over the boom error's output.
  The constructor installs up to three built-in transformers: stack, code
  and 500-message redaction. `fromEnv` picks the two options from the
  deployment classification.
- **`createErrorHandler`** (error-handler package) and
  **`createErrorHandlerWithErrorMapper`** (module package). These are the two
  error-handling middlewares that turn a mapped output into a status, header
  calls and a JSON body. The second one strips the `statusCode` and
  `headers` keys out of a flat output.
- **`HealthCheckEndpoint`** (health-check package). It holds an
  insertion-ordered map of named probes and merges its options. On each
  request it runs the probes in order, stops at the first failure, and
  answers with the healthy or unhealthy status.

Files:

| file | contents |
|---|---|
| `wrappers.dfy` | `Option` |
| `ordered_maps.dfy` | insertion-ordered maps: `Get`, `Set` with `Map.prototype.set` semantics, `Remove` |
| `json.dfy` | JavaScript values and truthiness |
| `http.dfy` | the response record, and the header-writing loop |
| `error_mapper_builder.dfy` | the builder, the built-in transformers, `mapToBoom`, the fold, and their lemmas |
| `create_error_handler.dfy` | `createErrorHandler` |
| `create_error_handler_with_error_mapper.dfy` | `createErrorHandlerWithErrorMapper` |
| `health_check_endpoint.dfy` | `HealthCheckEndpoint` |

How the model represents the source:

- **Builder.** The builder is an immutable record of its options, mappers,
  listeners and transformers. The mapper returned by `get()` reads
  `this.errorMappers`, `this.onUnknownErrorListeners` and
  `this.outputTransformers` each time it is called. It is therefore modelled
  as `MapError(b, e)`, where `b` is the builder as it stands at call time. The
  `Registered…` lemmas show what a registration made after `get()` does to
  mappers that were obtained before it.
- **Boom errors.** A boom error is abstract: a message, an output
  (status, optional headers, payload) and `data.code`. A raw error carries
  its message, an optional `stack`, its own `code` and, when it already is
  a boom error, its boom part. The internal 500 built by
  `boom.internal(message)` followed by `reformat(true)` is given a payload,
  but the model claims only its status, 500.
- **Side effects.** Mappers are total functions from errors to optional boom
  errors. Listeners are labels. The calls made while mapping one error are
  returned as a trace of `MapperCalled(i)` and `ListenerCalled(i)` events.
- **Probes.** A probe is given by the outcome of its promise: it resolves to
  a value or rejects with a message. A run returns the names of the probes
  it invoked.
- **Plain objects.** Payloads, header records and probe results are ordered
  maps. An object spread `{...o, k: v}` and `Map.prototype.set` (section
  24.1.3.9 of ECMA-262) both keep an existing key where it is and append a
  new one.

Three behaviours of the code are modelled as written:

- **Health-check options.** The options are merged as
  `{...(options || {}), ...DEFAULT_OPTIONS}`. The defaults are spread last,
  so a constructed endpoint always has status codes 200 and 503 and the
  default response `{ok: 1}`, whatever the user passed
  (`HealthCheckEndpoint.MergeOptions`).
- **Where `code` is read from.** The code transformer tests whether the
  *raw* error is a boom error. A `data.code` that a mapper puts on the boom
  error of a non-boom raw error is therefore not read (`CodeOf`).
- **What redaction tests.** The redaction transformer tests the boom
  error's own status, not the status of the output it is given. Redaction
  runs after the stack and code transformers and before every transformer
  registered later (`New`, `RegisterOutputTransformer`).

## Model

| member | source | states |
|---|---|---|
| ErrorMapperBuilder.New | packages/error-handler/src/ErrorMapperBuilder.ts:11-58 | a new builder has no mappers or listeners; its transformers are built-ins only, in the order stack, code, redaction, each at most once; stack is present iff `showStackTrace`, code always, redaction iff not `showUnknownErrorMessage` |
| ErrorMapperBuilder.FromEnv | packages/error-handler/src/ErrorMapperBuilder.ts:60-65 | the result is a freshly constructed builder (so every property of `New` and the `FreshBuilder…` lemmas apply to it); both options are equal, and both are on exactly outside production |
| ErrorMapperBuilder.OnUnknownError | packages/error-handler/src/ErrorMapperBuilder.ts:67-70 | the listener is appended after the existing ones; nothing else changes |
| ErrorMapperBuilder.RegisterErrorMapper | packages/error-handler/src/ErrorMapperBuilder.ts:72-75 | the mapper is appended after the existing ones; nothing else changes |
| ErrorMapperBuilder.RegisterOutputTransformer | packages/error-handler/src/ErrorMapperBuilder.ts:77-80 | the transformer is appended after the existing ones; nothing else changes |
| ErrorMapperBuilder.ApplyStackTrace | packages/error-handler/src/ErrorMapperBuilder.ts:15-27 | with a raw stack, `payload.stack` becomes that stack; without one the output is unchanged; status, headers and every other payload key are never altered |
| ErrorMapperBuilder.ApplyErrorCode | packages/error-handler/src/ErrorMapperBuilder.ts:30-42 | the code is `data.code` when the raw error is boom and its own `code` otherwise; a truthy code is written to `payload.code`, a falsy one leaves the output unchanged; nothing else is altered |
| ErrorMapperBuilder.ApplyHideInternalMessage | packages/error-handler/src/ErrorMapperBuilder.ts:45-56 | when the boom error's status is 500, `payload.message` becomes the generic text; any other status leaves the output unchanged; nothing else is altered |
| ErrorMapperBuilder.Search | packages/error-handler/src/ErrorMapperBuilder.ts:88-93 | the result is the answer of the first mapper that claims the error, and exactly the mappers up to and including it are called, in order; when none claims it, the result is absent and every mapper is called once |
| ErrorMapperBuilder.Internal | packages/error-handler/src/ErrorMapperBuilder.ts:98-100 | the fallback boom error has status 500 |
| ErrorMapperBuilder.MapToBoom | packages/error-handler/src/ErrorMapperBuilder.ts:83-101 | a boom error is its own boom error, with no mapper or listener called; otherwise the first claiming mapper decides, and only mappers up to it are called; when none claims it, every mapper, then every listener, is called once in order, and the result is the internal 500 |
| ErrorMapperBuilder.FirstMatchOrNone | packages/error-handler/src/ErrorMapperBuilder.ts:88-97 | for every error, either some mapper claims it first or no mapper claims it, so one of the branches of `mapToBoom` always applies |
| ErrorMapperBuilder.MapError | packages/error-handler/src/ErrorMapperBuilder.ts:103-111 | the mapper's boom error and calls are those of `mapToBoom` (the transformers call nothing), and its output is the fold of the builder's current transformers, in registration order, starting from the boom error's output (step by step as in `TransformIsLeftFold`) |
| ErrorMapperBuilder.TransformAppend | packages/error-handler/src/ErrorMapperBuilder.ts:106-111 | folding one more transformer applies it to the fold of the earlier ones |
| ErrorMapperBuilder.TransformIsLeftFold | packages/error-handler/src/ErrorMapperBuilder.ts:103-111 | the fold starts from the boom error's output, and step i applies transformer i, in registration order, to the output of the earlier steps, with the same raw and boom error each time |
| ErrorMapperBuilder.RegisteredTransformerRunsLast | packages/error-handler/src/ErrorMapperBuilder.ts:106 | a transformer registered after `get()` is seen by the mapper already returned: it runs last, on the previous output; the boom error and the calls are unchanged |
| ErrorMapperBuilder.RegisteredMapperIsSeenLive | packages/error-handler/src/ErrorMapperBuilder.ts:88 | a mapper registered after `get()` decides an error that no earlier mapper claims; then no listener is notified |
| ErrorMapperBuilder.LaterMapperNeverCalled | packages/error-handler/src/ErrorMapperBuilder.ts:88-93 | once mapper k claims an error, mappers after it are never called, and appending one changes nothing |
| ErrorMapperBuilder.RegisteredListenerNotifiedLast | packages/error-handler/src/ErrorMapperBuilder.ts:95-97 | a new listener is notified last, and only for non-boom errors that no mapper claims; output and boom error are unchanged |
| ErrorMapperBuilder.FreshBuilderNormalises | packages/error-handler/src/ErrorMapperBuilder.ts:83-100 | with a fresh builder, a boom error passes through and any other error becomes the internal 500, with nothing called |
| ErrorMapperBuilder.BuiltInsFoldInOrder | packages/error-handler/src/ErrorMapperBuilder.ts:14-57 | the built-ins run as stack (if shown), then code, then redaction (if messages are hidden) |
| ErrorMapperBuilder.BuiltInsEffect | packages/error-handler/src/ErrorMapperBuilder.ts:14-57 | the built-ins keep status and headers; set `stack` iff shown and present, `code` iff truthy, and the generic `message` iff hidden and the boom status is 500; every other key is kept |
| ErrorMapperBuilder.FreshBuilderOutput | packages/error-handler/src/ErrorMapperBuilder.ts:11-111 | end to end for a fresh builder: status and headers of the boom output; `stack` only when shown and present; `code` only when truthy; with messages hidden, every internal 500 gets the generic message; nothing else changes |
| Http.WriteHeaders | packages/error-handler/src/createErrorHandler.ts:11-15 | one header call per entry, in entry order, with that entry's value; for a header record with distinct names, each name is set exactly once |
| CreateErrorHandler.Send | packages/error-handler/src/createErrorHandler.ts:7-16 | the handler responds; the status is the output's `statusCode`; without headers no header is set, with headers each is set once with its own value; the body is exactly the payload |
| CreateErrorHandler.HandleError | packages/error-handler/src/createErrorHandler.ts:4-17 | given a builder, the handler answers with the output of the builder's own mapper at call time; given a mapper, with that mapper's output: its status, its payload as the body, and one header call per header with that header's value, none when there are no headers; it never calls `next` |
| CreateErrorHandlerWithErrorMapper.RestPayload | packages/module/src/createErrorHandlerWithErrorMapper.ts:8 | the rest object has neither `statusCode` nor `headers`, has every other key with its value in the original order, and has nothing else |
| CreateErrorHandlerWithErrorMapper.HandleError | packages/module/src/createErrorHandlerWithErrorMapper.ts:5-18 | the status is the output's `statusCode`; the body has no `statusCode` or `headers` key, has every other key with the same value and in the same order, and has nothing else; headers are set once each when present and not at all when absent; `next` is never called |
| CreateErrorHandlerWithErrorMapper.WriteFlatHeaders | packages/module/src/createErrorHandlerWithErrorMapper.ts:11-15 | a header record yields one call per header with its own value, in order; absent or undefined headers yield no call |
| OrderedMaps.Set | packages/health-check/src/HealthCheckEndpoint.ts:62 | the key then maps to the new value, and every other key keeps its value; an existing key keeps its position; a new key is appended at the end; distinct keys stay distinct |
| OrderedMaps.Remove | packages/module/src/createErrorHandlerWithErrorMapper.ts:8 | the key is gone; every other key keeps its value; the remaining keys are the original keys with that one filtered out, in their original order |
| OrderedMaps.Get | packages/module/src/createErrorHandlerWithErrorMapper.ts:8 | reading a property (here `statusCode` and `headers`) is absent exactly for a key the object does not have; with distinct keys it returns the value stored under that key |
| HealthCheckEndpoint.MergeOptions | packages/health-check/src/HealthCheckEndpoint.ts:36-39 | the merged options are always the defaults (200, 503, `{ok: 1}`), whatever the user supplied |
| HealthCheckEndpoint.AddProbe | packages/health-check/src/HealthCheckEndpoint.ts:61-64 | the name then maps to the new probe and other names are unchanged; a new name is appended; an existing name keeps its position; the map grows by at most one |
| HealthCheckEndpoint.AddProbesAppends | packages/health-check/src/HealthCheckEndpoint.ts:41-45 | adding entries with new names one by one appends them in iteration order |
| HealthCheckEndpoint.New | packages/health-check/src/HealthCheckEndpoint.ts:17-46 | a constructed endpoint has the default options, and its probes are exactly the user's probes, in the user's order, or none |
| HealthCheckEndpoint.GetProbesResult | packages/health-check/src/HealthCheckEndpoint.ts:48-59 | the run succeeds iff every probe resolves; then every probe was invoked in order and the result maps each name to its value and has no other key; otherwise probes are invoked in order up to the first failure and no further, and the result carries that failure's message |
| HealthCheckEndpoint.HandleRequest | packages/health-check/src/HealthCheckEndpoint.ts:18-34 | with no probes, the healthy status and the default response, with no probe invoked; if all succeed, the healthy status with each name's value; otherwise the unhealthy status with `{errorMessage: <first failure's message>}` |

## Left out

- The boom library (`@hapi/boom`) is not part of this model. `isBoom` is the presence of the boom part, and the contents of `boom.internal`'s payload beyond its status are not claimed.
- `Module.ts` is not part of this model. It covers dependency-injection wiring, express app assembly, server start and stop, middleware and listeners: all I/O and framework plumbing.
- The endpoint composition classes are not part of this model: `AtPathEndpoint`, `CollectionEndpoint`, `AsyncFunctionEndpoint`, `mount`, `HTTPEndpoint` and `VHostEndpoint`. They only delegate to express's router and `vhost`.
- Environment detection (`@pallad/app-env`) is not modelled: `FromEnv` takes the development, test or production classification as a parameter.
- Promises are not modelled: a probe's outcome is fixed in advance, and probes that never settle are not modelled. A probe that throws synchronously, or rejects with a value that has no `message`, is not modelled either.
- Exceptions thrown by mappers, listeners or transformers are not modelled: every callback is a total function.
- JSON serialisation is not modelled. Neither are express's multi-value header semantics: a header call is logged with its value as given.
- Objects whose keys are integer-like (which JavaScript enumerates first) or `__proto__` are not modelled: every key is treated as an ordinary string key kept in insertion order.
- JavaScript numbers are modelled as integers: `NaN` and fractional values are not modelled.
- Transformers are pure: a transformer that mutates `output` in place is not modelled. The first transformer is given `boomedError.output` itself (packages/error-handler/src/ErrorMapperBuilder.ts:110), so such a mutation would also change the status that redaction reads.
