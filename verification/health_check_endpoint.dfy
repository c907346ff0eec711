/** `HealthCheckEndpoint`: an insertion-ordered set of named probes, run
    one after another on every request; the first failure stops the run
    and decides the response. */
module HealthCheckEndpoint {
  import opened Wrappers
  import opened OrderedMaps
  import opened Json
  import opened Http

  /** A probe, by the outcome of the promise it returns. */
  datatype Probe = Resolves(value: Value) | Rejects(message: string)

  datatype Options = Options(healthyStatusCode: int, unhealthyStatusCode: int, defaultResponse: Value)

  const DEFAULT_OPTIONS := Options(200, 503, Obj([("ok", Num(1))]))

  /** `Options.FromUser`: every option may be left out, and probes may be
      given as a `Map` from name to probe. */
  datatype UserOptions = UserOptions(
    healthyStatusCode: Option<int>,
    unhealthyStatusCode: Option<int>,
    defaultResponse: Option<Value>,
    probes: Option<OrderedMap<string, Probe>>)

  datatype Endpoint = Endpoint(options: Options, probes: OrderedMap<string, Probe>)

  /** The aggregate of a probe run: every probe's value by name, or the
      first failure's message. */
  datatype ProbesResult = Success(results: Fields) | Failure(message: string)

  /** One key of `{...earlier, ...later}`: a key the later object has wins. */
  function Spread<T>(earlier: Option<T>, later: Option<T>): Option<T>
  {
    if later.Some? then later else earlier
  }

  /** `{...(options || {}), ...DEFAULT_OPTIONS}`: the defaults are spread
      last, so they override whatever the user supplied. */
  function MergeOptions(user: Option<UserOptions>): (r: Options)
    ensures r == DEFAULT_OPTIONS
  {
    var u := user.GetOr(UserOptions(None, None, None, None));
    var d := DEFAULT_OPTIONS;
    Options(
      Spread(u.healthyStatusCode, Some(d.healthyStatusCode)).value,
      Spread(u.unhealthyStatusCode, Some(d.unhealthyStatusCode)).value,
      Spread(u.defaultResponse, Some(d.defaultResponse)).value)
  }

  /** `addProbe(name, probe)`: `Map.set` semantics, so a new name goes to the
      end and a known name keeps its place with the new probe. */
  function AddProbe(ep: Endpoint, name: string, probe: Probe): (r: Endpoint)
    ensures r.options == ep.options
    ensures Get(r.probes, name) == Some(probe)
    ensures Keyed(ep.probes) ==> Keyed(r.probes)
    ensures Keyed(ep.probes) ==> forall other :: other != name ==> Get(r.probes, other) == Get(ep.probes, other)
    ensures name in Keys(ep.probes) ==> Keys(r.probes) == Keys(ep.probes)
    ensures name !in Keys(ep.probes) ==> Keys(r.probes) == Keys(ep.probes) + [name]
    ensures |r.probes| <= |ep.probes| + 1
  {
    ep.(probes := Set(ep.probes, name, probe))
  }

  /** `for (const [name, probe] of probes.entries()) this.addProbe(name, probe)`. */
  function AddProbes(ep: Endpoint, entries: OrderedMap<string, Probe>): Endpoint
    decreases |entries|
  {
    if |entries| == 0 then ep
    else AddProbes(AddProbe(ep, entries[0].0, entries[0].1), entries[1..])
  }

  /** Adding entries whose names are all new appends them, in order. */
  lemma {:induction false} AddProbesAppends(ep: Endpoint, entries: OrderedMap<string, Probe>)
    requires Keyed(ep.probes + entries)
    ensures AddProbes(ep, entries) == Endpoint(ep.options, ep.probes + entries)
    decreases |entries|
  {
    if |entries| > 0 {
      var all := ep.probes + entries;
      var (name, probe) := entries[0];
      assert name !in Keys(ep.probes) by {
        forall i | 0 <= i < |ep.probes| ensures ep.probes[i].0 != name {
          assert all[i] == ep.probes[i] && all[|ep.probes|] == entries[0];
        }
      }
      var ep' := AddProbe(ep, name, probe);
      assert ep'.probes == ep.probes + [entries[0]];
      assert ep'.probes + entries[1..] == all;
      AddProbesAppends(ep', entries[1..]);
    }
  }

  /** `new HealthCheckEndpoint(options)`. */
  function New(user: Option<UserOptions>): (r: Endpoint)
    requires user.Some? && user.value.probes.Some? ==> Keyed(user.value.probes.value)
    ensures r.options == DEFAULT_OPTIONS
    ensures r.probes == if user.Some? && user.value.probes.Some? then user.value.probes.value else []
    ensures Keyed(r.probes)
  {
    var ep := Endpoint(MergeOptions(user), []);
    if user.Some? && user.value.probes.Some? then
      var entries := user.value.probes.value;
      assert [] + entries == entries;
      AddProbesAppends(ep, entries);
      AddProbes(ep, entries)
    else ep
  }

  predicate AllResolve(probes: OrderedMap<string, Probe>)
  {
    forall i :: 0 <= i < |probes| ==> probes[i].1.Resolves?
  }

  /** Probe `k` is the first, in insertion order, to fail. */
  predicate FirstFailure(probes: OrderedMap<string, Probe>, k: nat)
  {
    k < |probes| && probes[k].1.Rejects? && forall j :: 0 <= j < k ==> probes[j].1.Resolves?
  }

  /** `getProbesResult`: awaits the probes one by one in insertion order and
      returns at the first failure; `invoked` lists the probes called. */
  method GetProbesResult(probes: OrderedMap<string, Probe>) returns (result: ProbesResult, invoked: seq<string>)
    requires Keyed(probes)
    ensures result.Success? <==> AllResolve(probes)
    ensures result.Success? ==> invoked == Keys(probes)
    ensures result.Success? ==> Keyed(result.results) && Keys(result.results) == Keys(probes)
    ensures result.Success? ==> forall i :: 0 <= i < |probes| ==> Get(result.results, probes[i].0) == Some(probes[i].1.value)
    ensures result.Failure? ==>
      && 0 < |invoked| <= |probes|
      && FirstFailure(probes, |invoked| - 1)
      && invoked == Keys(probes[..|invoked|])
      && result.message == probes[|invoked| - 1].1.message
  {
    var results: Fields := [];
    invoked := [];
    var i := 0;
    while i < |probes|
      invariant 0 <= i <= |probes|
      invariant invoked == Keys(probes[..i])
      invariant forall j :: 0 <= j < i ==> probes[j].1.Resolves?
      invariant Keyed(results) && Keys(results) == Keys(probes[..i])
      invariant forall j :: 0 <= j < i ==> Get(results, probes[j].0) == Some(probes[j].1.value)
    {
      var (name, probe) := probes[i];
      assert Keys(probes[..i + 1]) == Keys(probes[..i]) + [name];
      invoked := invoked + [name];
      match probe
      case Rejects(message) =>
        result := Failure(message);
        return;
      case Resolves(value) =>
        assert name !in Keys(results) by {
          forall j | 0 <= j < i ensures Keys(results)[j] != name {
            assert Keys(probes[..i])[j] == probes[j].0;
          }
        }
        results := Set(results, name, value);
      i := i + 1;
    }
    assert probes[..i] == probes;
    result := Success(results);
  }

  /** The request handler: with no probes, the default response; else run
      the probes and answer with all their values, or with the first
      failure's message. */
  method HandleRequest(ep: Endpoint) returns (response: Response, invoked: seq<string>)
    requires Keyed(ep.probes)
    ensures response.headerLog == []
    ensures |ep.probes| == 0 ==>
      response == Response(ep.options.healthyStatusCode, [], ep.options.defaultResponse) && invoked == []
    ensures |ep.probes| > 0 && AllResolve(ep.probes) ==>
      && response.status == ep.options.healthyStatusCode
      && invoked == Keys(ep.probes)
      && response.body.Obj?
      && Keys(response.body.fields) == Keys(ep.probes)
      && forall i :: 0 <= i < |ep.probes| ==> Get(response.body.fields, ep.probes[i].0) == Some(ep.probes[i].1.value)
    ensures !AllResolve(ep.probes) ==>
      && response.status == ep.options.unhealthyStatusCode
      && 0 < |invoked|
      && FirstFailure(ep.probes, |invoked| - 1)
      && invoked == Keys(ep.probes[..|invoked|])
      && response.body == Obj([("errorMessage", Str(ep.probes[|invoked| - 1].1.message))])
  {
    if |ep.probes| == 0 {
      response := Response(ep.options.healthyStatusCode, [], ep.options.defaultResponse);
      invoked := [];
    } else {
      var result;
      result, invoked := GetProbesResult(ep.probes);
      match result
      case Success(results) =>
        response := Response(ep.options.healthyStatusCode, [], Obj(results));
      case Failure(message) =>
        response := Response(ep.options.unhealthyStatusCode, [], Obj([("errorMessage", Str(message))]));
    }
  }
}
