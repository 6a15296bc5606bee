/**
 * The HTTP client the pages use: how each operation turns its arguments into
 * an endpoint, how a request's URL, method, body and headers are assembled,
 * and how the reply becomes a returned value or a thrown error. The network
 * itself is a parameter: `transport` stands for `fetch` followed by
 * `response.json()`, answering a call with an abstract reply.
 */
module Api {
  import opened Wrappers
  import opened Text
  import Json

  const BaseUrl: string := "http://localhost:8000"
  const DefaultLimit: int := 10

  const SamplePath: string := "/profiles/sample"
  const QueryPath: string := "/profiles/query"
  const TrajectoryPath: string := "/trajectories/sample"
  const MetadataPath: string := "/metadata/sample"
  const NlQueryPath: string := "/nl_query"
  const PlotPath: string := "/profiles/plot"
  const HealthPath: string := "/"

  /** A header or query entry: name and (already stringified) value. */
  type Pair = (string, string)

  const ContentTypeJson: Pair := ("Content-Type", "application/json")

  // ------------------------------------------------------------ data

  /** One observation; numbers are kept as reals, the backend's floats. */
  datatype Profile = Profile(latitude: real, longitude: real, depth: real,
                             temperature: Option<real>, salinity: Option<real>)

  datatype QueryResponse = QueryResponse(query: string, results: seq<Profile>, error: Option<string>)

  datatype PlotResponse = PlotResponse(imageBase64: string)

  datatype HealthResponse = HealthResponse(message: string)

  // ------------------------------------------------------------ query strings

  /** One entry of the `params` object, in insertion order; `None` is `undefined`. */
  datatype Param = Param(key: string, value: Option<string>)

  /** What one entry contributes to the query string. */
  function Entry(p: Param): seq<Pair> {
    if p.value.Some? then [(p.key, p.value.value)] else []
  }

  /** The entries the `forEach` appends: those whose value is defined. */
  function Defined(ps: seq<Param>): seq<Pair> {
    if ps == [] then [] else Defined(ps[..|ps| - 1]) + Entry(ps[|ps| - 1])
  }

  /** The positions of the defined entries, in order. */
  function DefinedIndices(ps: seq<Param>): seq<nat> {
    if ps == [] then []
    else DefinedIndices(ps[..|ps| - 1]) + (if ps[|ps| - 1].value.Some? then [|ps| - 1] else [])
  }

  lemma {:induction false} DefinedIndicesPick(ps: seq<Param>)
    ensures var q, idx := Defined(ps), DefinedIndices(ps);
      && |q| == |idx|
      && (forall j :: 0 <= j < |idx| ==>
            idx[j] < |ps| && ps[idx[j]].value.Some? && q[j] == (ps[idx[j]].key, ps[idx[j]].value.value))
  {
    if ps != [] {
      var init, last := ps[..|ps| - 1], |ps| - 1;
      DefinedIndicesPick(init);
      var q0, idx0 := Defined(init), DefinedIndices(init);
      var q, idx := Defined(ps), DefinedIndices(ps);
      forall j | 0 <= j < |idx|
        ensures idx[j] < |ps| && ps[idx[j]].value.Some? && q[j] == (ps[idx[j]].key, ps[idx[j]].value.value)
      {
        if j < |idx0| {
          assert idx[j] == idx0[j] && q[j] == q0[j];
          assert init[idx0[j]] == ps[idx0[j]];
        }
      }
    }
  }

  lemma {:induction false} DefinedIndicesAscend(ps: seq<Param>)
    ensures forall j :: 0 <= j < |DefinedIndices(ps)| ==> DefinedIndices(ps)[j] < |ps|
    ensures forall j, k :: 0 <= j < k < |DefinedIndices(ps)| ==> DefinedIndices(ps)[j] < DefinedIndices(ps)[k]
  {
    if ps != [] {
      var init := ps[..|ps| - 1];
      DefinedIndicesAscend(init);
      var idx0, idx := DefinedIndices(init), DefinedIndices(ps);
      assert forall j :: 0 <= j < |idx0| ==> idx[j] == idx0[j];
      assert |idx| == |idx0| || (|idx| == |idx0| + 1 && idx[|idx0|] == |init|);
    }
  }

  lemma {:induction false} DefinedIndicesComplete(ps: seq<Param>)
    ensures forall i :: 0 <= i < |ps| && ps[i].value.Some? ==> i in DefinedIndices(ps)
  {
    if ps != [] {
      var init := ps[..|ps| - 1];
      DefinedIndicesComplete(init);
      assert forall i :: 0 <= i < |init| ==> init[i] == ps[i];
    }
  }

  /** The filter keeps exactly the defined entries, unchanged, each once and
      in insertion order. */
  lemma DefinedIsOrderedSelection(ps: seq<Param>)
    ensures var q, idx := Defined(ps), DefinedIndices(ps);
      && |q| == |idx|
      && (forall j :: 0 <= j < |idx| ==>
            idx[j] < |ps| && ps[idx[j]].value.Some? && q[j] == (ps[idx[j]].key, ps[idx[j]].value.value))
      && (forall j, k :: 0 <= j < k < |idx| ==> idx[j] < idx[k])
      && (forall i :: 0 <= i < |ps| && ps[i].value.Some? ==> i in idx)
  {
    DefinedIndicesPick(ps);
    DefinedIndicesAscend(ps);
    DefinedIndicesComplete(ps);
  }

  /** No defined entry, no query. */
  lemma {:induction false} DefinedEmptyIffAllUndefined(ps: seq<Param>)
    ensures Defined(ps) == [] <==> forall i :: 0 <= i < |ps| ==> ps[i].value.None?
  {
    if ps != [] {
      var init := ps[..|ps| - 1];
      DefinedEmptyIffAllUndefined(init);
      assert forall i :: 0 <= i < |init| ==> init[i] == ps[i];
    }
  }

  /** The `forEach` over `Object.entries(params)` that fills the URLSearchParams. */
  method AppendDefined(ps: seq<Param>) returns (q: seq<Pair>)
    ensures q == Defined(ps)
  {
    q := [];
    var i := 0;
    while i < |ps|
      invariant 0 <= i <= |ps|
      invariant q == Defined(ps[..i])
    {
      assert ps[..i + 1][..i] == ps[..i];
      if ps[i].value.Some? {
        q := q + [(ps[i].key, ps[i].value.value)];
      }
      i := i + 1;
    }
    assert ps[..|ps|] == ps;
  }

  /** URLSearchParams.toString, with the percent-encoding left out. */
  function Serialize(q: seq<Pair>): string {
    if q == [] then ""
    else if |q| == 1 then q[0].0 + "=" + q[0].1
    else Serialize(q[..|q| - 1]) + "&" + q[|q| - 1].0 + "=" + q[|q| - 1].1
  }

  lemma SerializeEmptyIffNoEntries(q: seq<Pair>)
    ensures Serialize(q) == "" <==> q == []
  {
    if |q| == 1 {
      assert Serialize(q)[|q[0].0|] == '=';
    } else if |q| > 1 {
      assert |Serialize(q)| > 0;
    }
  }

  /** `${path}?${queryParams}`, as queryProfiles and getPlot build it. */
  function QueryEndpoint(path: string, ps: seq<Param>): string {
    path + "?" + Serialize(Defined(ps))
  }

  /** With every parameter undefined the endpoint is the bare path and "?". */
  lemma AllUndefinedGivesBarePath(path: string, ps: seq<Param>)
    ensures QueryEndpoint(path, ps) == path + "?" <==> forall i :: 0 <= i < |ps| ==> ps[i].value.None?
  {
    DefinedEmptyIffAllUndefined(ps);
    SerializeEmptyIffNoEntries(Defined(ps));
    assert |QueryEndpoint(path, ps)| == |path| + 1 + |Serialize(Defined(ps))|;
  }

  /** `${path}?limit=${limit}` with the default limit of 10. */
  function LimitEndpoint(path: string, limit: Option<int>): string {
    path + "?limit=" + IntString(limit.GetOr(DefaultLimit))
  }

  /** The endpoint carries the limit, and it reads back as the same number. */
  lemma LimitEndpointCarriesLimit(path: string, limit: Option<int>)
    ensures var e, n := LimitEndpoint(path, limit), |path| + 7;
      && |e| > n && e[..n] == path + "?limit="
      && ParseInt(e[n..]) == Some(if limit.Some? then limit.value else 10)
  {
    var e := LimitEndpoint(path, limit);
    assert e[|path| + 7..] == IntString(limit.GetOr(DefaultLimit));
    IntRoundTrip(limit.GetOr(DefaultLimit));
  }

  // ------------------------------------------------------------ requests

  /** The parts of a RequestInit the client uses; `None` is an absent property. */
  datatype RequestInit = RequestInit(httpMethod: Option<string>, body: Option<string>, headers: Option<seq<Pair>>)

  /** What is handed to `fetch`: the URL and the merged init. */
  datatype FetchCall = FetchCall(url: string, httpMethod: Option<string>, body: Option<string>, headers: seq<Pair>)

  /** A JavaScript Error: its name and message. */
  datatype Error = Error(name: string, message: string)

  datatype Parsed<T> = Json(value: T) | Malformed(error: Error)

  /** How `fetch` and `response.json()` answer: a rejected fetch, or a response
      with its `ok` flag, status and parsed body. */
  datatype Reply<T> = Unreachable(error: Error) | Response(ok: bool, status: nat, body: Parsed<T>)

  /** How `request` settles: it returns a value or throws an error. */
  datatype Outcome<T> = Returned(value: T) | Thrown(error: Error)

  /** A property value of the init object: a string, or a nested plain object. */
  datatype Value = Str(text: string) | Obj(props: seq<Pair>)

  /** The first value stored under `k` in a plain object. */
  function Lookup<V>(obj: seq<(string, V)>, k: string): Option<V> {
    if obj == [] then None else if obj[0].0 == k then Some(obj[0].1) else Lookup(obj[1..], k)
  }

  /** The last value given for `k` in an object being spread. */
  function LastValue<V>(src: seq<(string, V)>, k: string): Option<V> {
    if src == [] then None
    else if src[|src| - 1].0 == k then Some(src[|src| - 1].1)
    else LastValue(src[..|src| - 1], k)
  }

  /** `obj[k] = v`: an existing property keeps its place, a new one goes last. */
  function Assign<V>(obj: seq<(string, V)>, k: string, v: V): seq<(string, V)> {
    if obj == [] then [(k, v)]
    else if obj[0].0 == k then [(k, v)] + obj[1..]
    else [obj[0]] + Assign(obj[1..], k, v)
  }

  /** `{...obj, ...src}`: the properties of `src` assigned in order. */
  function SpreadInto<V>(obj: seq<(string, V)>, src: seq<(string, V)>): seq<(string, V)> {
    if src == [] then obj
    else Assign(SpreadInto(obj, src[..|src| - 1]), src[|src| - 1].0, src[|src| - 1].1)
  }

  lemma {:induction false} LookupAssign<V>(obj: seq<(string, V)>, k: string, v: V, k': string)
    ensures Lookup(Assign(obj, k, v), k') == if k' == k then Some(v) else Lookup(obj, k')
  {
    if obj != [] && obj[0].0 != k {
      LookupAssign(obj[1..], k, v, k');
    }
  }

  /** In a spread the later source wins, property by property. */
  lemma {:induction false} SpreadLaterWins<V>(obj: seq<(string, V)>, src: seq<(string, V)>, k: string)
    ensures Lookup(SpreadInto(obj, src), k) ==
      if LastValue(src, k).Some? then LastValue(src, k) else Lookup(obj, k)
  {
    if src != [] {
      var init := src[..|src| - 1];
      SpreadLaterWins(obj, init, k);
      LookupAssign(SpreadInto(obj, init), src[|src| - 1].0, src[|src| - 1].1, k);
    }
  }

  /** Reading from the end, the second part of a concatenation is searched first. */
  lemma {:induction false} LastValueAppend<V>(a: seq<(string, V)>, b: seq<(string, V)>, k: string)
    ensures LastValue(a + b, k) == if LastValue(b, k).Some? then LastValue(b, k) else LastValue(a, k)
  {
    if b == [] {
      assert a + b == a;
    } else {
      assert (a + b)[..|a + b| - 1] == a + b[..|b| - 1];
      LastValueAppend(a, b[..|b| - 1], k);
    }
  }

  /** A key absent from an object is absent from it read either way. */
  lemma {:induction false} AbsentFromBothEnds<V>(obj: seq<(string, V)>, k: string)
    ensures Lookup(obj, k).None? <==> LastValue(obj, k).None?
  {
    if obj != [] {
      AbsentFromBothEnds(obj[1..], k);
      assert obj == [obj[0]] + obj[1..];
      LastValueAppend([obj[0]], obj[1..], k);
    }
  }

  /** A property of the init object, present only when the option is. */
  function Present(key: string, v: Option<Value>): seq<(string, Value)> {
    if v.Some? then [(key, v.value)] else []
  }

  /** The own properties of the caller's options, in the order they are written;
      spreading an absent `options` adds nothing. */
  function InitProps(options: Option<RequestInit>): seq<(string, Value)> {
    if options.None? then []
    else
      var o := options.value;
      Present("method", if o.httpMethod.Some? then Some(Str(o.httpMethod.value)) else None)
      + Present("body", if o.body.Some? then Some(Str(o.body.value)) else None)
      + Present("headers", if o.headers.Some? then Some(Obj(o.headers.value)) else None)
  }

  /** Which value the caller's options give each property of the init. */
  lemma InitPropsLast(options: Option<RequestInit>, k: string)
    ensures var o := options.GetOr(RequestInit(None, None, None));
      LastValue(InitProps(options), k) ==
        if k == "method" && o.httpMethod.Some? then Some(Str(o.httpMethod.value))
        else if k == "body" && o.body.Some? then Some(Str(o.body.value))
        else if k == "headers" && o.headers.Some? then Some(Obj(o.headers.value))
        else None
  {
    if options.Some? {
      var o := options.value;
      var m := Present("method", if o.httpMethod.Some? then Some(Str(o.httpMethod.value)) else None);
      var b := Present("body", if o.body.Some? then Some(Str(o.body.value)) else None);
      var h := Present("headers", if o.headers.Some? then Some(Obj(o.headers.value)) else None);
      LastValueAppend(m + b, h, k);
      LastValueAppend(m, b, k);
    }
  }

  function StrProp(init: seq<(string, Value)>, k: string): Option<string> {
    match Lookup<Value>(init, k)
    case Some(Str(s)) => Some(s)
    case _ => None
  }

  function ObjProp(init: seq<(string, Value)>, k: string): seq<Pair> {
    match Lookup<Value>(init, k)
    case Some(Obj(props)) => props
    case _ => []
  }

  /** The init object `request` builds: a `headers` property holding the JSON
      content type merged with the caller's headers, and then the caller's own
      options spread over it. */
  function InitFor(options: Option<RequestInit>): seq<(string, Value)> {
    var merged := SpreadInto([ContentTypeJson], if options.Some? then options.value.headers.GetOr([]) else []);
    SpreadInto([("headers", Obj(merged))], InitProps(options))
  }

  /** The call `request` hands to `fetch`: the base URL joined to the endpoint,
      and the properties of the init object that `fetch` reads. */
  function CallFor(endpoint: string, options: Option<RequestInit>): FetchCall {
    var init := InitFor(options);
    FetchCall(BaseUrl + endpoint, StrProp(init, "method"), StrProp(init, "body"), ObjProp(init, "headers"))
  }

  /** The URL is the base URL followed by the endpoint. Without caller headers
      the request declares JSON; with them, the caller's headers are sent as
      they are, and so is the caller's method and body. */
  lemma CallShape(endpoint: string, options: Option<RequestInit>)
    ensures var call := CallFor(endpoint, options);
      && call.url[..|BaseUrl|] == BaseUrl && call.url[|BaseUrl|..] == endpoint
      && (options.None? ==> call.httpMethod.None? && call.body.None?)
      && (options.Some? ==> call.httpMethod == options.value.httpMethod && call.body == options.value.body)
    ensures options.None? || options.value.headers.None? ==>
      CallFor(endpoint, options).headers == [ContentTypeJson]
    ensures options.Some? && options.value.headers.Some? ==>
      CallFor(endpoint, options).headers == options.value.headers.value
  {
    var merged := SpreadInto([ContentTypeJson], if options.Some? then options.value.headers.GetOr([]) else []);
    var base := [("headers", Obj(merged))];
    SpreadLaterWins(base, InitProps(options), "method");
    SpreadLaterWins(base, InitProps(options), "body");
    SpreadLaterWins(base, InitProps(options), "headers");
    InitPropsLast(options, "method");
    InitPropsLast(options, "body");
    InitPropsLast(options, "headers");
  }

  /** Caller headers without a Content-Type send none, although the inner merge,
      which the outer spread discards, had kept it. */
  lemma CallerHeadersDropContentType(endpoint: string, m: Option<string>, b: Option<string>, h: seq<Pair>)
    requires Lookup(h, "Content-Type").None?
    ensures Lookup(CallFor(endpoint, Some(RequestInit(m, b, Some(h)))).headers, "Content-Type").None?
    ensures Lookup(SpreadInto([ContentTypeJson], h), "Content-Type") == Some("application/json")
  {
    CallShape(endpoint, Some(RequestInit(m, b, Some(h))));
    AbsentFromBothEnds(h, "Content-Type");
    SpreadLaterWins([ContentTypeJson], h, "Content-Type");
  }

  const StatusPrefix: string := "API request failed: "

  /** The error `request` throws for a response that is not ok. */
  function StatusError(status: nat): Error {
    Error("Error", StatusPrefix + Decimal(status))
  }

  /** The status can be read back from the error's message. */
  lemma StatusErrorCarriesStatus(status: nat)
    ensures var m := StatusError(status).message;
      && |m| > |StatusPrefix| && m[..|StatusPrefix|] == StatusPrefix
      && ParseDecimal(m[|StatusPrefix|..]) == Some(status)
  {
    var m := StatusError(status).message;
    assert m[|StatusPrefix|..] == Decimal(status);
    DecimalRoundTrip(status);
  }

  /** The try/catch of `request`: a non-ok response throws an error carrying its
      status, a rejected fetch or body parse is rethrown as it is, and only an
      ok response with a parsed body is returned. */
  function Settle<T>(reply: Reply<T>): (r: Outcome<T>)
    ensures r.Returned? <==> reply.Response? && reply.ok && reply.body.Json?
    ensures r.Returned? ==> r.value == reply.body.value
    ensures reply.Response? && !reply.ok ==> r == Thrown(StatusError(reply.status))
    ensures reply.Unreachable? ==> r == Thrown(reply.error)
    ensures reply.Response? && reply.ok && reply.body.Malformed? ==> r == Thrown(reply.body.error)
  {
    match reply
    case Unreachable(e) => Thrown(e)
    case Response(ok, status, body) =>
      if !ok then Thrown(StatusError(status))
      else match body
        case Json(v) => Returned(v)
        case Malformed(e) => Thrown(e)
  }

  /** ApiClient.request. */
  method Request<T>(endpoint: string, options: Option<RequestInit>, transport: FetchCall -> Reply<T>)
    returns (call: FetchCall, outcome: Outcome<T>)
    ensures call == CallFor(endpoint, options)
    ensures outcome == Settle(transport(call))
  {
    call := CallFor(endpoint, options);
    var thrown: Option<Error> := None;
    // try
    var reply := transport(call);
    if reply.Unreachable? {
      thrown := Some(reply.error);
    } else if !reply.ok {
      thrown := Some(StatusError(reply.status));
    } else {
      match reply.body
      case Json(v) => outcome := Returned(v);
      case Malformed(e) => thrown := Some(e);
    }
    // catch: log, then rethrow
    if thrown.Some? {
      outcome := Thrown(thrown.value);
    }
  }

  // ------------------------------------------------------------ operations

  method GetProfilesSample(limit: Option<int>, transport: FetchCall -> Reply<seq<Profile>>)
    returns (call: FetchCall, outcome: Outcome<seq<Profile>>)
    ensures call == CallFor(LimitEndpoint(SamplePath, limit), None)
    ensures outcome == Settle(transport(call))
  {
    call, outcome := Request(LimitEndpoint(SamplePath, limit), None, transport);
  }

  method QueryProfiles(params: seq<Param>, transport: FetchCall -> Reply<seq<Profile>>)
    returns (call: FetchCall, outcome: Outcome<seq<Profile>>)
    ensures call == CallFor(QueryEndpoint(QueryPath, params), None)
    ensures outcome == Settle(transport(call))
  {
    var queryParams := AppendDefined(params);
    call, outcome := Request(QueryPath + "?" + Serialize(queryParams), None, transport);
  }

  method GetTrajectorySample<T>(limit: Option<int>, transport: FetchCall -> Reply<seq<T>>)
    returns (call: FetchCall, outcome: Outcome<seq<T>>)
    ensures call == CallFor(LimitEndpoint(TrajectoryPath, limit), None)
    ensures outcome == Settle(transport(call))
  {
    call, outcome := Request(LimitEndpoint(TrajectoryPath, limit), None, transport);
  }

  method GetMetadataSample<T>(limit: Option<int>, transport: FetchCall -> Reply<seq<T>>)
    returns (call: FetchCall, outcome: Outcome<seq<T>>)
    ensures call == CallFor(LimitEndpoint(MetadataPath, limit), None)
    ensures outcome == Settle(transport(call))
  {
    call, outcome := Request(LimitEndpoint(MetadataPath, limit), None, transport);
  }

  /** The options naturalLanguageQuery passes: a POST whose body is the
      question as a JSON string. */
  function NlQueryOptions(question: string): RequestInit {
    RequestInit(Some("POST"), Some(Json.Quote(question)), None)
  }

  method NaturalLanguageQuery(question: string, transport: FetchCall -> Reply<QueryResponse>)
    returns (call: FetchCall, outcome: Outcome<QueryResponse>)
    ensures call == CallFor(NlQueryPath, Some(NlQueryOptions(question)))
    ensures outcome == Settle(transport(call))
  {
    call, outcome := Request(NlQueryPath, Some(NlQueryOptions(question)), transport);
  }

  /** The natural-language request is a JSON POST to /nl_query whose body
      decodes to the question. */
  lemma NlQueryCall(question: string)
    ensures var call := CallFor(NlQueryPath, Some(NlQueryOptions(question)));
      && call.url == BaseUrl + "/nl_query"
      && call.httpMethod == Some("POST")
      && call.headers == [ContentTypeJson]
      && call.body.Some? && Json.Unquote(call.body.value) == Some(question)
  {
    CallShape(NlQueryPath, Some(NlQueryOptions(question)));
    Json.QuoteRoundTrip(question);
  }

  method GetPlot(params: seq<Param>, transport: FetchCall -> Reply<PlotResponse>)
    returns (call: FetchCall, outcome: Outcome<PlotResponse>)
    ensures call == CallFor(QueryEndpoint(PlotPath, params), None)
    ensures outcome == Settle(transport(call))
  {
    var queryParams := AppendDefined(params);
    call, outcome := Request(PlotPath + "?" + Serialize(queryParams), None, transport);
  }

  method HealthCheck(transport: FetchCall -> Reply<HealthResponse>)
    returns (call: FetchCall, outcome: Outcome<HealthResponse>)
    ensures call == CallFor(HealthPath, None)
    ensures outcome == Settle(transport(call))
  {
    call, outcome := Request(HealthPath, None, transport);
  }

  /** queryProfiles and getPlot filter their parameters by the same rule: for
      the same parameters the two URLs differ only in the path. */
  lemma QueryAndPlotShareParams(params: seq<Param>)
    ensures var q, p := CallFor(QueryEndpoint(QueryPath, params), None).url,
                        CallFor(QueryEndpoint(PlotPath, params), None).url;
      && q[..|BaseUrl| + |QueryPath|] == BaseUrl + QueryPath
      && p[..|BaseUrl| + |PlotPath|] == BaseUrl + PlotPath
      && q[|BaseUrl| + |QueryPath|..] == p[|BaseUrl| + |PlotPath|..] == "?" + Serialize(Defined(params))
  {
    CallShape(QueryEndpoint(QueryPath, params), None);
    CallShape(QueryEndpoint(PlotPath, params), None);
  }
}
