/**
 * The CMS client of lib/strapi.ts: the configured API base, media-URL
 * resolution, and how `fetchAPI` turns an endpoint and a query record into
 * a request and a response into a value or an exception.
 *
 * The environment (`NEXT_PUBLIC_STRAPI_API_URL`, `STRAPI_API_TOKEN`) is a
 * parameter, and the network is replaced by the response it would return.
 */
module Strapi {
  import opened Common

  const DefaultApiUrl := "http://localhost:1337"

  /** The two environment variables the client reads. */
  datatype Env = Env(apiUrl: Option<string>, apiToken: Option<string>)

  /** `STRAPI_API_URL`: the variable when it is set and non-empty, else the local default. */
  function ApiUrl(env: Env): (r: string)
    ensures !Truthy(env.apiUrl) ==> r == DefaultApiUrl
    ensures Truthy(env.apiUrl) ==> r == env.apiUrl.value
  {
    OrString(env.apiUrl, DefaultApiUrl)
  }

  /** `getStrapiURL(path)`: the base followed by the path. */
  function StrapiUrl(base: string, path: string): (r: string)
    ensures StartsWith(r, base) && EndsWith(r, path) && |r| == |base| + |path|
  {
    base + path
  }

  /** `getStrapiMediaURL(url)`: null for a missing or empty URL, an absolute URL unchanged, anything else prefixed with the base. */
  function MediaUrl(base: string, url: Option<string>): (r: Option<string>)
    ensures r.None? <==> !Truthy(url)
    ensures r.Some? ==> EndsWith(r.value, url.value) && r.value != ""
    ensures r.Some? && StartsWith(url.value, "http") ==> r.value == url.value
    ensures r.Some? && !StartsWith(url.value, "http") ==> r.value == StrapiUrl(base, url.value)
  {
    if !Truthy(url) then None
    else if StartsWith(url.value, "http") then url
    else Some(StrapiUrl(base, url.value))
  }

  lemma PrefixOfConcat(a: string, b: string, p: string)
    requires StartsWith(a, p)
    ensures StartsWith(a + b, p)
  {
    assert (a + b)[..|p|] == a[..|p|];
  }

  /** Resolving a resolved URL again changes nothing, as long as the base itself is absolute. */
  lemma MediaUrlIdempotent(base: string, url: Option<string>)
    requires StartsWith(base, "http")
    ensures MediaUrl(base, MediaUrl(base, url)) == MediaUrl(base, url)
  {
    var r := MediaUrl(base, url);
    if r.Some? && !StartsWith(url.value, "http") {
      PrefixOfConcat(base, url.value, "http");
    }
  }

  /** What `String(value)` gives for the three kinds of query value. */
  datatype QueryValue = QStr(s: string) | QNum(n: int) | QBool(b: bool)

  function Stringify(v: QueryValue): (r: string)
    ensures v.QStr? ==> r == v.s
    ensures v.QBool? ==> (r == "true" <==> v.b) && (r == "false" <==> !v.b)
    ensures v.QNum? ==> r == IntToString(v.n)
  {
    match v
    case QStr(s) => s
    case QNum(n) => IntToString(n)
    case QBool(b) => if b then "true" else "false"
  }

  /** A query record; JavaScript keeps string keys in insertion order. */
  type Query = seq<(string, QueryValue)>

  /** Keys of a query record, in order. */
  function Keys(q: Query): (ks: seq<string>)
    ensures |ks| == |q|
    ensures forall i :: 0 <= i < |q| ==> ks[i] == q[i].0
  {
    seq(|q|, i requires 0 <= i < |q| => q[i].0)
  }

  /** No key is set twice, so every key names exactly one value. */
  predicate DistinctKeys(q: Query) {
    forall i, j :: 0 <= i < j < |q| ==> q[i].0 != q[j].0
  }

  /** The options object passed to `fetchAPI`. */
  datatype RequestOptions = RequestOptions(
    endpoint: string,
    query: Option<Query>,
    cache: Option<string>,
    tags: Option<seq<string>>)

  /** The request `fetchAPI` sends: URL parts, headers, cache mode and revalidation tags. */
  datatype PreparedRequest = PreparedRequest(
    base: string,
    path: string,
    search: seq<(string, string)>,
    headers: map<string, string>,
    cache: string,
    tags: Option<seq<string>>)

  /** The `forEach` over `Object.entries(query)` appending to `url.searchParams`. */
  method AppendQuery(search: seq<(string, string)>, query: Query) returns (r: seq<(string, string)>)
    ensures |r| == |search| + |query|
    ensures r[..|search|] == search
    ensures forall i :: 0 <= i < |query| ==>
      r[|search| + i] == (query[i].0, Stringify(query[i].1))
  {
    r := search;
    var i := 0;
    while i < |query|
      invariant 0 <= i <= |query|
      invariant |r| == |search| + i
      invariant r[..|search|] == search
      invariant forall j :: 0 <= j < i ==> r[|search| + j] == (query[j].0, Stringify(query[j].1))
    {
      r := r + [(query[i].0, Stringify(query[i].1))];
      i := i + 1;
    }
  }

  /** The headers: always JSON content type, and a bearer token iff a non-empty token is configured. */
  function Headers(env: Env): (h: map<string, string>)
    ensures "Content-Type" in h && h["Content-Type"] == "application/json"
    ensures "Authorization" in h <==> Truthy(env.apiToken)
    ensures "Authorization" in h ==> h["Authorization"] == "Bearer " + env.apiToken.value
    ensures h.Keys <= {"Content-Type", "Authorization"}
  {
    var json := map["Content-Type" := "application/json"];
    if Truthy(env.apiToken) then json["Authorization" := "Bearer " + env.apiToken.value] else json
  }

  /** Builds the request `fetchAPI` sends for the given options. */
  method PrepareRequest(env: Env, opts: RequestOptions) returns (r: PreparedRequest)
    ensures r.base == ApiUrl(env) && r.path == "/api" + opts.endpoint
    ensures opts.query.None? ==> r.search == []
    ensures opts.query.Some? ==> |r.search| == |opts.query.value|
    ensures opts.query.Some? ==> forall i :: 0 <= i < |r.search| ==>
      r.search[i] == (opts.query.value[i].0, Stringify(opts.query.value[i].1))
    ensures r.headers == Headers(env)
    ensures r.cache == opts.cache.GetOr("no-store")
    ensures r.tags == opts.tags
  {
    var search := [];
    if opts.query.Some? {
      search := AppendQuery(search, opts.query.value);
    }
    r := PreparedRequest(ApiUrl(env), "/api" + opts.endpoint, search, Headers(env),
                         opts.cache.GetOr("no-store"), opts.tags);
  }

  /** What the network gives back: a response with status and (if it parses) the JSON body's `data` field, or a thrown fetch. */
  datatype Response<T> = Response(status: int, body: Option<T>) | NetworkFailure

  predicate ResponseOk(status: int) {
    200 <= status <= 299
  }

  /** Why `fetchAPI` threw. */
  datatype FetchError = HttpError(status: int) | InvalidJson | Unreachable

  /** `fetchAPI`'s outcome: a non-OK status throws, an OK one returns the payload's `data`. */
  function FetchResult<T>(resp: Response<T>): (r: Result<T, FetchError>)
    ensures r.Ok? <==> resp.Response? && ResponseOk(resp.status) && resp.body.Some?
    ensures r.Ok? ==> r.value == resp.body.value
    ensures resp.Response? && !ResponseOk(resp.status) ==> r == Err(HttpError(resp.status))
  {
    match resp
    case NetworkFailure => Err(Unreachable)
    case Response(status, body) =>
      if !ResponseOk(status) then Err(HttpError(status))
      else if body.None? then Err(InvalidJson)
      else Ok(body.value)
  }
}
