/** The request envelopes the commercetools client of the notification module builds
    (`buildRequestOptions` and the custom methods that call it), without executing them.

    A request envelope carries the URI, the HTTP method, an optional body and the headers.
    The method defaults to GET, the body is passed through untouched, and the headers are
    the JSON defaults overlaid by whatever headers the caller supplies: a caller's key wins.
 */
module CtpRequests {
  import opened Wrappers

  type Headers = map<string, string>

  const JsonMediaType: string := "application/json"
  const DefaultMethod: string := "GET"

  /** The headers every envelope starts from. */
  const DefaultHeaders: Headers := map["Accept" := JsonMediaType, "Content-Type" := JsonMediaType]

  /** A JSON value, as carried in a request body. */
  datatype Json =
    | JNull
    | JBool(b: bool)
    | JNumber(n: int)
    | JString(s: string)
    | JArray(items: seq<Json>)
    | JObject(fields: map<string, Json>)

  /** The `{version, actions}` record an update envelope carries as its body. */
  function UpdateBody(version: int, actions: seq<Json>): Json {
    JObject(map["version" := JNumber(version), "actions" := JArray(actions)])
  }

  /** The named arguments of `buildRequestOptions`; `None` is an argument left undefined. */
  datatype RequestParams = RequestParams(
    uri: string,
    httpMethod: Option<string>,
    body: Option<Json>,
    headers: Option<Headers>)

  /** The envelope handed to the client's `execute`. */
  datatype RequestOptions = RequestOptions(
    uri: string,
    httpMethod: string,
    body: Option<Json>,
    headers: Headers)

  /** `buildRequestOptions({uri, method = 'GET', body = undefined, headers = {}})`. */
  function BuildRequestOptions(p: RequestParams): (o: RequestOptions)
    ensures o.uri == p.uri
    ensures o.body == p.body
    ensures p.httpMethod.None? ==> o.httpMethod == DefaultMethod
    ensures p.httpMethod.Some? ==> o.httpMethod == p.httpMethod.value
    ensures o.headers.Keys == DefaultHeaders.Keys + p.headers.GetOr(map[]).Keys
    ensures forall k :: k in p.headers.GetOr(map[]) ==> o.headers[k] == p.headers.GetOr(map[])[k]
    ensures forall k :: k in DefaultHeaders && k !in p.headers.GetOr(map[]) ==>
      o.headers[k] == JsonMediaType
  {
    RequestOptions(
      p.uri,
      p.httpMethod.GetOr(DefaultMethod),
      p.body,
      DefaultHeaders + p.headers.GetOr(map[]))
  }

  /** Without caller headers, an envelope asks for and declares JSON. */
  lemma DefaultEnvelope(uri: string, body: Option<Json>)
    ensures BuildRequestOptions(RequestParams(uri, None, body, None))
         == RequestOptions(uri, DefaultMethod, body, DefaultHeaders)
  {
  }

  /** Feeding an envelope back through `buildRequestOptions` changes nothing: the defaults
      are already present, so overlaying them again is idempotent. */
  lemma RebuildIsIdentity(p: RequestParams)
    ensures var o := BuildRequestOptions(p);
      BuildRequestOptions(RequestParams(o.uri, Some(o.httpMethod), o.body, Some(o.headers))) == o
  {
  }

  /** Header keys are compared exactly: a caller's lower-case `accept` does not replace the
      default `Accept`, and both keys stay in the envelope's headers. */
  lemma HeaderKeysAreCaseSensitive(uri: string, value: string)
    ensures var o := BuildRequestOptions(RequestParams(uri, None, None, Some(map["accept" := value])));
      o.headers == map["Accept" := JsonMediaType, "Content-Type" := JsonMediaType, "accept" := value]
  {
  }

  /** The headers the client's custom methods pass: the bearer token obtained at set-up. */
  function BearerHeaders(accessToken: string): Headers {
    map["Authorization" := "Bearer " + accessToken]
  }

  /** The headers an envelope of a custom method carries: JSON in both directions and the
      bearer token, nothing else. */
  predicate CarriesClientHeaders(h: Headers, accessToken: string) {
    && h.Keys == {"Accept", "Content-Type", "Authorization"}
    && h["Accept"] == JsonMediaType
    && h["Content-Type"] == JsonMediaType
    && h["Authorization"] == "Bearer " + accessToken
  }

  /** `delete(uri, id, version)`: a bodiless DELETE of the already-built resource URI. */
  function DeleteRequest(uri: string, accessToken: string): (o: RequestOptions)
    ensures o.uri == uri && o.httpMethod == "DELETE" && o.body == None
    ensures CarriesClientHeaders(o.headers, accessToken)
  {
    BuildRequestOptions(RequestParams(uri, Some("DELETE"), None, Some(BearerHeaders(accessToken))))
  }

  /** `create(uri, body)`: a POST carrying the draft unchanged. */
  function CreateRequest(uri: string, draft: Json, accessToken: string): (o: RequestOptions)
    ensures o.uri == uri && o.httpMethod == "POST"
    ensures o.body == Some(draft)
    ensures CarriesClientHeaders(o.headers, accessToken)
  {
    BuildRequestOptions(RequestParams(uri, Some("POST"), Some(draft), Some(BearerHeaders(accessToken))))
  }

  /** `update(uri, id, version, actions)`: a POST whose body records the expected version and
      the update actions in their given order. */
  function UpdateRequest(uri: string, version: int, actions: seq<Json>, accessToken: string)
    : (o: RequestOptions)
    ensures o.uri == uri && o.httpMethod == "POST"
    ensures o.body.Some? && o.body.value.JObject?
    ensures o.body.value.fields.Keys == {"version", "actions"}
    ensures o.body.value.fields["version"] == JNumber(version)
    ensures o.body.value.fields["actions"] == JArray(actions)
    ensures CarriesClientHeaders(o.headers, accessToken)
  {
    var body := UpdateBody(version, actions);
    BuildRequestOptions(RequestParams(uri, Some("POST"), Some(body), Some(BearerHeaders(accessToken))))
  }

  /** `fetch(uri)`, `fetchById(uri, id)`, `fetchByKey(uri, key)`: a bodiless request that
      leaves the method to its GET default. */
  function FetchRequest(uri: string, accessToken: string): (o: RequestOptions)
    ensures o.uri == uri && o.httpMethod == "GET" && o.body == None
    ensures CarriesClientHeaders(o.headers, accessToken)
  {
    BuildRequestOptions(RequestParams(uri, None, None, Some(BearerHeaders(accessToken))))
  }

  /** An update is a create whose draft is the `{version, actions}` record: both build the
      same envelope. */
  lemma UpdateIsCreateOfVersionedActions(uri: string, version: int, actions: seq<Json>, accessToken: string)
    ensures UpdateRequest(uri, version, actions, accessToken)
         == CreateRequest(uri, JObject(map["version" := JNumber(version), "actions" := JArray(actions)]), accessToken)
  {
  }
}
