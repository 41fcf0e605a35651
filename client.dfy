/** Construction of a client (`new LaMetricCloud(options)`): the built-in
    defaults, the caller's options merged over them, and the access-token
    header added to the headers every request carries. */
module Client {
  import opened Wrappers
  import opened JsonValues

  /** `access_token`: `null` or a string. */
  datatype AccessToken = Null | Token(value: string)

  /** JavaScript truthiness of the token: `null` and `""` are falsy. */
  predicate Truthy(t: AccessToken) {
    t.Token? && t.value != ""
  }

  /** The client's `options` object. `headers` is `request_options.headers`;
      `extra` holds the keys the client does not interpret (such as `power`). */
  datatype Options = Options(
    baseUrl: string,
    accessToken: AccessToken,
    apiVersion: string,
    headers: map<string, string>,
    extra: map<string, Json>)

  /** The options a caller passes to the constructor. `None` marks a key the
      caller left out; an absent `request_options` is an empty `headers` map. */
  datatype Overrides = Overrides(
    baseUrl: Option<string>,
    accessToken: Option<AccessToken>,
    apiVersion: Option<string>,
    headers: map<string, string>,
    extra: map<string, Json>)

  const NoOverrides: Overrides := Overrides(None, None, None, map[], map[])

  /** The option keys the client interprets; `extra` cannot shadow them. */
  const KnownKeys: set<string> := {"base_url", "access_token", "api_version", "request_options"}

  const DefaultBaseUrl: string := "https://developer.lametric.com"
  const DefaultApiVersion: string := "v1"
  const AccessTokenHeader: string := "X-Access-Token"

  /** The default headers; `version` is the package version read at load time. */
  function DefaultHeaders(version: string): (h: map<string, string>)
    ensures h.Keys == {"Accept", "Connection", "Content-Type", "Cache-Control", "User-Agent"}
    ensures h["User-Agent"] == "lametric-cloud/" + version
    ensures h["Accept"] == "application/json" && h["Content-Type"] == "application/json"
  {
    map[
      "Accept" := "application/json",
      "Connection" := "close",
      "Content-Type" := "application/json",
      "Cache-Control" := "no-cache",
      "User-Agent" := "lametric-cloud/" + version]
  }

  function Defaults(version: string): Options {
    Options(DefaultBaseUrl, Null, DefaultApiVersion, DefaultHeaders(version), map[])
  }

  /** `extend(defaults, overrides)` on the two levels the client has: a key the
      caller gives replaces the default, and the header maps are merged key by
      key with the caller's value winning. */
  function Merge(d: Options, o: Overrides): (r: Options)
    ensures r.baseUrl == o.baseUrl.GetOr(d.baseUrl)
    ensures r.accessToken == o.accessToken.GetOr(d.accessToken)
    ensures r.apiVersion == o.apiVersion.GetOr(d.apiVersion)
    ensures r.headers.Keys == d.headers.Keys + o.headers.Keys
    ensures forall k :: k in o.headers ==> r.headers[k] == o.headers[k]
    ensures forall k :: k in d.headers && k !in o.headers ==> r.headers[k] == d.headers[k]
    ensures forall k :: k in o.extra && k !in KnownKeys ==> k in r.extra && r.extra[k] == o.extra[k]
    ensures forall k :: k in d.extra && k !in o.extra ==> k in r.extra && r.extra[k] == d.extra[k]
  {
    Options(
      o.baseUrl.GetOr(d.baseUrl),
      o.accessToken.GetOr(d.accessToken),
      o.apiVersion.GetOr(d.apiVersion),
      d.headers + o.headers,
      d.extra + (o.extra - KnownKeys))
  }

  /** A constructed client. `extend(this.options.request_options, authentication_options)`
      updates `options.request_options` in place before handing it to
      `request.defaults`, so `options.headers` are also the headers of every
      request the client sends. */
  datatype LaMetricCloud = LaMetricCloud(version: string, options: Options)

  /** The constructor. */
  function New(version: string, o: Overrides): (c: LaMetricCloud)
    ensures c.version == version
    // scalar options: the caller's value, else the default
    ensures c.options.baseUrl == o.baseUrl.GetOr(DefaultBaseUrl)
    ensures c.options.apiVersion == o.apiVersion.GetOr(DefaultApiVersion)
    ensures c.options.accessToken == o.accessToken.GetOr(Null)
    // the headers: defaults, the caller's and possibly the token header, nothing else
    ensures c.options.headers.Keys
         == DefaultHeaders(version).Keys + o.headers.Keys
          + (if Truthy(c.options.accessToken) then {AccessTokenHeader} else {})
    // a truthy token is sent, whatever header of that name the caller gave
    ensures Truthy(c.options.accessToken) ==>
              c.options.headers[AccessTokenHeader] == c.options.accessToken.value
    // every other caller header is sent as given
    ensures forall k :: k in o.headers && (k != AccessTokenHeader || !Truthy(c.options.accessToken)) ==>
              c.options.headers[k] == o.headers[k]
    // defaults the caller did not override survive
    ensures forall k :: k in DefaultHeaders(version) && k !in o.headers && k != AccessTokenHeader ==>
              c.options.headers[k] == DefaultHeaders(version)[k]
    // keys the client does not interpret are kept
    ensures forall k :: k in o.extra && k !in KnownKeys ==> k in c.options.extra && c.options.extra[k] == o.extra[k]
    ensures c.options.extra.Keys == o.extra.Keys - KnownKeys
  {
    var merged := Merge(Defaults(version), o);
    // `authentication_options` carries the token header only for a truthy token
    var headers := if Truthy(merged.accessToken)
                   then merged.headers[AccessTokenHeader := merged.accessToken.value]
                   else merged.headers;
    LaMetricCloud(version, merged.(headers := headers))
  }

  /** Without a truthy token, no `X-Access-Token` header is added: one is sent
      only if the caller put it among its own headers. */
  lemma NoTokenNoHeader(version: string, o: Overrides)
    requires !Truthy(o.accessToken.GetOr(Null))
    ensures AccessTokenHeader in New(version, o).options.headers <==> AccessTokenHeader in o.headers
  {
  }

  /** With no options at all the client has the documented defaults. */
  lemma DefaultClient(version: string)
    ensures New(version, NoOverrides).options == Defaults(version)
  {
  }

  /** The constructor example with `base_url`, `power` and a `User-Agent` override. */
  lemma OverridesExample(version: string)
    ensures var c := New(version, Overrides(Some("http://127.0.0.1:8080"), None, None,
                                            map["User-Agent" := "test"], map["power" := JString("Max")]));
            && c.options.baseUrl == "http://127.0.0.1:8080"
            && c.options.headers["User-Agent"] == "test"
            && c.options.headers["Accept"] == "application/json"
            && c.options.extra == map["power" := JString("Max")]
            && AccessTokenHeader !in c.options.headers
  {
  }

  /** The constructor example with a token and a new header `foo`. */
  lemma TokenExample(version: string)
    ensures var c := New(version, Overrides(Some("http://127.0.0.1:8080"), Some(Token("12345")), None,
                                            map["foo" := "bar"], map[]));
            && c.options.headers["foo"] == "bar"
            && c.options.headers["User-Agent"] == "lametric-cloud/" + version
            && c.options.headers[AccessTokenHeader] == "12345"
  {
  }
}
