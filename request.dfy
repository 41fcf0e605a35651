/** `__request`, the four verb methods and `updateWidget`: the request each
    hands the transport, and the outcome of the transport's reply. */
module Requests {
  import opened Wrappers
  import opened Text
  import opened JsonValues
  import opened Client
  import opened Endpoint
  import opened Responses

  /** Where the parameters go: the query string, or the body as JSON text
      (`None` when the parameters are absent: `JSON.stringify(undefined)` is
      `undefined`, and no body is sent). */
  datatype Payload = Query(qs: Option<Json>) | Body(body: Option<string>)

  /** The options object `__request` passes to the transport. */
  datatype RequestOptions = RequestOptions(verb: string, url: string, payload: Payload)

  /** The request `__request(method, path, params)` sends; `stringify` is `JSON.stringify`. */
  function BuildRequest(options: Options, methodName: string, path: string, params: Option<Json>,
                        stringify: Json -> string): (r: RequestOptions)
    ensures r.verb == Lower(methodName)
    ensures r.url == BuildEndpoint(options, path)
    // the query string only for the exact string 'get'
    ensures r.payload.Query? <==> methodName == "get"
    ensures r.payload.Query? ==> r.payload.qs == params
    ensures r.payload.Body? ==> r.payload.body.Some? == params.Some?
    ensures r.payload.Body? && params.Some? ==> r.payload.body.value == stringify(params.value)
  {
    RequestOptions(
      Lower(methodName),
      BuildEndpoint(options, path),
      if methodName == "get" then Query(params)
      else Body(if params.Some? then Some(stringify(params.value)) else None))
  }

  /** `'GET'` is sent as method `get`, yet its parameters travel in a JSON
      body: only the payload differs from a call with `'get'`. */
  lemma UpperCaseGetSendsBody(options: Options, path: string, params: Option<Json>, stringify: Json -> string)
    ensures var upper := BuildRequest(options, "GET", path, params, stringify);
            var lower := BuildRequest(options, "get", path, params, stringify);
            && upper.verb == lower.verb == "get"
            && upper.url == lower.url
            && upper.payload.Body? && lower.payload.Query?
  {
  }

  /** `__request`: the transport answers the request, the callback classifies the answer. */
  function Request(options: Options, methodName: string, path: string, params: Option<Json>,
                   stringify: Json -> string, transport: RequestOptions -> Reply,
                   parse: string -> Option<Json>): (o: Outcome)
    ensures o == Classify(transport(BuildRequest(options, methodName, path, params, stringify)), parse)
    ensures var reply := transport(BuildRequest(options, methodName, path, params, stringify));
            && (reply.Failed? ==> o == Reject(Transport(reply.error)))
            && (o.Resolve? ==> reply.Received? && Success(reply.statusCode))
  {
    Classify(transport(BuildRequest(options, methodName, path, params, stringify)), parse)
  }

  /** A verb method's request: the method name as given (already lower case),
      the endpoint of `path`, and the payload that method gets. */
  lemma VerbRequest(options: Options, verb: string, path: string, params: Option<Json>,
                                       stringify: Json -> string)
    requires verb in {"get", "post", "put", "delete"}
    ensures BuildRequest(options, verb, path, params, stringify)
         == RequestOptions(verb, BuildEndpoint(options, path),
                           if verb == "get" then Query(params)
                           else Body(if params.Some? then Some(stringify(params.value)) else None))
  {
    assert !HasUpper(verb) by {
      assert forall i :: 0 <= i < |verb| ==> 'a' <= verb[i] <= 'z';
    }
    LowerFixesLowercase(verb);
  }

  /** `get(url, params)`: parameters in the query string. */
  function Get(options: Options, path: string, params: Option<Json>, stringify: Json -> string,
               transport: RequestOptions -> Reply, parse: string -> Option<Json>): (o: Outcome)
    ensures o == Classify(transport(RequestOptions("get", BuildEndpoint(options, path), Query(params))), parse)
  {
    VerbRequest(options, "get", path, params, stringify);
    Request(options, "get", path, params, stringify, transport, parse)
  }

  /** `post(url, params)`: parameters as a JSON body. */
  function Post(options: Options, path: string, params: Option<Json>, stringify: Json -> string,
                transport: RequestOptions -> Reply, parse: string -> Option<Json>): (o: Outcome)
    ensures o == Classify(transport(RequestOptions("post", BuildEndpoint(options, path),
                                                   Body(if params.Some? then Some(stringify(params.value)) else None))), parse)
  {
    VerbRequest(options, "post", path, params, stringify);
    Request(options, "post", path, params, stringify, transport, parse)
  }

  /** `put(url, params)`: parameters as a JSON body. */
  function Put(options: Options, path: string, params: Option<Json>, stringify: Json -> string,
               transport: RequestOptions -> Reply, parse: string -> Option<Json>): (o: Outcome)
    ensures o == Classify(transport(RequestOptions("put", BuildEndpoint(options, path),
                                                   Body(if params.Some? then Some(stringify(params.value)) else None))), parse)
  {
    VerbRequest(options, "put", path, params, stringify);
    Request(options, "put", path, params, stringify, transport, parse)
  }

  /** `delete(url, params)`: parameters as a JSON body. */
  function Delete(options: Options, path: string, params: Option<Json>, stringify: Json -> string,
                  transport: RequestOptions -> Reply, parse: string -> Option<Json>): (o: Outcome)
    ensures o == Classify(transport(RequestOptions("delete", BuildEndpoint(options, path),
                                                   Body(if params.Some? then Some(stringify(params.value)) else None))), parse)
  {
    VerbRequest(options, "delete", path, params, stringify);
    Request(options, "delete", path, params, stringify, transport, parse)
  }

  // ---- updateWidget ----------------------------------------------------------

  const WidgetUpdatePath: string := "dev/widget/update/"

  /** JavaScript truthiness of the optional widget version. */
  predicate VersionGiven(widgetVersion: Option<string>) {
    widgetVersion.Some? && widgetVersion.value != ""
  }

  /** `dev/widget/update/{widgetId}`, followed by `/{widgetVersion}` when the version is truthy. */
  function WidgetPath(widgetId: string, widgetVersion: Option<string>): (path: string)
    ensures !StartsWithSlash(path)
    ensures WidgetUpdatePath + widgetId <= path
    ensures !VersionGiven(widgetVersion) ==> |path| == |WidgetUpdatePath| + |widgetId|
    ensures VersionGiven(widgetVersion) ==>
              |path| == |WidgetUpdatePath| + |widgetId| + 1 + |widgetVersion.value|
              && path[|WidgetUpdatePath| + |widgetId|] == '/'
              && path[|WidgetUpdatePath| + |widgetId| + 1..] == widgetVersion.value
  {
    WidgetUpdatePath + widgetId + (if VersionGiven(widgetVersion) then "/" + widgetVersion.value else "")
  }

  /** The paths of `updateWidget('abc', frames)`, `updateWidget('abc', frames, '2')`
      and `updateWidget('abc', frames, '')`. */
  lemma WidgetPathExamples()
    ensures WidgetPath("abc", None) == "dev/widget/update/abc"
    ensures WidgetPath("abc", Some("2")) == "dev/widget/update/abc/2"
    ensures WidgetPath("abc", Some("")) == "dev/widget/update/abc"
  {
  }

  /** The body `{ frames }`. */
  function FramesBody(frames: seq<Json>): (body: Json)
    ensures body.JObject? && body.fields.Keys == {"frames"} && body.fields["frames"] == JArray(frames)
  {
    JObject(map["frames" := JArray(frames)])
  }

  /** `updateWidget(widgetId, frames, widgetVersion)`: a POST of `{ frames }`
      to the endpoint of the widget path. */
  function UpdateWidget(options: Options, widgetId: string, frames: seq<Json>, widgetVersion: Option<string>,
                        stringify: Json -> string, transport: RequestOptions -> Reply,
                        parse: string -> Option<Json>): (o: Outcome)
    ensures o == Classify(transport(RequestOptions("post", ApiPrefix(options) + "/" + WidgetPath(widgetId, widgetVersion),
                                                   Body(Some(stringify(FramesBody(frames)))))), parse)
  {
    var path := WidgetPath(widgetId, widgetVersion);
    assert BuildEndpoint(options, path) == ApiPrefix(options) + "/" + path by {
      assert NormalizePath(path) == "/" + path;
    }
    Post(options, path, Some(FramesBody(frames)), stringify, transport, parse)
  }

  /** Splits a widget path back into the widget id and the version, if any. */
  function ReadWidgetPath(path: string): Option<(string, Option<string>)> {
    if WidgetUpdatePath <= path then
      var rest := path[|WidgetUpdatePath|..];
      var k := Find(rest, '/');
      if k == |rest| then Some((rest, None)) else Some((rest[..k], Some(rest[k + 1..])))
    else None
  }

  /** The widget path names the widget and, only when it is truthy, the
      version: an empty version leaves no trace. */
  lemma {:induction false} WidgetPathRoundTrip(widgetId: string, widgetVersion: Option<string>)
    requires '/' !in widgetId
    ensures ReadWidgetPath(WidgetPath(widgetId, widgetVersion))
         == Some((widgetId, if VersionGiven(widgetVersion) then widgetVersion else None))
  {
    var path := WidgetPath(widgetId, widgetVersion);
    var rest := path[|WidgetUpdatePath|..];
    if VersionGiven(widgetVersion) {
      assert rest == widgetId + ['/'] + widgetVersion.value;
      FindAfter(widgetId, '/', widgetVersion.value);
      assert rest[..|widgetId|] == widgetId;
      assert rest[|widgetId| + 1..] == widgetVersion.value;
    } else {
      assert rest == widgetId;
      FindAbsent(widgetId, '/');
    }
  }

  /** The URL `updateWidget` posts to lies under the client's API prefix, and
      its path gives back the widget id and the truthy version. */
  lemma UpdateWidgetTarget(options: Options, widgetId: string, widgetVersion: Option<string>)
    requires '/' !in widgetId
    ensures var url := ApiPrefix(options) + "/" + WidgetPath(widgetId, widgetVersion);
            && url == BuildEndpoint(options, WidgetPath(widgetId, widgetVersion))
            && ReadEndpoint(options, url) == Some("/" + WidgetPath(widgetId, widgetVersion))
            && ReadWidgetPath(ReadEndpoint(options, url).value[1..])
               == Some((widgetId, if VersionGiven(widgetVersion) then widgetVersion else None))
  {
    var path := WidgetPath(widgetId, widgetVersion);
    var url := ApiPrefix(options) + "/" + path;
    assert url == BuildEndpoint(options, path) by {
      assert NormalizePath(path) == "/" + path;
    }
    assert ReadEndpoint(options, url) == Some("/" + path) by {
      ReadBuildEndpoint(options, path);
    }
    assert ("/" + path)[1..] == path;
    WidgetPathRoundTrip(widgetId, widgetVersion);
  }
}
