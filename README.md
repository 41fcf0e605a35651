# lametric-cloud client, modelled in Dafny

`lametric-cloud` is a small client for the LaMetric cloud REST API. A client
is built once from options merged over built-in defaults, with an
`X-Access-Token` header when an access token is set. Each call (`get`,
`post`, `put`, `delete`, `updateWidget`) builds the endpoint URL, puts the
parameters in the query string or in a JSON body, and hands the request to
the HTTP transport. It then turns the transport's answer into one outcome
of the returned promise, except that a body of `null` leaves the promise
unsettled (see below). The checks run in a fixed order:

1. a transport error;
2. a body that is not JSON (an empty body counts as `{}`);
3. an `errors` field in the body;
4. a status outside 200..299.

If none of these applies, the promise resolves with the decoded body.

The model is pure: datatypes, functions and lemmas, one module per component.

- `Wrappers` (wrappers.dfy): `Option`. `None` stands for JavaScript's `undefined`.
- `Text` (text.dfy): `toLowerCase` on method names and the decimal form of status codes inside error messages. It also has `indexOf`, which the readers that invert the built strings use.
- `JsonValues` (json.dfy): the values `JSON.parse` produces, and the `data.errors` lookup.
- `Client` (client.dfy): the constructor. It holds the defaults, the two-level option merge and the token header.
- `Endpoint` (endpoint.dfy): `__buildEndpoint`, plus a reader that takes the path back out of a URL.
- `Responses` (response.dfy): the transport's reply, the outcome, the classification callback of `__request`, and the error messages with a reader for them.
- `Requests` (request.dfy): the request `__request` sends, the four verb methods, and `updateWidget` with a reader for its path.

The parts that do I/O or call foreign code are parameters of the model:

- the HTTP transport is a function from the request to its `Reply`;
- `JSON.parse` is a function `string -> Option<Json>`, where `None` means it threw;
- `JSON.stringify` is a function `Json -> string`;
- the package version in the `User-Agent` header is the `version` argument of the constructor.

Two places where the code does something a reader might not expect:

- **Options are updated in place.** `extend(this.options.request_options, authentication_options)` changes `options.request_options` itself. So after construction, `options.headers` holds `X-Access-Token` too, and these are the default headers `request.defaults` gives every request (`Client.New`). The token header also replaces a caller header of the same name.
- **A body of `null` never settles.** When the body decodes to `null`, reading `data.errors` throws inside the callback, outside the `try`. Neither `resolve` nor `reject` runs. The model gives this case its own outcome, `Unsettled`, instead of inventing a rejection.

## Model

| member | source | states |
|---|---|---|
| `Text.Lower` | lib/lametric-cloud.js:60 | lower-casing keeps the length, maps every character through the ASCII case map, and leaves no upper-case letter |
| `Text.LowerFixesLowercase` | lib/lametric-cloud.js:60 | a method name with no upper-case letter (`get`, `post`, ...) is sent unchanged |
| `Text.Decimal` | lib/lametric-cloud.js:84 | a status code is written as at least one decimal digit, only digits, with no leading zero |
| `Text.DecimalRoundTrip` | lib/lametric-cloud.js:84 | reading the written digits back gives the status code |
| `Text.DecimalInjective` | lib/lametric-cloud.js:95 | different status codes are written differently |
| `Client.DefaultHeaders` | lib/lametric-cloud.js:26-32 | the default headers are exactly Accept, Connection, Content-Type, Cache-Control and User-Agent; User-Agent is `lametric-cloud/` + version; both Accept and Content-Type are JSON |
| `Client.Merge` | lib/lametric-cloud.js:21-34 | a scalar option the caller gives replaces the default; the caller's headers win key by key and other default headers survive; unknown keys (`power`) are kept |
| `Client.New` | lib/lametric-cloud.js:13-49 | the client's options: caller or default base URL, API version and token. Headers: exactly the defaults, the caller's, and the token header when the token is truthy. A truthy token is sent even over a caller header of that name. Every other caller header is sent as given, and defaults that are not overridden survive. Unknown keys are kept. |
| `Client.NoTokenNoHeader` | lib/lametric-cloud.js:36-41 | without a truthy token, `X-Access-Token` is present only if the caller set it |
| `Client.DefaultClient` | lib/lametric-cloud.js:21-34 | a client built without options has exactly the default options |
| `Client.OverridesExample` | test/lametric-cloud.js:48-70 | `base_url` and `User-Agent` overrides take effect, `Accept` survives, `power` is kept, and no token header is added |
| `Client.TokenExample` | test/lametric-cloud.js:72-99 | a new header `foo`, the default User-Agent and `X-Access-Token: 12345` are all carried |
| `Endpoint.NormalizePath` | lib/lametric-cloud.js:53 | the result starts with `/`: it is the path as it is when the path starts with `/` (even `//a`), otherwise `/` followed by the path |
| `Endpoint.BuildEndpoint` | lib/lametric-cloud.js:52-54 | the URL starts with `base_url/api/api_version`, then a `/`, and ends with the caller's path verbatim (a trailing `/` included); at most one character is added |
| `Endpoint.ReadBuildEndpoint` | lib/lametric-cloud.js:53 | reading an endpoint URL under the client's prefix gives back the normalised path |
| `Endpoint.NormalizePathEqual` | lib/lametric-cloud.js:53 | two paths normalise alike exactly when they are equal or differ only by the leading `/` one of them lacks |
| `Endpoint.EndpointInjective` | lib/lametric-cloud.js:53 | two paths have the same endpoint exactly when they normalise alike |
| `Endpoint.LeadingSlashOptional` | test/lametric-cloud.js:122-135 | `buildEndpoint('/' + p) == buildEndpoint(p)` exactly when `p` has no leading `/` |
| `Endpoint.DefaultEndpoint` | test/lametric-cloud.js:137-140 | with default options every endpoint lies under `https://developer.lametric.com/api/v1/`, followed by a slash-less path as it is |
| `JsonValues.ErrorsField` | lib/lametric-cloud.js:89 | `data.errors` is defined only for an object with its own `errors` key, and is then that key's value; arrays, strings, numbers and booleans have none; the requires stands for the throw on `null`, which `Classify` turns into `Unsettled` |
| `Responses.Decode` | lib/lametric-cloud.js:80-85 | an empty body decodes to `{}` and never fails; any other body decodes to exactly what the decoder returns; a failure comes only from a non-empty body the decoder rejects; its use is stated by `Classify` and `EmptyBodyIsEmptyObject` |
| `Responses.Classify` | lib/lametric-cloud.js:73-100 | for each outcome, exactly the replies that produce it. A transport error rejects with that error. A non-empty body that does not decode rejects with a parse error carrying the status line. A body decoding to null never settles. An `errors` field rejects with its raw value. A status outside 200..299 rejects with an HTTP error. Otherwise the promise resolves with the decoded body. |
| `Responses.TransportErrorWins` | lib/lametric-cloud.js:75-77 | with a transport error the decoder is never consulted, and the outcome is that error |
| `Responses.EmptyBodyIsEmptyObject` | lib/lametric-cloud.js:80-82 | an empty body resolves with `{}` under a 2xx status and rejects with an HTTP error otherwise, whatever the decoder does |
| `Responses.ErrorsBeatStatus` | lib/lametric-cloud.js:89-91 | a body with an `errors` field rejects with that field's raw value, whatever the status code and message |
| `Responses.StatusDecidesLast` | lib/lametric-cloud.js:94-99 | once the body decodes to a non-null value without `errors`, the request rejects exactly when the status is outside 200..299, and otherwise resolves with that value |
| `Responses.ErrorMessage` | lib/lametric-cloud.js:83-96 | only the raw `errors` rejection is not an `Error`; the parse and HTTP errors have messages made of their prefix followed by the status code |
| `Responses.StatusTextRoundTrip` | lib/lametric-cloud.js:84 | the status code and status message can be read back out of the error message |
| `Responses.StatusErrorMessagesDistinct` | lib/lametric-cloud.js:84-95 | two parse or HTTP errors have the same message exactly when they are the same rejection (same kind, code and message) |
| `Responses.RejectionsAreErrors` | lib/lametric-cloud.js:75-96 | a rejection is an `Error` object exactly when the body had no `errors` field |
| `Responses.ResponseExamples` | test/lametric-cloud.js:150-204 | the test suite's replies: 201 with an object resolves with it; 203 with `errors` rejects with `["nope"]`; 200 with `fail whale` and 500 with `{}` reject with errors; 201 with an empty body resolves with `{}`; a network error rejects with it |
| `Requests.BuildRequest` | lib/lametric-cloud.js:59-69 | the request carries the lower-cased method and the endpoint of the path; parameters go to the query string exactly when the method is the string `get`, and otherwise as their JSON text, with no body when there are none |
| `Requests.UpperCaseGetSendsBody` | lib/lametric-cloud.js:60-69 | `GET` is sent as method `get` to the same URL, yet with a JSON body instead of a query string |
| `Requests.Request` | lib/lametric-cloud.js:56-102 | the outcome is the classification (`Classify`, with its order of checks) of the transport's reply to the built request; in particular a transport failure rejects with that failure and a resolved request had a 2xx reply |
| `Requests.VerbRequest` | lib/lametric-cloud.js:107-130 | for `get`, `post`, `put` and `delete` the sent method is the verb itself; only `get` uses the query string |
| `Requests.Get` | lib/lametric-cloud.js:107-109 | `get` sends method `get` to the endpoint with the parameters as query, and its outcome is the classification of the reply |
| `Requests.Post` | lib/lametric-cloud.js:114-116 | `post` sends method `post` to the endpoint with the JSON text of the parameters as body |
| `Requests.Put` | lib/lametric-cloud.js:121-123 | `put` sends method `put` to the endpoint with the JSON text of the parameters as body |
| `Requests.Delete` | lib/lametric-cloud.js:128-130 | `delete` sends method `delete` to the endpoint with the JSON text of the parameters as body |
| `Requests.WidgetPath` | lib/lametric-cloud.js:140 | the path is `dev/widget/update/` + the widget id, followed by `/` + the version exactly when the version is truthy, and by nothing otherwise; the inverse is `WidgetPathRoundTrip`, the test cases `WidgetPathExamples` |
| `Requests.WidgetPathExamples` | lib/lametric-cloud.js:140 | the paths for widget `abc` with no version, version `2`, and the falsy version `""` |
| `Requests.FramesBody` | lib/lametric-cloud.js:140 | the body `{ frames }` has the single key `frames` holding the frames |
| `Requests.UpdateWidget` | lib/lametric-cloud.js:139-141 | `updateWidget` POSTs the JSON text of `{ frames }` to the endpoint of `dev/widget/update/{id}`, with `/{version}` only for a truthy version |
| `Requests.WidgetPathRoundTrip` | lib/lametric-cloud.js:140 | for an id without `/`, the widget path gives back the id, and the version exactly when it is truthy |
| `Requests.UpdateWidgetTarget` | lib/lametric-cloud.js:139-141 | the URL `updateWidget` posts to is the endpoint of the widget path; reading it back yields the widget id and the truthy version |

## Left out

- The HTTP transport (`request`, `request.defaults`) and the promise and callback plumbing are not modelled. The transport is a function parameter from the request to its reply.
- `JSON.parse` and `JSON.stringify` are function parameters, not reimplemented. JSON numbers are kept as reals and never computed with.
- The modelled request (`Requests.RequestOptions`) carries no headers. The transport is configured once with `options.headers` as its defaults, and the headers the HTTP library adds itself (`Host`, `Content-Length`) are not modelled.
- Only the two levels of `deep-extend` the client uses are modelled: the top-level options and the `headers` map. Other keys inside `request_options` are not modelled. A caller key whose value is `undefined` counts as absent here, although `deep-extend` would copy it. Header values are strings.
- The package version read from `package.json` is the constructor's `version` argument. Calling the constructor without `new` needs no counterpart.
- `Endpoint.BuildEndpoint`: the path is a string argument, so a call with no path (which throws) or with a non-string path cannot be expressed.
- `Text.Lower`: maps only `A`..`Z`. JavaScript's `toLowerCase` also lower-cases non-ASCII letters.
- `Text.Decimal`: status codes are natural numbers written in plain decimal. JavaScript's exponent notation from 10^21 up is not modelled; HTTP status codes are three digits.
- `Requests.WidgetPath`: the widget version is an optional string. Falsy non-string versions such as `0` are not modelled.
- `Responses.Classify`: a `null` body ends in `Unsettled`. What the uncaught exception then does inside the transport is not modelled.
- The test harness (nock interception, mocha) is not modelled. The test file is used only as the source of the examples.
