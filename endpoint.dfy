/** `__buildEndpoint`: the URL of an API path, and a reader that takes the
    path back out of such a URL. */
module Endpoint {
  import opened Wrappers
  import opened Client

  predicate StartsWithSlash(path: string) {
    |path| > 0 && path[0] == '/'
  }

  /** The caller's path with exactly the leading `/` it needs: kept as it is
      when it has one (`path.charAt(0)` is `'/'`), otherwise prefixed with one. */
  function NormalizePath(path: string): (p: string)
    ensures StartsWithSlash(p)
    ensures StartsWithSlash(path) ==> p == path
    ensures !StartsWithSlash(path) ==> p[1..] == path
  {
    if StartsWithSlash(path) then path else "/" + path
  }

  /** Everything in front of the path: `base_url + '/api/' + api_version`. */
  function ApiPrefix(options: Options): string {
    options.baseUrl + "/api/" + options.apiVersion
  }

  /** The endpoint URL of `path`. It begins with the API prefix and a `/`, and
      ends with the caller's path verbatim (a trailing `/` included); the only
      character ever added is the one `/` a path without a leading one lacks. */
  function BuildEndpoint(options: Options, path: string): (url: string)
    ensures ApiPrefix(options) <= url
    ensures |url| > |ApiPrefix(options)| && url[|ApiPrefix(options)|] == '/'
    ensures |url| == |ApiPrefix(options)| + |path| + (if StartsWithSlash(path) then 0 else 1)
    ensures url[|url| - |path|..] == path
  {
    ApiPrefix(options) + NormalizePath(path)
  }

  /** The inverse of `BuildEndpoint`: the (slash-led) path of a URL under the
      client's API prefix. */
  function ReadEndpoint(options: Options, url: string): Option<string> {
    var prefix := ApiPrefix(options);
    if prefix <= url && |url| > |prefix| && url[|prefix|] == '/' then Some(url[|prefix|..]) else None
  }

  /** Reading an endpoint gives back the normalised path it was built from. */
  lemma ReadBuildEndpoint(options: Options, path: string)
    ensures ReadEndpoint(options, BuildEndpoint(options, path)) == Some(NormalizePath(path))
  {
  }

  /** Adding the leading `/` yourself makes no difference, and it is the only
      way two paths reach the same endpoint. */
  lemma NormalizePathEqual(p: string, q: string)
    ensures NormalizePath(p) == NormalizePath(q) <==>
              p == q || (!StartsWithSlash(p) && q == "/" + p) || (!StartsWithSlash(q) && p == "/" + q)
  {
  }

  /** Two paths have the same endpoint exactly when they normalise alike. */
  lemma EndpointInjective(options: Options, p: string, q: string)
    ensures BuildEndpoint(options, p) == BuildEndpoint(options, q) <==> NormalizePath(p) == NormalizePath(q)
  {
  }

  /** `buildEndpoint(p) == buildEndpoint('/' + p)` exactly when `p` has no
      leading `/` of its own. */
  lemma LeadingSlashOptional(options: Options, path: string)
    ensures BuildEndpoint(options, "/" + path) == BuildEndpoint(options, path) <==> !StartsWithSlash(path)
  {
  }

  /** With the default options every endpoint lies under
      `https://developer.lametric.com/api/v1/`, and a path without a leading
      `/` follows that prefix as it is. */
  lemma DefaultEndpoint(version: string, path: string)
    ensures var url := BuildEndpoint(New(version, NoOverrides).options, path);
            && "https://developer.lametric.com/api/v1/" <= url
            && (!StartsWithSlash(path) ==> url == "https://developer.lametric.com/api/v1/" + path)
  {
  }
}
