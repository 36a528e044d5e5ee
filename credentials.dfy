/** The host credential and the request a resolver falls back to:
    `get_access_token`, the `Authorization` header built from its result, and
    the download URL built from a reference. Both backends share this logic. */
module Credentials {
  import opened Text
  import opened PyJson

  /** Prefix of a JSON Web Token (base64 of `{"`). */
  const JwtPrefix: string := "eyJ"

  /** `get_access_token()`. `apiKey` is the configured host API key;
      `refreshed` is the `access` field of a 200 reply from the refresh
      endpoint, `None` when that request fails or is refused. The field's type
      is never checked, so a truthy value of any JSON type is returned as the
      token. A JWT key is exchanged when the field is truthy; every other
      non-empty key is used as it is; no key gives no token. */
  function AccessToken(apiKey: string, refreshed: Option<Json>): (t: Option<Json>)
    ensures t.None? <==> apiKey == ""
    ensures t.Some? ==> Truthy(t.value)
    ensures t.Some? && t.value != JStr(apiKey) ==> StartsWith(apiKey, JwtPrefix) && refreshed == t
    ensures !StartsWith(apiKey, JwtPrefix) && apiKey != "" ==> t == Some(JStr(apiKey))
    ensures StartsWith(apiKey, JwtPrefix) && refreshed.Some? && Truthy(refreshed.value) ==> t == refreshed
  {
    if apiKey == "" then None
    else if StartsWith(apiKey, JwtPrefix) && refreshed.Some? && Truthy(refreshed.value) then refreshed
    else Some(JStr(apiKey))
  }

  /** What `download_audio` makes of the token: no header, an
      `Authorization` header, or the `AttributeError` that `token.startswith`
      raises when the token is not a string. */
  datatype Auth = Anonymous | Authorization(header: string) | NotAString

  /** The `Authorization` header value: `Bearer` (section 2.1 of RFC 6750)
      for a JWT, `Token` for a legacy key, none without a token. */
  function AuthHeader(token: Option<Json>): (h: Auth)
    ensures h.Anonymous? <==> token.None? || !Truthy(token.value)
    ensures h.NotAString? <==> token.Some? && Truthy(token.value) && !token.value.JStr?
    ensures h.Authorization? && StartsWith(token.value.s, JwtPrefix) ==> h.header == "Bearer " + token.value.s
    ensures h.Authorization? && !StartsWith(token.value.s, JwtPrefix) ==> h.header == "Token " + token.value.s
  {
    if token.None? || !Truthy(token.value) then Anonymous
    else if !token.value.JStr? then NotAString
    else if StartsWith(token.value.s, JwtPrefix) then Authorization("Bearer " + token.value.s)
    else Authorization("Token " + token.value.s)
  }

  /** The scheme is chosen by the token actually sent, which after a refresh
      need not be the configured key: a refresh that returns a non-JWT access
      token is sent with the `Token` scheme. */
  lemma RefreshedSchemeFollowsToken(apiKey: string, access: string)
    requires StartsWith(apiKey, JwtPrefix) && access != "" && !StartsWith(access, JwtPrefix)
    ensures AuthHeader(AccessToken(apiKey, Some(JStr(access)))) == Authorization("Token " + access)
  {
  }

  /** One outgoing GET: the URL and the `Authorization` header, if any. */
  datatype Request = Request(url: string, authorization: Option<string>)

  /** Download URL for a reference: absolute http(s) URLs are used as they
      are, a rooted path is appended to the host base URL, anything else is
      taken relative to the host's `/data/` route. */
  function DownloadUrl(baseUrl: string, url: string): (r: string)
    ensures StartsWith(url, "http://") || StartsWith(url, "https://") ==> r == url
    ensures StartsWith(url, "/") ==> r == baseUrl + url
    ensures !StartsWith(url, "http://") && !StartsWith(url, "https://") && !StartsWith(url, "/") ==>
              r == baseUrl + "/data/" + url
  {
    PrefixesExclusive(url, "/", "http://");
    PrefixesExclusive(url, "/", "https://");
    if StartsWith(url, "http://") || StartsWith(url, "https://") then url
    else if StartsWith(url, "/") then baseUrl + url
    else baseUrl + "/data/" + url
  }

  /** The refresh answered with a truthy `access` field that is not a
      string, so `token.startswith` raises while the header is built. */
  predicate TokenNotString(apiKey: string, refreshed: Option<Json>) {
    StartsWith(apiKey, JwtPrefix) && refreshed.Some? && Truthy(refreshed.value) && !refreshed.value.JStr?
  }

  /** The request `download_audio` sends for `url`, or `None` when building
      its header raises because the refreshed token is not a string. */
  function DownloadRequest(baseUrl: string, apiKey: string, refreshed: Option<Json>, url: string): (q: Option<Request>)
    ensures q.None? <==> TokenNotString(apiKey, refreshed)
    ensures q.Some? ==> q.value.url == DownloadUrl(baseUrl, url)
    ensures q.Some? ==> (apiKey == "" <==> q.value.authorization.None?)
    ensures apiKey != "" && !StartsWith(apiKey, JwtPrefix) ==> q == Some(Request(DownloadUrl(baseUrl, url), Some("Token " + apiKey)))
  {
    match AuthHeader(AccessToken(apiKey, refreshed))
    case Anonymous => Some(Request(DownloadUrl(baseUrl, url), None))
    case Authorization(h) => Some(Request(DownloadUrl(baseUrl, url), Some(h)))
    case NotAString => None
  }
}
