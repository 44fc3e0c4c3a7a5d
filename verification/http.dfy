/** Values shared by the auth modules: optional values, requests as values,
    header sets, HTTP errors and the outcome of an HTTP call. */
module Http {

  datatype Option<+T> = None | Some(value: T)

  /** JavaScript truthiness of a `string | null`: present and not the empty string. */
  predicate Truthy(s: Option<string>) {
    s.Some? && s.value != ""
  }

  datatype Verb = Get | Post

  /** A header set: the Authorization entry built from a token, if any, and every
      other entry the caller put on the request. */
  datatype Headers = Headers(authToken: Option<string>, other: map<string, string>)

  /** `new HttpHeaders()`: no entry at all. */
  const NoHeaders := Headers(None, map[])

  /** `BuildAuthHttpHeaders(token)`: a fresh header set holding only the
      Authorization entry for `token`. The scheme prefix is not modelled; the
      function is injective because the token is kept as it is. */
  function BuildAuthHeaders(token: string): Headers {
    Headers(Some(token), map[])
  }

  /** An outgoing request; `bypass` is the BYPASS_AUTH_INTERCEPTOR context flag. */
  datatype Request = Request(verb: Verb, url: string, headers: Headers, bypass: bool)

  /** An error response: its status and an opaque payload. */
  datatype HttpError = HttpError(status: int, detail: string)

  /** The outcome of one HTTP call: the response body, or the error the call fails with. */
  datatype Fetch<T> = Fetched(body: T) | Failed(error: HttpError)

  /** The body of a refresh response: `Omit<ISignInRes, 'refresh'>`, whose access token may be missing. */
  datatype RefreshBody = RefreshBody(accessToken: Option<string>)

  predicate StartsWith(s: string, prefix: string) {
    |prefix| <= |s| && s[..|prefix|] == prefix
  }

  /** `String.prototype.replace` with a string pattern: only the first occurrence is replaced. */
  function ReplaceFirst(s: string, pat: string, rep: string): string
    decreases |s|
  {
    if |s| < |pat| then s
    else if s[..|pat|] == pat then rep + s[|pat|..]
    else [s[0]] + ReplaceFirst(s[1..], pat, rep)
  }
}
