/**
 * The request layer: `apiRequest` for mutations, the query function the query
 * cache calls for reads, the response classification both share, and the
 * cache's default options.
 *
 * `fetch`'s answer, the identity provider's token and the configured base URL
 * (`VITE_API_URL`, empty when unset) are parameters.
 */
module QueryClient {
  import opened Wrappers
  import opened Text
  import opened Types

  /** A response as the client sees it. */
  datatype Response = Response(status: nat, statusText: string, body: string)

  /** What `fetch` delivers: a response, or a rejection before any response arrived. */
  datatype FetchOutcome = Responded(response: Response) | NetworkFailure

  /** What `getIdToken` delivers for the signed-in user. */
  datatype TokenOutcome = Minted(token: string) | MintRejected

  /** The payloads the client sends; the request body is `JSON.stringify` of one. */
  datatype Payload = CreatePostBody(post: CreatePostData) | UpdateProfileBody(profile: UpdateProfileData)

  /** A request as handed to `fetch`; a present `body` stands for the JSON text of that payload. */
  datatype Request = Request(
    httpMethod: string,
    url: string,
    headers: map<string, string>,
    body: Option<Payload>,
    credentials: string)

  /** Why a request or a query rejects. */
  datatype ApiError =
    | HttpError(message: string)  // the `Error` thrown for a non-ok status
    | TransportError              // `fetch` itself rejected
    | TokenError                  // `getIdToken` rejected

  const DefaultBaseUrl: string := "http://localhost:5000"
  const ContentTypeHeader: string := "Content-Type"
  const AuthorizationHeader: string := "Authorization"
  const JsonMediaType: string := "application/json"
  const IncludeCredentials: string := "include"

  /** The "ok status" of the Fetch Standard (section 2.2.3): a status in the range 200 to 299. */
  predicate IsOk(status: nat) {
    200 <= status <= 299
  }

  /** `(await res.text()) || res.statusText` */
  function ResponseText(res: Response): (t: string)
    ensures res.body != "" ==> t == res.body
    ensures t == "" <==> res.body == "" && res.statusText == ""
  {
    if res.body != "" then res.body else res.statusText
  }

  /** The message of the error for a failed response: `${status}: ${text}`. Its status and text can be read back. */
  function ErrorMessage(status: nat, text: string): (m: string)
    ensures StartsWith(m, NatToString(status) + ": ")
    ensures ParseErrorMessage(m) == Some((status, text))
  {
    var d := NatToString(status);
    var m := d + ": " + text;
    assert m == d + (": " + text);
    LeadingDigitsAppend(d, ": " + text);
    assert m[..|d|] == d;
    DigitsValueOfNatToString(status);
    m
  }

  /** Splits `<digits>: <text>` into its status and its text. */
  function ParseErrorMessage(m: string): Option<(nat, string)> {
    var k := LeadingDigits(m);
    if 0 < k && k + 2 <= |m| && m[k..k + 2] == ": " then Some((DigitsValue(m[..k]), m[k + 2..])) else None
  }

  /** `throwIfResNotOk`: nothing for an ok status, else the error it throws. */
  function ThrowIfResNotOk(res: Response): (e: Option<ApiError>)
    ensures e.None? <==> IsOk(res.status)
    ensures e.Some? ==> e.value.HttpError? && StartsWith(e.value.message, NatToString(res.status) + ": ")
    ensures e.Some? ==> ParseErrorMessage(e.value.message) == Some((res.status, ResponseText(res)))
  {
    if IsOk(res.status) then None else Some(HttpError(ErrorMessage(res.status, ResponseText(res))))
  }

  /** What a mutation's `apiRequest` settles to once `fetch` has answered. */
  function Classify(reply: FetchOutcome): (r: Result<Response, ApiError>)
    ensures reply.NetworkFailure? ==> r == Failure(TransportError)
    ensures reply.Responded? ==> (r.Success? <==> IsOk(reply.response.status))
    ensures r.Success? ==> reply.Responded? && r.value == reply.response && IsOk(r.value.status)
    ensures reply.Responded? && r.Failure? ==> Some(r.error) == ThrowIfResNotOk(reply.response)
  {
    match reply
    case NetworkFailure => Failure(TransportError)
    case Responded(res) =>
      match ThrowIfResNotOk(res)
      case Some(e) => Failure(e)
      case None => Success(res)
  }

  /** `VITE_API_URL || 'http://localhost:5000'` */
  function BaseUrl(configured: string): (b: string)
    ensures b != ""
    ensures configured != "" ==> b == configured
    ensures configured == "" ==> b == DefaultBaseUrl
  {
    if configured != "" then configured else DefaultBaseUrl
  }

  /** An endpoint starting with `http` is used as it is; any other is appended to the base URL. */
  function ResolveUrl(configured: string, endpoint: string): (url: string)
    ensures StartsWith(endpoint, "http") ==> url == endpoint
    ensures !StartsWith(endpoint, "http") ==> url == BaseUrl(configured) + endpoint
  {
    if StartsWith(endpoint, "http") then endpoint else BaseUrl(configured) + endpoint
  }

  /** With an absolute base URL every resolved URL is absolute, and resolving again changes nothing. */
  lemma ResolveUrlAbsolute(configured: string, endpoint: string)
    requires configured == "" || StartsWith(configured, "http")
    ensures StartsWith(ResolveUrl(configured, endpoint), "http")
    ensures ResolveUrl(configured, ResolveUrl(configured, endpoint)) == ResolveUrl(configured, endpoint)
  {
    var b := BaseUrl(configured);
    assert StartsWith(b, "http");
    assert (b + endpoint)[..4] == b[..4];
  }

  /**
   * `apiRequest(method, endpoint, data)`. `signedIn` is `auth.currentUser`
   * being set, `mint` what `getIdToken` delivers for that user and `reply`
   * what `fetch` delivers. `sent` is the request handed to `fetch`, absent
   * when token minting rejected and nothing was sent.
   */
  method ApiRequest(signedIn: bool, mint: TokenOutcome, configuredBase: string,
                    httpMethod: string, endpoint: string, data: Option<Payload>, reply: FetchOutcome)
    returns (sent: Option<Request>, result: Result<Response, ApiError>)
    ensures sent.None? <==> signedIn && mint.MintRejected?
    ensures sent.None? ==> result == Failure(TokenError)
    ensures sent.Some? ==>
      && sent.value.httpMethod == httpMethod
      && sent.value.url == ResolveUrl(configuredBase, endpoint)
      && sent.value.body == data
      && sent.value.credentials == IncludeCredentials
      && sent.value.headers.Keys <= {ContentTypeHeader, AuthorizationHeader}
      && (ContentTypeHeader in sent.value.headers <==> data.Some?)
      && (ContentTypeHeader in sent.value.headers ==> sent.value.headers[ContentTypeHeader] == JsonMediaType)
      && (AuthorizationHeader in sent.value.headers <==> signedIn && mint.Minted? && mint.token != "")
      && (AuthorizationHeader in sent.value.headers ==> sent.value.headers[AuthorizationHeader] == "Bearer " + mint.token)
    ensures !signedIn ==> sent.Some? && AuthorizationHeader !in sent.value.headers
    ensures sent.Some? ==> result == Classify(reply)
    ensures result.Success? ==> IsOk(result.value.status)
  {
    var token := "";
    if signedIn {
      match mint
      case MintRejected =>
        return None, Failure(TokenError);
      case Minted(t) =>
        token := t;
    }

    var url := ResolveUrl(configuredBase, endpoint);

    var headers: map<string, string> := map[];
    if data.Some? {
      headers := headers[ContentTypeHeader := JsonMediaType];
    }
    if token != "" {
      headers := headers[AuthorizationHeader := "Bearer " + token];
    }

    var request := Request(httpMethod, url, headers, data, IncludeCredentials);
    sent := Some(request);
    result := Classify(reply);
  }

  /** One element of a query key; `Undefined` is a missing value such as `user?.id` without a user. */
  datatype KeyPart = Segment(text: string) | Undefined

  type QueryKey = seq<KeyPart>

  /** What `Array.prototype.join` writes for a key element: `undefined` becomes the empty string. */
  function PartText(p: KeyPart): string {
    match p
    case Segment(t) => t
    case Undefined => ""
  }

  function KeyTexts(key: QueryKey): (texts: seq<string>)
    ensures |texts| == |key| && forall i :: 0 <= i < |key| ==> texts[i] == PartText(key[i])
  {
    seq(|key|, i requires 0 <= i < |key| => PartText(key[i]))
  }

  /** `queryKey.join("/")` */
  function KeyPath(key: QueryKey): string {
    Join(KeyTexts(key), "/")
  }

  /** Adding a segment to a key adds `/` and that segment to its path. */
  lemma KeyPathSnoc(key: QueryKey, p: KeyPart)
    requires key != []
    ensures KeyPath(key + [p]) == KeyPath(key) + "/" + PartText(p)
  {
    assert KeyTexts(key + [p]) == KeyTexts(key) + [PartText(p)];
    JoinSnoc(KeyTexts(key), PartText(p), "/");
  }

  /**
   * The query cache's partial matching, as `invalidateQueries({ queryKey })`
   * applies it: a filter matches every key it is a prefix of, element by element.
   */
  predicate KeyMatches(filter: QueryKey, key: QueryKey) {
    |filter| <= |key| && key[..|filter|] == filter
  }

  /** Cache keys and resources the components share. */
  const UsersResource: string := "/api/users"
  const UserPostsResource: string := "/api/posts/user"
  const PostsKey: QueryKey := [Segment("/api/posts")]
  const UserPostsKey: QueryKey := [Segment(UserPostsResource)]

  /** The request a query sends: a GET of the resolved key path with credentials and no headers at all. */
  function QueryRequest(configuredBase: string, key: QueryKey): (q: Request)
    ensures q.url == ResolveUrl(configuredBase, KeyPath(key))
    ensures q.httpMethod == "GET" && q.body.None? && q.credentials == IncludeCredentials
    ensures q.headers == map[]
  {
    Request("GET", ResolveUrl(configuredBase, KeyPath(key)), map[], None, IncludeCredentials)
  }

  /** The key `["/api/users", "u1"]` is fetched from the base URL followed by `/api/users/u1`. */
  lemma UserQueryUrl(configuredBase: string)
    ensures QueryRequest(configuredBase, [Segment("/api/users"), Segment("u1")]).url == BaseUrl(configuredBase) + "/api/users/u1"
  {
    var key := [Segment("/api/users"), Segment("u1")];
    assert key == [Segment("/api/users")] + [Segment("u1")];
    KeyPathSnoc([Segment("/api/users")], Segment("u1"));
    assert KeyPath(key) == "/api/users/u1";
    assert KeyPath(key)[0] == '/';
  }

  /** The `on401` choice of `getQueryFn`. */
  datatype UnauthorizedBehavior = ReturnNull | Throw

  /** What a query function settles to: the decoded body, `null`, or an error. JSON decoding is not modelled: `json` is the body text. */
  datatype QueryResult = Data(json: string) | NullData | QueryFailed(error: ApiError)

  /** The query function `getQueryFn({ on401 })` once `fetch` has answered. */
  function QueryFn(on401: UnauthorizedBehavior, reply: FetchOutcome): (r: QueryResult)
    ensures reply.NetworkFailure? ==> r == QueryFailed(TransportError)
    ensures reply.Responded? ==> (r.NullData? <==> on401 == ReturnNull && reply.response.status == 401)
    ensures reply.Responded? ==> (r.Data? <==> IsOk(reply.response.status))
    ensures r.Data? ==> reply.Responded? && r.json == reply.response.body
    ensures reply.Responded? && r.QueryFailed? ==> Some(r.error) == ThrowIfResNotOk(reply.response)
  {
    match reply
    case NetworkFailure => QueryFailed(TransportError)
    case Responded(res) =>
      if on401 == ReturnNull && res.status == 401 then NullData
      else
        match ThrowIfResNotOk(res)
        case Some(e) => QueryFailed(e)
        case None => Data(res.body)
  }

  datatype StaleTime = Infinite | Milliseconds(ms: nat)

  /** The options the client's query cache is created with. */
  datatype QueryOptions = QueryOptions(
    on401: UnauthorizedBehavior,
    refetchInterval: bool,
    refetchOnWindowFocus: bool,
    staleTime: StaleTime,
    retry: bool)

  const DefaultQueryOptions: QueryOptions := QueryOptions(Throw, false, false, Infinite, false)

  /** With the default options a 401 is an error `401: <text>` like any other status outside 200..299. */
  lemma DefaultQuery401Fails(res: Response)
    requires res.status == 401
    ensures QueryFn(DefaultQueryOptions.on401, Responded(res)).QueryFailed?
    ensures QueryFn(DefaultQueryOptions.on401, Responded(res)).error.HttpError?
    ensures ParseErrorMessage(QueryFn(DefaultQueryOptions.on401, Responded(res)).error.message) == Some((401, ResponseText(res)))
  {
  }
}
