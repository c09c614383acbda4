/**
 * The authentication API client: request shaping (endpoint, headers, body)
 * for the three POST operations and the interpretation of their responses.
 * The network (`fetch`) is a function the caller supplies, and JSON
 * serialisation of a request body is left abstract: a request carries the
 * typed payload that `JSON.stringify` would encode.
 */
module Api {
  import opened Wrappers
  import BrowserStorage

  /** Base address used when `VITE_API_BASE_URL` is unset or empty. */
  const FallbackBaseUrl: string := "http://localhost:8080/api"

  /** The storage key holding the raw session token (also written by the session store). */
  const TokenKey: string := "jwtToken"

  const ContentTypeHeader: string := "Content-Type"
  const AuthorizationHeader: string := "Authorization"
  const JsonMediaType: string := "application/json"
  const BearerPrefix: string := "Bearer "

  datatype SignUpRequest = SignUpRequest(
    firstName: string,
    lastName: string,
    email: string,
    password: string,
    confirmPassword: string,
    graduationYear: int,
    department: string,
    contactNumber: string)

  datatype LoginRequest = LoginRequest(email: string, password: string)

  datatype GoogleSignInRequest = GoogleSignInRequest(idToken: string)

  /** The session the backend hands out; `profilePicture` may be `null`. */
  datatype AuthResponse = AuthResponse(
    id: string,
    email: string,
    profilePicture: Option<string>,
    jwtToken: string,
    lastname: string,
    firstname: string)

  /** The failure body; `message` is `None` when the field is missing. */
  datatype ErrorResponse = ErrorResponse(message: Option<string>, status: int)

  datatype Operation = SignupOp | LoginOp | GoogleOp

  /** The typed payload a request serialises as its JSON body. */
  datatype Payload =
    | SignUpBody(signUp: SignUpRequest)
    | LoginBody(login: LoginRequest)
    | GoogleBody(google: GoogleSignInRequest)

  datatype HttpRequest = HttpRequest(
    verb: string,
    url: string,
    headers: map<string, string>,
    body: Payload)

  /** What `response.json()` yields: the parsed value, or a rejection because the body is not JSON. */
  datatype Json<T> = Parsed(value: T) | NotJson

  /** A response as the client sees it: the `ok` flag and the body read as the expected shape. */
  datatype Response =
    | Ok(body: Json<AuthResponse>)
    | NotOk(status: int, errorBody: Json<ErrorResponse>)

  /**
   * How an operation's promise settles: it resolves with the session, rejects
   * with an `Error` carrying a message, or rejects because `response.json()`
   * itself rejected.
   */
  datatype CallResult =
    | Resolved(auth: AuthResponse)
    | Thrown(message: string)
    | JsonRejected

  /** `VITE_API_BASE_URL || 'http://localhost:8080/api'`: an unset or empty variable falls back. */
  function ResolveBaseUrl(env: Option<string>): (url: string)
    ensures url != ""
    ensures env.Some? && env.value != "" ==> url == env.value
    ensures env.None? || env.value == "" ==> url == FallbackBaseUrl
  {
    if env.Some? && env.value != "" then env.value else FallbackBaseUrl
  }

  /** Every endpoint lies under `/auth/`. */
  function Path(op: Operation): (p: string)
    ensures |p| > 6 && p[..6] == "/auth/"
  {
    match op
    case SignupOp => "/auth/signup"
    case LoginOp => "/auth/login"
    case GoogleOp => "/auth/google"
  }

  /** The message thrown when a failure body carries no usable `message`. */
  function DefaultMessage(op: Operation): (m: string)
    ensures m != ""
  {
    match op
    case SignupOp => "Signup failed"
    case LoginOp => "Login failed"
    case GoogleOp => "Google sign-in failed"
  }

  /** Each operation has its own endpoint and its own fallback message. */
  lemma EndpointsDistinct(op1: Operation, op2: Operation)
    requires op1 != op2
    ensures Path(op1) != Path(op2)
    ensures DefaultMessage(op1) != DefaultMessage(op2)
  {
  }

  /**
   * The headers `getHeaders(includeAuth)` builds from the stored items: always
   * the JSON content type, and a bearer token only when asked for and a
   * non-empty token is stored.
   */
  function Headers(includeAuth: bool, items: map<string, string>): (h: map<string, string>)
    ensures ContentTypeHeader in h && h[ContentTypeHeader] == JsonMediaType
    ensures AuthorizationHeader in h <==> includeAuth && TokenKey in items && items[TokenKey] != ""
    ensures AuthorizationHeader in h ==> h[AuthorizationHeader] == BearerPrefix + items[TokenKey]
    ensures h.Keys <= {ContentTypeHeader, AuthorizationHeader}
  {
    var base := map[ContentTypeHeader := JsonMediaType];
    if includeAuth && TokenKey in items && items[TokenKey] != "" then
      base[AuthorizationHeader := BearerPrefix + items[TokenKey]]
    else
      base
  }

  /** Without the flag, or without a usable token, the headers are exactly the JSON content type. */
  lemma HeadersWithoutToken(includeAuth: bool, items: map<string, string>)
    requires !includeAuth || TokenKey !in items || items[TokenKey] == ""
    ensures Headers(includeAuth, items) == map[ContentTypeHeader := JsonMediaType]
    ensures Headers(includeAuth, items) == Headers(false, items)
  {
  }

  /** `error.message || default`: a missing or empty server message gives the per-operation default. */
  function ErrorMessage(op: Operation, error: ErrorResponse): (m: string)
    ensures m != ""
    ensures error.message.Some? && error.message.value != "" ==> m == error.message.value
    ensures error.message.None? || error.message.value == "" ==> m == DefaultMessage(op)
  {
    if error.message.Some? && error.message.value != "" then error.message.value else DefaultMessage(op)
  }

  /** How `signup`, `login` and `googleSignIn` turn a response into the settled promise. */
  function Interpret(op: Operation, response: Response): (r: CallResult)
    ensures r.Resolved? <==> response.Ok? && response.body.Parsed?
    ensures r.Resolved? ==> r.auth == response.body.value
    ensures r.Thrown? <==> response.NotOk? && response.errorBody.Parsed?
    ensures r.Thrown? ==> r.message == ErrorMessage(op, response.errorBody.value)
    ensures r.JsonRejected? <==> (if response.Ok? then response.body.NotJson? else response.errorBody.NotJson?)
  {
    match response
    case Ok(body) =>
      (match body
       case Parsed(auth) => Resolved(auth)
       case NotJson => JsonRejected)
    case NotOk(_, errorBody) =>
      (match errorBody
       case Parsed(error) => Thrown(ErrorMessage(op, error))
       case NotJson => JsonRejected)
  }

  /** A failure never surfaces an empty message, and a server message always wins over the default. */
  lemma ThrownMessageIsServerOrDefault(op: Operation, status: int, error: ErrorResponse)
    ensures var r := Interpret(op, NotOk(status, Parsed(error)));
      r.Thrown? && r.message != "" &&
      (r.message == DefaultMessage(op) || (error.message.Some? && r.message == error.message.value))
  {
  }

  class ApiClient {
    var baseUrl: string
    /** The page's `localStorage`, from which `getHeaders(true)` reads the token. */
    const storage: BrowserStorage.Storage

    constructor (baseUrl: string, storage: BrowserStorage.Storage)
      ensures this.baseUrl == baseUrl && this.storage == storage
    {
      this.baseUrl := baseUrl;
      this.storage := storage;
    }

    /** `getHeaders(includeAuth = false)`: starts from the content type and adds the bearer token if one is stored. */
    method GetHeaders(includeAuth: bool := false) returns (h: map<string, string>)
      ensures h == Headers(includeAuth, storage.items)
    {
      h := map[ContentTypeHeader := JsonMediaType];
      if includeAuth {
        var token := storage.GetItem(TokenKey);
        if token.Some? && token.value != "" {
          h := h[AuthorizationHeader := BearerPrefix + token.value];
        }
      }
    }

    /** One POST of `body` to the operation's endpoint, then the interpretation of the response. */
    method Post(op: Operation, body: Payload, fetch: HttpRequest -> Response)
      returns (sent: HttpRequest, result: CallResult)
      ensures sent.verb == "POST" && sent.url == baseUrl + Path(op) && sent.body == body
      ensures sent.headers == map[ContentTypeHeader := JsonMediaType]
      ensures result == Interpret(op, fetch(sent))
    {
      var headers := GetHeaders();
      sent := HttpRequest("POST", baseUrl + Path(op), headers, body);
      result := Interpret(op, fetch(sent));
    }

    method Signup(data: SignUpRequest, fetch: HttpRequest -> Response)
      returns (sent: HttpRequest, result: CallResult)
      ensures sent == HttpRequest("POST", baseUrl + "/auth/signup", map[ContentTypeHeader := JsonMediaType], SignUpBody(data))
      ensures AuthorizationHeader !in sent.headers
      ensures result == Interpret(SignupOp, fetch(sent))
    {
      sent, result := Post(SignupOp, SignUpBody(data), fetch);
    }

    method Login(data: LoginRequest, fetch: HttpRequest -> Response)
      returns (sent: HttpRequest, result: CallResult)
      ensures sent == HttpRequest("POST", baseUrl + "/auth/login", map[ContentTypeHeader := JsonMediaType], LoginBody(data))
      ensures AuthorizationHeader !in sent.headers
      ensures result == Interpret(LoginOp, fetch(sent))
    {
      sent, result := Post(LoginOp, LoginBody(data), fetch);
    }

    method GoogleSignIn(data: GoogleSignInRequest, fetch: HttpRequest -> Response)
      returns (sent: HttpRequest, result: CallResult)
      ensures sent == HttpRequest("POST", baseUrl + "/auth/google", map[ContentTypeHeader := JsonMediaType], GoogleBody(data))
      ensures AuthorizationHeader !in sent.headers
      ensures result == Interpret(GoogleOp, fetch(sent))
    {
      sent, result := Post(GoogleOp, GoogleBody(data), fetch);
    }
  }

  /** `setApiBaseUrl(url)`: replaces the shared client's base address; later requests use `url`. */
  method SetApiBaseUrl(client: ApiClient, url: string)
    modifies client
    ensures client.baseUrl == url
  {
    client.baseUrl := url;
  }
}
