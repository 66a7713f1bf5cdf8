/** The route layer of src/service/router.py: the bearer-credential guard every protected route depends
    on, the query-parameter bounds of the listing route, and the handlers that forward to Funcs. */
module Router {
  import opened Wrappers
  import opened Http
  import opened Schema
  import opened Funcs

  // ---------------------------------------------------------------------------------------------
  // The credential guard
  // ---------------------------------------------------------------------------------------------

  /** The parsed `Authorization` header: its scheme and the credential after it. */
  datatype Credentials = Credentials(scheme: string, credentials: string)

  const NotAuthenticated: HttpException := HttpException(HTTP_401_UNAUTHORIZED, "Not authenticated")

  /** `str.lower()` on one character, for the ASCII letters (the only ones that lower-case into "bearer"). */
  function LowerChar(c: char): char
  {
    if 'A' <= c <= 'Z' then (c as int - 'A' as int + 'a' as int) as char else c
  }

  /** `str.lower()`: every character lower-cased, in place. */
  function Lower(s: string): (r: string)
    ensures |r| == |s|
    ensures forall i :: 0 <= i < |s| ==> r[i] == LowerChar(s[i])
  {
    if s == [] then [] else [LowerChar(s[0])] + Lower(s[1..])
  }

  /** The guard's scheme test: the scheme lower-cases to "bearer". It is case-insensitive and nothing
      more: it holds exactly when each of the six letters is in either case. */
  predicate IsBearerScheme(scheme: string): (b: bool)
    ensures b <==> |scheme| == 6 && forall i :: 0 <= i < 6 ==> scheme[i] == "bearer"[i] || scheme[i] == "BEARER"[i]
  {
    Lower(scheme) == "bearer"
  }

  /** "Bearer", "BEARER" and "bearer" pass the scheme test; "Basic", "Bearer " and the empty scheme do not. */
  lemma BearerSpellings()
    ensures IsBearerScheme("Bearer") && IsBearerScheme("BEARER") && IsBearerScheme("bearer")
    ensures !IsBearerScheme("Basic") && !IsBearerScheme("Bearer ") && !IsBearerScheme("")
  {
  }

  /** What the guard lets through: credentials are present and their scheme is bearer. */
  predicate Admits(creds: Option<Credentials>): (b: bool)
    ensures b ==> creds.Some? && |creds.value.scheme| == 6
    ensures creds.Some? && creds.value.scheme in {"Bearer", "bearer", "BEARER"} ==> b
  {
    creds.Some? && IsBearerScheme(creds.value.scheme)
  }

  /** get_current_user: absent or non-bearer credentials are a 401 before the provider is asked;
      otherwise the credential string goes unchanged to get_user_from_token, whose outcome is the guard's. */
  function GetCurrentUser(creds: Option<Credentials>, getUser: string -> GetUserResponse): (r: Result<UserInfo, Failure>)
    ensures !Admits(creds) ==> r == Failure(Raised(NotAuthenticated))
    ensures Admits(creds) ==> r == GetUserFromToken(creds.value.credentials, getUser)
    ensures r.Success? ==>
      && Admits(creds)
      && getUser(creds.value.credentials).UserReturned?
      && getUser(creds.value.credentials).user.Some?
      && r.value.id == getUser(creds.value.credentials).user.value.id
      && r.value.email == getUser(creds.value.credentials).user.value.email
    ensures r.Failure? && r.error.Raised? ==> r.error.exception.status == HTTP_401_UNAUTHORIZED
  {
    if creds.None? || Lower(creds.value.scheme) != "bearer" then
      Failure(Raised(NotAuthenticated))
    else
      GetUserFromToken(creds.value.credentials, getUser)
  }

  /** A rejected credential is rejected whatever the provider would answer: the provider is not consulted. */
  lemma GuardIgnoresProvider(creds: Option<Credentials>, g1: string -> GetUserResponse, g2: string -> GetUserResponse)
    requires !Admits(creds)
    ensures GetCurrentUser(creds, g1) == GetCurrentUser(creds, g2) == Failure(Raised(NotAuthenticated))
  {
  }

  /** Both ways /me can be refused are 401, but the detail tells them apart: a missing credential says
      "Not authenticated", a token the provider does not recognise says "Invalid or expired token". */
  lemma UnauthorizedDetailsDiffer(token: string)
    ensures var missing := GetCurrentUser(None, _ => NoUserResponse);
      var rejected := GetCurrentUser(Some(Credentials("Bearer", token)), _ => NoUserResponse);
      && missing.Failure? && rejected.Failure?
      && missing.error.exception.status == rejected.error.exception.status == 401
      && missing.error.exception.detail == "Not authenticated"
      && rejected.error.exception.detail == "Invalid or expired token"
  {
    assert IsBearerScheme("Bearer");
  }

  // ---------------------------------------------------------------------------------------------
  // Query parameters of GET /api/links
  // ---------------------------------------------------------------------------------------------

  const DefaultPage: int := 1
  const DefaultPageSize: int := 10
  const MaxPageSize: int := 100

  /** The validated paging parameters. */
  datatype PageParams = PageParams(page: int, pageSize: int)

  /** Query(1, ge=1) and Query(10, ge=1, le=100): defaults for absent parameters, then the bounds;
      each parameter out of bounds is named in the 422. */
  function ValidatePageParams(page: Option<int>, pageSize: Option<int>): (r: Result<PageParams, Failure>)
    ensures r.Success? <==> GetOr(page, 1) >= 1 && 1 <= GetOr(pageSize, 10) <= 100
    ensures r.Success? ==> r.value.page == GetOr(page, 1) && r.value.pageSize == GetOr(pageSize, 10)
    ensures r.Failure? ==> r.error.Unprocessable?
    ensures r.Failure? ==> ("page" in r.error.fields <==> GetOr(page, 1) < 1)
    ensures r.Failure? ==> ("page_size" in r.error.fields <==> !(1 <= GetOr(pageSize, 10) <= 100))
  {
    var p := GetOr(page, DefaultPage);
    var size := GetOr(pageSize, DefaultPageSize);
    var bad := (if p < 1 then ["page"] else []) + (if size < 1 || size > MaxPageSize then ["page_size"] else []);
    if bad == [] then Success(PageParams(p, size)) else Failure(Unprocessable(bad))
  }

  // ---------------------------------------------------------------------------------------------
  // Status codes
  // ---------------------------------------------------------------------------------------------

  datatype Route = SignupRoute | LoginRoute | MeRoute | CreateLinkRoute | GetLinksRoute

  /** The status a route answers with on success: 201 for the two creating routes, 200 otherwise. */
  function SuccessStatus(route: Route): (status: int)
    ensures status == 201 <==> route == SignupRoute || route == CreateLinkRoute
    ensures status == 201 || status == 200
  {
    match route
    case SignupRoute => HTTP_201_CREATED
    case CreateLinkRoute => HTTP_201_CREATED
    case _ => HTTP_200_OK
  }

  /** The status of a handler's outcome; None for an exception the handlers do not catch, whose
      response is the server's business. */
  function StatusOf<T>(route: Route, r: Result<T, Failure>): (status: Option<int>)
    ensures status.None? <==> r.Failure? && r.error.Unhandled?
    ensures r.Success? ==> status == Some(SuccessStatus(route))
    ensures r.Failure? && r.error.Raised? ==> status == Some(r.error.exception.status)
    ensures r.Failure? && r.error.Unprocessable? ==> status == Some(422)
  {
    match r
    case Success(_) => Some(SuccessStatus(route))
    case Failure(Raised(e)) => Some(e.status)
    case Failure(Unprocessable(_)) => Some(HTTP_422_UNPROCESSABLE_ENTITY)
    case Failure(Unhandled(_)) => None
  }

  // ---------------------------------------------------------------------------------------------
  // Routes
  // ---------------------------------------------------------------------------------------------

  /** POST /auth/signup, called with a payload the schema has validated (password of at least 6 characters). */
  function Signup(payload: AuthPayload, signUp: AuthPayload -> SignUpResponse): (r: Result<string, Failure>)
    requires |payload.password| >= MinPasswordLength
    ensures r == SignupUser(payload, signUp)
    ensures StatusOf(SignupRoute, r) == if signUp(payload).SignUpRaised? then Some(400) else Some(201)
  {
    SignupUser(payload, signUp)
  }

  /** POST /auth/login: 200 with the token when the provider returns a session, otherwise 401. */
  function Login(payload: AuthPayload, signIn: AuthPayload -> SignInResponse): (r: Result<TokenResponse, Failure>)
    requires |payload.password| >= MinPasswordLength
    ensures r == LoginUser(payload, signIn)
    ensures StatusOf(LoginRoute, r) ==
      if signIn(payload).SignInReturned? && signIn(payload).session.Some? then Some(200) else Some(401)
  {
    LoginUser(payload, signIn)
  }

  /** GET /me: the resolved caller, unchanged. */
  function Me(creds: Option<Credentials>, getUser: string -> GetUserResponse): (r: Result<UserInfo, Failure>)
    ensures r == GetCurrentUser(creds, getUser)
    ensures StatusOf(MeRoute, r) == Some(200) <==> r.Success?
    ensures StatusOf(MeRoute, r).Some? ==> StatusOf(MeRoute, r).value in {200, 401}
  {
    match GetCurrentUser(creds, getUser)
    case Failure(e) => Failure(e)
    case Success(user) => Success(user)
  }

  /** POST /api/links: the guard first, then the link is created for the resolved caller. */
  function CreateLink(creds: Option<Credentials>, payload: LinkCreate,
                      getUser: string -> GetUserResponse, insert: InsertRequest -> InsertResponse)
    : (r: Result<LinkOut, Failure>)
    ensures GetCurrentUser(creds, getUser).Failure? ==> r == Failure(GetCurrentUser(creds, getUser).error)
    ensures GetCurrentUser(creds, getUser).Success? ==>
      r == CreateLinkForUser(GetCurrentUser(creds, getUser).value, payload, insert)
    ensures StatusOf(CreateLinkRoute, r).Some? ==> StatusOf(CreateLinkRoute, r).value in {201, 401, 500}
  {
    match GetCurrentUser(creds, getUser)
    case Failure(e) => Failure(e)
    case Success(user) => CreateLinkForUser(user, payload, insert)
  }

  /** A created link is owned by the principal the token resolves to: the insert carried that principal's id. */
  lemma CreatedLinkOwnedByCaller(creds: Option<Credentials>, payload: LinkCreate,
                                 getUser: string -> GetUserResponse, insert: InsertRequest -> InsertResponse)
    requires CreateLink(creds, payload, getUser, insert).Success?
    ensures Admits(creds) && getUser(creds.value.credentials).UserReturned? && getUser(creds.value.credentials).user.Some?
    ensures var owner := getUser(creds.value.credentials).user.value;
      var resp := insert(InsertRequest(LinksTable, owner.id, payload.title, payload.url));
      && resp.Inserted? && resp.data.Some? && resp.data.value != []
      && CreateLink(creds, payload, getUser, insert).value == ToLinkOut(resp.data.value[0])
  {
  }

  /** GET /api/links: the guard first (FastAPI resolves the dependency before the route's own query
      parameters), then the bounds, then the page of the caller's links. */
  function GetLinks(creds: Option<Credentials>, page: Option<int>, pageSize: Option<int>,
                    getUser: string -> GetUserResponse, select: SelectRequest -> SelectResponse)
    : (r: Result<Paginated<LinkOut>, Failure>)
    ensures GetCurrentUser(creds, getUser).Failure? ==> r == Failure(GetCurrentUser(creds, getUser).error)
    ensures GetCurrentUser(creds, getUser).Success? && ValidatePageParams(page, pageSize).Failure? ==>
      r == Failure(ValidatePageParams(page, pageSize).error)
    ensures GetCurrentUser(creds, getUser).Success? && ValidatePageParams(page, pageSize).Success? ==>
      r == ListLinksForUser(GetCurrentUser(creds, getUser).value,
                            ValidatePageParams(page, pageSize).value.page,
                            ValidatePageParams(page, pageSize).value.pageSize, select)
    ensures StatusOf(GetLinksRoute, r).Some? ==> StatusOf(GetLinksRoute, r).value in {200, 401, 422}
  {
    match GetCurrentUser(creds, getUser)
    case Failure(e) => Failure(e)
    case Success(user) =>
      match ValidatePageParams(page, pageSize)
      case Failure(e) => Failure(e)
      case Success(params) =>
        var listed := ListLinksForUser(user, params.page, params.pageSize, select);
        assert listed.Failure? ==> listed.error.Unhandled?;
        listed
  }

  /** Once the caller is resolved and the bounds hold, the listing asks the store for exactly that caller's
      page, a range of page_size rows at offset (page - 1) * page_size, and fails only when the store raises:
      the bounds rule out the division by zero. */
  lemma GetLinksQueriesCallersPage(creds: Option<Credentials>, page: Option<int>, pageSize: Option<int>,
                                   getUser: string -> GetUserResponse, select: SelectRequest -> SelectResponse)
    requires GetCurrentUser(creds, getUser).Success? && ValidatePageParams(page, pageSize).Success?
    ensures var owner := getUser(creds.value.credentials).user.value;
      var p, size := GetOr(page, 1), GetOr(pageSize, 10);
      var q := PageQuery(GetCurrentUser(creds, getUser).value, p, size);
      var r := GetLinks(creds, page, pageSize, getUser, select);
      && q.userId == owner.id
      && q.start == (p - 1) * size >= 0 && q.end - q.start + 1 == size <= 100
      && (r.Failure? <==> select(q).SelectRaised?)
      && (r.Success? ==> r.value.totalPages >= 0 && (r.value.totalPages == 0 <==> r.value.totalItems == 0))
  {
  }
}
