/** The business functions of src/service/funcs.py: authentication through the identity provider,
    link creation and paginated listing through the store. Each call into the external service is a
    function parameter, so what the handler sends is visible and what comes back is arbitrary. */
module Funcs {
  import opened Wrappers
  import opened Http
  import opened Schema

  // ---------------------------------------------------------------------------------------------
  // What the identity provider and the store answer
  // ---------------------------------------------------------------------------------------------

  /** A session issued by the provider. */
  datatype Session = Session(accessToken: string)

  /** What auth.sign_up does: raise, or return something the handler ignores. */
  datatype SignUpResponse = SignUpRaised(reason: string) | SignedUp(session: Option<Session>)

  /** What auth.sign_in_with_password does: raise, return None, or return a response whose session may be None. */
  datatype SignInResponse = SignInRaised(reason: string) | NoSignInResponse | SignInReturned(session: Option<Session>)

  /** A principal as the provider reports it. */
  datatype ProviderUser = ProviderUser(id: string, email: Option<string>)

  /** What auth.get_user does: raise, return a falsy response, or return a response whose user may be absent. */
  datatype GetUserResponse = GetUserRaised(reason: string) | NoUserResponse | UserReturned(user: Option<ProviderUser>)

  /** A row of the `links` table. */
  datatype LinkRow = LinkRow(id: string, userId: string, title: string, url: string, createdAt: string)

  /** The record create_link_for_user inserts. */
  datatype InsertRequest = InsertRequest(table: string, userId: string, title: string, url: string)

  /** What the insert's execute() does: raise, or return the inserted rows (None or empty when none). */
  datatype InsertResponse = InsertRaised(reason: string) | Inserted(data: Option<seq<LinkRow>>)

  /** The query list_links_for_user sends: the owner filter, the ordering and the inclusive row range. */
  datatype SelectRequest = SelectRequest(
    table: string, countExact: bool, userId: string, orderBy: string, descending: bool, start: int, end: int)

  /** What the select's execute() does: raise, or return a page of rows and the exact count, either possibly None. */
  datatype SelectResponse = SelectRaised(reason: string) | Selected(data: Option<seq<LinkRow>>, count: Option<nat>)

  const LinksTable: string := "links"
  const CreatedAtColumn: string := "created_at"

  const SignupSucceeded: string := "Signup successful. Check your email if confirmation is required."

  const SignupFailed: HttpException := HttpException(HTTP_400_BAD_REQUEST, "Signup failed")
  const InvalidCredentials: HttpException := HttpException(HTTP_401_UNAUTHORIZED, "Invalid email or password")
  const InvalidToken: HttpException := HttpException(HTTP_401_UNAUTHORIZED, "Invalid or expired token")
  const LinkNotCreated: HttpException := HttpException(HTTP_500_INTERNAL_SERVER_ERROR, "Failed to create link")

  /** The exception Python raises when ceil(total_items / page_size) divides by zero. */
  const ZeroDivision: string := "ZeroDivisionError"

  // ---------------------------------------------------------------------------------------------
  // Authentication
  // ---------------------------------------------------------------------------------------------

  /** signup_user: any provider failure is the same 400; otherwise the fixed confirmation message. */
  function SignupUser(payload: AuthPayload, signUp: AuthPayload -> SignUpResponse): (r: Result<string, Failure>)
    ensures r.Failure? <==> signUp(payload).SignUpRaised?
    ensures r.Failure? ==> r.error == Raised(SignupFailed) && r.error.exception.status == 400
    ensures r.Success? ==> r.value == SignupSucceeded
  {
    match signUp(payload)
    case SignUpRaised(_) => Failure(Raised(SignupFailed))
    case SignedUp(_) => Success(SignupSucceeded)
  }

  /** login_user: a raised call, a None response and a None session give one and the same 401;
      otherwise the session's access token is returned unchanged as a bearer token. */
  function LoginUser(payload: AuthPayload, signIn: AuthPayload -> SignInResponse): (r: Result<TokenResponse, Failure>)
    ensures r.Success? <==> signIn(payload).SignInReturned? && signIn(payload).session.Some?
    ensures r.Failure? ==> r.error == Raised(InvalidCredentials) && r.error.exception.status == 401
    ensures r.Success? ==>
      r.value.accessToken == signIn(payload).session.value.accessToken && r.value.tokenType == "bearer"
  {
    match signIn(payload)
    case SignInRaised(_) => Failure(Raised(InvalidCredentials))
    case NoSignInResponse => Failure(Raised(InvalidCredentials))
    case SignInReturned(None) => Failure(Raised(InvalidCredentials))
    case SignInReturned(Some(session)) => Success(NewTokenResponse(session.accessToken))
  }

  /** The three ways a login can fail cannot be told apart: each gives the same 401 and detail. */
  lemma LoginFailuresIndistinguishable(payload: AuthPayload, reason: string)
    ensures var raised := LoginUser(payload, _ => SignInRaised(reason));
      && raised == LoginUser(payload, _ => NoSignInResponse)
      && raised == LoginUser(payload, _ => SignInReturned(None))
      && raised == Failure(Raised(HttpException(401, "Invalid email or password")))
  {
  }

  /** Whatever a failing login's cause, the caller sees the same failure. */
  lemma LoginFailureUniform(payload: AuthPayload, s1: AuthPayload -> SignInResponse, s2: AuthPayload -> SignInResponse)
    requires LoginUser(payload, s1).Failure? && LoginUser(payload, s2).Failure?
    ensures LoginUser(payload, s1) == LoginUser(payload, s2)
  {
  }

  /** get_user_from_token: the token goes to the provider unchanged; a falsy response or user is a 401,
      a present user is copied field for field, and an exception from the provider is not caught. */
  function GetUserFromToken(token: string, getUser: string -> GetUserResponse): (r: Result<UserInfo, Failure>)
    ensures getUser(token).GetUserRaised? <==> r.Failure? && r.error.Unhandled?
    ensures getUser(token).GetUserRaised? ==> r.error.reason == getUser(token).reason
    ensures (getUser(token).NoUserResponse? || getUser(token) == UserReturned(None)) <==> r == Failure(Raised(InvalidToken))
    ensures r.Success? <==> getUser(token).UserReturned? && getUser(token).user.Some?
    ensures r.Success? ==>
      r.value.id == getUser(token).user.value.id && r.value.email == getUser(token).user.value.email
  {
    match getUser(token)
    case GetUserRaised(reason) => Failure(Unhandled(reason))
    case NoUserResponse => Failure(Raised(InvalidToken))
    case UserReturned(None) => Failure(Raised(InvalidToken))
    case UserReturned(Some(u)) => Success(UserInfo(u.id, u.email))
  }

  // ---------------------------------------------------------------------------------------------
  // Links
  // ---------------------------------------------------------------------------------------------

  /** The API's view of a stored row. */
  function ToLinkOut(row: LinkRow): (r: LinkOut)
    ensures r.id == row.id && r.title == row.title && r.url == row.url && r.createdAt == row.createdAt
  {
    LinkOut(row.id, row.title, row.url, row.createdAt)
  }

  /** create_link_for_user: inserts one row owned by `user.id` with the payload's title and url; no row
      back is a 500, otherwise the first row returned is the created link. */
  function CreateLinkForUser(user: UserInfo, payload: LinkCreate, insert: InsertRequest -> InsertResponse)
    : (r: Result<LinkOut, Failure>)
    ensures var resp := insert(InsertRequest(LinksTable, user.id, payload.title, payload.url));
      && (resp.InsertRaised? <==> r.Failure? && r.error.Unhandled?)
      && (resp.InsertRaised? ==> r == Failure(Unhandled(resp.reason)))
      && (resp.Inserted? && (resp.data.None? || resp.data == Some([])) <==> r == Failure(Raised(LinkNotCreated)))
      && (r.Success? <==> resp.Inserted? && resp.data.Some? && resp.data.value != [])
      && (r.Success? ==> r.value == ToLinkOut(resp.data.value[0]))
  {
    match insert(InsertRequest(LinksTable, user.id, payload.title, payload.url))
    case InsertRaised(reason) => Failure(Unhandled(reason))
    case Inserted(data) =>
      var rows := GetOr(data, []);
      if rows == [] then Failure(Raised(LinkNotCreated)) else Success(ToLinkOut(rows[0]))
  }

  // ---------------------------------------------------------------------------------------------
  // Pagination arithmetic
  // ---------------------------------------------------------------------------------------------

  /** An inclusive range of row indices. */
  datatype RowRange = RowRange(start: int, end: int)

  /** The inclusive row range of a 1-based page: offset (page - 1) * page_size, page_size rows long. */
  function PageRange(page: int, pageSize: int): (r: RowRange)
    ensures page >= 1 && pageSize >= 0 ==> r.start >= 0
    ensures r.end - r.start + 1 == pageSize
    ensures page == 1 ==> r.start == 0
  {
    var offset := (page - 1) * pageSize;
    RowRange(offset, offset + pageSize - 1)
  }

  /** Consecutive pages meet: the row after one page's range is the first row of the next. */
  lemma PagesTile(page: int, pageSize: int)
    ensures PageRange(page + 1, pageSize).start == PageRange(page, pageSize).end + 1
  {
  }

  /** Distinct pages have disjoint ranges: every row of an earlier page comes before every row of a later one. */
  lemma {:induction false} PagesDisjoint(p: int, q: int, pageSize: int)
    requires p < q && pageSize >= 1
    ensures PageRange(p, pageSize).end < PageRange(q, pageSize).start
    decreases q - p
  {
    PagesTile(p, pageSize);
    if p + 1 < q {
      PagesDisjoint(p + 1, q, pageSize);
    }
  }

  /** The page that holds a row index. */
  function PageOf(index: nat, pageSize: int): (page: int)
    requires pageSize >= 1
    ensures page >= 1
  {
    index / pageSize + 1
  }

  /** Every row index lies in exactly one page's range, the one PageOf names. */
  lemma PageOfIndex(index: nat, pageSize: int, page: int)
    requires pageSize >= 1
    ensures PageRange(PageOf(index, pageSize), pageSize).start <= index <= PageRange(PageOf(index, pageSize), pageSize).end
    ensures PageRange(page, pageSize).start <= index <= PageRange(page, pageSize).end ==> page == PageOf(index, pageSize)
  {
    var k := PageOf(index, pageSize);
    var q, m := index / pageSize, index % pageSize;
    assert index == q * pageSize + m && 0 <= m < pageSize;
    assert PageRange(k, pageSize).start == q * pageSize;
    if PageRange(page, pageSize).start <= index <= PageRange(page, pageSize).end && page != k {
      if page < k {
        PagesDisjoint(page, k, pageSize);
      } else {
        PagesDisjoint(k, page, pageSize);
      }
    }
  }

  /** The exact ceiling of n / d, as Python's ceil of the quotient (exact integers, not floats). */
  function CeilDiv(n: nat, d: int): (q: int)
    requires d != 0
    ensures d > 0 ==> (q - 1) * d < n <= q * d
    ensures d < 0 ==> q * d <= n < (q - 1) * d
  {
    if d > 0 then
      var f, m := n / d, n % d;
      assert n == f * d + m && 0 <= m < d;
      if m == 0 then f else f + 1
    else
      var f, m := n / -d, n % -d;
      assert n == f * -d + m && 0 <= m < -d;
      assert (-f) * d == f * -d && (-f - 1) * d == f * -d - d;
      -f
  }

  /** `resp.count or 0`: the store's exact count, a missing count being 0. */
  function TotalItems(count: Option<nat>): (t: nat)
    ensures count.Some? ==> t == count.value
    ensures count.None? ==> t == 0
  {
    GetOr(count, 0)
  }

  /** total_pages: 0 when there are no items, otherwise the ceiling of total_items / page_size;
      a zero page size with items raises ZeroDivisionError. */
  function TotalPages(totalItems: nat, pageSize: int): (r: Result<int, Failure>)
    ensures r.Failure? <==> totalItems > 0 && pageSize == 0
    ensures r.Failure? ==> r.error == Unhandled(ZeroDivision)
    ensures pageSize >= 1 ==> r.Success? && r.value >= 0
    ensures pageSize >= 1 ==> (r.value == 0 <==> totalItems == 0)
    ensures pageSize >= 1 && totalItems > 0 ==> (r.value - 1) * pageSize < totalItems <= r.value * pageSize
    ensures pageSize < 0 ==> r.Success? && r.value <= 0
  {
    if totalItems == 0 then Success(0)
    else if pageSize == 0 then Failure(Unhandled(ZeroDivision))
    else
      var q := CeilDiv(totalItems, pageSize);
      Success(q)
  }

  /** With a positive page size, total pages is the least page count whose pages hold all items. */
  lemma TotalPagesLeast(totalItems: nat, pageSize: int, k: int)
    requires pageSize >= 1
    requires k >= 0 && totalItems <= k * pageSize
    ensures TotalPages(totalItems, pageSize).value <= k
  {
    var n := TotalPages(totalItems, pageSize).value;
    if totalItems > 0 && k < n {
      MulMonotone(k, n - 1, pageSize);
    }
  }

  /** Multiplying by a non-negative factor keeps the order. */
  lemma MulMonotone(a: int, b: int, c: int)
    requires a <= b && c >= 0
    ensures a * c <= b * c
  {
    assert b * c - a * c == (b - a) * c;
  }

  /** Page p (p >= 1) of the full listing holds rows exactly when p <= total_pages. */
  lemma PageHoldsRowsIff(totalItems: nat, pageSize: int, page: int)
    requires pageSize >= 1 && page >= 1
    ensures PageRange(page, pageSize).start < totalItems <==> page <= TotalPages(totalItems, pageSize).value
  {
    var n := TotalPages(totalItems, pageSize).value;
    var s := PageRange(page, pageSize).start;
    assert s == (page - 1) * pageSize;
    if totalItems > 0 {
      assert (n - 1) * pageSize < totalItems <= n * pageSize;
      if page <= n {
        MulMonotone(page - 1, n - 1, pageSize);
      } else {
        MulMonotone(n, page - 1, pageSize);
      }
    }
  }

  // ---------------------------------------------------------------------------------------------
  // Listing
  // ---------------------------------------------------------------------------------------------

  /** The list comprehension over the returned rows: one LinkOut per row, in the same order. */
  function MapRows(rows: seq<LinkRow>): (items: seq<LinkOut>)
    ensures |items| == |rows|
    ensures forall i :: 0 <= i < |rows| ==>
      items[i].id == rows[i].id && items[i].title == rows[i].title
      && items[i].url == rows[i].url && items[i].createdAt == rows[i].createdAt
  {
    if rows == [] then [] else [ToLinkOut(rows[0])] + MapRows(rows[1..])
  }

  /** Mapping commutes with concatenation, so the items of consecutive pages are the mapping of their rows together. */
  lemma {:induction false} MapRowsAppend(a: seq<LinkRow>, b: seq<LinkRow>)
    ensures MapRows(a + b) == MapRows(a) + MapRows(b)
  {
    if a == [] {
      assert a + b == b;
    } else {
      assert (a + b)[1..] == a[1..] + b;
      MapRowsAppend(a[1..], b);
    }
  }

  /** The query sent for one page of the user's links. */
  function PageQuery(user: UserInfo, page: int, pageSize: int): (q: SelectRequest)
    ensures q.table == LinksTable && q.countExact
    ensures q.userId == user.id && q.orderBy == CreatedAtColumn && q.descending
    ensures page >= 1 && pageSize >= 1 ==> 0 <= q.start <= q.end && q.end - q.start + 1 == pageSize
    ensures RowRange(q.start, q.end) == PageRange(page, pageSize)
  {
    var range := PageRange(page, pageSize);
    SelectRequest(LinksTable, true, user.id, CreatedAtColumn, true, range.start, range.end)
  }

  /** list_links_for_user: one select for the page's range; the envelope carries the mapped rows (none
      when the store returns no data), the store's count and the page count derived from it. */
  function ListLinksForUser(user: UserInfo, page: int, pageSize: int, select: SelectRequest -> SelectResponse)
    : (r: Result<Paginated<LinkOut>, Failure>)
    ensures var resp := select(PageQuery(user, page, pageSize));
      && (r.Failure? <==> resp.SelectRaised? || (resp.count.Some? && resp.count.value > 0 && pageSize == 0))
      && (resp.SelectRaised? ==> r == Failure(Unhandled(resp.reason)))
      && (r.Success? ==>
        && r.value.items == MapRows(GetOr(resp.data, []))
        && (resp.data.None? ==> r.value.items == [])
        && r.value.totalItems == TotalItems(resp.count)
        && r.value.totalPages == TotalPages(r.value.totalItems, pageSize).value)
    ensures pageSize >= 1 && r.Success? ==>
      && r.value.totalPages >= 0
      && (r.value.totalPages == 0 <==> r.value.totalItems == 0)
      && (r.value.totalItems > 0 ==>
        (r.value.totalPages - 1) * pageSize < r.value.totalItems <= r.value.totalPages * pageSize)
  {
    match select(PageQuery(user, page, pageSize))
    case SelectRaised(reason) => Failure(Unhandled(reason))
    case Selected(data, count) =>
      var rows := GetOr(data, []);
      var totalItems := TotalItems(count);
      match TotalPages(totalItems, pageSize)
      case Failure(e) => Failure(e)
      case Success(totalPages) => Success(Paginated(MapRows(rows), totalItems, totalPages))
  }
}
