/** The request and response records (src/service/schema.py) and the pagination envelope (src/service/types.py). */
module Schema {
  import opened Wrappers

  /** The minimum password length the signup/login payload schema enforces. */
  const MinPasswordLength: nat := 6

  /** The token type every login response carries. */
  const BearerTokenType: string := "bearer"

  /** Body of /auth/signup and /auth/login. */
  datatype AuthPayload = AuthPayload(email: string, password: string)

  /** Body of a login response. */
  datatype TokenResponse = TokenResponse(accessToken: string, tokenType: string)

  /** The authenticated caller, as the identity provider reports it. */
  datatype UserInfo = UserInfo(id: string, email: Option<string>)

  /** Body of POST /api/links. */
  datatype LinkCreate = LinkCreate(title: string, url: string)

  /** A link as the API returns it. */
  datatype LinkOut = LinkOut(id: string, title: string, url: string, createdAt: string)

  /** One page of results with the counts over all pages. */
  datatype Paginated<T> = Paginated(items: seq<T>, totalItems: int, totalPages: int)

  /** A TokenResponse built with only its access token, so its token type takes the default. */
  function NewTokenResponse(accessToken: string): (r: TokenResponse)
    ensures r.accessToken == accessToken && r.tokenType == "bearer"
  {
    TokenResponse(accessToken, BearerTokenType)
  }
}
