# Link bookmarks API: a Dafny model of its request handling

The system is a small HTTP API in which authenticated users create and list their own link bookmarks.
Everything durable — accounts, passwords, sessions, token checks, the `links` table — lives in an
external managed backend (Supabase). The code of its own is the mapping layer: the business functions
of `src/service/funcs.py` and the routes and credential guard of `src/service/router.py`. This project
models that layer as pure Dafny functions and proves what it promises about them.

Each call into the external service is a function parameter of the handler that makes it
(`signUp`, `signIn`, `getUser`, `insert`, `select`). So the model shows exactly what request each
handler sends, and it treats whatever comes back as arbitrary. Provider and store answers are
datatypes that name the cases the code tells apart:

- a raised exception;
- a `None` / falsy response;
- a response whose session, user or data is `None`;
- a real value.

Modules, one per source file (`Schema` covers both record files) plus two helpers:

- `Wrappers` (`wrappers.dfy`): `Option`, `Result`, and `GetOr` (the value, or a default when absent).
- `Http` (`http.dfy`): status codes, `HttpException(status, detail)`, and `Failure`. A failure is one of: an HTTPException a handler raises; an exception from the external service that no handler catches (`Unhandled`); a 422 request-validation error (`Unprocessable`).
- `Schema` (`schema.dfy`): the records of `src/service/schema.py` and the `Paginated` envelope of `src/service/types.py`.
- `Funcs` (`funcs.dfy`): signup, login, token resolution, link creation, and the pagination arithmetic and envelope of the listing.
- `Router` (`router.dfy`): the bearer guard `get_current_user`, the query-parameter bounds of `GET /api/links`, the route handlers, and the status each one answers with.

Modelling decisions:

- `ceil(total_items / page_size)` is modelled as exact integer ceiling division (`Funcs.CeilDiv`). Python divides in floating point. For counts below 2^53 the rounded quotient has the same ceiling.
- `ListLinksForUser` is total over every integer page size, as the Python function is. A page size of 0 with items raises `ZeroDivisionError`. A negative one gives Python's ceiling of a negative quotient. The route's bounds rule out both (`Router.GetLinksQueriesCallersPage`).
- Exceptions from `auth.get_user`, from the insert and from the select are not caught in the source. They become `Unhandled` and never a 401 or 500 of the handler's own. `StatusOf` gives them no status.
- FastAPI resolves a route's dependencies before it validates the route's own query parameters. So in `Router.GetLinks` the guard runs first and the 422 for bad bounds comes second.
- Refused `/me` requests are all 401 but not alike: the guard says "Not authenticated", while a token the provider does not recognise gets "Invalid or expired token" (`Router.UnauthorizedDetailsDiffer`).
- A session's token is not checked: any session yields a token response carrying its token unchanged.

## Model

| member | source | states |
|---|---|---|
| `Schema.NewTokenResponse` | src/service/schema.py:14-16 | a token response built from an access token keeps it and has token type "bearer" |
| `Funcs.SignupUser` | src/service/funcs.py:18-38 | fails exactly when the provider raises, always with 400 "Signup failed"; otherwise the fixed confirmation message, whatever the provider returned |
| `Funcs.LoginUser` | src/service/funcs.py:41-67 | succeeds exactly when the provider returns a response with a session; every failure is 401 "Invalid email or password"; success carries the session's access token unchanged with type "bearer" |
| `Funcs.LoginFailuresIndistinguishable` | src/service/funcs.py:53-63 | a raised sign-in, a None response and a None session produce the identical outcome |
| `Funcs.LoginFailureUniform` | src/service/funcs.py:46-63 | any two failing logins produce the identical outcome, whatever the provider did |
| `Funcs.GetUserFromToken` | src/service/funcs.py:70-87 | the token is what the provider is asked about; its exception propagates uncaught; a falsy response or user is exactly the 401 "Invalid or expired token"; success copies the provider's id and email |
| `Funcs.ToLinkOut` | src/service/funcs.py:111-117 | the output link's id, title, url and created_at are the row's |
| `Funcs.CreateLinkForUser` | src/service/funcs.py:91-117 | the insert carries `user.id`, the title and the url; a raised insert propagates as an uncaught failure carrying the insert's own exception; no data or empty data is exactly the 500 "Failed to create link"; otherwise the first returned row is the result |
| `Funcs.PageRange` | src/service/funcs.py:127-129 | for page >= 1 the range starts at or after 0; it always holds exactly page_size rows; page 1 starts at 0 |
| `Funcs.PagesTile` | src/service/funcs.py:127-129 | the next page starts right after this page's last row |
| `Funcs.PagesDisjoint` | src/service/funcs.py:127-129 | an earlier page's last row is before a later page's first row, so distinct pages do not overlap |
| `Funcs.PageOf` | src/service/funcs.py:127-129 | the page holding a row index is a valid 1-based page |
| `Funcs.PageOfIndex` | src/service/funcs.py:127-129 | every row index lies in the range of page PageOf(index), and in no other page's range |
| `Funcs.CeilDiv` | src/service/funcs.py:142 | the ceiling of n / d: (q-1)*d < n <= q*d for d > 0, the mirrored bounds for d < 0 |
| `Funcs.TotalItems` | src/service/funcs.py:141 | the store's count, or 0 when the count is missing |
| `Funcs.TotalPages` | src/service/funcs.py:141-142 | fails only for a zero page size with items (ZeroDivisionError); for page_size >= 1 it is non-negative, 0 exactly when there are no items, and otherwise the ceiling: (n-1)*page_size < items <= n*page_size |
| `Funcs.TotalPagesLeast` | src/service/funcs.py:142 | no smaller page count holds all items |
| `Funcs.PageHoldsRowsIff` | src/service/funcs.py:127-142 | page p starts inside the item count exactly when p <= total_pages |
| `Funcs.MapRows` | src/service/funcs.py:144-152 | one item per row, same length and order, each item's id, title, url and created_at copied from the row at the same index |
| `Funcs.MapRowsAppend` | src/service/funcs.py:144-152 | mapping the rows of two pages together gives the concatenation of the two pages' items |
| `Funcs.PageQuery` | src/service/funcs.py:127-138 | the select is on `links` with an exact count, filtered to the caller's id, ordered by created_at descending, over the page's inclusive range, which for valid inputs starts at or after 0 and holds page_size rows |
| `Funcs.ListLinksForUser` | src/service/funcs.py:120-158 | fails exactly when the store raises or the count divides by a zero page size; items are the mapped rows (none for missing data); total_items is the store's count, not the page length; total_pages meets the ceiling bounds, and is 0 exactly when there are no items |
| `Router.Lower` | src/service/router.py:23 | same length, every character lower-cased position by position |
| `Router.IsBearerScheme` | src/service/router.py:23 | a scheme passes exactly when it has six characters, each being the lower or upper case of the matching letter of "bearer" |
| `Router.Admits` | src/service/router.py:23 | the guard lets through only present credentials with a six-character scheme, and lets through "Bearer", "bearer" and "BEARER" |
| `Router.BearerSpellings` | src/service/router.py:23 | "Bearer", "BEARER" and "bearer" pass; "Basic", "Bearer " and "" do not |
| `Router.GetCurrentUser` | src/service/router.py:20-31 | absent or non-bearer credentials give 401 "Not authenticated"; otherwise the credential string goes unchanged to get_user_from_token, whose outcome it returns; a resolved user is the one the provider reported for that token |
| `Router.GuardIgnoresProvider` | src/service/router.py:23-27 | a rejected credential gets the same 401 whatever the provider would answer |
| `Router.UnauthorizedDetailsDiffer` | src/service/router.py:20-31 | a missing credential and a rejected token are both 401 but carry different details |
| `Router.SuccessStatus` | src/service/router.py:36-68 | 201 exactly for the signup and link-creation routes (their `status_code=HTTP_201_CREATED`), 200 for the others |
| `Router.StatusOf` | src/service/router.py:36-87 | a success gets the route's status, a raised HTTPException its own status, a validation failure 422; only an uncaught exception gets no status |
| `Router.ValidatePageParams` | src/service/router.py:81-83 | accepts exactly page >= 1 (default 1) and 1 <= page_size <= 100 (default 10), passing the values through; a 422 names each parameter out of bounds |
| `Router.Signup` | src/service/router.py:36-44 | the signup handler's outcome; 400 when the provider raises, 201 otherwise |
| `Router.Login` | src/service/router.py:47-52 | the login handler's outcome; 200 when a session is returned, 401 otherwise |
| `Router.Me` | src/service/router.py:55-59 | the resolved user, unchanged; 200 exactly on success, and only 200 or 401 otherwise |
| `Router.CreateLink` | src/service/router.py:64-74 | the guard's failure, or the link created for the resolved user; status 201, 401 or 500 |
| `Router.CreatedLinkOwnedByCaller` | src/service/router.py:64-74 | a created link is the first row returned by an insert that carried the id of the principal the token resolved to |
| `Router.GetLinks` | src/service/router.py:77-87 | the guard first, then the bounds, then the listing for the resolved user; status 200, 401 or 422 |
| `Router.GetLinksQueriesCallersPage` | src/service/router.py:77-87 | with the caller resolved and the bounds met, the select asks for the caller's id and page_size rows at offset (page-1)*page_size; the listing fails only if the store raises; total_pages is non-negative and 0 exactly when there are no items |

## Left out

- The Supabase calls (`auth.sign_up`, `auth.sign_in_with_password`, `auth.get_user`, and `table("links")` insert/select/eq/order/range/execute) are parameters. The model claims nothing about what the store does with a request. It does not prove the owner filter, the `created_at` descending order or the range slicing. It only proves that the request asks for them.
- Request-body validation belongs to the schema library: `EmailStr`, `HttpUrl`, and password `min_length=6`. Email and URL syntax are not modelled. The password minimum is a documented precondition of `Router.Signup` and `Router.Login`, the only state in which the framework calls them. `str(payload.url)` is taken to be the url string as given, without the library's normalisation.
- `Router.Lower`: models `str.lower()` on ASCII letters only. That is exact for the comparison with "bearer": no other character lower-cases to one of its letters.
- Parsing the `Authorization` header into scheme and credential belongs to the library. The guard receives the parsed credentials or their absence.
- Rows are records with the five columns of `links`. A row missing a key (`KeyError`) and the library's coercion of `url` and `created_at` are not modelled.
- `Funcs.CeilDiv`: exact integer ceiling, where Python uses floating-point division. The two agree for counts below 2^53.
- `Router.StatusOf`: gives no status for exceptions the handlers do not catch. The response then comes from the server framework, which this model does not include.
- Configuration loading (`src/service/config.py`), client construction (`src/service/db.py`), app bootstrap, CORS and `/healthz` (`src/main.py`) are framework and I/O plumbing. They are not part of this model.
