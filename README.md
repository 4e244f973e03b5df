# Admin dashboard core, modelled in Dafny

This project models the decision logic of a small Next.js admin dashboard.
The dashboard has a product, user and category manager and a server-paged
product list.

The model covers:

- the request-time route guard;
- the client-side session store (`AuthProvider`): token, user profile, loading flag, `authToken` cookie and navigation log;
- the list logic of the Products, Manage Users and Categories pages and of the Dashboard:
  - filters
  - the `slice((p-1)*n, p*n)` page window and `Math.ceil(len/n)` page count
  - the page-reset rules
  - the image-URL field
  - form defaults
  - per-page access checks
- the paged "products with owners" endpoint;
- the login page's arithmetic CAPTCHA gate;
- the home page redirect.

The system's state is modelled as follows:

- State a page or the store changes in place is a `class`. Each class method's `ensures` gives the new state, mostly as a pure step function of the old state.
- What the source promises is proved about those step functions as lemmas.
- Network answers are parameters: credential exchange, profile fetch, list fetches and the endpoint's body.
- The CAPTCHA's random operands are parameters.
- The database behind the endpoint is an in-memory table.
- `router.push` appends to a navigation log.
- The cookie is an optional field that records its 7-day expiry as a number.

Files, one module each:

- `wrappers.dfy`: `Option`, JavaScript truthiness and `||` on optional strings.
- `text.dfy`: JavaScript string operations, on ASCII: `toLowerCase`, `includes`, `trim`, `split`, `join`, `filter`.
- `numbers.dfy`: `parseInt(s, 10)` and `parseInt(s)` without a radix (a `0x`/`0X` prefix then means hexadecimal), with NaN as `None`, and the decimal rendering of an integer.
- `paging.dfy`: `slice`, the page window, `Math.ceil` page count, Previous/Next buttons.
- `access.dfy`: the access checks the pages run once the session has loaded, and what they render meanwhile.
- `route_guard.dfy`: `middleware.js`.
- `session.dfy`: `hooks/AuthOy.js`.
- `products_page.dfy`, `manage_users_page.dfy`, `categories_page.dfy`, `dashboard_page.dfy`: the four list pages.
- `product_query.dfy`: `app/api/pwo/route.ts`.
- `login_page.dfy`: `app/login/page.js`.
- `home_page.dfy`: `app/page.js`.

## Model

| member | source | states |
|---|---|---|
| RouteGuard.Middleware | middleware.js:3-24 | Redirect to login (with `redirect` = the path) iff the path is protected and the cookie is missing or empty. Redirect to the dashboard iff the path is `/login` and a token is present. Pass through in every other case. |
| RouteGuard.RouteListsDisjoint | middleware.js:7-8 | No path is both protected and public, so at most one redirect rule applies. |
| RouteGuard.UnlistedPathPasses | middleware.js:7-23 | A path in neither list passes through with or without a token. |
| RouteGuard.ExactMatchOnly | middleware.js:7-18 | Membership is exact string equality: `/products/5`, `/dashboard/` and `/login/` are not guarded. |
| RouteGuard.OnlyPresenceMatters | middleware.js:4-18 | An empty cookie decides like a missing one, and any two non-empty tokens decide alike. |
| RouteGuard.GuardScenarios | middleware.js:10-23 | Anonymous `/dashboard` goes to login with redirect `/dashboard`. A token on `/login` goes to the dashboard. A token on `/dashboard` passes. |
| Session.InitStep | hooks/AuthOy.js:17-29 | `loading` ends false. A truthy stored cookie becomes the token, and a profile fetch for it is started but not awaited. User, cookie and navigations are untouched. |
| Session.LogoutStep | hooks/AuthOy.js:69-76 | Cookie, token and user are cleared, and `/login` is appended to the navigations. The result is not authenticated. |
| Session.FetchProfileStep | hooks/AuthOy.js:31-45 | A profile answer becomes `user`. A failure is exactly `logout`. |
| Session.LoginStep | hooks/AuthOy.js:47-67 | Returns true iff the exchange was granted. A rejection changes nothing. A grant ends with `/dashboard` as the last navigation. |
| Session.AuthProvider.constructor | hooks/AuthOy.js:11-13 | No token, no user, `loading` true, the browser's cookie as it is. |
| Session.AuthProvider.Init | hooks/AuthOy.js:17-29 | The new store state and the started fetch are `InitStep` of the old state. |
| Session.AuthProvider.FetchUserProfile | hooks/AuthOy.js:31-45 | The new state is `FetchProfileStep` of the old one. |
| Session.AuthProvider.Login | hooks/AuthOy.js:47-67 | The new state and the returned flag are `LoginStep` of the old state. |
| Session.AuthProvider.Logout | hooks/AuthOy.js:69-76 | The new state is `LogoutStep` of the old one. |
| Session.AuthenticatedIgnoresUser | hooks/AuthOy.js:84 | `isAuthenticated` is token presence only. Replacing the user never changes it, and an empty token is not signed in. |
| Session.InitWithoutStoredToken | hooks/AuthOy.js:19-27 | Without a usable cookie, startup leaves no token and no user, ends loading and starts no fetch. |
| Session.InitWithStoredToken | hooks/AuthOy.js:19-27 | With a stored token, startup sets the token and starts its fetch. Loading is already over with no profile yet, so an admin-only page sends even an admin to the dashboard. |
| Session.FailedFetchIsLogout | hooks/AuthOy.js:41-44 | A failed profile fetch has exactly the effect of `logout`. |
| Session.SuccessfulFetchKeepsToken | hooks/AuthOy.js:39 | A successful fetch sets the user and leaves token and cookie alone. |
| Session.LogoutIdempotent | hooks/AuthOy.js:69-76 | Logging out twice leaves the same state as once, apart from one more `/login` navigation. |
| Session.LoginRejectedChangesNothing | hooks/AuthOy.js:47-66 | A rejected exchange returns false and changes nothing. |
| Session.LoginGrantedProfileOk | hooks/AuthOy.js:54-62 | A granted exchange stores the token in the cookie for 7 days, sets token and user, and appends `/dashboard`. It is signed in iff the token is non-empty. |
| Session.LoginTrueButLoggedOut | hooks/AuthOy.js:43-62 | A grant whose profile fetch fails still returns true, yet ends logged out with no cookie. The log shows `/login` then `/dashboard`. |
| Session.StepsKeepConsistent | hooks/AuthOy.js:17-76 | Startup, login, logout, and a fetch made while a token is set keep "user only with a token, token only as the cookie's value". |
| Session.LateProfileAfterLogout | hooks/AuthOy.js:23-76 | A profile fetch that completes after a logout brings back a user without a token. |
| Session.AdminSignInScenario | hooks/AuthOy.js:47-62 | From a fresh store, an admin's sign-in leaves an authenticated admin session that the admin pages let through. |
| Session.RejectedSignInScenario | hooks/AuthOy.js:63-66 | From a fresh store, wrong credentials return false with no cookie and no session. |
| Access.AdminGate | app/products/page.js:377-391 | Wait iff loading. Login iff loaded and anonymous. Dashboard iff signed in but not `admin`. Fetch iff a signed-in admin. |
| Access.AdminScreen | app/manage-users/page.js:427-445 | Spinner iff loading. Content iff loaded, signed in and `admin`. Otherwise nothing. |
| Access.AdminContentOnlyWhenFetching | app/manage-users/page.js:313-327 | An admin page shows its content exactly when its effect fetches, and renders nothing exactly when it redirects. |
| Access.AuthGate | app/categories/page.js:232-242 | Wait iff loading. Login iff loaded and anonymous. Fetch iff signed in, whatever the role. |
| Access.AuthGateIgnoresRole | app/dashboard/page.js:44-52 | The open pages' check never consults the role. |
| Access.OpenScreen | app/categories/page.js:336-349 | Spinner iff loading, content otherwise. |
| Access.OpenContentBeforeRedirect | app/dashboard/page.js:44-94 | A loaded anonymous session still renders the page body while its effect redirects to login. |
| Text.Lower | app/products/page.js:463-466 | `toLowerCase` keeps the length, leaves no `A`-`Z`, lowers each upper-case ASCII letter by 32 code points and keeps every other character. |
| Text.LowerAppend | app/categories/page.js:315 | Lower-casing distributes over concatenation. |
| Text.ContainsIff | app/categories/page.js:315 | `includes` holds iff the needle occurs at some index. |
| Text.ContainsIgnoringCaseEmpty | app/products/page.js:463-466 | Every string contains the empty search text. |
| Text.Trim | app/products/page.js:41 | `trim` leaves no leading or trailing space, adds no character, and leaves trimmed input unchanged. |
| Text.TrimIsSlice | app/products/page.js:41 | The result of `trim` is a contiguous run of the input with only white space before and after it. Since that run neither starts nor ends with white space, it is the only such run. |
| Text.Split | app/products/page.js:41 | `split` yields at least one piece, none holding the separator. |
| Text.JoinSplit | app/products/page.js:41 | Splitting a join of separator-free pieces gives the pieces back. |
| Text.MapTrim | app/products/page.js:41 | `map(trim)` keeps the length and trims each entry. |
| Text.TrimmedPiecesOfJoin | app/products/page.js:161-200 | Trimmed pieces of `join(', ')` over trimmed, comma-free entries are those entries. |
| Text.Filter | app/manage-users/page.js:403-408 | `filter` keeps exactly the satisfying entries, each as often as in the input, in order. The result is a subsequence. |
| Numbers.ParseIntToString | app/dashboard/page.js:25 | Reading back a rendered integer gives that integer. |
| Numbers.ParseInt | app/api/pwo/route.ts:10-11 | Radix-10 `parseInt`: NaN iff no digit follows the white space and the sign. A number read without "-" is never negative, and one read with "-" is never positive. |
| Numbers.IntToString | app/dashboard/page.js:24-25 | An integer written into the query string is never empty. `Numbers.ParseIntToString` reads it back. |
| Numbers.ParseIntWithoutDigits | app/login/page.js:54 | A string without digits parses to NaN, with or without a radix. |
| Numbers.ParseIntAutoRadix | app/login/page.js:54 | `parseInt` without a radix agrees with radix 10 unless a `0x`/`0X` prefix follows the sign. After that prefix it is NaN exactly when no hexadecimal digit follows. |
| Numbers.ParseIntAutoRadixToString | app/products/page.js:40 | The radix-less `parseInt` reads back a rendered integer. |
| Numbers.HexPrefixScenarios | app/login/page.js:54 | Without a radix, `"0x11"` is 17, `"-0X1f"` is -31 and `"0x"` is NaN. With radix 10, `"0x11"` is 0. |
| Paging.TotalPages | app/products/page.js:471 | `Math.ceil(count / n)`: 0 iff count is 0. The pages hold every item, and the last page is non-empty. |
| Paging.JsSlice | app/products/page.js:470 | `Array.prototype.slice`: negative indices count from the end and the rest are clamped. The result is the run of the list between the clamped indices, and a plain slice when both indices lie in range. |
| Paging.PageWindow | app/products/page.js:468-470 | The rows of a page are consecutive list entries starting at the clamped `(page - 1) * perPage`, and there are never more of them than the list holds. |
| Paging.WindowOfPage | app/products/page.js:468-470 | For a page of at least 1, the window is the clamped run `[(p-1)n, pn)`. It has at most `n` items and is non-empty iff the page is in range. |
| Paging.WindowAtOffset | app/products/page.js:468-470 | The window of page `p` is the run that starts at offset `(p-1)n` and holds `n` items, clamped to the list. |
| Paging.WindowAtMostPerPage | app/manage-users/page.js:410-412 | Whatever the page number, the window holds at most `n` items. |
| Paging.PagesUpToPrefix | app/categories/page.js:319-321 | Pages `1..k` together are the first `k*n` items, in order. |
| Paging.AllPagesCoverList | app/categories/page.js:319-322 | Pages `1..totalPages` together show the whole list, each item once. |
| Paging.NextEnabledPastLastPage | app/products/page.js:670 | As written, with nothing matching, Next stays enabled and leads to a page outside the list. |
| Paging.ButtonsStayReachable | app/products/page.js:653-670 | With Next disabled from the last page on, every button leads to a reachable page. |
| Paging.PreviousDisabled | app/products/page.js:654 | On a reachable page, Previous is disabled iff the page before it is not reachable. |
| Paging.NextDisabledAsWritten | app/products/page.js:670 | As written (`currentPage === totalPages`): with at least one page, on a reachable page, Next is disabled iff the next page is unreachable. With no pages it is disabled only on page 0, so it is enabled on page 1. |
| Paging.NextDisabled | app/products/page.js:670 | Corrected: on a reachable page, Next is disabled iff the next page is unreachable, and it is disabled wherever the code as written disables it. |
| ProductsPage.FilterProducts | app/products/page.js:463-466 | Exactly the products whose title contains the search text case-insensitively, each as often as listed, in order. An empty search keeps all. |
| ProductsPage.ParseImages | app/products/page.js:41 | The image field parsed: no more entries than comma-separated pieces, and no entry empty. |
| ProductsPage.PayloadOf | app/products/page.js:34-42 | The submitted object keeps the title and description. Its category is the radix-less `parseInt` of the selection, and its image list is well formed (non-empty, trimmed, comma-free entries). |
| ProductsPage.ParsedImagesWellFormed | app/products/page.js:41 | Parsed image URLs are never empty, never padded and never hold a comma. |
| ProductsPage.ImagesRoundTrip | app/products/page.js:161-200 | For non-empty, trimmed, comma-free URLs, parsing `images.join(', ')` gives the list back. |
| ProductsPage.ParseImagesIdempotent | app/products/page.js:161-200 | Showing a parsed list in the Edit form and saving it again gives the same list. |
| ProductsPage.EmptyFieldNoImages | app/products/page.js:41 | An empty field gives no images. |
| ProductsPage.ProductsView.CurrentProducts | app/products/page.js:468-470 | The current page never holds more than `itemsPerPage` products. |
| ProductsPage.ProductsView.constructor | app/products/page.js:355-371 | No products, page 1, 10 per page, empty search. |
| ProductsPage.ProductsView.Loaded | app/products/page.js:400 | The list is replaced, and page, page size and search are kept. |
| ProductsPage.ProductsView.Paginate | app/products/page.js:474 | The page is taken as given, without a bounds check. Nothing else changes. |
| ProductsPage.ProductsView.HandleItemsPerPageChange | app/products/page.js:477-480 | The new page size applies and the page resets to 1. |
| ProductsPage.ProductsView.ChangeSearchTitle | app/products/page.js:535-538 | The new search text applies and the page resets to 1. |
| ProductsPage.ResetPageShowsFirstMatches | app/products/page.js:468-480 | After a reset, the page shows the first `itemsPerPage` matches. |
| ProductsPage.AddProductForm.constructor | app/products/page.js:12-17 | Every field starts empty and no categories are loaded. |
| ProductsPage.AddProductForm.CategoriesLoaded | app/products/page.js:19-32 | The first fetched category becomes the selection. With none, the selection stays. |
| ProductsPage.AddProductForm.Submit | app/products/page.js:34-49 | The parsed fields are handed over with a well-formed image list, then the form is cleared back to the first category. |
| ProductsPage.AddProductForm.Clear | app/products/page.js:43-48 | The texts are emptied and the selection returns to the first category, or to none. |
| ProductsPage.DefaultCategorySubmitted | app/products/page.js:40-47 | The payload built from the default selection carries the first category's id. With no category it carries NaN. |
| ManageUsersPage.FilterUsers | app/manage-users/page.js:403-408 | Exactly the users matching name, e-mail and role (case-insensitive), each as often as listed, in order. All filters empty keeps all. |
| ManageUsersPage.RoleFilterIgnoresCase | app/manage-users/page.js:406 | For every role and every filter text, lower-casing either one never changes whether they match. The empty filter keeps every role. |
| ManageUsersPage.AddUserRequest | app/manage-users/page.js:353-358 | The posted body uses `default_password` for an empty password and `customer` for an empty role. Other fields are kept. |
| ManageUsersPage.AddUserRequestIdempotent | app/manage-users/page.js:356-357 | Filling the defaults in twice changes nothing more. |
| ManageUsersPage.AddFailure | app/manage-users/page.js:364 | The error starts with "Failed to add user: " and then gives the server message, else the error message, else the hint. |
| ManageUsersPage.AddedMessageWiped | app/manage-users/page.js:330-361 | As written, a successful add leaves no success banner. |
| ManageUsersPage.AddUserStep | app/manage-users/page.js:349-366 | Corrected: on success the banner "User added successfully!" stays while the list reloads. On failure only the error shows. |
| ManageUsersPage.AddUserShowsOneBanner | app/manage-users/page.js:349-366 | After an add exactly one banner shows, whichever way it went. |
| ManageUsersPage.FetchStart | app/manage-users/page.js:330-332 | Starting a fetch turns the spinner on and clears both banners, whatever was shown before. |
| ManageUsersPage.AddUserStepAsWritten | app/manage-users/page.js:349-361 | As written: after a successful add, the spinner is on and no banner is left, because the re-fetch clears the success message. A failed add shows the failure message, which starts with "Failed to add user: ", and no success message. |
| ManageUsersPage.FetchEnd | app/manage-users/page.js:334-343 | The spinner ends. On failure the load error is shown. The success banner is kept. |
| ManageUsersPage.UsersView.CurrentUsers | app/manage-users/page.js:410-412 | The current page never holds more than `itemsPerPage` users. |
| ManageUsersPage.UsersView.constructor | app/manage-users/page.js:289-307 | No users, page 1, 10 per page, empty filters, spinner on. |
| ManageUsersPage.UsersView.StartFetch | app/manage-users/page.js:330-333 | The banners are cleared and the spinner goes on. Nothing else changes. |
| ManageUsersPage.UsersView.FinishFetch | app/manage-users/page.js:334-343 | The fetched list or the load error, and the spinner off. |
| ManageUsersPage.UsersView.HandleAddUser | app/manage-users/page.js:349-366 | Posts `AddUserRequest` of the form. The banners follow the corrected `AddUserStep`. |
| ManageUsersPage.UsersView.Paginate | app/manage-users/page.js:416 | The page is taken as given. Nothing else changes. |
| ManageUsersPage.UsersView.HandleItemsPerPageChange | app/manage-users/page.js:419-422 | The new page size applies and the page resets to 1. |
| ManageUsersPage.UsersView.ChangeSearchName | app/manage-users/page.js:477-480 | The new name filter applies and the page resets to 1. |
| ManageUsersPage.UsersView.ChangeSearchEmail | app/manage-users/page.js:491-494 | The new e-mail filter applies and the page resets to 1. |
| ManageUsersPage.UsersView.ChangeSearchRole | app/manage-users/page.js:503-506 | The new role filter applies and the page resets to 1. |
| ManageUsersPage.AddUserForm.constructor | app/manage-users/page.js:14-18 | The form starts cleared: empty texts, role `customer`, default avatar. |
| ManageUsersPage.AddUserForm.Submit | app/manage-users/page.js:20-29 | The fields are handed over, then the form is cleared back to its defaults. |
| ManageUsersPage.ClearedFormPostsDefaults | app/manage-users/page.js:24-28 | `AddUserRequest` of a cleared form carries the default password, role `customer` and the default avatar. |
| ManageUsersPage.EditFormFor | app/manage-users/page.js:134-146 | The Edit form keeps a non-empty role, falls back to `customer` for an empty one, and has no password field. |
| CategoriesPage.FilterCategories | app/categories/page.js:314-317 | Exactly the categories whose name contains the search text case-insensitively, each as often as listed, in order. An empty search keeps all. |
| CategoriesPage.LongerSearchKeepsFewer | app/categories/page.js:314-317 | Extending the search text never adds a category. |
| CategoriesPage.CategoriesView.CurrentCategories | app/categories/page.js:319-321 | The current page never holds more than `itemsPerPage` categories. |
| CategoriesPage.CategoriesView.constructor | app/categories/page.js:210-226 | No categories, page 1, 10 per page, empty search. |
| CategoriesPage.CategoriesView.Loaded | app/categories/page.js:251 | The list is replaced, and page, page size and search are kept. |
| CategoriesPage.CategoriesView.Paginate | app/categories/page.js:325 | The page is taken as given. Nothing else changes. |
| CategoriesPage.CategoriesView.HandleItemsPerPageChange | app/categories/page.js:328-331 | The new page size applies and the page resets to 1. |
| CategoriesPage.CategoriesView.ChangeSearchName | app/categories/page.js:378-381 | The new search text applies and the page resets to 1. |
| CategoriesPage.AddCategoryForm.constructor | app/categories/page.js:12-13 | Empty name and the placeholder image. |
| CategoriesPage.AddCategoryForm.Submit | app/categories/page.js:15-21 | `{name, image}` is handed over, then the name is emptied and the placeholder image restored. |
| DashboardPage.ErrorFor | app/dashboard/page.js:29-38 | No error iff success. Otherwise the server message, else "HTTP error! status: N", or the thrown message, else "An unknown error occurred". Never empty. |
| DashboardPage.PageAfter | app/dashboard/page.js:65-69 | The requested page is taken iff it lies in `1..totalPages`, so a valid page stays valid. |
| DashboardPage.Dashboard.constructor | app/dashboard/page.js:9-19 | No products, count 0, loading, no error, empty search, page 1, 5 per page. |
| DashboardPage.Dashboard.HandlePageChange | app/dashboard/page.js:65-69 | The page becomes `PageAfter` of the request. Nothing else changes. |
| DashboardPage.Dashboard.HandleItemsPerPageChange | app/dashboard/page.js:71-74 | The new page size applies and the page resets to 1. |
| DashboardPage.Dashboard.HandleSearchChange | app/dashboard/page.js:76-79 | The new search text applies and the page resets to 1. |
| DashboardPage.Dashboard.StartFetch | app/dashboard/page.js:21-25 | Loading on and the error cleared. The request carries limit = page size and offset = `(page-1)*size`. |
| DashboardPage.Dashboard.FinishFetch | app/dashboard/page.js:27-41 | Loading ends false in every outcome. Success stores the page and the total. Failure stores `ErrorFor`. |
| DashboardPage.RequestAccepted | app/dashboard/page.js:24-25 | A request from a valid dashboard is always accepted by the endpoint, which reads back the page size and offset. |
| DashboardPage.DashboardFetchWindow | app/dashboard/page.js:24-63 | The endpoint's answer is the page window over the id-ordered matches, with the total. The page is non-empty iff it lies in `1..ceil(total/size)`. |
| DashboardPage.HandlerFailureShown | app/dashboard/page.js:29-31 | When the endpoint refuses a request, the dashboard shows its failure message. |
| DashboardPage.Request | app/dashboard/page.js:24-25 | The request URL carries a limit, an offset and the search text unchanged. Limit and offset are never empty. |
| DashboardPage.Delivered | app/dashboard/page.js:27-34 | The fetch succeeds iff the handler answered OK, keeping its rows and total. A refusal becomes an HTTP error with the status and message of the handler. |
| DashboardPage.FooterIffMatches | app/dashboard/page.js:162 | After a fetch from a valid dashboard, the footer with the total shows iff some product matches the search. |
| ProductQuery.ParamOr | app/api/pwo/route.ts:10-12 | A missing or empty parameter takes the default. |
| ProductQuery.WhereClause | app/api/pwo/route.ts:14-39 | The filter is "all" iff the search is empty. Otherwise it searches for exactly the given text. |
| ProductQuery.Matches | app/api/pwo/route.ts:15-38 | No filter, or an empty search text, matches every product. |
| ProductQuery.Count | app/api/pwo/route.ts:64-66 | The total is at most the table size, and it is the table size when there is no filter. |
| ProductQuery.InsertById | app/api/pwo/route.ts:59-61 | Inserting into an id-sorted list keeps it sorted and adds exactly that row. |
| ProductQuery.SortById | app/api/pwo/route.ts:59-61 | `orderBy id asc`: a sorted permutation of the rows. |
| ProductQuery.FindMany | app/api/pwo/route.ts:41-62 | At most `take` rows, in ascending id order. |
| ProductQuery.SkipTake | app/api/pwo/route.ts:43-44 | At most `take` rows, exactly `take` when the table has enough, and none past the end. Row i is row `skip + i` of the ordered rows, so id order is kept. |
| ProductQuery.PageRowsMatch | app/api/pwo/route.ts:41-44 | Every returned row is a table row that satisfies the filter. |
| ProductQuery.OwnerLabel | app/api/pwo/route.ts:72-74 | "N/A" exactly when the join is empty, which means no owner or a single empty name. Otherwise the names joined by ", ". Never empty. |
| Text.JoinEmptyIff | app/api/pwo/route.ts:72-74 | With a non-empty separator, the join is empty iff there are no pieces or one empty piece. |
| ProductQuery.FormatAll | app/api/pwo/route.ts:68-75 | One formatted row per product, in order. |
| ProductQuery.Get | app/api/pwo/route.ts:7-90 | OK iff limit and offset parse and are non-negative. Otherwise status 500 with "Failed to fetch products with owners". The page has at most `limit` rows and no more than the total, in ascending id order. |
| ProductQuery.Respond | app/api/pwo/route.ts:41-90 | The handler once `limit` and `offset` are parsed: OK iff both parsed and are non-negative, echoing them back. Otherwise the 500 failure. The page is bounded and ascending by id. |
| ProductQuery.RespondIsWindowOfMatches | app/api/pwo/route.ts:41-82 | The page is the `[offset, offset+limit)` run of the id-ordered matches, and the total is their number. |
| ProductQuery.PageWithinMatches | app/api/pwo/route.ts:41-66 | The page never holds more rows than the count reports. |
| ProductQuery.GetIsWindowOfMatches | app/api/pwo/route.ts:41-82 | The page is the `[offset, offset+limit)` run of the id-ordered matches, and the total is their number. |
| ProductQuery.DefaultParameters | app/api/pwo/route.ts:10-12 | Without parameters, the first 10 products from offset 0, with the whole table as total. |
| ProductQuery.EmptySearchMatchesAll | app/api/pwo/route.ts:12-15 | An empty search applies no filter. |
| ProductQuery.SearchMatchesAnyField | app/api/pwo/route.ts:15-38 | A non-empty search matches iff name, brand or some owner name contains it. |
| ProductQuery.OwnerLabelScenarios | app/api/pwo/route.ts:72-74 | No owners, or one empty name, gives "N/A". One owner gives its name. Two give "Ann, Bob". `["", "Bob"]` gives ", Bob". |
| LoginPage.GenerateCaptcha | app/login/page.js:23-31 | The answer is the sum of two operands in 1..10, so it lies in 2..20. The input and the CAPTCHA message are cleared, and the empty input is never accepted. |
| LoginPage.Mounted | app/login/page.js:10-36 | After mounting, empty fields and the first CAPTCHA. |
| LoginPage.AnswerAccepted | app/login/page.js:54 | Typing the sum is accepted, as is " +sum" followed by non-digit text (`parseInt` leniency). |
| LoginPage.CaptchaAccepted | app/login/page.js:54 | A typed answer that `parseInt` reads as NaN is never accepted. Without a `0x` prefix, an answer is accepted iff its radix-10 reading equals the sum. |
| LoginPage.HexAnswerAccepted | app/login/page.js:54 | The answer check calls `parseInt` without a radix, so `"0x11"` answers a sum of 17. |
| LoginPage.NonNumericRejected | app/login/page.js:54 | Input without a digit is never accepted. |
| LoginPage.SubmitCheckAsWritten | app/login/page.js:47-59 | As written: credentials are sent iff the radix-less `parseInt` of the typed answer equals the sum. Then both messages are cleared and nothing else changes. On refusal a new CAPTCHA `n1 + n2` is drawn with an empty input, the e-mail and password are kept, and no CAPTCHA warning remains. |
| LoginPage.IncorrectCaptchaNeverShown | app/login/page.js:29-56 | As written, a wrong answer is refused with no message on screen. |
| LoginPage.SubmitCheck | app/login/page.js:47-59 | Corrected: a wrong answer draws a new CAPTCHA and shows "Incorrect CAPTCHA. Please try again.". A right one clears both messages and proceeds. |
| LoginPage.IncorrectCaptchaShown | app/login/page.js:54-56 | The corrected check differs from the written one only in the CAPTCHA message, which now shows. |
| LoginPage.Alerts | app/login/page.js:81-82 | Each alert is the login message or the CAPTCHA message. There are none iff both are empty. The login message comes first, the CAPTCHA message last, and both show when both are set. |
| LoginPage.LoginOutcome | app/login/page.js:61-68 | A refused login shows "Invalid credentials. Please try again." with a new CAPTCHA. A successful login changes nothing. |
| LoginPage.SubmitStep | app/login/page.js:47-69 | Corrected: a wrong CAPTCHA shows the warning with a new CAPTCHA and leaves the session untouched. An accepted one runs the `login` of the store. On success the form is only cleared of messages. On failure it shows "Invalid credentials. Please try again." with a new CAPTCHA. |
| LoginPage.SubmitStepAsWritten | app/login/page.js:47-69 | As written: a wrong CAPTCHA leaves the session untouched and no alert on screen, with a new CAPTCHA. An accepted answer gives exactly what the corrected `SubmitStep` gives. |
| LoginPage.WrongCaptchaKeepsSession | app/login/page.js:54-59 | A wrong answer never calls `login`: the session is untouched, as written and corrected. Only the corrected step shows the CAPTCHA warning; as written no alert is left. |
| LoginPage.RejectedCredentialsShown | app/login/page.js:61-64 | Refused credentials leave the session untouched and show only the login message. |
| LoginPage.GrantedSignsIn | app/login/page.js:61-68 | Granted credentials with a profile sign the session in. `/dashboard` is the last navigation and no alert shows. |
| LoginPage.Redirect | app/login/page.js:39-74 | A signed-in visitor is sent to `/dashboard` and shown no form. |
| LoginPage.LoginForm.constructor | app/login/page.js:11-36 | The form state is `Mounted` of the first operands. |
| LoginPage.LoginForm.ChangeCaptchaInput | app/login/page.js:113 | Only the typed answer changes. |
| LoginPage.LoginForm.ChangeEmail | app/login/page.js:90 | Only the e-mail changes. |
| LoginPage.LoginForm.ChangePassword | app/login/page.js:101 | Only the password changes. |
| LoginPage.LoginForm.Regenerate | app/login/page.js:23-31 | The state becomes `GenerateCaptcha` of the old one. |
| LoginPage.LoginForm.HandleSubmit | app/login/page.js:47-69 | Form and session together become `SubmitStep`: the corrected CAPTCHA check, then `login` only for an accepted answer. |
| HomePage.HomeRedirect | app/page.js:12-27 | No navigation while loading. Then `/dashboard` iff signed in, whatever the role, and `/login` otherwise. |
| HomePage.HomeRedirectIgnoresRole | app/page.js:17-21 | The role never changes the target. |
| HomePage.HomeAgreesWithAuthGate | app/page.js:12-27 | The home page sends to login exactly the sessions the open pages' check would, and to the dashboard exactly those it lets load. |
| HomePage.DashboardTargetOpens | app/page.js:15-21 | A session sent to the dashboard passes the dashboard's check and sees its content. |
| HomePage.HomeScreenConstant | app/page.js:30-39 | The render is "Redirecting..." whatever the session. |

## Left out

- Network and database I/O: axios, `fetch` and the ORM's `findMany`/`count`/`$disconnect`. They are parameters, or an in-memory table.
- The ORM's `contains` uses the database's collation. The model uses case-sensitive ASCII substring search.
- ProductQuery.Get, ProductQuery.Respond: a negative `limit` is modelled as refused (status 500), like a negative `offset`. The ORM's backward paging for a negative `take` is not modelled.
- Async interleavings and React effect scheduling are not modelled. Each handler runs as one atomic step, and the setters queued in one synchronous run apply in order, the last write winning.
- The dashboard's second fetch effect (`app/dashboard/page.js:54-58`) runs the same request as the first, so it is not modelled separately.
- Session.AuthProvider.Init: the profile fetch it starts is not awaited. It is returned as a token and completed later by a separate `FetchUserProfile` call.
- Floating point: `parseFloat` of the price and `toFixed` in the tables. The price is kept as text and not handed over.
- Randomness: the CAPTCHA operands are parameters restricted to 1..10.
- Unicode: `toLowerCase` and `trim` are modelled on ASCII letters and ASCII white space only.
- URL building: `encodeURIComponent` and `URL`/`searchParams`. Queries are structured fields, read back undecoded.
- The middleware `matcher` regex, the `NODE_ENV` message switch and all console logging.
- CRUD handlers other than `handleAddUser`: add, edit and delete of products and categories, and edit and delete of users. They are network calls followed by a reload. `handleAddProduct` and `handleAddCategory` show the same success-banner pattern as the `handleAddUser` finding.
- The network part of the list fetches. A failing `response.json()` on the dashboard is not modelled.
- The Edit Product modal's category selection and its category fetch. Only its image field is modelled.
- The delete and edit modals' show/hide flags and all markup other than the alerts and the three screens: spinner, nothing, content.
- HTML form validation: the `required` inputs of the Add User form and the fixed options of its role `<select>` are not modelled. The `default_password` and `customer` fallbacks of `AddUserRequest` apply only when a request is sent without that validation.
- Numbers.ParseInt: JavaScript reads numbers as doubles and the model reads exact integers. Above 2^53 `parseInt` rounds, very long digit strings read as `Infinity`, and `${n}` prints `1e+21` and above in exponent form. The same holds for `Numbers.ParseIntAutoRadix` and `Numbers.IntToString`. Only a hand-written `limit` or `offset` reaches such values; CAPTCHA answers and dashboard offsets stay small.

## Findings

| source | as written | input that shows it | evidently intended | confidence | as-written member | corrected member |
|---|---|---|---|---|---|---|
| app/login/page.js:54-56 | `setCaptchaError('Incorrect CAPTCHA...')` is followed in the same update by `generateCaptcha()`, which calls `setCaptchaError('')`. The warning is cleared before it is ever shown. | Any submission whose typed answer is wrong, e.g. "5" for "3 + 4 = ?". | The warning shows next to the new CAPTCHA. | not executed | LoginPage.IncorrectCaptchaNeverShown | LoginPage.SubmitCheck |
| app/products/page.js:670 | Next is disabled only when `currentPage === totalPages`. With no matches `totalPages` is 0, so Next is enabled on page 1 and `paginate` moves past the list. The same holds in app/manage-users/page.js:642 and app/categories/page.js:505. | A search that matches nothing, then pressing Next on page 1. | Next is disabled on and after the last page. | not executed | Paging.NextEnabledPastLastPage | Paging.ButtonsStayReachable |
| app/manage-users/page.js:360-361 | `setSuccessMessage('User added successfully!')` is followed in the same update by `fetchUsers()`, whose first statements set the success message back to "". | Any successful add. | The success banner stays while the list reloads. | not executed | ManageUsersPage.AddedMessageWiped | ManageUsersPage.AddUserStep |
