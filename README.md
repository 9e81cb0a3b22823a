# GreenWell stock management: authentication, forms and list pages

This Dafny project models the client-side logic of the GreenWell stock-management
web application (React/TypeScript), and proves properties of that model. It covers:

- **Signing in and out.** The login form and its "session limit reached" flow, in which the user
  logs out another device and the page logs in again automatically. Also the
  `useLogin`/`useLogout`/`useUser` hooks with their cookie, query-cache, toast and
  location effects, the `user_details` cookie text, the axios interceptors (headers,
  error normalisation, ending an expired session), the authentication request
  descriptors, and the react-query cache keys.
- **Routing.** The two route guards and the route table.
- **The three modal forms** for orders, parties and products: defaults, editing,
  validation and submission.
- **The list pages** for orders (table and status board), products, parties, ledger
  and accounts: their filters, totals and summaries.

One Dafny module models one source file. These shared modules support them:

- `Wrappers`: an `Option` type.
- `Strings`: the JavaScript string operations the pages use, with these edge cases
  and the abstractions listed under "Left out" (lengths count code points):
  - `trim` uses the ECMAScript whitespace set;
  - `split` and `join`;
  - `replace` with a one-character pattern;
  - `includes`;
  - `toUpperCase`/`toLowerCase` on ASCII letters only.
- `Lists`: `filter` and `reduce`-sums.
- `Decimal`: decimal text of integers.
- `Users`: the `User` record and the `JSON.stringify` text of a five-key user object.

The browser's global state is a `Browser` object with four fields:

- the cookie jar;
- the react-query cache;
- `window.location.href`;
- the list of toasts shown.

Every hook callback and interceptor that touches that state is a method on it.
Components that keep state (`useState`) are classes whose methods are the event
handlers.

## Model

| member | source | states |
|---|---|---|
| QueryKeys.AuthUser | src/lib/queryKeys.ts:3-4 | `auth.user()` extends `auth.all` by one element |
| QueryKeys.AuthSessions | src/lib/queryKeys.ts:3-5 | `auth.sessions()` extends `auth.all` by one element |
| QueryKeys.List | src/lib/queryKeys.ts:7-21 | each namespace's `list(filters)` key extends that namespace's `all` key, three elements long |
| QueryKeys.Detail | src/lib/queryKeys.ts:7-21 | each namespace's `detail(id)` key extends its `all` key, three elements long |
| QueryKeys.KeyOfInjective | src/lib/queryKeys.ts:1-22 | two constructor calls give the same key only when they are the same constructor with the same argument, so no two queries share a cache entry |
| QueryKeys.KeyPrefixes | src/lib/queryKeys.ts:1-22 | every key starts with its namespace's `all` key; keys from different namespaces differ in their first element |
| Api.AccountLogin | src/services/api/index.js:10-13 | a POST to `auth/login` whose body is the credentials, unchanged |
| Api.LogoutSession | src/services/api/index.js:20-27 | a DELETE with no body; a headers object exists exactly when the token is truthy, and it holds the raw token under `Authorization` |
| Api.LogoutSessionUrl | src/services/api/index.js:21 | the session id can be read back from the url |
| Api.EndpointsDistinct | src/services/api/index.js:5-27 | all six pairs of the four requests (`GetAuthUser` for `auth/user`, `AccountLogin`, `AccountLogout` for `auth/logout`, and `LogoutSession`) differ in method or url |
| Users.UserJsonRoundTrip | src/hooks/useAuth.ts:49 | the `user_details` cookie text, written as `JSON.stringify` writes an object with exactly the five `User` keys in declaration order, reads back as the same user, with the email present or absent |
| Users.ReadEscape | src/hooks/useAuth.ts:49 | the JSON string escaping (quotes, backslashes, control characters as `\b \f \n \r \t` or `\u00xx`) reads back as the original text |
| HttpClient.InterceptedHeaders | src/services/api/httpRequest.js:10-21 | the bypass header is always set. `Authorization` becomes `Bearer <cookie>` exactly when a non-empty token cookie exists, and is otherwise left as the caller gave it. Every other header is untouched |
| HttpClient.RequestConfig.Intercept | src/services/api/httpRequest.js:11-20 | the interceptor updates `config.headers` in place to exactly the headers above |
| HttpClient.ConflictTokenHeader | src/services/api/httpRequest.js:15-18 | a session-logout request sends the raw conflict token when no token cookie is set; a token cookie overrides it with its bearer value |
| HttpClient.RejectRequestError | src/services/api/httpRequest.js:22 | the rejection is the request-stage error itself, unchanged: its message, code and details are kept |
| HttpClient.Unwrap | src/services/api/httpRequest.js:26 | a successful response resolves to its body |
| HttpClient.RejectionOf | src/services/api/httpRequest.js:28-45 | every error with a response rejects with the server body, whatever its status; one without a response rejects with itself |
| HttpClient.HandleResponseError | src/services/api/httpRequest.js:27-46 | a 401 with code `unauthorized` removes both auth cookies and moves to `/login`; any other error leaves cookies and location alone; the cache and toasts never change |
| Auth.UserQuery | src/hooks/useAuth.ts:28-36 | the user query is enabled exactly when a non-empty token cookie exists; key `auth.user()`, no retry, 5-minute stale time |
| Auth.IsAuthenticated | src/hooks/useAuth.ts:93-98 | authenticated exactly when a user is present |
| Auth.OnLoginSuccess | src/hooks/useAuth.ts:44-61 | both cookies are set for 7 days, the user is cached under `auth.user()`, the welcome toast is added and the location is `/`. Afterwards the user is authenticated, the user query is enabled iff the token is non-empty, and the `user_details` cookie reads back as the user |
| Auth.LoginErrorToast | src/hooks/useAuth.ts:62-68 | no toast exactly for a session conflict; otherwise a destructive "Error" toast with the message, or the fallback text when the message is missing or empty |
| Auth.OnLoginError | src/hooks/useAuth.ts:62-68 | only the toast list changes, by that toast |
| Auth.OnLogoutSettled | src/hooks/useAuth.ts:78-88 | whatever the server answered: both cookies are removed, the whole cache is cleared, the toast is added and the location is `/login`. Afterwards no user is authenticated and the user query is off |
| LoginPage.CollectErrors | src/pages/Login.tsx:31-47 | a blank mobile is "required". Otherwise the mobile is rejected exactly when the count of its digits is outside 10-15. An empty password is "required" (not trimmed) |
| LoginPage.RequestOf | src/pages/Login.tsx:53-72 | a login call sends the credentials; a session-logout call sends the session id with the conflict token |
| LoginPage.LoginPage.HandleSubmit | src/pages/Login.tsx:49-66 | the error record has only "mobile" and "password" keys; "mobile" is present exactly when the mobile is not accepted, with the required message when it is blank and the invalid message otherwise; "password" is present exactly when the password is empty, with its message; valid exactly when there are no errors, and then exactly one login starts, carrying the page's conflict handler |
| LoginPage.LoginPage.HandleLoginError | src/pages/Login.tsx:56-63 | the hook's toast rule applies; a conflict on a call with the page handler opens the conflict state with the server's token and sessions; otherwise the conflict state is unchanged |
| LoginPage.LoginPage.HandleLoginSuccess | src/pages/Login.tsx:53 | a successful login has exactly the hook's effects: both cookies, the cached user, the welcome toast and the location `/`; afterwards the user is authenticated |
| LoginPage.LoginPage.HandleLogoutSession | src/pages/Login.tsx:68-72 | outside the conflict state nothing starts; inside it, one session logout starts with the conflict token |
| LoginPage.LoginPage.HandleLogoutSessionSuccess | src/pages/Login.tsx:74-79 | shows "Session cleared", closes the conflict state and starts exactly one login with the current form and no page handler |
| LoginPage.LoginPage.GoBack | src/pages/Login.tsx:190 | the conflict state closes |
| LoginPage.DeviceLabelByPosition | src/pages/Login.tsx:214 | the two splits select the text after the first '(' that comes before the first ')', up to the next '(' or the end. An empty selection gives "Unknown Device" |
| LoginPage.DeviceSegmentOccurs | src/pages/Login.tsx:214 | a non-empty device segment holds no parenthesis and occurs in the user agent right after a '(' |
| Routes.ProtectedRoute | src/App.tsx:23-27 | renders nothing while loading; afterwards renders its children exactly when authenticated, otherwise redirects (replace) to `/login` |
| Routes.PublicRoute | src/App.tsx:29-33 | renders nothing while loading; afterwards redirects (replace) to `/` exactly when authenticated, otherwise renders its children |
| Routes.GuardsExclusive | src/App.tsx:23-33 | once loading is over, exactly one of the two guards renders its children |
| Routes.Match | src/App.tsx:45-65 | only `/login` is under the public guard, exactly the dashboard paths are under the protected guard, and every other path is the not-found page |
| Routes.ResolveSettles | src/App.tsx:23-65 | after loading every path shows a screen or redirects, and a redirect's target shows a screen without redirecting again. A signed-in user sees every dashboard page; the login page shows exactly for `/login` when signed out |
| Routes.UnknownPathNotFound | src/App.tsx:65 | unmatched paths show the not-found page in every authentication state |
| OrderModal.Find | src/components/modals/OrderModal.tsx:53 | finds an entry exactly when one has the id; the entry found has that id, and no earlier entry does |
| OrderModal.UnitPrice | src/components/modals/OrderModal.tsx:53-54 | the price of the catalogue entry `find` returns for the id (always positive); 0 for an empty or unknown id, so `Total` is the sum of catalogue price times quantity |
| OrderModal.AddItemKeepsTotal | src/components/modals/OrderModal.tsx:29-56 | appending a blank row leaves the order total unchanged |
| OrderModal.UpdateItemTotal | src/components/modals/OrderModal.tsx:45-56 | replacing one row changes the total by exactly the difference of the two line totals |
| OrderModal.Without | src/components/modals/OrderModal.tsx:40 | an in-range index removes exactly that row and keeps the others in order; an out-of-range index removes nothing |
| OrderModal.RemoveItemTotal | src/components/modals/OrderModal.tsx:36-56 | removing a row takes exactly its line total off the total |
| OrderModal.QuantityInput | src/components/modals/OrderModal.tsx:125 | the typed number when it is a non-zero number, otherwise 1; never 0 |
| OrderModal.OrderErrors | src/components/modals/OrderModal.tsx:58-64 | a customer error exactly when none is selected; an items error exactly when some row has no product |
| OrderModal.OrderForm.constructor | src/components/modals/OrderModal.tsx:21-27 | the form starts with no customer and exactly one blank row |
| OrderModal.OrderForm.AddItem | src/components/modals/OrderModal.tsx:29-34 | one blank row is appended and earlier rows are unchanged; at least one row remains |
| OrderModal.OrderForm.RemoveItem | src/components/modals/OrderModal.tsx:36-43 | with one row nothing changes; otherwise the row at the index is removed. At least one row remains |
| OrderModal.OrderForm.UpdateItem | src/components/modals/OrderModal.tsx:45-49 | only the named field of the named row changes; the total moves by that row's difference |
| OrderModal.OrderForm.Validate | src/components/modals/OrderModal.tsx:58-64 | passes exactly when a customer is chosen and every row has a product |
| OrderModal.OrderForm.HandleSubmit | src/components/modals/OrderModal.tsx:66-71 | the modal closes only when validation passes |
| PartiesPage.FilteredParties | src/pages/Parties.tsx:87-93 | keeps the parties that match: name or email contain the query ignoring case, or the contact contains it as typed, and the type fits. The result is an order-preserving subsequence of matching parties exactly as long as the number of matching parties, so by `Lists.FilterUnique` each appears as often as in the input |
| PartiesPage.EmptyFilterKeepsAll | src/pages/Parties.tsx:87-93 | an empty search with every type selected keeps every party |
| PartiesPage.TotalsPartition | src/pages/Parties.tsx:95-96 | receivable plus payable equals the current balance of every party shown; the receivable total counts only receivable parties |
| PartyModal.TextOr | src/components/modals/PartyModal.tsx:15-23 | `value \|\| ''`: an absent or empty value gives the fallback |
| PartyModal.InitialForm | src/components/modals/PartyModal.tsx:14-26 | without a draft every text field is '' and the opening balance '0'. With one, each of the nine text fields is the draft's value or ''. The opening balance shows the draft's number, or '0' when absent. The check box is ticked unless the draft says false |
| PartyModal.MatchesClasses | src/components/modals/PartyModal.tsx:37 | an anchored fixed-width pattern matches exactly the strings of its length whose characters fit position by position |
| PartyModal.GstShape | src/components/modals/PartyModal.tsx:37 | an accepted GSTIN has 15 characters: 2 digits, 5 capitals, 4 digits, a capital, one of 1-9/A-Z, 'Z', a digit or capital |
| PartyModal.GstExamples | src/components/modals/PartyModal.tsx:37 | the sample GSTIN "27AABCU9603R1ZM" passes; its lower-case spelling fails |
| PartyModal.GstInput | src/components/modals/PartyModal.tsx:117-118 | at most 15 characters are kept, upper-cased |
| PartyModal.CollectErrors | src/components/modals/PartyModal.tsx:30-44 | a name error exactly when the name is blank. A GST error exactly when the GST is non-empty and does not fit the pattern. No errors exactly when both pass |
| PartyModal.SubmissionOf | src/components/modals/PartyModal.tsx:50-54 | the opening balance is parsed. In add mode the current balance equals that same number; in edit mode it is the draft's current balance, or absent |
| PartyModal.PartyModalState.HandleSubmit | src/components/modals/PartyModal.tsx:46-59 | the error record has only the `name` and `gst` keys, each exactly when that field fails and with its message. Valid exactly when the name is not blank and the GSTIN is empty or fits the pattern; only then is the form submitted and the modal closed, an invalid one leaves both alone |
| ProductsPage.FilteredProducts | src/pages/Products.tsx:39-44 | keeps the products whose name or SKU contains the query (ignoring case) in the selected category or "All": an order-preserving subsequence of matching products as long as the number of matching products (each kept as often as it occurs, by `Lists.FilterUnique`); the count shown never exceeds the total |
| ProductsPage.EmptyFilterKeepsAll | src/pages/Products.tsx:39-44 | an empty search in "All" keeps every product |
| ProductModal.PriceInput | src/components/modals/ProductModal.tsx:28 | removes the first '₹' and then the first ',' by position (`Strings.RemoveFirst`), one character each when present, keeping the rest in order; a price with neither is unchanged |
| ProductModal.InitialForm | src/components/modals/ProductModal.tsx:24-31 | no product gives category "Widgets" and minimum stock "20". A product gives its fields, the price stripped, and the numbers as decimal text |
| ProductModal.SkuInput | src/components/modals/ProductModal.tsx:79 | the SKU is upper-cased, same length |
| ProductModal.CollectErrors | src/components/modals/ProductModal.tsx:35-45 | the error record holds each of the five fields exactly when it fails, with its message: a name over 100 characters gets the length message, which replaces "required"; a blank SKU; price, stock and minimum stock empty or non-numeric. No errors exactly when all pass |
| ProductModal.ProductModalState.HandleSubmit | src/components/modals/ProductModal.tsx:47-53 | the errors are the full record `CollectErrors` describes; valid exactly when every field passes, which is exactly when there are no errors; the modal closes only then |
| OrdersPage.FilteredOrders | src/pages/Orders.tsx:56-60 | keeps the orders whose customer, id or city contains the query (ignoring case): an order-preserving subsequence of matching orders as long as the number of matching orders, so each is kept as often as it occurs (`Lists.FilterUnique`) |
| OrdersPage.EmptySearchKeepsAll | src/pages/Orders.tsx:56-60 | an empty search keeps every order |
| OrdersPage.Body | src/pages/Orders.tsx:129-136 | the "No results found." row shows exactly when the filtered list is empty |
| OrdersPage.ProductSummaryParts | src/pages/Orders.tsx:143-144 | up to two products: all names joined by ", ". More: the first two, " +", the decimal form of the count of hidden names (no leading zeros, reads back as that count), and " more" |
| OrderStatusPage.OrdersByStatus | src/pages/OrderStatus.tsx:74-80 | keeps the orders of the status whose customer or id (not city) contains the query ignoring case: an order-preserving subsequence exactly as long as the number of such orders, so each is kept as often as it occurs (`Lists.FilterUnique`) |
| OrderStatusPage.ColumnsPartition | src/pages/OrderStatus.tsx:27-80 | the five columns together hold exactly the orders that match the search, each once |
| OrderStatusPage.BadgesAddUp | src/pages/OrderStatus.tsx:151 | the column badges add up to the number of matching orders |
| OrderStatusPage.Moved | src/pages/OrderStatus.tsx:67-69 | same length; the orders with the dragged id get the new status, all others are unchanged |
| OrderStatusPage.MovePreservesBoard | src/pages/OrderStatus.tsx:65-80 | a drop keeps the number of matching orders; a moved order that matches shows in the target column and in no other |
| OrderStatusPage.OrderBoard.HandleDragStart | src/pages/OrderStatus.tsx:57-59 | remembers the dragged order |
| OrderStatusPage.OrderBoard.HandleDrop | src/pages/OrderStatus.tsx:65-72 | without a dragged order nothing changes; with one the orders are moved and the drag ends |
| LedgerPage.ClosingBalanceIsSignedSum | src/pages/Ledger.tsx:29-31 | debit plus credit totals equal all amounts, and the closing balance is the sum of the amounts signed by entry type |
| LedgerPage.ShowClosing | src/pages/Ledger.tsx:100-101 | 'Dr' exactly for a positive balance; the amount shown is the absolute value |
| LedgerPage.RowOf | src/pages/Ledger.tsx:142-149 | an entry's amount shows in the Debit column exactly for a debit and in the Credit column exactly for a credit, never both |
| AccountsPage.TotalBalanceCoversAll | src/pages/Accounts.tsx:38-40 | the total balance is the sum over all accounts; the cash total counts only cash accounts; no accounts give 0 everywhere |
| AccountsPage.SignPrefix | src/pages/Accounts.tsx:150 | '+' exactly for income, '-' exactly for expenses |
| Strings.MiddleBetweenBlanks | src/pages/Login.tsx:35 | a suffix left by trimming the start, then trimmed at the end, is a slice of the text with only whitespace on both sides; it is empty exactly when the text is all whitespace, and otherwise starts and ends with non-whitespace |
| Strings.Trim | src/pages/Login.tsx:35 | the result is a slice `s[a..b]` with only whitespace before `a` and after `b`; empty exactly when the text is all ECMAScript whitespace; otherwise it neither starts nor ends with whitespace |
| Strings.Includes | src/pages/Orders.tsx:57-59 | true exactly when the needle occurs as a contiguous block |
| Strings.Split | src/pages/Login.tsx:214 | at least one part, none containing the separator; the first part is the text before the first separator |
| Strings.RemoveFirst | src/components/modals/ProductModal.tsx:28 | `replace` with a one-character pattern drops exactly the first occurrence |
| Decimal.ParseNatString | src/pages/Orders.tsx:144 | the decimal text of a count reads back as the count |
| Lists.Filter | src/pages/Products.tsx:39-44 | keeps exactly the elements satisfying the predicate, as an order-preserving subsequence whose length is the number of satisfying elements |
| Lists.FilterUnique | src/pages/Products.tsx:39-44 | the only order-preserving subsequence made of satisfying elements and as long as their number is the filter itself, so a filter contract of that shape keeps every match as often as it occurs |
| Lists.SumPartition | src/pages/Parties.tsx:95-96 | when every element satisfies exactly one of two predicates, the two filtered sums add up to the whole sum |

## Left out

- Rendering: JSX, CSS classes, icons, the modal and dropdown components and `cn`.
  These are presentation only. The presentation-only pages and layout components are
  not part of this model.
- The axios transport, the proxy base URL and `withCredentials`. Requests are data;
  nothing is sent.
- react-query scheduling, retries and cache staleness. The options are modelled as
  values: the 5-minute stale time and 7-day cookie expiry are constants.
- Toast rendering. Toasts are appended to a list.
- js-cookie expiry mechanics. The expiry in days is recorded with the cookie.
- Navigation. Assigning `window.location.href` is modelled as setting the location
  field; the full page reload it causes, which discards the in-memory cache, is not
  modelled.
- Concurrency: overlapping mutations, the order in which responses arrive, and the
  buttons disabled while a mutation is pending.
- Date and locale formatting: `formatDate`, `formatCurrency` and `toLocaleString`.
  Amounts are shown as integers, not as locale text.
- Number parsing. `Number`/`isNaN` (product form) and `parseFloat` (party form) are
  parameters of the functions that use them. `parseInt` (order form) is an optional
  integer input. Balances and amounts are integers, not floating point.
- Unicode case folding. `toLowerCase`/`toUpperCase` change ASCII letters only.
- String lengths count Unicode code points, where JavaScript's `.length` and the HTML
  `maxLength` attribute count UTF-16 code units; the two differ for characters
  outside the Basic Multilingual Plane, such as emoji.
- ProductModal.CollectErrors: the 100-character name limit is checked on code points.
  A name of 51 emoji is 102 units long in JavaScript and gets the length message
  there; the model sees 51 characters and raises none.
- PartyModal.GstInput: `maxLength={15}` is modelled as keeping 15 code points, not 15
  UTF-16 units. A GSTIN holding characters outside the Basic Multilingual Plane
  never passes the pattern either way.
- Users.UserJson: writes exactly the five `User` keys in declaration order. The server's
  `data.user` object is assumed to have that shape; `JSON.stringify` would also
  write any further keys it carries, in their insertion order.
- The mock datasets. They are fixtures; the ledger's per-row running balance is
  stored, not computed, and nothing is stated about it.
- `src/contexts/AuthContext.tsx` and `src/hooks/useSession.ts`, thin wrappers over the
  hooks. The session-logout mutation's own error toast is not part of this model.
- The limit of three active sessions, which the server enforces and the client only
  mentions in text.
- OrderModal.OrderForm.UpdateItem: requires an index inside the list. The source
  only calls it with indices of rendered rows; an out-of-range write, which
  JavaScript would turn into a sparse array, is not modelled.
- Route matching is exact string equality on the path: no trailing-slash
  normalisation and no case-insensitivity.
- Error values that are not objects (for example a string body from the server). An
  error body is modelled by the fields callers read: `code`, `message`, `details`.
- The `notes` field of the order form, the party form's other text inputs, and the
  product form's category and name inputs are plain assignments. Only the GSTIN and
  SKU inputs, which transform what is typed, have methods.

## Source behaviour worth noting

- After a remote session is logged out, the login page logs in again with a plain
  `login(...)` call that has no per-call error handler (src/pages/Login.tsx:78). A
  second session conflict on that call therefore shows no toast and does not reopen
  the conflict view. The hook suppresses the toast for conflicts, and only the
  first call's handler sets the conflict state. `HandleLogoutSessionSuccess`
  starts a login without the page handler, and `HandleLoginError` leaves the
  conflict state closed for it.
- The device label ends at the next '(' as well as at the first ')': the code splits
  on ')' and then on '(' and takes the second piece (src/pages/Login.tsx:214).
  For `Mozilla/5.0 (a (b) c` it is `a `.
- The response error handler has separate branches for 403 and 500, but every
  branch rejects with the server body (src/services/api/httpRequest.js:36-42).
  `RejectionOf` keeps the branches and proves they agree.
