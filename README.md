# Kirafarm dashboard — a verified model of its session, table and chart logic

This project models the logic of a React back-office dashboard (farm shop pages
and a prison call-voucher administration) in Dafny, and proves properties of it.
It covers four groups.

- **Session.** The session keeps its tokens in `localStorage` under the keys
  `accessToken` and `refreshToken`.
  - `authFetch` sends the request with `Authorization: Bearer <token>`. On a
    401 it runs one refresh exchange and retries at most once.
  - The axios instance does the same in its interceptors, marking the request
    `_retry` first.
  - The sign-in form stores the access token and the user. It never stores a
    refresh token.
- **CRUD pages** (products, employees, customers, categories, units, sales,
  call quotas).
  - Each page keeps an in-memory list of records, validates its form, and then
    either replaces the record with the edited id or prepends a new one.
  - Status buttons change one record.
  - A filter selects rows and a slice picks the page.
  - The sales page also builds sale lines with a clamped quantity and a total.
- **Forms and navigation.**
  - The password-change and profile checks of the account page.
  - The role filter, the hidden empty parents and the submenu auto-open effect
    of the sidebar.
- **Dashboard aggregations.**
  - Prisons grouped by province, sorted by size.
  - Inmates counted per cell-block prefix, sorted by count.
  - Twelve monthly admission buckets.
  - The overview totals and the active-voucher count.
  - The three colour bands of the stock chart.

The network is an oracle. Each place that sends a request takes the reply it
will receive as a parameter: `Http.Reply` is either an answer with a status and
an optional parsed body, or a network error.

- `localStorage` is a `map<string, string>`; an absent key reads as `null`.
- Navigations (`navigate`, `window.location.href`) and outgoing requests are
  recorded in order in `Browser.Window`, so contracts can count fetches and
  refreshes.
- Ids from `Date.now()`, the invoice's random suffix, the current date and
  `confirm()` answers are parameters.

The model takes two forms.

- Pure parts (filters, validators, the groupings' specifications, the token
  arithmetic) are functions with lemmas.
- Handlers that update component state are methods on a class per component.
  - Their `ensures`, with the fields their `modifies` clauses leave out, give
    the whole new state in terms of those functions.
  - The loops of the charts (`reduce`/`forEach` into a dictionary, the
    12-slot array, the in-place sort) are `while` loops with invariants.
  - The sort is an insertion sort on an `array`, proved sorted and a
    permutation.

Modules: `Wrappers`, `Text` (trim, ASCII case folding, `includes`, `Number()`,
`String(n)`, `padStart`), `Seqs` (sums, counts, filters, distinctness, the
sort), `Http`, `Browser`, `Token`, `AuthFetch`, `Axios`, `SignIn`, `Table`
(shared record-table rules), one module per page, `Sidebar`, `UserProfiles`,
`Lapas` (the shared prison records), `OverviewMetrics`, `StatisticsChart`,
`InmateDetailsChart`, `NewInmatesChart`, `StockChart`.

The code has a few behaviours the model keeps as written.

- `axios.post('/auth/refresh')` on the bare `axios` import does not use the
  API base URL. The model logs it with `onApiBase = false`.
- `authFetch` both assigns `window.location.href` and calls `navigate` when the
  refresh fails. The model records both navigations.
- A successful login whose body has no `user` throws in the greeting after
  storing the token and the text `"undefined"`. The model therefore reports the
  connection error.

## Model

| member | source | states |
|---|---|---|
| Token.WithTokens | src/utils/token.tsx:7-10 | after `SetAuthTokens(a, r)` the store reads `a` under `accessToken` and `r` under `refreshToken`; every other key reads as before, and no other key appears |
| Token.GetAuthToken | src/utils/token.tsx:2-4 | returns the stored access token, or None exactly when there is none; changes nothing |
| Token.SetAuthTokens | src/utils/token.tsx:7-10 | the new store is the old one with both keys overwritten, whatever they held |
| Token.SetTwiceKeepsLast | src/utils/token.tsx:7-10 | a second `SetAuthTokens` wholly overrides the first |
| AuthFetch.NewTokens | src/utils/authFetch.ts:22-27 | a refresh reply is accepted iff it is ok, `success` is true, and both new tokens are present and non-empty; the pair it yields is those two tokens |
| AuthFetch.Refresh | src/utils/authFetch.ts:9-43 | no stored (or an empty) refresh token: returns false with no request, no storage change and no redirect. Otherwise one refresh post is sent. It succeeds iff `NewTokens` accepts the reply, and then stores exactly the new pair. On failure both tokens are removed and `/signin` is recorded. Other keys are never touched |
| AuthFetch.Authorization | src/utils/authFetch.ts:51-54 | the header is `Bearer <token>` when a token is stored, else the caller's header is kept |
| AuthFetch.HeaderIffToken | src/utils/authFetch.ts:47-56 | the first request goes to the given URL and carries `Bearer <stored token>` iff a non-empty token is stored, and the caller's header otherwise |
| AuthFetch.OtherStatusReturnedAsIs | src/utils/authFetch.ts:56-74 | a first response other than 401 is returned unchanged after exactly one fetch, no refresh, no storage change and no redirect |
| AuthFetch.FailedRefreshThrows | src/utils/authFetch.ts:59-65 | a 401 followed by a failed refresh throws "Session expired" after only one fetch and ends at `/signin`. Without a refresh token nothing else changes; with one, both tokens are removed and one refresh is counted |
| AuthFetch.RefreshedRequestRepeatsOnce | src/utils/authFetch.ts:67-74 | a 401 followed by a successful refresh makes exactly one more fetch, with the new token, and returns that second response whatever its status |
| AuthFetch.FirstNetworkErrorRejects | src/utils/authFetch.ts:56 | a first fetch lost on the network rejects after that one request, with no refresh, no storage change and no redirect |
| AuthFetch.RetriedNetworkErrorRejects | src/utils/authFetch.ts:67-72 | a repeated request lost on the network rejects after two requests and one refresh, keeping the new tokens and navigating nowhere |
| AuthFetch.RefreshAccessToken | src/utils/authFetch.ts:9-43 | the window's new state and the result are those `Refresh` specifies |
| AuthFetch.Fetch | src/utils/authFetch.ts:46-75 | the window's new state and the outcome are those `Run` specifies |
| Axios.Attach | src/utils/axios.ts:13-18 | the request hook adds `Bearer <token>` iff a token is stored, and otherwise forwards the config unchanged |
| Axios.RequestInterceptor | src/utils/axios.ts:12-19 | the config sent is `Attach` applied with the stored access token |
| Axios.RefreshedPair | src/utils/axios.ts:36-40 | the refresh is usable iff the reply is ok and carries `data.data`; the tokens are taken from it as they are |
| Axios.SuccessPassesThrough | src/utils/axios.ts:25 | an ok response resolves untouched after one request; storage and navigations are unchanged |
| Axios.OtherErrorsRejectedAsIs | src/utils/axios.ts:30-61 | an error that is not 401, or a 401 on a request already marked `_retry`, is rejected with the original error and changes nothing |
| Axios.AtMostOneRefresh | src/utils/axios.ts:30-50 | any request causes at most one refresh and at most two sends, and only appends to the log; a request already marked `_retry` causes no refresh and one send |
| Axios.OnErrorCounts | src/utils/axios.ts:26-62 | the error hook adds at most one refresh and one resend; on a `_retry` request it adds nothing |
| Axios.RefreshStoresAndResends | src/utils/axios.ts:33-50 | on a first 401 with a usable refresh: the refresh post carries whatever refresh token is stored, even none; both new tokens are stored; the original request is resent with the new header; the app does not navigate |
| Axios.FailedRefreshRejectsWithItsOwnError | src/utils/axios.ts:51-58 | on a refresh failure both tokens are removed, `/signin` is recorded, and the promise rejects with the refresh error, not the original one |
| Axios.Request | src/utils/axios.ts:12-62 | a request through the instance changes the window and resolves or rejects as `Dispatch` specifies |
| Axios.ResponseErrorInterceptor | src/utils/axios.ts:26-62 | the error hook changes the window and settles as `OnError` specifies |
| SignIn.Run | src/components/auth/SignInForm.tsx:21-65 | the refresh token is never written; the app navigates to `/` iff no error is shown, and otherwise does not navigate |
| SignIn.BlankFieldSendsNothing | src/components/auth/SignInForm.tsx:27-31 | a blank email or password shows the required message; nothing is sent, stored or navigated |
| SignIn.OnePostWithTrimmedEmail | src/components/auth/SignInForm.tsx:33-43 | otherwise exactly one login post goes out, with the trimmed email and the password as typed |
| SignIn.SuccessStoresAccessTokenOnly | src/components/auth/SignInForm.tsx:47-55 | on success `accessToken` holds `data.token` and `user` holds the user's JSON; no other key changes, the app navigates to `/` and no error is shown |
| SignIn.RefusalShowsMessage | src/components/auth/SignInForm.tsx:56-58 | a refused login stores nothing and shows `data.message`, or the default text when that is empty |
| SignIn.ConnectionFailureShowsConnectionMessage | src/components/auth/SignInForm.tsx:59-61 | a lost connection or a body that is not JSON shows the connection message after exactly one login post, storing nothing and navigating nowhere |
| SignIn.Form.HandleSubmit | src/components/auth/SignInForm.tsx:21-65 | the window and the error message end as `Run` specifies; loading is false on every path |
| Table.MapWhere | src/pages/Product/index.tsx:327-340 | maps over the list: matching records are transformed, the others kept, and the length is unchanged |
| Table.MapWhereTwice | src/pages/Product/index.tsx:338-348 | a change that a second change undoes on the same records leaves the list as it was |
| Table.Save | src/pages/Product/index.tsx:326-331 | editing replaces every record with the edited id and keeps the others and the length; adding prepends the new record before the old list |
| Table.EditIsUpdateAt | src/pages/Product/index.tsx:326-327 | with distinct ids, editing record k is an in-place update of index k, and the multiset changes only by that record |
| Table.EditOfMissingIdIsNoOp | src/pages/Product/index.tsx:326-327 | editing an id that is not in the list leaves it unchanged |
| Table.SliceIndex | src/pages/Product/index.tsx:370 | `slice` bounds: an index is clamped to the length, and a negative one counts from the end |
| Table.TotalPages | src/pages/Product/index.tsx:367 | `Math.ceil(n / k)`: zero iff the list is empty, and otherwise the least t with n ≤ t·k |
| Table.PageWindow | src/pages/Product/index.tsx:368-370 | page p holds at most k items: the items from (p−1)·k on, as many as remain |
| Table.EveryRowHasAPage | src/pages/Product/index.tsx:366-370 | every filtered row appears on the page `i / k + 1`, within the page count, at position `i % k` |
| Table.PageNonEmptyIffInRange | src/pages/Product/index.tsx:366-370 | a page is non-empty iff its number is at most `totalPages` |
| Table.StepsStayInRange | src/pages/Product/index.tsx:572-595 | the prev/next buttons, disabled at the ends, keep the page within 1..totalPages |
| Table.ClampedBack | src/pages/Transcation/index.tsx:346 | `Math.max(1, p - 1)` is at least 1 and is `p - 1` above page 1 |
| Table.ClampedForward | src/pages/Transcation/index.tsx:368 | `Math.min(totalPages, p + 1)` is at most totalPages and is `p + 1` below it |
| Table.Status.Flipped | src/pages/Employee/index.tsx:208 | toggling a status always changes it |
| ProductPage.PickCategory | src/pages/Product/index.tsx:309 | the chosen category is in the list, and is the one with the selected id when there is one |
| ProductPage.Submit | src/pages/Product/index.tsx:304-336 | the list changes iff every required field is filled; the code is required only when adding |
| ProductPage.EditReplacesOnlyTarget | src/pages/Product/index.tsx:311-328 | editing keeps the length and every other product, and keeps the edited product's id, status and addedDate; an empty code keeps the old code |
| ProductPage.AddPrepends | src/pages/Product/index.tsx:312-331 | adding prepends one ACTIVE product with the fresh id, the entered code and the current date; the old list follows in order |
| ProductPage.SetStatus | src/pages/Product/index.tsx:338-348 | only products with the target's id get the new status; all other fields and records are unchanged |
| ProductPage.DeactivateThenActivate | src/pages/Product/index.tsx:338-348 | deactivating and then re-activating an active product restores the list |
| ProductPage.FilteredIsShownSubsequence | src/pages/Product/index.tsx:351-364 | the filtered list keeps the original order, and holds a product iff its name or code contains the search term ignoring case and every non-empty filter matches exactly |
| ProductPage.NaNPriceHidesAll | src/pages/Product/index.tsx:359 | a price filter that is not a number matches no product |
| ProductPage.NoFiltersShowAll | src/pages/Product/index.tsx:351-364 | with every filter empty the whole list is shown |
| ProductPage.Page.constructor | src/pages/Product/index.tsx:241-256 | the page starts at page 1, ten items per page, with no filter and an empty form |
| ProductPage.Page.ResetForm | src/pages/Product/index.tsx:265-276 | clears the form and the edited product and changes nothing else |
| ProductPage.Page.HandleSubmit | src/pages/Product/index.tsx:301-336 | an accepted form stores `Submit`'s list, closes the drawer and resets the form; a refused form changes nothing |
| ProductPage.Page.HandleDeactivate | src/pages/Product/index.tsx:338-342 | on confirmation the target becomes INACTIVE; otherwise, and for everything else, nothing changes |
| ProductPage.Page.HandleActivate | src/pages/Product/index.tsx:344-348 | on confirmation the target becomes ACTIVE; otherwise nothing changes |
| ProductPage.Page.SetFilters | src/pages/Product/index.tsx:261-263 | a filter change resets the page to 1 |
| ProductPage.Page.SetItemsPerPage | src/pages/Product/index.tsx:474-481 | the page size becomes 5, 10 or 20 and the page 1 |
| ProductPage.Page.CurrentDataIsWindow | src/pages/Product/index.tsx:366-370 | the shown rows are at most a page of the filtered list, from `(p−1)·k` on |
| ProductPage.Page.GoBack | src/pages/Product/index.tsx:572-573 | the previous button moves back one page, except on page 1 |
| ProductPage.Page.GoForward | src/pages/Product/index.tsx:594-595 | the next button moves on one page, except on the last |
| EmployeePage.Submit | src/pages/Employee/index.tsx:174-177 | the list changes iff the trimmed name, email and phone are all non-empty |
| EmployeePage.SavedFieldsAreTrimmed | src/pages/Employee/index.tsx:179-188 | saved name, email and phone are non-empty and trimmed; the address is absent iff it is blank, and otherwise trimmed |
| EmployeePage.SubmitKeepsIdentity | src/pages/Employee/index.tsx:179-196 | editing replaces only the record with the same id, keeping its id, status and joinDate; adding prepends an ACTIVE record with the fresh id |
| EmployeePage.Toggle | src/pages/Employee/index.tsx:206-210 | only the target's records flip between ACTIVE and INACTIVE, flipping from the target's own status; nothing else changes |
| EmployeePage.ToggleTwiceRestores | src/pages/Employee/index.tsx:202-210 | toggling twice restores the list |
| EmployeePage.FilteredIsShownSubsequence | src/pages/Employee/index.tsx:215-225 | the filtered list keeps the order and holds exactly the employees whose name or email (ignoring case) or phone (as typed) contains the term, and whose role and status match when set |
| EmployeePage.PhoneSearchIsRaw | src/pages/Employee/index.tsx:219 | the phone matches the term as typed |
| EmployeePage.Page.constructor | src/pages/Employee/index.tsx:143-150 | the page starts with an empty form, no filter, on page 1 |
| EmployeePage.Page.HandleSubmit | src/pages/Employee/index.tsx:171-200 | an accepted form stores `Submit`'s list, closes the drawer and resets the form; a refused one changes nothing |
| EmployeePage.Page.HandleToggleStatus | src/pages/Employee/index.tsx:202-212 | on confirmation the list is `Toggle`d; otherwise nothing changes |
| EmployeePage.Page.SetFilters | src/pages/Employee/index.tsx:139-141 | a filter change resets the page to 1 |
| EmployeePage.Page.CurrentDataIsWindow | src/pages/Employee/index.tsx:227-229 | the shown rows are at most ten rows of the filtered list, from `(p−1)·10` on |
| EmployeePage.Page.GoBack | src/pages/Employee/index.tsx:391 | back one page, except on page 1; the page stays at least 1 |
| EmployeePage.Page.GoForward | src/pages/Employee/index.tsx:401 | on one page, except on the last; the page stays at least 1 |
| CustomerPage.Submit | src/pages/Customer/index.tsx:150-153 | the list changes iff the trimmed name and phone are non-empty |
| CustomerPage.SubmitKeepsPurchaseHistory | src/pages/Customer/index.tsx:155-174 | editing keeps totalPurchases and lastPurchase and changes no other customer; a new customer gets 0 and "-" and is prepended |
| CustomerPage.OptionalFieldsAbsentWhenBlank | src/pages/Customer/index.tsx:159-161 | email, address and notes are absent iff blank; a stored email is trimmed |
| CustomerPage.FilteredIsShownSubsequence | src/pages/Customer/index.tsx:106-111 | the filtered list keeps the order and holds exactly the customers whose name (ignoring case), phone (as typed) or existing email (ignoring case) contains the term |
| CustomerPage.MissingEmailIsNotSearched | src/pages/Customer/index.tsx:110 | a customer without an email is matched on name and phone only |
| CustomerPage.Page.constructor | src/pages/Customer/index.tsx:119-126 | starts with an empty form and search, on page 1 |
| CustomerPage.Page.HandleSubmit | src/pages/Customer/index.tsx:147-178 | an accepted form stores `Submit`'s list, closes the drawer and resets the form; a refused one changes nothing |
| CustomerPage.Page.SetSearch | src/pages/Customer/index.tsx:102-104 | a new search term resets the page to 1 |
| CustomerPage.Page.CurrentDataIsWindow | src/pages/Customer/index.tsx:113-117 | the shown rows are at most ten rows of the filtered list, from `(p−1)·10` on |
| CustomerPage.Page.GoBack | src/pages/Customer/index.tsx:305-306 | back one page, except on page 1; the page stays at least 1 |
| CustomerPage.Page.GoForward | src/pages/Customer/index.tsx:327-328 | on one page, except on the last; the page stays at least 1 |
| CategoryPage.Submit | src/pages/Category/index.tsx:82-85 | the list changes iff the trimmed name is non-empty |
| CategoryPage.SubmitKeepsIdentity | src/pages/Category/index.tsx:87-100 | name and description are stored trimmed; editing keeps id and status and changes no other category; a new category is ACTIVE and prepended |
| CategoryPage.Toggle | src/pages/Category/index.tsx:110-114 | only the target's records flip status; nothing else changes |
| CategoryPage.ToggleTwiceRestores | src/pages/Category/index.tsx:106-116 | toggling twice restores the list |
| CategoryPage.FilteredIsShownSubsequence | src/pages/Category/index.tsx:119-123 | the filtered list keeps the order and holds exactly the categories whose name contains the term, ignoring case, and whose status matches when set |
| CategoryPage.ActiveFilterKeepsOnlyActive | src/pages/Category/index.tsx:121 | the ACTIVE filter shows only active categories |
| CategoryPage.Page.constructor | src/pages/Category/index.tsx:62-66 | starts with an empty form, no filter, on page 1 |
| CategoryPage.Page.HandleSubmit | src/pages/Category/index.tsx:79-104 | an accepted form stores `Submit`'s list, closes the drawer and resets the form; a refused one changes nothing |
| CategoryPage.Page.HandleToggleStatus | src/pages/Category/index.tsx:106-116 | on confirmation the list is `Toggle`d; otherwise nothing changes |
| CategoryPage.Page.SetFilters | src/pages/Category/index.tsx:58-60 | a filter change resets the page to 1 |
| CategoryPage.Page.CurrentDataIsWindow | src/pages/Category/index.tsx:125-128 | the shown rows are the page slice of the filtered list: at most ten, from `(p−1)·10` on |
| CategoryPage.Page.GoBack | src/pages/Category/index.tsx:250 | back one page, except on page 1; the page stays at least 1 |
| CategoryPage.Page.GoForward | src/pages/Category/index.tsx:260 | on one page, except on the last; the page stays at least 1 |
| UnitPage.Submit | src/pages/Unit/index.tsx:82-85 | the list changes iff the trimmed short name and full name are non-empty |
| UnitPage.LowerKeepsSpaces | src/pages/Unit/index.tsx:89 | lower-casing neither creates nor removes white space |
| UnitPage.ShortNameIdempotent | src/pages/Unit/index.tsx:89 | trimming and lower-casing an already stored short name gives it back |
| UnitPage.ShortNameIsLowerCase | src/pages/Unit/index.tsx:89 | a stored short name has no upper-case letter |
| UnitPage.SubmitKeepsIdentity | src/pages/Unit/index.tsx:87-101 | the short name is non-empty and already normal; editing keeps id and status and changes no other unit; a new unit is ACTIVE and prepended |
| UnitPage.Toggle | src/pages/Unit/index.tsx:111-115 | only the target's records flip status; nothing else changes |
| UnitPage.ToggleTwiceRestores | src/pages/Unit/index.tsx:107-117 | toggling twice restores the list |
| UnitPage.FilteredIsShownSubsequence | src/pages/Unit/index.tsx:119-124 | the filtered list keeps the order and holds exactly the units whose name or full name contains the term, ignoring case, and whose status matches when set |
| UnitPage.ActiveFilterKeepsOnlyActive | src/pages/Unit/index.tsx:122 | the ACTIVE filter shows only active units |
| UnitPage.Page.constructor | src/pages/Unit/index.tsx:61-66 | starts with an empty form, no filter, on page 1 |
| UnitPage.Page.HandleSubmit | src/pages/Unit/index.tsx:80-105 | an accepted form stores `Submit`'s list, closes the drawer and resets the form; a refused one changes nothing |
| UnitPage.Page.HandleToggleStatus | src/pages/Unit/index.tsx:107-117 | on confirmation the list is `Toggle`d; otherwise nothing changes |
| UnitPage.Page.SetFilters | src/pages/Unit/index.tsx:57-59 | a filter change resets the page to 1 |
| UnitPage.Page.CurrentDataIsWindow | src/pages/Unit/index.tsx:126-127 | the shown rows are at most ten rows of the filtered list, from `(p−1)·10` on |
| UnitPage.Page.GoBack | src/pages/Unit/index.tsx:238 | back one page, except on page 1; the page stays at least 1 |
| UnitPage.Page.GoForward | src/pages/Unit/index.tsx:247 | on one page, except on the last; the page stays at least 1 |
| TransactionPage.AddItem | src/pages/Transcation/index.tsx:171-173 | appends one blank line (no product, price 0, quantity 1, subtotal 0) and keeps the rest |
| TransactionPage.FindProduct | src/pages/Transcation/index.tsx:178 | a found product is in the catalogue with that id; None means no product has it |
| TransactionPage.QuantityOf | src/pages/Transcation/index.tsx:185 | `Math.max(1, Number(v) || 1)`: at least 1, and the number typed when that is at least 1 |
| TransactionPage.UpdateItem | src/pages/Transcation/index.tsx:175-189 | after any update the subtotal is price × quantity. A known product copies its id, name and price and an unknown one changes nothing. A quantity edit keeps the product and gives a quantity of at least 1 |
| TransactionPage.RemoveItem | src/pages/Transcation/index.tsx:191-193 | deletes exactly the line at the index, keeping the order of the rest; an index out of range removes nothing |
| TransactionPage.AddItemKeepsTotal | src/pages/Transcation/index.tsx:171-195 | adding a blank line keeps subtotals consistent and the total unchanged |
| TransactionPage.UpdateItemAdjustsTotal | src/pages/Transcation/index.tsx:175-195 | updating line i keeps subtotals consistent and changes the total by exactly that line's change |
| TransactionPage.RemoveItemLowersTotal | src/pages/Transcation/index.tsx:191-195 | removing line i shifts the later lines down and lowers the total by its subtotal |
| TransactionPage.TotalIsSumOfPriceTimesQuantity | src/pages/Transcation/index.tsx:195 | with consistent lines, the total is the sum of price × quantity |
| TransactionPage.FourDigitLength | src/pages/Transcation/index.tsx:50 | a suffix in [1000, 9999] prints as four digits |
| TransactionPage.TwoDigitLength | src/pages/Transcation/index.tsx:48-49 | a zero-padded month or day is two digits that read back as the number |
| TransactionPage.InvoiceNumberFormat | src/pages/Transcation/index.tsx:45-52 | the invoice number is 17 characters `INV-YYYYMMDD-NNNN` whose digit fields read back as the year, month, day and suffix |
| TransactionPage.NewSale | src/pages/Transcation/index.tsx:200-219 | rejected iff the trimmed customer is blank, there are no lines, or a line has no product; the blank customer is reported first; otherwise a PAID sale with the trimmed name, the lines and their total |
| TransactionPage.FilteredIsShownSubsequence | src/pages/Transcation/index.tsx:226-232 | the filtered list keeps the order and holds exactly the sales whose invoice number or customer contains the term, ignoring case, and whose status matches when set |
| TransactionPage.ClampedStepsStayInRange | src/pages/Transcation/index.tsx:346-368 | the clamped prev/next buttons keep the page within [1, totalPages] |
| TransactionPage.Page.constructor | src/pages/Transcation/index.tsx:138-159 | starts on page 1 with no customer and no lines |
| TransactionPage.Page.OpenAddDrawer | src/pages/Transcation/index.tsx:161-164 | resets the form and opens the drawer |
| TransactionPage.Page.AddSaleItem | src/pages/Transcation/index.tsx:171-173 | the lines become `AddItem` of the old lines |
| TransactionPage.Page.UpdateSaleItem | src/pages/Transcation/index.tsx:175-189 | line i becomes `UpdateItem` of itself, and the other lines are unchanged |
| TransactionPage.Page.RemoveSaleItem | src/pages/Transcation/index.tsx:191-193 | the lines become `RemoveItem` of the old lines |
| TransactionPage.Page.HandleSubmitSale | src/pages/Transcation/index.tsx:197-223 | an accepted sale is prepended, and the drawer closes and the form resets; a rejected one changes nothing |
| TransactionPage.Page.SetFilters | src/pages/Transcation/index.tsx:152-154 | a filter change resets the page to 1 |
| TransactionPage.Page.CurrentDataIsWindow | src/pages/Transcation/index.tsx:234-235 | the shown rows are at most a page of the filtered list, from `(p−1)·k` on |
| TransactionPage.Page.GoBack | src/pages/Transcation/index.tsx:346-347 | back one page, never below 1 |
| TransactionPage.Page.GoForward | src/pages/Transcation/index.tsx:368-369 | on one page, never past the last; from a positive page with at least one page it stays at least 1 |
| QuotaPage.FilteredIsShownSubsequence | src/pages/Quota/index.tsx:228-243 | the filtered list keeps the order and holds exactly the vouchers matching the search on inmate name, inmate number or voucher id (ignoring case), both substring filters, and the status rule |
| QuotaPage.StatusChoicesCoverEveryVoucher | src/pages/Quota/index.tsx:237-240 | every voucher is redeemed, unused or expired, and an unused one is neither of the others |
| QuotaPage.DisplayedRows | src/pages/Quota/index.tsx:246-248 | with a filter active the rows and total are the filtered list and its length; otherwise they are the server page and the server total |
| QuotaPage.FilteredInmatesKeepsAll | src/pages/Quota/index.tsx:259-264 | the inmate search is always empty, so the dropdown keeps every inmate |
| QuotaPage.AfterLoad | src/pages/Quota/index.tsx:117-121 | a loaded reply replaces vouchers, total, page count and current page with the result's data and meta; any other outcome keeps the listing as it was |
| QuotaPage.LoadNavigations | src/pages/Quota/index.tsx:105-109 | a load navigates at most once, to `/signin`, and exactly when the session expired |
| QuotaPage.LoadedListingForgetsThePast | src/pages/Quota/index.tsx:117-121 | after a successful load the listing no longer depends on what was shown before, and shows the reply's vouchers |
| QuotaPage.LoadOutcomeOf | src/pages/Quota/index.tsx:105-124 | a 401 is a session expiry; a load succeeds iff the reply is ok with `success`, and then yields its data and meta |
| QuotaPage.GenerateRequestOf | src/pages/Quota/index.tsx:187-191 | the request carries the inmate's id, `Number(minutes)`, and the trimmed notes, which are absent when blank |
| QuotaPage.ReceiptOf | src/pages/Quota/index.tsx:194-210 | a receipt is shown iff the reply body has `success` and data |
| QuotaPage.Page.constructor | src/pages/Quota/index.tsx:62-76 | starts with no vouchers, page 1 of 1, twenty per page, no filter and an empty form |
| QuotaPage.Page.FetchVouchers | src/pages/Quota/index.tsx:96-130 | one query for that page, with the page size, is recorded. The listing becomes `AfterLoad` of the old listing and the reply, and `/signin` is recorded iff the reply is a 401. Page size and filters are kept, and the field-level frame leaves the form alone |
| QuotaPage.Page.HandleGenerate | src/pages/Quota/index.tsx:172-225 | nothing is sent without an inmate and minutes. A successful reply shows the receipt, records the query for page 1, sets the listing to `AfterLoad` of the reload reply with its navigations, clears inmate, minutes and notes, and closes the drawer. A failed one changes nothing else: listing, queries, navigations and form stay. Filters and page size are always kept |
| QuotaPage.Page.ShowReceipt | src/pages/Quota/index.tsx:196-216 | the receipt is set, page 1 is reloaded as `FetchVouchers` specifies, and the form is cleared with the drawer closed |
| QuotaPage.Page.SetFilters | src/pages/Quota/index.tsx:423-442 | a filter change resets the page to 1 |
| QuotaPage.Page.ResetFilters | src/pages/Quota/index.tsx:278-285 | clears all four filters and keeps the page size. It records one query for page 1, the listing becomes `AfterLoad` of the old listing on page 1 and the reply, with that reply's navigations. The form and receipt are unchanged |
| QuotaPage.Page.SetPageSize | src/pages/Quota/index.tsx:272-275 | the size is set and the page goes to 1. Only a changed size triggers the effect on `itemsPerPage` (lines 168-170): one query for page 1 with the new size, the listing after that reply and its navigations. An unchanged size sends nothing and keeps the listing and navigations. Filters and form are kept |
| QuotaPage.Page.GoBack | src/pages/Quota/index.tsx:571-572 | on page 1 nothing changes. Otherwise it records the query for the previous page and takes the listing after that reply and its navigations. Filters, page size and form are kept |
| QuotaPage.Page.GoForward | src/pages/Quota/index.tsx:584-585 | on the last page nothing changes. Otherwise it records the query for the next page and takes the listing after that reply and its navigations. Filters, page size and form are kept |
| UserProfiles.CheckPassword | src/pages/UserProfiles.tsx:107-123 | the checks in order: any empty field first, then a mismatch, then a new password under 8 characters |
| UserProfiles.PasswordAcceptedIff | src/pages/UserProfiles.tsx:107-131 | accepted exactly when all three fields are filled, the new password equals the confirmation, and it has at least 8 characters |
| UserProfiles.MissingFieldWins | src/pages/UserProfiles.tsx:110-113 | an empty field is reported even when other checks would fail too |
| UserProfiles.ProfileComplete | src/pages/UserProfiles.tsx:92-95 | a profile save passes iff the trimmed name, email and phone are non-empty |
| UserProfiles.Page.constructor | src/pages/UserProfiles.tsx:75-88 | both drawers are closed and the password form is empty |
| UserProfiles.Page.OpenChangePassword | src/pages/UserProfiles.tsx:79-87 | clears all three fields, hides all three, opens the drawer; nothing else changes |
| UserProfiles.Page.HandleSaveProfile | src/pages/UserProfiles.tsx:91-104 | a complete profile closes its drawer and ends not loading; an incomplete one changes nothing |
| UserProfiles.Page.HandleChangePassword | src/pages/UserProfiles.tsx:107-131 | an accepted change closes its drawer and ends not loading; a refused one changes nothing |
| Sidebar.NormalizedRole | src/layout/AppSidebar.tsx:111 | the role is upper-cased, and a missing or empty one becomes "ADMIN" |
| Sidebar.FilteredNavItemsMeaning | src/layout/AppSidebar.tsx:118-123 | the visible entries keep the menu order; an entry is visible iff it has no role list or one of its roles equals the user's, ignoring case |
| Sidebar.RoleCaseDoesNotMatter | src/layout/AppSidebar.tsx:111-121 | a role that differs from the user's only in case admits the user |
| Sidebar.VisibleSubItems | src/layout/AppSidebar.tsx:181-186 | the visible sub-entries are an order-preserving subsequence, present iff the entry has sub-entries |
| Sidebar.HiddenParentNotRendered | src/layout/AppSidebar.tsx:188-191 | a parent with sub-entries, none of them visible, is not rendered |
| Sidebar.PlainMenuShowsEverything | src/layout/AppSidebar.tsx:118-123 | entries with neither roles nor sub-entries are all shown, in order |
| Sidebar.ShippedMenuShowsEverything | src/layout/AppSidebar.tsx:48-123 | with the menu as shipped every user sees all its entries |
| Sidebar.LastMatch | src/layout/AppSidebar.tsx:141-151 | a submenu is matched iff some entry has a sub-entry whose path is the current one |
| Sidebar.LastMatchIsLast | src/layout/AppSidebar.tsx:143-149 | the matched name is that of an entry with an active sub-entry, and no later entry has one |
| Sidebar.MatchedSubmenu | src/layout/AppSidebar.tsx:141-151 | the nested scan ends with `LastMatch` |
| Sidebar.AutoOpened | src/layout/AppSidebar.tsx:153-157 | a match is opened (left open if it already is); with no match an open submenu is closed, and otherwise nothing changes |
| Sidebar.ShippedMenuClosesSubmenus | src/layout/AppSidebar.tsx:141-157 | the shipped menu has no sub-entries, so nothing ever matches and the effect closes any open submenu |
| Sidebar.State.HandleMenuClick | src/layout/AppSidebar.tsx:130-137 | the mobile sidebar is closed afterwards, and a collapsed sidebar stops being hovered |
| Sidebar.State.AutoOpenEffect | src/layout/AppSidebar.tsx:140-158 | the open submenu becomes `AutoOpened` of the visible entries' match |
| Lapas.InmatesOf | src/components/lapas/PrisonOverviewMetrics.tsx:166 | the inmate count of `_count`, falling back to 0: never negative, 0 when missing, and the stored count otherwise |
| Lapas.OfficersOf | src/components/lapas/PrisonOverviewMetrics.tsx:167 | the officer count of `_count`, falling back to 0: never negative, 0 when missing, and the stored count otherwise |
| OverviewMetrics.ActiveQuotas | src/components/lapas/PrisonOverviewMetrics.tsx:168 | the active count is at most the quota count. It equals it iff every quota is neither redeemed nor expired, and is 0 iff none is |
| OverviewMetrics.Summarise | src/components/lapas/PrisonOverviewMetrics.tsx:165-168 | totalPrisons is the prison count, the totals are non-negative, and activeQuotas is within [0, quotas] |
| OverviewMetrics.SummariseJoined | src/components/lapas/PrisonOverviewMetrics.tsx:165-168 | all four figures are additive over joined lists |
| OverviewMetrics.SummariseOfOne | src/components/lapas/PrisonOverviewMetrics.tsx:165-168 | no prisons give zeros, and one prison with one quota gives its own counts and 1 or 0; with additivity this fixes the figures of every list |
| OverviewMetrics.PrisonWithoutCountAddsOnlyItself | src/components/lapas/PrisonOverviewMetrics.tsx:166-167 | a prison without `_count` adds one prison and no inmate or officer |
| OverviewMetrics.MetricsOf | src/components/lapas/PrisonOverviewMetrics.tsx:138-170 | figures are computed iff both replies are ok with data, and are then `Summarise` of the two lists; a missing connection and a non-ok status are told apart |
| OverviewMetrics.Displayed | src/components/lapas/PrisonOverviewMetrics.tsx:201 | with no data all four shown values are 0 |
| OverviewMetrics.Overview.constructor | src/components/lapas/PrisonOverviewMetrics.tsx:185-199 | starts loading, with no data |
| OverviewMetrics.Overview.FetchMetrics | src/components/lapas/PrisonOverviewMetrics.tsx:137-179 | on success the figures are stored and no failure is reported; on a failure the old data is kept and the failure (no connection, a bad status, or a missing body) is reported; loading ends false |
| StatisticsChart.ProvinceOf | src/components/lapas/StatisticsChart.tsx:47 | a missing or empty province is "Tidak Diketahui"; the key is never empty |
| StatisticsChart.InProvinceHasIt | src/components/lapas/StatisticsChart.tsx:46-49 | every prison is in its own province's group |
| StatisticsChart.InProvinceOnlyIt | src/components/lapas/StatisticsChart.tsx:46-49 | a group holds only prisons of its province from the list |
| StatisticsChart.EachPrisonInOneGroup | src/components/lapas/StatisticsChart.tsx:46-60 | in a grouping each prison is counted in exactly one row, its province's |
| StatisticsChart.Group | src/components/lapas/StatisticsChart.tsx:46-60 | the `reduce` then `Object.keys` gives one row per province, none twice. Each row holds the count of that province's prisons and the sums of their `_count`s. The rows add up to the prison count and the two totals |
| StatisticsChart.PermutationKeepsGrouping | src/components/lapas/StatisticsChart.tsx:62 | reordering the rows keeps a grouping and its sums |
| StatisticsChart.Aggregate | src/components/lapas/StatisticsChart.tsx:46-62 | the grouping above, sorted non-increasing by prisons + inmates + officers |
| StatisticsChart.Chart.constructor | src/components/lapas/StatisticsChart.tsx:20-21 | starts loading with no data |
| StatisticsChart.Chart.FetchData | src/components/lapas/StatisticsChart.tsx:30-68 | a non-ok reply or bad body keeps the old data. Otherwise the data list, empty when missing, is aggregated: grouped, adding up and sorted. Loading ends false |
| InmateDetailsChart.BlockPrefix | src/components/lapas/inmateDetailsChart.tsx:48-53 | an inmate counts iff it has a non-empty cellBlock whose text before the first "-", trimmed, is non-empty. The key is that text upper-cased, never empty, with no "-" |
| InmateDetailsChart.Counted | src/components/lapas/inmateDetailsChart.tsx:47-54 | at most as many inmates are counted as there are |
| InmateDetailsChart.OccurrenceWitness | src/components/lapas/inmateDetailsChart.tsx:47-54 | a key with a positive count is the prefix of some inmate |
| InmateDetailsChart.ListedBlocksAreKeys | src/components/lapas/inmateDetailsChart.tsx:50-53 | no listed block is empty or contains "-" |
| InmateDetailsChart.CountBlocks | src/components/lapas/inmateDetailsChart.tsx:46-54 | the `forEach` gives one entry per prefix, none twice. Each count is at least 1 and is that prefix's number of inmates. The counts sum to the inmates with a prefix |
| InmateDetailsChart.PermutationKeepsTally | src/components/lapas/inmateDetailsChart.tsx:56 | reordering the entries keeps the tally and its sum |
| InmateDetailsChart.SortedCounts | src/components/lapas/inmateDetailsChart.tsx:46-57 | the tally above, sorted non-increasing by count |
| InmateDetailsChart.Message | src/components/lapas/inmateDetailsChart.tsx:41-63 | a lost connection shows the connection text, and a bad status shows "Gagal memuat data: " and the status |
| InmateDetailsChart.StatusReadBack | src/components/lapas/inmateDetailsChart.tsx:41 | the error message holds the status: after the prefix come digits reading back as it |
| InmateDetailsChart.LoadOutcomeOf | src/components/lapas/inmateDetailsChart.tsx:31-44 | a network error, a non-ok status (kept) and a loaded list (the data list, empty when missing) are told apart exactly |
| InmateDetailsChart.Chart.constructor | src/components/lapas/inmateDetailsChart.tsx:17-19 | starts loading with no counts and no error |
| InmateDetailsChart.Chart.FetchInmates | src/components/lapas/inmateDetailsChart.tsx:28-67 | a loaded list becomes the sorted tally with no error; a failure keeps the counts and records its error; loading ends false |
| NewInmatesChart.MonthTotals | src/components/lapas/NewInmatesChart.tsx:62-68 | exactly 12 buckets; bucket m counts exactly the inmates admitted in month m of the year |
| NewInmatesChart.MonthTotalsStep | src/components/lapas/NewInmatesChart.tsx:63-67 | one more inmate adds one to the bucket of its month if it was admitted this year, and nothing else |
| NewInmatesChart.ZerosAddUpToZero | src/components/lapas/NewInmatesChart.tsx:62 | the `Array(12).fill(0)` start sums to 0 |
| NewInmatesChart.BucketsAddUp | src/components/lapas/NewInmatesChart.tsx:63-68 | the buckets sum to the number of inmates admitted in the current year |
| NewInmatesChart.OtherYearsChangeNothing | src/components/lapas/NewInmatesChart.tsx:65 | an inmate admitted in another year, or with an unparsable date, changes no bucket |
| NewInmatesChart.AdmissionsOfPrefix | src/components/lapas/NewInmatesChart.tsx:63-67 | a bucket after k inmates depends on those k inmates only |
| NewInmatesChart.NoInmatesAllZero | src/components/lapas/NewInmatesChart.tsx:45-62 | with no inmates, for instance when `data` is missing, all twelve buckets are 0 |
| NewInmatesChart.MonthlyData | src/components/lapas/NewInmatesChart.tsx:62-68 | the 12-slot array loop ends with exactly `MonthTotals` |
| NewInmatesChart.Chart.constructor | src/components/lapas/NewInmatesChart.tsx:15-16 | starts loading with no inmates |
| NewInmatesChart.Chart.FetchInmates | src/components/lapas/NewInmatesChart.tsx:28-54 | an ok reply with a body stores the data list, empty when missing; otherwise the list is kept; loading ends false |
| StockChart.Colour | src/components/lapas/stok.tsx:32-36 | red iff stock < 20, amber iff 20 ≤ stock < 50, green iff stock ≥ 50 |
| StockChart.ColourMonotone | src/components/lapas/stok.tsx:32-36 | more stock never gets a more alarming colour |
| StockChart.Colours | src/components/lapas/stok.tsx:32-36 | one colour per item, in order, each the band of its stock |
| StockChart.Categories | src/components/lapas/stok.tsx:44 | the product names, one per item, in order |
| StockChart.Series | src/components/lapas/stok.tsx:66-71 | the stock amounts, one per item, in order |
| StockChart.BarsLineUp | src/components/lapas/stok.tsx:32-71 | the three lists have the data's length. Bar i has item i's name, and its colour is the band of its height |
| StockChart.ShippedColours | src/components/lapas/stok.tsx:5-36 | the six shipped items are coloured green, red, green, red, amber, green |
| Browser.Lookup | src/utils/token.tsx:3 | `getItem` returns the stored value, and null exactly when the key is absent |
| Browser.Window.GetItem | src/utils/authFetch.ts:10 | reads `Lookup` of the current storage and changes nothing |
| Browser.Window.SetItem | src/utils/authFetch.ts:30-31 | `setItem` overwrites one key and leaves every other key |
| Browser.Window.RemoveItem | src/utils/authFetch.ts:37-38 | `removeItem` deletes one key and leaves every other key |
| Browser.Window.Navigate | src/utils/authFetch.ts:39-40 | a navigation is appended to the record of navigations |
| Browser.CountAfterCall | src/utils/authFetch.ts:14-71 | a new call adds one to the count of its own kind (request or refresh post) and nothing to the other |
| Text.TrimFacts | src/components/auth/SignInForm.tsx:27 | `trim()` yields a string no longer than its input, with no white space at either end (JavaScript's white space and line terminators, sections 12.2 and 12.3 of ECMA-262); it is empty iff the input is all white space |
| Text.TrimIdempotent | src/pages/Employee/index.tsx:174-183 | trimming an already trimmed string changes nothing |
| Text.TrimKeepsCharacters | src/pages/Employee/index.tsx:181-183 | trimming introduces no character that was not in the input |
| Text.ToLower | src/pages/Product/index.tsx:353-354 | `toLowerCase()` keeps the length and lower-cases each ASCII letter in place |
| Text.ToUpper | src/components/lapas/inmateDetailsChart.tsx:50 | `toUpperCase()` keeps the length and upper-cases each ASCII letter in place |
| Text.ToLowerIdempotent | src/pages/Product/index.tsx:353-354 | lower-casing twice is lower-casing once |
| Text.EmptyIsEverywhere | src/pages/Product/index.tsx:352-354 | `includes("")` holds for every string, so an empty search term matches everything |
| Text.BeforeFirst | src/components/lapas/inmateDetailsChart.tsx:50 | `split("-")[0]`: the longest prefix without a "-", ending at the first "-" or at the end |
| Text.NonBlank | src/pages/Employee/index.tsx:187 | a trimmed optional field: absent iff the trimmed text is empty, and otherwise that trimmed text |
| Text.ToNumber | src/pages/Product/index.tsx:359 | `Number()` of a blank string is 0 |
| Text.NumberOfString | src/pages/Product/index.tsx:359 | `Number(String(n))` is n for every integer n |
| Text.NatToString | src/pages/Transcation/index.tsx:48-50 | `String(n)` is a non-empty run of digits without a leading zero that reads back as n |
| Text.PadStart | src/pages/Transcation/index.tsx:48-49 | `padStart` pads to the width and never shortens; padding digits with zeros keeps their value |
| Text.LeadingZeros | src/pages/Transcation/index.tsx:48-49 | leading zeros do not change the value a run of digits reads as |
| Seqs.Filter | src/pages/Product/index.tsx:351 | `filter` keeps an order-preserving subsequence whose elements all pass, as many as pass in the input |
| Seqs.FilterMembership | src/pages/Product/index.tsx:351 | an element is kept iff it was in the input and passes |
| Seqs.FilterAll | src/pages/Product/index.tsx:351-364 | when every element passes, `filter` returns the whole list |
| Seqs.CountExtremes | src/pages/Product/index.tsx:351-364 | every element passes iff the count is the length, and none does iff it is 0 |
| Seqs.SumPermutation | src/components/lapas/StatisticsChart.tsx:62 | reordering a list does not change a sum over it |
| Seqs.SumUpdate | src/pages/Transcation/index.tsx:187-195 | replacing one element changes the sum by exactly the difference |
| Seqs.SumRemoveAt | src/pages/Transcation/index.tsx:192-195 | removing one element lowers the sum by exactly its value |
| Seqs.Swap | src/components/lapas/StatisticsChart.tsx:62 | exchanges two cells, leaves every other cell, and keeps the multiset |
| Seqs.SinkDown | src/components/lapas/StatisticsChart.tsx:62 | one insertion step: the sorted prefix grows by one and the multiset is unchanged |
| Seqs.SortDescending | src/components/lapas/StatisticsChart.tsx:62 | `sort((a, b) => key(b) - key(a))` leaves the array non-increasing by the key and a permutation of its old contents |
| Seqs.PermutationKeepsDistinct | src/components/lapas/inmateDetailsChart.tsx:56 | reordering keeps the keys distinct |

## Left out

- Transport and storage internals are replaced by the oracle reply and the
  storage map: `fetch`, axios, JSON parsing, `localStorage` and HTTP headers
  other than Authorization.
- Requests sent by the CRUD pages' quota fetch and by the dashboard charts are
  not logged in `Browser.Window`. Their `Bearer ${token}` header (which reads
  "Bearer null" without a token) is not modelled.
- useNavigate() is called inside `authFetch`, which is not a component. That
  hook misuse cannot be expressed; its `navigate` is recorded like any other
  navigation.
- Several 401s racing to refresh at the same time are not modelled. Each
  request is one sequential run, and the quota page's reload after a generate
  runs to completion before the form is cleared.
- Rendering is not modelled: JSX, ApexCharts options, toasts, the clipboard,
  `setTimeout` delays and loading skeletons.
- confirm() is a boolean parameter.
- Date.now() ids, `Math.random` and the clock are parameters. The model does
  not guarantee that ids are unique, and neither does the code.
- new Date(admissionDate) is abstracted to a (year, month) pair, with None
  for a date that does not parse.
- The dummy data that seeds the farm pages is not transcribed; the pages'
  constructors take the initial list.
- Floating point is not modelled: the percentage series of the inmate-per-prison
  chart, `Math.round`/`toFixed` in the sales report, and `Intl.NumberFormat`
  and `toLocaleDateString` formatting. Prices and quantities are integers.
- Text.ToNumber: `Number()` is modelled for an optionally signed run of
  decimal digits, with a blank string giving 0 and anything else NaN. Decimals,
  exponents and hexadecimal are not modelled.
- Case folding is ASCII only. String lengths count characters, where
  JavaScript counts UTF-16 code units.
- toggleSubmenu and `toggleMobileSidebar` come from the sidebar context,
  which is not part of this model. They are taken to toggle (`prev === name ?
  null : name`, and `!open`).
- UserProfiles.Page.HandleSaveProfile: the source stores nothing either. The
  profile shown never changes and no password is sent anywhere.
- StatisticsChart.Aggregate and InmateDetailsChart.SortedCounts: the order
  of rows with equal keys is not stated, so a stable sort is not proved.
- Object.fromEntries ordering of integer-like keys is not modelled; the block
  tally is an ordered list of pairs. Likewise `Object.keys` insertion order is
  the order rows are opened in.
- SignIn.Run: a reply whose `user` is `null` has the source store the text
  `"null"` under `user` before the greeting throws. The parsed body's `Option`
  cannot tell `null` from a missing user, so the model stores `"undefined"`
  there. The error shown is the same either way.
- InmateDetailsChart.Message: a body that is not JSON shows the parser's own
  message text. The model does not render that text and returns None.
- Pages without logic are not modelled: sales report, top products, sign-up,
  profile cards, home and route table.
