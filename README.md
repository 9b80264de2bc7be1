# B2B marketplace pages — a Dafny model of their data logic

The system is a browser-only marketplace where companies register, offer
products, buy from each other and follow their transactions, with an
administrator who approves companies and products and sets discounts. All
state lives in `localStorage` under the keys `companies`, `products`,
`transactions`, `users`, `currentUser` and `currentAdmin`. Each page has a
small "system" class that loads those keys, computes over them and writes
some of them back.

This project models the logic under the pages:

- the CNPJ (Brazilian company identifier) check-digit validator and the
  CNPJ, phone and CEP input masks (`cnpj.dfy`, `masks.dfy`);
- the two registration pages: uniqueness checks, ordered validation
  chains and the append-only inserts (`register.dfy`,
  `company_register.dfy`);
- the administrator's approvals, discount updates, pending/approved views
  and totals (`admin.dfy`);
- the catalog's product filter, statistics, product creation and the
  purchase record (`catalog.dfy`);
- the transaction page's user-scoped filters, newest-first order and
  summary (`transactions.dfy`);
- the dashboard's totals, recent transactions and top sellers
  (`dashboard.dfy`);
- the company and administrator sign-in state (`login.dfy`,
  `admin_login.dfy`).

Supporting modules:

- `common.dfy`: `Option`.
- `seqs.dfy`: `Array.prototype` `filter`, `find`, `some`, `map`, `reduce`,
  stable `sort` and `slice`.
- `text.dfy`: the string built-ins the pages call.
- `numbers.dfy`: `Math.round` of a mean.
- `records.dfy`: the stored records.
- `storage.dfy`: `localStorage` as one object holding an optional list per
  key. Every system keeps a reference to it, so a write by one page is seen
  by the others.

Pure JavaScript (`filter`/`reduce` chains, predicates) is written as
functions. The classes keep the fields the source mutates: `companies`,
`products`, `transactions`, `users`, `currentFilters`, `currentUser` and
`currentAdmin`. Their methods carry `modifies` clauses and state the whole
new state. Where a source method reassigns a local step by step
(`getFilteredProducts`, `getFilteredTransactions`, the two loops of
`validateCNPJ`), the model is a method with that loop or chain, proved equal
to a specification function. Facts about that function are then proved as
lemmas.

Three facts about the source fall out of the proofs:

- The register page seeds its first company with the CNPJ
  `12.345.678/0001-90`. That identifier fails the page's own validator:
  its second check digit computes to 5 (`Cnpj.RejectsSeededCnpj`).
- The duplicate-CNPJ check compares the stored text, not the digits
  (`Register.SameDigitsOtherPunctuation`). Through the forms this does
  not matter: the field is re-masked on every input event, and the mask
  is canonical for 14 digits (`Masks.FormatCnpjComplete`,
  `Masks.FormatCnpjIdempotent`). The gap shows only against a record
  stored without the mask, such as one written to storage by other code.
- The sign-in page only knows its one hard-coded account. Users added by
  the register page cannot sign in there (`Login.OnlyDemoAccount`).

## Model

| member | source | states |
|---|---|---|
| Cnpj.ValidateCnpj | js/register.js:100-128 | `validateCNPJ` (the copy in js/company-register.js is the same code) returns true exactly when the digits left after stripping every non-digit are 14, are not all one digit, and both check digits match; the two loops keep `sum` equal to the weighted sum so far and `weight` equal to the cycle value |
| Cnpj.Weight | js/register.js:107-124 | the weight cycle of both loops (each step from 2 to 9, otherwise down by one), starting at 5 or 6, never leaves 2..9 |
| Cnpj.FirstSumWeights | js/register.js:107-113 | the first sum weighs the twelve base digits by 5,4,3,2,9,8,7,6,5,4,3,2 |
| Cnpj.SecondSumWeights | js/register.js:118-124 | the second sum weighs the first thirteen digits by 6,5,4,3,2,9,8,7,6,5,4,3,2 |
| Cnpj.CheckDigit | js/register.js:115 | the check digit lies in 0..9; it is 0 when the sum leaves remainder 0 or 1 mod 11, and otherwise completes the sum to a multiple of 11 |
| Cnpj.WeightedSumPrefix | js/register.js:110-113 | the weighted sum over n digits depends only on those n digits |
| Cnpj.CheckDigitsDetermined | js/register.js:107-127 | two accepted identifiers with the same twelve base digits have the same fourteen digits |
| Cnpj.ZeroSum | js/register.js:110-113 | the weighted sum of zeros is 0 |
| Cnpj.ZerosPassTheChecksum | js/register.js:104 | fourteen zeros carry correct check digits, so only the repeated-digit rule rejects them |
| Cnpj.DigitsOfMask | js/register.js:101 | stripping the non-digits from a dd.ddd.ddd/dddd-dd identifier leaves its fourteen digits |
| Cnpj.KnownValidFirstSum | js/register.js:110-113 | the first weighted sum of `11222333000181` is 102 |
| Cnpj.KnownValidSecondSum | js/register.js:121-124 | the second weighted sum of `11222333000181` is 120 |
| Cnpj.KnownValidDigits | js/register.js:103-127 | `11222333000181` passes every check |
| Cnpj.AcceptsKnownValid | js/register.js:100-128 | `11.222.333/0001-81` strips to `11222333000181` and is accepted |
| Cnpj.AcceptsKnownValidDigits | js/register.js:100-128 | the same identifier typed as bare digits `11222333000181` is accepted too |
| Cnpj.SeededFirstSum | js/register.js:110-113 | its first weighted sum is 222 |
| Cnpj.SeededSecondSum | js/register.js:121-124 | its second weighted sum is 237 |
| Cnpj.SeededDigits | js/register.js:115-127 | its first check digit is 9 and matches; its second computes to 5, not the 0 it carries, so it is rejected |
| Cnpj.RejectsSeededCnpj | js/register.js:9 | the seeded company's identifier `12.345.678/0001-90` strips to `12345678000190` and is rejected by the validator |
| Masks.FormatCnpj | js/register.js:80-88 | `formatCNPJ` output has at most 18 characters |
| Masks.CnpjLayoutDigits | js/register.js:83-86 | the layout only inserts `.`, `/` and `-`: its digits are the input digits |
| Masks.CnpjLayoutTruncated | js/register.js:87 | truncating to 18 characters is the layout of the first 14 digits |
| Masks.CnpjLayoutCut | js/register.js:87 | past 14 digits, the first 18 characters are the layout of the first 14 |
| Masks.FormatCnpjDigits | js/register.js:80-88 | the digits of the output are the first (at most 14) digits of the input |
| Masks.FormatCnpjComplete | js/register.js:80-88 | 14 digits become `dd.ddd.ddd/dddd-dd` |
| Masks.FormatCnpjKeepsValidity | js/register.js:80-128 | with at most 14 digits in the input, masking does not change what the validator answers |
| Masks.FormatCnpjIdempotent | js/register.js:80-88 | masking a masked value changes nothing (the field is re-masked on every keystroke) |
| Masks.FormatPhone | js/register.js:91-97 | `formatPhone` output has at most 15 characters |
| Masks.PhoneLayoutDigits | js/register.js:94-95 | the phone layout only inserts `(`, `)`, a space and `-` |
| Masks.PhoneLayoutTruncated | js/register.js:96 | truncating to 15 characters is the layout of the first 11 digits |
| Masks.FormatPhoneDigits | js/register.js:91-97 | the digits of the output are the first (at most 11) digits of the input |
| Masks.FormatPhoneComplete | js/register.js:91-97 | 11 digits become `(dd) ddddd-dddd` |
| Masks.FormatPhoneIdempotent | js/register.js:91-97 | masking a masked phone changes nothing |
| Masks.FormatCep | js/company-register.js:81-86 | `formatCEP` output has at most 9 characters |
| Masks.CepLayoutDigits | js/company-register.js:84 | the CEP layout only inserts `-` |
| Masks.CepLayoutTruncated | js/company-register.js:85 | truncating to 9 characters is the layout of the first 8 digits |
| Masks.FormatCepDigits | js/company-register.js:81-86 | the digits of the output are the first (at most 8) digits of the input |
| Masks.FormatCepComplete | js/company-register.js:81-86 | 8 digits become `ddddd-ddd` |
| Masks.FormatCepIdempotent | js/company-register.js:81-86 | masking a masked CEP changes nothing |
| Register.EmailExists | js/register.js:67-69 | true exactly when some user has that email; companies are not consulted |
| Register.CnpjExists | js/register.js:71-73 | true exactly when some company stores exactly that identifier text |
| Register.ValidateForm | js/register.js:190-249 | the form is accepted exactly when no check fails; otherwise the error is one that fails and every check earlier in the order name, CNPJ valid, CNPJ unused, `@` in email, email unused, password of 6+, confirmation, representative, phone, description passes |
| Register.AcceptedFormIsFresh | js/register.js:203-231 | an accepted form has a valid identifier no company stores, an email with `@` no user has, and a confirmed password of at least 6 characters |
| Register.SameDigitsOtherPunctuation | js/register.js:71-73 | a stored `11.222.333/0001-81` does not block `11222333000181`, which has the same digits |
| Register.DataSystem.constructor | js/register.js:3-30 | loads both keys, falling back to the seeded company and the demo user when a key is absent |
| Register.DataSystem.AddCompany | js/register.js:32-44 | appends exactly one company awaiting approval, leaves users alone, and writes the companies key |
| Register.DataSystem.AddUser | js/register.js:46-57 | appends exactly one user with role `company`, leaves companies alone, and writes the users key |
| Register.AppendKeepsCnpjsUnique | js/register.js:208-211 | appending a company whose identifier is unused keeps identifiers unique |
| Register.AppendKeepsEmailsUnique | js/register.js:218-221 | appending a user whose email is unused keeps emails unique |
| Register.Submit | js/register.js:146-187 | a rejected form changes no state; an accepted one appends the pending company and a user for its representative linked to it, and keeps identifiers and user emails unique |
| CompanyRegister.EmailExists | js/company-register.js:31-34 | true exactly when some user or some company has that email |
| CompanyRegister.ValidateForm | js/company-register.js:158-206 | accepted exactly when no check fails; otherwise the error is one that fails and every earlier check in the order name, CNPJ valid, CNPJ unused, area, description, representative, `@` in email, email unused, phone passes |
| CompanyRegister.AcceptedFormIsFresh | js/company-register.js:165-198 | an accepted form has a valid identifier no company stores and an email no user and no company has |
| CompanyRegister.CompanyRegistrationSystem.constructor | js/company-register.js:3-10 | an absent key loads as an empty list |
| CompanyRegister.CompanyRegistrationSystem.AddCompany | js/company-register.js:17-29 | appends exactly one company awaiting approval; users are unchanged; both keys are written |
| CompanyRegister.Submit | js/company-register.js:235-261 | a rejected form changes nothing; an accepted one appends one pending company built from the form, writes the companies and users keys, and keeps identifiers unique |
| AdminDashboard.HasCompany | js/admin-dashboard.js:21 | `find` by id succeeds exactly when some company has that id |
| AdminDashboard.HasProduct | js/admin-dashboard.js:31 | `find` by id succeeds exactly when some product has that id |
| AdminDashboard.ApproveCompanyIn | js/admin-dashboard.js:20-28 | the first company with that id becomes approved and nothing else changes; with no such company the list is unchanged |
| AdminDashboard.ApproveProductIn | js/admin-dashboard.js:30-38 | the same for products |
| AdminDashboard.SetDiscountIn | js/admin-dashboard.js:40-48 | the first product with that id gets the discount, with no range check; nothing else changes |
| AdminDashboard.ApproveCompanyIdempotent | js/admin-dashboard.js:20-28 | approving a company twice is approving it once |
| AdminDashboard.ApproveProductIdempotent | js/admin-dashboard.js:30-38 | approving a product twice is approving it once |
| AdminDashboard.SetDiscountLastWins | js/admin-dashboard.js:40-48 | of two discount updates on one product the last one wins |
| AdminDashboard.CompaniesPartition | js/admin-dashboard.js:50-56 | pending and approved companies are disjoint, keep the stored order, and together are the whole list (lengths and multiset) |
| AdminDashboard.ProductsPartition | js/admin-dashboard.js:58-64 | the same for products |
| AdminDashboard.ApprovedCompanyIsListed | js/admin-dashboard.js:20-56 | after approving an existing id, a company with that id is among the approved |
| AdminDashboard.ApprovedProductIsListed | js/admin-dashboard.js:30-64 | after approving an existing id, a product with that id is among the approved |
| AdminDashboard.GetStats | js/admin-dashboard.js:66-76 | counts every company and product, approved or not (pending plus approved); the volume is the sum of every transaction's final price, a missing one counting as 0, 0 with none and not negative when no final price is |
| AdminDashboard.DiscountGuard | js/admin-dashboard.js:315-322 | a value is passed on only when it lies in 0..50 and is the parsed input (NaN read as 0); otherwise the parsed input is outside 0..50 |
| Text.ParseIntDigits | js/admin-dashboard.js:317 | `parseInt` reads a numeral back as its value |
| Text.ParseIntNegative | js/admin-dashboard.js:317 | `parseInt` reads a minus sign followed by a numeral as the negated value |
| AdminDashboard.DiscountGuardNotANumber | js/admin-dashboard.js:317 | an empty or non-numeric input becomes discount 0 |
| AdminDashboard.DiscountGuardInRange | js/admin-dashboard.js:317-324 | `25` is applied as 25 |
| AdminDashboard.DiscountGuardTooHigh | js/admin-dashboard.js:319-322 | `60` is refused |
| AdminDashboard.DiscountGuardNegative | js/admin-dashboard.js:319-322 | `-5` is refused |
| AdminDashboard.AdminSystem.constructor | js/admin-dashboard.js:3-12 | an absent key loads as an empty list |
| AdminDashboard.AdminSystem.SaveData | js/admin-dashboard.js:14-18 | the companies, products and transactions keys are written from the fields; users are not |
| AdminDashboard.AdminSystem.ApproveCompany | js/admin-dashboard.js:20-28 | returns true exactly when some company has the id; the list becomes the approved-in-place list; storage is written only on success |
| AdminDashboard.AdminSystem.ApproveProduct | js/admin-dashboard.js:30-38 | the same for products |
| AdminDashboard.AdminSystem.UpdateProductDiscount | js/admin-dashboard.js:40-48 | returns true exactly when some product has the id; sets its discount; storage is written only on success |
| AdminDashboard.ApplyDiscount | js/admin-dashboard.js:315-330 | an out-of-range input changes nothing and calls no update; otherwise the parsed value is set on the first matching product and the data is saved when the product exists; users, companies and transactions are kept |
| AdminDashboard.CheckAdminAuth | js/admin-dashboard.js:83-90 | yields an administrator exactly when one is signed in |
| AdminDashboard.AdminLogout | js/admin-dashboard.js:93-96 | removes the signed-in administrator and nothing else |
| Catalog.FilteredAreApproved | js/catalog.js:48-49 | every filtered product is approved, and the result is a subsequence of the approved products |
| Catalog.NoFiltersListsApproved | js/catalog.js:48-82 | with every filter empty the result is exactly the approved products in order |
| Catalog.FilteredMatch | js/catalog.js:52-79 | with a search term every result contains it, lower-cased, in name, description or tags; with a category every result has it; with a price range every price is in the band |
| Catalog.FilteredIdempotent | js/catalog.js:48-82 | filtering the result again with the same filters returns it unchanged |
| Catalog.PriceBand | js/catalog.js:69-75 | `lo-hi` with hi > 0 keeps exactly the prices in [lo, hi] |
| Catalog.PriceFrom | js/catalog.js:69-77 | `lo-` (max empty, so 0) keeps exactly the prices of at least lo |
| Catalog.PriceZeroMax | js/catalog.js:69-77 | `lo-0` keeps exactly the prices of at least lo |
| Catalog.GetStats | js/catalog.js:84-96 | the totals are the approved products and companies; the mean discount is the rounded mean of the approved discounts, 0 with none and in 0..50 when every approved discount is |
| Catalog.NewProductIdsDiffer | js/catalog.js:35 | products added at different moments get different ids |
| Catalog.NewProduct | js/catalog.js:32-40 | a new product carries every form field, the signed-in company, discount 0, id `prod` + the clock reading and that reading as creation time, and is not approved |
| Catalog.AddingPendingKeepsCatalog | js/catalog.js:32-96 | adding an unapproved product changes neither the filtered list nor the statistics |
| Catalog.Purchase | js/catalog.js:277-287 | the transaction is completed, links buyer, seller and product, snapshots price and discount, and its final price plus the discount amount is the price (so it lies in [0, price] for a discount in 0..100) |
| Catalog.CatalogSystem.constructor | js/catalog.js:3-12 | loads the keys and starts with every filter empty |
| Catalog.CatalogSystem.LoadData | js/catalog.js:14-18 | reloads the keys and keeps the filters |
| Catalog.CatalogSystem.AddProduct | js/catalog.js:32-46 | with a signed-in user, appends exactly one new product and writes the products key; otherwise nothing changes |
| Catalog.CatalogSystem.GetFilteredProducts | js/catalog.js:48-82 | the step-by-step filtering equals the conjunctive filter over the approved products |
| Catalog.CatalogSystem.SearchProducts | js/catalog.js:182-186 | sets only the search filter |
| Catalog.CatalogSystem.FilterProducts | js/catalog.js:189-197 | sets only the category and price filters |
| Catalog.CatalogSystem.ClearFilters | js/catalog.js:200-212 | resets every filter, after which the approved products are listed |
| Catalog.BuyProduct | js/catalog.js:273-296 | with a selected product and a signed-in user, appends exactly the purchase record to the stored transactions (their final-price total grows by its final price); otherwise nothing changes |
| Transactions.FilteredTransactionsExact | js/transactions.js:28-77 | the result is a permutation of the user's transactions that pass every active filter, holds exactly those, and is sorted newest first |
| Transactions.FilteredTransactionsMatch | js/transactions.js:32-74 | every result involves the company; matches the status filter; lies in the period (week: at most 604800000 ms old, today/month/year: same calendar day, month and year, year); and matches the search |
| Transactions.NoFiltersListsAll | js/transactions.js:208-219 | with the filters cleared the result is the user's transactions sorted newest first |
| Transactions.DanglingFoundById | js/transactions.js:64-73 | a transaction whose product and seller are missing matches a search only through its id |
| Transactions.GetSummary | js/transactions.js:80-103 | spent is the final prices of the completed purchases, the count is the completed transactions, the mean discount is their rounded mean; spent plus saved equals their listed price; with no completed transaction the count and mean discount are 0 |
| Transactions.SummaryCountsBothSides | js/transactions.js:81-91 | the count is the completed purchases plus the completed sales |
| Transactions.SummaryDiscountBounds | js/transactions.js:93-95 | the mean discount lies in 0..100 when every discount does |
| Transactions.SummaryWithoutPurchases | js/transactions.js:83-89 | a company that bought nothing has spent and saved 0 |
| Transactions.TransactionSystem.constructor | js/transactions.js:3-19 | loads the keys and starts with every filter empty |
| Transactions.TransactionSystem.GetFilteredTransactions | js/transactions.js:28-78 | the step-by-step filtering followed by the sort equals the specified filtered list |
| Transactions.TransactionSystem.FilterTransactions | js/transactions.js:190-198 | sets only the status and period filters |
| Transactions.TransactionSystem.SearchTransactions | js/transactions.js:201-205 | sets only the search filter |
| Transactions.TransactionSystem.ClearFilters | js/transactions.js:208-220 | resets every filter and nothing else |
| Dashboard.GetStats | js/dashboard.js:14-26 | the counts are exactly the approved companies, approved products and completed transactions, and the revenue is the sum of the completed final prices |
| Dashboard.RevenueIsCompletedShare | js/dashboard.js:17-18 | the revenue plus the final prices of the uncompleted transactions is the final-price total of all |
| Dashboard.UncompletedChangesNothing | js/dashboard.js:17-18 | a transaction that is not completed moves no total |
| Dashboard.PendingCompanyNotCounted | js/dashboard.js:15 | a company awaiting approval is not counted |
| Dashboard.PendingProductNotCounted | js/dashboard.js:16 | a product awaiting approval is not counted |
| Dashboard.TopCompanies | js/dashboard.js:34-49 | the list has min(limit, approved companies) entries and is ordered by non-increasing sales |
| Dashboard.TopCompaniesAreTop | js/dashboard.js:47-49 | no approved company left out of the list has more sales than one listed |
| Dashboard.TopCompaniesFromRanked | js/dashboard.js:34-49 | the list is a sub-multiset of the ranked approved companies |
| Dashboard.TopCompaniesCounts | js/dashboard.js:35-45 | every entry is an approved company with the number of its approved products and of its sales |
| Dashboard.TopCompaniesTiesKeepOrder | js/dashboard.js:47 | companies with equal sales keep their stored order (stable sort) |
| Dashboard.TopCompaniesSingle | js/dashboard.js:34-49 | one approved company with two approved products and three sales is listed alone with counts 2 and 3 |
| Dashboard.DashboardSystem.constructor | js/dashboard.js:3-12 | an absent key loads as an empty list |
| Dashboard.DashboardSystem.GetRecentTransactions | js/dashboard.js:28-32 | sorts the stored list in place, newest first, as a permutation of itself; returns its prefix of min(limit, n) entries, the limit defaulting to 5 |
| Dashboard.RecentAreNewest | js/dashboard.js:28-32 | no transaction left out is newer than one returned |
| Dashboard.CheckAuth | js/dashboard.js:56-63 | yields a user exactly when one is signed in |
| Dashboard.Logout | js/dashboard.js:66-69 | removes the signed-in user and nothing else |
| Login.Authenticate | js/login.js:19-20 | finds a user exactly when one has both that email and that password, and the one found has them |
| Login.AuthenticateFirst | js/login.js:20 | the user found is the first that matches |
| Login.OnlyDemoAccount | js/login.js:4-13 | only the hard-coded demo account can sign in |
| Login.AuthSystem.constructor | js/login.js:3-17 | the user list is the demo account and the signed-in user is restored from storage |
| Login.AuthSystem.Login | js/login.js:19-27 | returns true exactly when a user matches; then that first match is signed in and stored; otherwise nothing changes |
| Login.AuthSystem.Logout | js/login.js:29-32 | nobody is signed in afterwards and the stored session is removed |
| Login.AuthSystem.GetCurrentUser | js/login.js:41-43 | yields a user exactly when someone is signed in |
| AdminLogin.Authenticate | js/admin-login.js:18-19 | finds an administrator exactly when one has both that email and that password |
| AdminLogin.AuthenticateFirst | js/admin-login.js:19 | the administrator found is the first that matches |
| AdminLogin.OnlyRootAdmin | js/admin-login.js:4-12 | only `admin@hub.com` with `admin123` can sign in |
| AdminLogin.AdminAuthSystem.constructor | js/admin-login.js:3-16 | the list is the one administrator and the session is restored from storage |
| AdminLogin.AdminAuthSystem.Login | js/admin-login.js:18-26 | returns true exactly when an administrator matches; then the first match is signed in and stored; otherwise nothing changes |
| AdminLogin.AdminAuthSystem.Logout | js/admin-login.js:28-31 | nobody is signed in afterwards and the stored session is removed |
| AdminLogin.AdminAuthSystem.GetCurrentAdmin | js/admin-login.js:40-42 | yields an administrator exactly when one is signed in |
| Records.PendingCompany | js/register.js:33-38 | a new company is not approved and carries its creation time |
| Records.TotalFinalPriceAppend | js/admin-dashboard.js:69 | appending a transaction adds its final price (missing as 0) to the total |
| Records.TotalFinalPriceNonNegative | js/admin-dashboard.js:69 | the total is not negative when no final price is |
| Numbers.RoundHalfUp | js/catalog.js:88 | `Math.round` returns an integer within one half of its argument |
| Numbers.MeanWithinBounds | js/catalog.js:87-89 | the rounded mean of values in lo..hi lies in lo..hi |
| Numbers.MeanExamples | js/transactions.js:93-95 | the rounded mean of nothing is 0, of 10, 20, 30 is 20, of 1, 2 is 2 (halves round up) |

## Left out

- Rendering, event wiring, modals, notifications and the page redirects of `checkAuth` (the model returns the signed-in user or nothing).
- `localStorage` and JSON: a key is an optional list of records, and `saveData` makes the stored copy equal the field. Parse failures and the `try`/`catch` paths are not modelled.
- Timers: the polling intervals and the delayed form reset.
- The CSV export and receipt download: file I/O and locale-dependent date formatting.
- The forgot-password page: a timer-driven simulation over a fixed email list.
- Floating point. Prices, final prices and totals are exact reals, and `Math.round` is floor(x + 1/2).
- Dates. Timestamps are integer milliseconds. Day, month and year extraction is a `Calendar` parameter, and `new Date()` is a `now` parameter.
- Stored `createdAt` values: the company-register, product and purchase records store an ISO string, and the seeded company and the register page store a `Date`. All are modelled as the millisecond timestamp they denote.
- Identifiers built from `Date.now()`: the clock reading is a parameter. The register page reads the clock twice, once for the company and once for the user.
- Regular expressions: the masks are written over the digit sequence by length cases rather than by a regex engine.
- `Number` and `parseInt` read decimal integer numerals only. Fractions, exponents, hexadecimal and `Infinity` are not modelled. The product form's `parseFloat` of the price is not modelled.
- `toLowerCase` is modelled for the ASCII and Latin-1 letters only.
- The product form handler (required-field check before `addProduct`) is not modelled. `Catalog.CatalogSystem.AddProduct` takes the already-converted fields.
- `Catalog.CatalogSystem.AddProduct` and `Catalog.BuyProduct`: reading `companyId` of a missing signed-in user throws in the source. The model returns no product or transaction and changes nothing.
- `Transactions.TransactionSystem.GetFilteredTransactions` requires a signed-in user, because the source throws without one. `Transactions.GetSummary` takes the company id directly.
- CompanyRegister.Submit: the source stores the raw form object, so the company has a `companyName` key (no `name`) plus any extra form fields such as the CEP. The model stores the company name as `name` and keeps only the modelled fields.
- The `currentPage` and `itemsPerPage` fields are never read and are left out.
- String lengths are counted in characters (Unicode scalar values), not in UTF-16 code units as JavaScript's `length` counts them. The password length rule (`Register.ValidateForm`) therefore rejects, for instance, three emoji that JavaScript counts as six.
- The two identical copies of `validateCNPJ`, `formatCNPJ` and `formatPhone` in js/company-register.js are modelled once, by the members that model js/register.js.
