# KrizPay dashboard core, modelled in Dafny

KrizPay is a Next.js site with a crypto dashboard. This project models its core logic and proves properties about it:

- **Route gating.** The edge middleware that guards the protected routes by cookie. The client-side `ProtectedRoute` guard and its redirect URL.
- **The session mirror.** The auth context that copies the signed-in user and the access token into `localStorage`.
- **The token API.** `/api/auth/verify`, with its error mapping and its per-IP, fixed-window rate limiter.
- **Card and name strings.** Card-number grouping and masking, expiry-date formatting, and the user's initials.
- **Portfolio and market logic.**
  - The `usePortfolio` store: holdings, transactions and total value.
  - The price-alert board.
  - Search, filter and sort, and the top gainers and losers.
  - The allocation percentages, the portfolio statistics and the recent-transactions view.
- **Dashboard pages.** The transactions, markets and settings pages, the sidebar highlight rule, and the performance score.

One Dafny module per source file:

| Dafny module | Source file | What it holds |
|---|---|---|
| `Middleware` | `middleware.ts` | |
| `VerifyRoute` | `app/api/auth/verify/route.ts` | `RateLimiter` is a class over the `Map` the route mutates. |
| `ProtectedRoute` | `components/auth/ProtectedRoute.tsx` | |
| `AuthContext` | `contexts/AuthContext.tsx` | `AuthProvider` is a class over the provider's state and storage. |
| `CreditCardDemo` | `components/CreditCardDemo.tsx` | |
| `CreditCard3D` | `components/CreditCard3D.tsx` | |
| `UserMenu` | `components/auth/UserMenu.tsx` | |
| `UsePortfolio` | `hooks/usePortfolio.ts` | `PortfolioStore` is a class over the hook's state and the user's collections. |
| `PriceAlerts` | `components/crypto/PriceAlerts.tsx` | `AlertBoard` is a class over the alert documents and the form. |
| `CryptoSearch` | `components/crypto/CryptoSearch.tsx` | |
| `TopGainersLosers` | `components/crypto/TopGainersLosers.tsx` | |
| `AssetAllocation` | `components/crypto/AssetAllocation.tsx` | |
| `PortfolioOverview` | `components/crypto/PortfolioOverview.tsx` | |
| `RecentTransactions` | `components/crypto/RecentTransactions.tsx` | |
| `TransactionsPage` | `app/dashboard/transactions/page.tsx` | |
| `MarketsPage` | `app/dashboard/markets/page.tsx` | |
| `SettingsPage` | `app/dashboard/settings/page.tsx` | |
| `DashboardSidebar` | `components/dashboard/DashboardSidebar.tsx` | |
| `UsePerformance` | `hooks/usePerformance.ts` | |

Shared modules:

- `CryptoTypes`: the record types of `types/crypto.ts` and the `find` by id.
- `JsString`: the JavaScript string built-ins the core calls.
- `UriComponent`: `encodeURIComponent`, with UTF-8 percent-encoding, and its decoder.
- `JsonText`: `JSON.stringify` string quoting, and a reader for it.
- `SeqFilter`: `Array.prototype.filter`.
- `ArraySort`: the stable `Array.prototype.sort`. It is an insertion-sort function plus an in-place array method proved equal to it.
- `Options`: an option type.

External effects become inputs:

- **Firebase.** Every Firebase call becomes an input: the popup result, the redirect result, whether a write fails, and the id a new document receives.
- **Collections.** Firestore collections are maps keyed by document id.
- **Clock and browser.** The clock, the request IP, the cookie header, the performance timings and `parseFloat` are parameters.

## Model

| member | source | states |
|---|---|---|
| JsString.StartsWith | middleware.ts:13-15 | `startsWith`: the prefix is no longer than the text and equals its first characters; `PrefixProtection` and `DashboardSidebar.OthersByPrefix` state what it decides. |
| Middleware.IsProtectedRoute | middleware.ts:13-15 | The path starts with one of the four protected prefixes; its consequences are stated by `SignInIsNotProtected`, `SignInSubpathPassesThrough` and `PrefixProtection`. |
| Middleware.IsAuthenticated | middleware.ts:24-31 | Some one of the three named cookies is present and non-empty; `EmptyCookiesDoNotAuthenticate` and `OtherCookiesAreIgnored` state its consequences. |
| Middleware.Middleware | middleware.ts:3-64 | Redirect to `/signin?redirect=<path>` exactly when a protected path has no auth cookie. Redirect to `/dashboard` exactly for a signed-in `/signin`. Every other request passes with the six response headers it sets. |
| Middleware.PassesThroughIff | middleware.ts:37-63 | A request passes through iff it is not an unauthenticated protected path and not an authenticated visit to `/signin`. |
| Middleware.SignInIsNotProtected | middleware.ts:7-15 | `/signin` matches none of the protected prefixes. |
| Middleware.SignInNeverRedirectsToItself | middleware.ts:37-48 | `/signin` only ever redirects to `/dashboard`, and passes iff there is no auth cookie. |
| Middleware.SignInSubpathPassesThrough | middleware.ts:7-15 | Paths below `/signin/` always pass with the security headers. |
| Middleware.EmptyCookiesDoNotAuthenticate | middleware.ts:24-31 | Cookies present with empty values do not authenticate (JavaScript truthiness). |
| Middleware.OtherCookiesAreIgnored | middleware.ts:24-31 | On every path, only the three named cookies affect the decision: adding or changing any other cookie never changes the response. |
| Middleware.PrefixProtection | middleware.ts:13-15 | The test is a plain prefix test: `/dashboardX` and `/settings-old` are protected too. |
| Middleware.IsPublicRoute | middleware.ts:18-20 | Equal to or starting with one of the four public routes; `EveryPathIsPublic` states that it holds for every absolute path. |
| Middleware.EveryPathIsPublic | middleware.ts:10-20 | Because `/` is a public route, every absolute path counts as public (the flag is unused). |
| VerifyRoute.Post | app/api/auth/verify/route.ts:4-56 | The cases, each stated as an iff: <br>• A missing or empty token gives 400 "No token provided". <br>• A verified token gives success with the decoded user. <br>• An expired token gives 401 "Token expired"; a revoked one gives 401 "Token revoked". <br>• Every other error is a 401. |
| VerifyRoute.OtherFailuresAreInvalid | app/api/auth/verify/route.ts:33-55 | Other error codes, and a body that does not parse, give 401 "Invalid token". |
| VerifyRoute.KeyOf | app/api/auth/verify/route.ts:61 | The limiter key is the IP when it is a non-empty string, else `unknown`. |
| VerifyRoute.Admit | app/api/auth/verify/route.ts:66-84 | A new or expired window restarts at count 1 with reset 15 minutes ahead, and is allowed. Inside a window the count goes up by one. The request is 429 "Too many requests" iff the count then exceeds 10. |
| VerifyRoute.RateLimiter.constructor | app/api/auth/verify/route.ts:58 | The map starts empty. |
| VerifyRoute.RateLimiter.Handle | app/api/auth/verify/route.ts:60-88 | The entry for the request's key is replaced by the admitted entry and no other entry changes. The verdict is the admission verdict. |
| VerifyRoute.OnlyOwnEntryChanges | app/api/auth/verify/route.ts:66-84 | A request leaves every other key's entry as it was. |
| VerifyRoute.Run | app/api/auth/verify/route.ts:60-88 | One verdict per request in a sequence of requests from one key. |
| VerifyRoute.RunWithinWindow | app/api/auth/verify/route.ts:75-83 | Inside one window the k-th further request is allowed iff the count plus k+1 is at most 10. |
| VerifyRoute.BurstFromNewKey | app/api/auth/verify/route.ts:62-84 | A new key gets exactly its first 10 requests of one window allowed and the rest rejected. |
| VerifyRoute.WindowExpiry | app/api/auth/verify/route.ts:71-74 | After the reset time the next request is allowed and restarts the count. |
| VerifyRoute.RejectedRequestsCount | app/api/auth/verify/route.ts:75-83 | A rejected request still increments the stored count. |
| ProtectedRoute.RenderOf | components/auth/ProtectedRoute.tsx:52-77 | While loading it shows the fallback or the spinner. Afterwards it shows the children iff there is a user, and nothing otherwise. |
| ProtectedRoute.SignInUrl | components/auth/ProtectedRoute.tsx:26 | The sign-in URL always starts with `/signin?redirect=`. |
| ProtectedRoute.Effects | components/auth/ProtectedRoute.tsx:20-49 | With no user after loading, the first effect pushes the sign-in URL. The second effect reloads iff a user is stored, or pushes the URL again iff no user is stored and the cookie has no token. Otherwise it does nothing. |
| ProtectedRoute.SignedInSeesChildren | components/auth/ProtectedRoute.tsx:20-77 | A signed-in user gets the children and no navigation. |
| ProtectedRoute.CookieAloneKeepsOnePush | components/auth/ProtectedRoute.tsx:35-43 | A token cookie alone suppresses the second push but not the first. |
| JsString.Contains | components/auth/ProtectedRoute.tsx:35-37 | `includes`: the text occurs at some position; `FirebaseCookieTestIsRedundant` uses it. |
| ProtectedRoute.HasStoredUser | components/auth/ProtectedRoute.tsx:34 | The stored-user entry is present and non-empty; `AuthContext.StoredUserIsVisibleToGuard` and `AuthContext.SignedOutStorageHasNoUser` state when it holds. |
| ProtectedRoute.CookieMentionsToken | components/auth/ProtectedRoute.tsx:35-37 | One of the three cookie names occurs in the cookie text; `FirebaseCookieTestIsRedundant` and `CookieAloneKeepsOnePush` state its role. |
| ProtectedRoute.FirebaseCookieTestIsRedundant | components/auth/ProtectedRoute.tsx:35-37 | The `firebase-auth-token=` test adds nothing: it contains `auth-token=`. |
| ProtectedRoute.RedirectParameterRoundTrip | components/auth/ProtectedRoute.tsx:26 | The redirect parameter decodes back to the exact path and holds no `&` or `#`. |
| UriComponent.Encode | components/auth/ProtectedRoute.tsx:26 | `encodeURIComponent`: never shorter than its input; `EncodeSafe`, `EncodeAppend` and `DecodeEncode` pin down its content. |
| UriComponent.Decode | components/auth/ProtectedRoute.tsx:26 | The inverse of the encoding (`decodeURIComponent`), with `None` for a malformed escape; `DecodeEncode` states that it undoes `Encode`. |
| UriComponent.EncodeChar | components/auth/ProtectedRoute.tsx:26 | Unreserved characters stay as they are; all others become percent escapes. |
| UriComponent.EncodeSafe | components/auth/ProtectedRoute.tsx:26 | The encoding holds only unreserved characters and `%`, never `/?&#=` or a space, and every `%` is followed by two upper-case hex digits. |
| UriComponent.EncodeUnreserved | components/auth/ProtectedRoute.tsx:26 | Text of unreserved characters is unchanged. |
| UriComponent.EncodeAppend | components/auth/ProtectedRoute.tsx:26 | Encoding distributes over concatenation. |
| UriComponent.Utf8Decodes | components/auth/ProtectedRoute.tsx:26 | The UTF-8 bytes of a code point decode back to it. |
| UriComponent.DecodeEncode | components/auth/ProtectedRoute.tsx:26 | Decoding the encoding of any string gives the string back. |
| AuthContext.SerializeUser | contexts/AuthContext.tsx:54-59 | The stored user is a JSON object text. |
| AuthContext.ParseSerializedUser | contexts/AuthContext.tsx:54-59 | Parsing the stored text gives back the same four fields (uid, email, display name, photo URL), null names and photos included. |
| JsonText.QuoteRoundTrip | contexts/AuthContext.tsx:54-59 | A JSON-quoted string reads back to itself and leaves the rest of the text. |
| JsonText.QuoteOrNullRoundTrip | contexts/AuthContext.tsx:54-59 | A quoted string or `null` reads back to the same optional value. |
| AuthContext.StoredUserIsVisibleToGuard | contexts/AuthContext.tsx:54-59 | After storing a user, the guard's stored-user test holds. |
| AuthContext.PopupErrorMessage | contexts/AuthContext.tsx:125-146 | Each of the four named codes maps to its message. The browser-security message is used iff another code's message mentions the opener policy, and the generic message iff it does not. |
| AuthContext.NamedCodesIgnoreMessage | contexts/AuthContext.tsx:125-140 | For the four named codes the SDK's message is ignored. |
| AuthContext.StoreToken | contexts/AuthContext.tsx:77-79 | A non-empty access token is stored under `krizpay-auth-token`; every other key is kept; nothing else is added. |
| AuthContext.AuthProvider.constructor | contexts/AuthContext.tsx:42-44 | No user, loading, no error. |
| AuthContext.AuthProvider.OnAuthStateChanged | contexts/AuthContext.tsx:48-63 | The user is set and loading ends. A user is stored as JSON that parses back to it; sign-out removes the stored user. |
| AuthContext.AuthProvider.HandleRedirectResult | contexts/AuthContext.tsx:66-88 | No pending result changes nothing. A result stores the token and goes to `/dashboard`. A failure sets the redirect error. |
| AuthContext.AuthProvider.SignInWithGoogle | contexts/AuthContext.tsx:96-152 | Returns whether the popup signed in. On success it clears the error, stores the token and goes to `/dashboard`. On failure it sets the mapped message. Loading ends either way. |
| AuthContext.AuthProvider.SignInWithGoogleRedirect | contexts/AuthContext.tsx:155-176 | A started redirect stays loading with no error; a failure stops loading with the redirect error. |
| AuthContext.AuthProvider.SignOut | contexts/AuthContext.tsx:178-197 | Success removes the stored user and token and goes to `/`; failure sets the sign-out error and keeps storage. |
| AuthContext.AuthProvider.ClearError | contexts/AuthContext.tsx:199-201 | Only the error is cleared. |
| AuthContext.SignedOutStorageHasNoUser | contexts/AuthContext.tsx:178-197 | After sign-out the guard sees no stored user. |
| CreditCardDemo.FormatCardNumber | components/CreditCardDemo.tsx:24-28 | The formatted number is at most 19 characters. |
| CreditCardDemo.FormatCardNumberIsBlocks | components/CreditCardDemo.tsx:24-28 | The result is the first 16 digits typed, in space-separated groups of four. |
| CreditCardDemo.FormatCardNumberShape | components/CreditCardDemo.tsx:24-28 | Only digits and spaces; a space exactly at every fifth position; no leading or trailing space. |
| CreditCardDemo.FormatCardNumberKeepsDigits | components/CreditCardDemo.tsx:24-28 | Removing the spaces gives back the first 16 digits typed. |
| CreditCardDemo.FormatCardNumberIdempotent | components/CreditCardDemo.tsx:24-28 | Formatting a formatted number changes nothing. |
| JsString.Digits | components/CreditCardDemo.tsx:25 | Deleting every non-digit; `DigitsKept` states its result. |
| JsString.DigitsKept | components/CreditCardDemo.tsx:25 | Deleting the non-digits leaves only digits, no longer than the input, and leaves a string of digits whole. |
| CardGrouping.GroupFours | components/CreditCardDemo.tsx:26 | The `/(.{4})/g` replacement by `$1 `, never shorter than its input; `GroupFoursBlocks` pins its result. |
| JsString.Trim | components/CreditCardDemo.tsx:26 | `trim()`: the result neither starts nor ends with white space. |
| CardGrouping.BlocksLength | components/CreditCardDemo.tsx:26 | A layout of n > 0 characters has n + (n - 1) / 4 characters: one space between consecutive blocks. |
| CardGrouping.GroupFoursBlocks | components/CreditCardDemo.tsx:26 | The group-of-four replacement gives the blocks plus one trailing space when the length is a multiple of four. |
| CardGrouping.TrimGroupFours | components/CreditCardDemo.tsx:26 | Trimming the replacement gives exactly the blocks. |
| CardGrouping.BlocksLayout | components/CreditCardDemo.tsx:26 | In the blocks, the spaces are exactly the positions 4 mod 5 and every other character comes from the input. |
| CardGrouping.BlocksRemoveSpaces | components/CreditCardDemo.tsx:26 | Removing the spaces from the blocks gives back the input. |
| CreditCardDemo.FormatExpiryDate | components/CreditCardDemo.tsx:30-36 | At most `MM/YY`: digits only, with a `/` exactly at index 2 once two digits are typed, and the first two digits kept. |
| CreditCardDemo.FormatExpiryDateKeepsDigits | components/CreditCardDemo.tsx:30-36 | Its digits are the first four digits typed. |
| CreditCardDemo.FormatExpiryDateIdempotent | components/CreditCardDemo.tsx:30-36 | Formatting a formatted date changes nothing. |
| CreditCardDemo.HandleInputChange | components/CreditCardDemo.tsx:17-22 | The named field takes the value; the other fields are kept. |
| CreditCardDemo.OnChange | components/CreditCardDemo.tsx:78-104 | The number field is formatted, the holder upper-cased and the expiry formatted; the other fields are unchanged. |
| CreditCardDemo.OnChangeKeepsWellFormed | components/CreditCardDemo.tsx:10-104 | Every edit keeps all three fields in their displayed form. |
| CreditCardDemo.InitialCardWellFormed | components/CreditCardDemo.tsx:10-14 | The initial card is already in that form. |
| CreditCard3D.FormatCardNumber | components/CreditCard3D.tsx:184-186 | The result has no leading or trailing white space. |
| CreditCard3D.FormatCardNumberOnPlainText | components/CreditCard3D.tsx:184-186 | Without white space in the input, the result is groups of four whose spaces can be removed to give the input back. |
| CreditCard3D.MaskCardNumber | components/CreditCard3D.tsx:189-193 | The mask is the first four characters of the number without white space, then exactly ` •••• •••• `, then its last four characters. |
| JsString.TakeLast | components/CreditCard3D.tsx:191 | `slice(-n)`: the last min(n, length) characters. |
| CreditCard3D.MaskIgnoresWhiteSpace | components/CreditCard3D.tsx:189-193 | Numbers equal up to white space mask the same. |
| CreditCard3D.MaskHidesMiddle | components/CreditCard3D.tsx:189-193 | Numbers of at least 8 characters that agree on their ends mask the same. |
| CreditCard3D.MaskShowsOnlyEnds | components/CreditCard3D.tsx:189-193 | Every shown character comes from the middle or from the two ends. |
| JsString.RemoveWhiteSpace | components/CreditCard3D.tsx:190 | Deleting every white-space character; `RemoveWhiteSpaceKept` states its result. |
| JsString.RemoveWhiteSpaceKept | components/CreditCard3D.tsx:190 | Deleting the white space leaves none, no longer than the input, and leaves text without white space whole. |
| CreditCard3D.Clamp | components/CreditCard3D.tsx:64-65 | The angle lies in [-15, 15] and is unchanged when already inside. |
| CreditCard3D.Tilt | components/CreditCard3D.tsx:55-65 | Both angles lie within ±15 degrees. A pointer right of centre tilts about Y positively; one below centre tilts about X negatively. |
| CreditCard3D.TiltProportionalInside | components/CreditCard3D.tsx:64 | Inside the card the Y angle is exactly 30 times the offset over the width. |
| UserMenu.Initials | components/auth/UserMenu.tsx:42-49 | At most two characters, and `U` for a null or empty name. |
| UserMenu.InitialsAreWordStarts | components/auth/UserMenu.tsx:42-49 | The initials are the first two word starts, upper-cased. |
| UserMenu.FirstCharsOfSplit | components/auth/UserMenu.tsx:44-47 | The first characters of the split words are the word starts. |
| UserMenu.WordStartsFromText | components/auth/UserMenu.tsx:44-47 | Every word start is a character of the name other than a space. |
| UserMenu.InitialsIgnoreLaterWords | components/auth/UserMenu.tsx:42-49 | Text after two word starts does not change the initials. |
| UserMenu.BlankNameHasNoInitials | components/auth/UserMenu.tsx:42-49 | A name of spaces only gives empty initials. |
| UserMenu.TwoWordExample | components/auth/UserMenu.tsx:42-49 | `John Doe` gives `JD`. |
| UserMenu.OneWordExample | components/auth/UserMenu.tsx:42-49 | `ada` gives `A`: a one-word name has one initial. |
| JsString.Split | components/auth/UserMenu.tsx:45 | `split(' ')`: at least one piece, and no piece holds a space. |
| JsString.ToUpper | components/auth/UserMenu.tsx:48 | `toUpperCase()`: the same length, each character mapped to its capital. |
| UserMenu.DisplayName | components/auth/UserMenu.tsx:71 | The name when there is one, else `User`; never empty. |
| CryptoTypes.Find | hooks/usePortfolio.ts:54 | `find` by id: none iff no asset has the id, else an asset of the list with that id. |
| UsePortfolio.Contribution | hooks/usePortfolio.ts:52-57 | A priced holding contributes amount times current price; an unpriced one contributes 0. |
| UsePortfolio.TotalValue | hooks/usePortfolio.ts:51-60 | The sum over the holdings of their contributions; `TotalValueAppend`, `UnpricedAddsNothing` and `TotalValueNonNegative` state its properties. |
| UsePortfolio.TotalValueAppend | hooks/usePortfolio.ts:51-60 | The total is additive over the holdings. |
| UsePortfolio.UnpricedAddsNothing | hooks/usePortfolio.ts:52-57 | An unpriced holding does not change the total. |
| UsePortfolio.NoPricedHoldingsTotalZero | hooks/usePortfolio.ts:51-60 | Without priced holdings the total is 0. |
| UsePortfolio.TotalValueNonNegative | hooks/usePortfolio.ts:51-60 | With non-negative amounts and prices the total is non-negative. |
| UsePortfolio.NewAmount | hooks/usePortfolio.ts:70-71 | An existing holding's amount is increased; a new holding gets the amount. |
| UsePortfolio.PortfolioStore.constructor | hooks/usePortfolio.ts:9-12 | Total 0, loading. |
| UsePortfolio.PortfolioStore.Subscribe | hooks/usePortfolio.ts:14-19 | Without a signed-in user loading ends; nothing else changes. |
| UsePortfolio.PortfolioStore.OnPortfolioSnapshot | hooks/usePortfolio.ts:27-34 | A snapshot ends loading. |
| UsePortfolio.PortfolioStore.CalculateTotalValue | hooks/usePortfolio.ts:51-60 | The loop stores the total value of the holdings; nothing else changes. |
| UsePortfolio.PortfolioStore.AddTransaction | hooks/usePortfolio.ts:110-119 | A signed-in, successful write appends the transaction; otherwise nothing changes. |
| UsePortfolio.PortfolioStore.AddToPortfolio | hooks/usePortfolio.ts:63-95 | The holding is upserted with the new amount, then a buy at the current price is appended. A failed holding write stops both; a failed transaction write leaves the holding written. |
| UsePortfolio.PortfolioStore.RemoveFromPortfolio | hooks/usePortfolio.ts:98-107 | A signed-in, successful delete removes only that holding. |
| UsePortfolio.PortfolioStore.ReadTransactions | hooks/usePortfolio.ts:22-25 | The transactions, newest first, as a permutation of the stored ones. |
| UsePortfolio.AddUpsertsOneHolding | hooks/usePortfolio.ts:63-78 | Adding changes only that asset's holding, whose amount grows by the purchase. |
| UsePortfolio.TwoPurchasesAccumulate | hooks/usePortfolio.ts:63-78 | Two purchases of a new asset leave one holding with their sum. |
| PriceAlerts.Triggered | components/crypto/PriceAlerts.tsx:63-85 | A triggered alert is inactive and records its time; every other field is unchanged. |
| PriceAlerts.ShouldTrigger | components/crypto/PriceAlerts.tsx:48-55 | Active, priced, and the price at or past the target in the alert's direction; `TriggerAtTarget`, `TriggeredNeverFiresAgain` and `UnpricedNeverFires` state its consequences. |
| PriceAlerts.ApplyTriggers | components/crypto/PriceAlerts.tsx:46-61 | The collection after the check walks the list; `ApplyTriggersLeavesOthers`, `ApplyTriggersFires` and `ApplyTriggersKeepsQuiet` state every alert's outcome. |
| PriceAlerts.TriggerAtTarget | components/crypto/PriceAlerts.tsx:53-55 | An active alert fires when the price equals the target, whatever its condition. |
| PriceAlerts.TriggeredNeverFiresAgain | components/crypto/PriceAlerts.tsx:46-61 | A fired alert never fires again. |
| PriceAlerts.UnpricedNeverFires | components/crypto/PriceAlerts.tsx:49-52 | An alert on an asset without market data never fires. |
| PriceAlerts.ApplyTriggersLeavesOthers | components/crypto/PriceAlerts.tsx:46-61 | A check leaves alerts outside the list unchanged. |
| PriceAlerts.ApplyTriggersFires | components/crypto/PriceAlerts.tsx:46-61 | Every listed alert that should fire, and whose write succeeds, is stored as fired. |
| PriceAlerts.ApplyTriggersKeepsQuiet | components/crypto/PriceAlerts.tsx:46-61 | A listed alert that should not fire, or whose write fails, keeps its document. |
| PriceAlerts.AlertBoard.constructor | components/crypto/PriceAlerts.tsx:21-27 | Empty form, form hidden. |
| PriceAlerts.AlertBoard.CheckAlerts | components/crypto/PriceAlerts.tsx:46-61 | The loop applies the triggers to the stored alerts when signed in. |
| PriceAlerts.AlertBoard.TriggerAlert | components/crypto/PriceAlerts.tsx:63-85 | A successful write replaces the alert with its triggered version. |
| PriceAlerts.AlertBoard.AddAlert | components/crypto/PriceAlerts.tsx:87-114 | With a user, a chosen asset known to the market data, a typed price and a successful write, one active alert with the asset's symbol is added. The form is then reset and hidden. Otherwise nothing changes. |
| PriceAlerts.AlertBoard.DeleteAlert | components/crypto/PriceAlerts.tsx:116-125 | A successful delete removes only that alert. |
| SeqFilter.Filter | components/crypto/CryptoSearch.tsx:31-41 | The kept elements satisfy the test and form a sub-multiset of the input. |
| SeqFilter.FilterMembers | components/crypto/CryptoSearch.tsx:31-41 | An element is kept iff it is in the input and passes. |
| SeqFilter.FilterAppend | components/crypto/CryptoSearch.tsx:31-41 | Filtering distributes over concatenation, so the order is kept. |
| CryptoSearch.Candidates | components/crypto/CryptoSearch.tsx:31-41 | The search filter, then the gainers or losers filter; `CandidatesMembers` states which assets it keeps. |
| CryptoSearch.CandidatesMembers | components/crypto/CryptoSearch.tsx:31-41 | An asset is a candidate iff its name or symbol contains the term (ignoring case) and it passes the gainers/losers filter. |
| CryptoSearch.EmptySearchKeepsAll | components/crypto/CryptoSearch.tsx:31-41 | No term and no filter keeps every asset in order. |
| CryptoSearch.FilteredAndSorted | components/crypto/CryptoSearch.tsx:30-68 | The in-place sort of the candidates equals the stable sort by the chosen field and order. |
| ArraySort.SortInPlace | components/crypto/CryptoSearch.tsx:44-65 | The array ends as the stable sort of its old contents. |
| ArraySort.SortByOrdered | components/crypto/CryptoSearch.tsx:44-65 | The stable sort is ordered and a permutation. |
| ArraySort.SortByPermutes | components/crypto/CryptoSearch.tsx:44-65 | The stable sort keeps every element with its multiplicity and the length. |
| ArraySort.SortedCopy | components/crypto/CryptoSearch.tsx:44-65 | Sorting the freshly filtered array in place yields the stable sort of its contents. |
| CryptoSearch.ShownList | components/crypto/CryptoSearch.tsx:30-68 | The shown list is ordered by the chosen key, is a permutation of the candidates, and holds exactly the matching assets. |
| CryptoSearch.SortChoiceKeepsRows | components/crypto/CryptoSearch.tsx:44-65 | Changing the sort field or order never changes which rows are shown. |
| CryptoSearch.NoAssetsFound | components/crypto/CryptoSearch.tsx:258-263 | The list is empty iff no asset matches the term and the filter. |
| CryptoSearch.ToggleFavorite | components/crypto/CryptoSearch.tsx:70-76 | A favourite is removed everywhere, the remaining ids keeping their order (the `filter`). A non-favourite is appended. Other ids keep their membership. |
| CryptoSearch.ToggleTwice | components/crypto/CryptoSearch.tsx:70-76 | Toggling twice restores the favourites as a set, and the list itself when the id was not a favourite. |
| CryptoSearch.IsInPortfolio | components/crypto/CryptoSearch.tsx:78-80 | True iff some holding has the id. |
| JsString.Take | components/crypto/TopGainersLosers.tsx:20-26 | `slice(0, n)` is the first min(n, length) elements. |
| TopGainersLosers.Gainers | components/crypto/TopGainersLosers.tsx:20-22 | The first five of the stable sort by 24h change, largest first; `GainersDominate` and `GainersAndLosersShape` state its properties. |
| TopGainersLosers.Losers | components/crypto/TopGainersLosers.tsx:24-26 | The first five of the stable sort by 24h change, smallest first; `LosersDominate` and `GainersAndLosersShape` state its properties. |
| TopGainersLosers.CurrentData | components/crypto/TopGainersLosers.tsx:28 | The tab selects the gainers or the losers. |
| TopGainersLosers.TopFive | components/crypto/TopGainersLosers.tsx:20-26 | The top list holds min(5, n) assets from the data, ordered, and none left out ranks above one shown. |
| TopGainersLosers.TopDominates | components/crypto/TopGainersLosers.tsx:20-26 | A kept entry never ranks below an entry left out. |
| TopGainersLosers.GainersDominate | components/crypto/TopGainersLosers.tsx:20-22 | Every gainer's 24h change is at least that of every asset not shown. |
| TopGainersLosers.LosersDominate | components/crypto/TopGainersLosers.tsx:24-26 | Every loser's 24h change is at most that of every asset not shown. |
| TopGainersLosers.GainersAndLosersShape | components/crypto/TopGainersLosers.tsx:20-26 | Both lists have min(5, n) entries, gainers descending and losers ascending. |
| AssetAllocation.AssetColor | components/crypto/AssetAllocation.tsx:40-53 | The colour of the upper-cased symbol when listed, else the default purple. |
| AssetAllocation.AssetColorIgnoresCase | components/crypto/AssetAllocation.tsx:40-53 | Symbols equal up to case get the same colour. |
| AssetAllocation.ListedSymbolsAreColoured | components/crypto/AssetAllocation.tsx:40-53 | A listed symbol never gets the default colour. |
| AssetAllocation.EntryOf | components/crypto/AssetAllocation.tsx:19-28 | An entry's value is amount times price, with the upper-cased symbol and its colour. |
| AssetAllocation.AllocationData | components/crypto/AssetAllocation.tsx:18-30 | One entry per priced holding, so no more entries than holdings. |
| AssetAllocation.Total | components/crypto/AssetAllocation.tsx:32 | The sum of the entry values; `TotalIsPortfolioValue` ties it to the portfolio value. |
| AssetAllocation.PricedEntry | components/crypto/AssetAllocation.tsx:18-30 | An unpriced holding contributes no entry (the `filter(Boolean)`). |
| AssetAllocation.AllocationDataAppend | components/crypto/AssetAllocation.tsx:18-30 | Entries follow the holdings' order. |
| AssetAllocation.UnpricedHoldingsAreExcluded | components/crypto/AssetAllocation.tsx:18-30 | With no priced holdings there are no entries. |
| AssetAllocation.TotalIsPortfolioValue | components/crypto/AssetAllocation.tsx:32 | The chart total equals the portfolio total value of the store. |
| AssetAllocation.Percentage | components/crypto/AssetAllocation.tsx:35-38 | 0 when the total is not positive, else the value's share of 100. |
| AssetAllocation.WithPercentage | components/crypto/AssetAllocation.tsx:35-38 | Each row keeps its entry and gets its percentage. |
| AssetAllocation.PercentagesAddUpTo100 | components/crypto/AssetAllocation.tsx:32-38 | With a positive total the percentages add up to exactly 100. |
| AssetAllocation.NoTotalNoShares | components/crypto/AssetAllocation.tsx:35-38 | Without a positive total every percentage is 0. |
| AssetAllocation.DisplayList | components/crypto/AssetAllocation.tsx:120-122 | The in-place sort of the rows equals the stable sort by percentage, largest first. |
| AssetAllocation.DisplayListOrdered | components/crypto/AssetAllocation.tsx:120-122 | The list is the same rows, in non-increasing percentage. |
| PortfolioOverview.TotalChange | components/crypto/PortfolioOverview.tsx:74-80 | The sum of the priced holdings' 24h changes in value; `CalculateStats` and `NoPricedHoldings` state it. |
| PortfolioOverview.Extreme | components/crypto/PortfolioOverview.tsx:81-93 | The best or worst performer of the walk; `ExtremeExistsIffPriced`, `ExtremeIsUnbeaten` and `ExtremeIsFirst` state which holding it is. |
| PortfolioOverview.CalculateStats | components/crypto/PortfolioOverview.tsx:59-106 | No holdings or no market data gives the zero stats. Otherwise the loop computes the total change, the percent, the holding count and the best and worst performers as defined. |
| PortfolioOverview.ExtremeExistsIffPriced | components/crypto/PortfolioOverview.tsx:81-93 | There is a best (and a worst) performer iff some holding is priced. |
| PortfolioOverview.ExtremeIsUnbeaten | components/crypto/PortfolioOverview.tsx:81-93 | No priced holding has a strictly higher change than the best, or a strictly lower one than the worst. |
| PortfolioOverview.ExtremeIsFirst | components/crypto/PortfolioOverview.tsx:81-93 | On ties the first holding with the extreme change is kept. |
| PortfolioOverview.ChangePercent | components/crypto/PortfolioOverview.tsx:97 | 0 without value. Otherwise the change over the previous value (value minus change) times 100. The result is undefined iff the value is positive and equals the change. |
| PortfolioOverview.NoPricedHoldings | components/crypto/PortfolioOverview.tsx:74-105 | Without priced holdings the change is 0 and there are no performers. |
| RecentTransactions.RowOf | components/crypto/RecentTransactions.tsx:103-116 | A buy shows `Bought` with `-` and a sale `Sold` with `+`, with the upper-cased symbol and the total. |
| RecentTransactions.DisplayTransactions | components/crypto/RecentTransactions.tsx:19 | All transactions when showing all, else the first five. |
| RecentTransactions.Render | components/crypto/RecentTransactions.tsx:21-132 | The component's output; `EmptyStateIffNoTransactions`, `ListingRows` and `LoadMoreOnlyInFullList` state each part of it. |
| RecentTransactions.EmptyStateIffNoTransactions | components/crypto/RecentTransactions.tsx:21-45 | The empty state shows iff there are no transactions. |
| RecentTransactions.ListingRows | components/crypto/RecentTransactions.tsx:47-66 | The rows are the displayed transactions in order. "View All" shows iff the preview hides some. |
| RecentTransactions.LoadMoreOnlyInFullList | components/crypto/RecentTransactions.tsx:126-132 | "Load More" shows iff the full list is shown and holds more than ten transactions, and never with "View All". |
| TransactionsPage.FilteredTransactions | app/dashboard/transactions/page.tsx:100-105 | The rows whose searched fields match; `FilteredMembers`, `FilterKeepsOrder` and `NoMatchMessage` state which rows and in what order. |
| JsString.ToLower | app/dashboard/transactions/page.tsx:101 | `toLowerCase()`: the same length, each character mapped to its lower-case form. |
| TransactionsPage.FilteredMembers | app/dashboard/transactions/page.tsx:100-105 | A row is shown iff its asset, description, sender or recipient contains the query, ignoring case. |
| TransactionsPage.EmptyQueryShowsAll | app/dashboard/transactions/page.tsx:100-105 | The empty query shows every row in order. |
| TransactionsPage.FilterKeepsOrder | app/dashboard/transactions/page.tsx:100-105 | The rows keep their order. |
| TransactionsPage.SymbolIsNotSearched | app/dashboard/transactions/page.tsx:100-105 | The symbol plays no part in the search. |
| TransactionsPage.NoMatchMessage | app/dashboard/transactions/page.tsx:210-214 | The no-match message shows iff no row matches. |
| TransactionsPage.AmountSign | app/dashboard/transactions/page.tsx:185 | `+` iff received, else `-`. |
| TransactionsPage.Counterparty | app/dashboard/transactions/page.tsx:192-193 | `From:` the sender when received, `To:` the recipient when sent. |
| TransactionsPage.StatusLabel | app/dashboard/transactions/page.tsx:201 | Same length, first letter upper-cased, rest unchanged. |
| TransactionsPage.StatusLabelCapitalises | app/dashboard/transactions/page.tsx:201 | A lower-case first letter becomes its capital. |
| MarketsPage.FilteredMarkets | app/dashboard/markets/page.tsx:30-33 | The markets whose name or symbol matches; `FilteredMembers`, `FilterKeepsOrder` and `NoMatchMessage` state which markets and in what order. |
| MarketsPage.FilteredMembers | app/dashboard/markets/page.tsx:30-33 | A market is listed iff its name or symbol contains the query, ignoring case. |
| MarketsPage.EmptyQueryShowsAll | app/dashboard/markets/page.tsx:30-33 | The empty query lists every market in order. |
| MarketsPage.EmptyQueryShowsEightMarkets | app/dashboard/markets/page.tsx:18-33 | The page opens with all eight sample markets. |
| MarketsPage.FilterKeepsOrder | app/dashboard/markets/page.tsx:30-33 | The markets keep their order. |
| MarketsPage.NoMatchMessage | app/dashboard/markets/page.tsx:124-128 | The no-match message shows iff no market matches. |
| MarketsPage.ChangePrefix | app/dashboard/markets/page.tsx:99 | `+` iff `changeType` is positive, else nothing. |
| MarketsPage.SamplePrefixAgreesWithChange | app/dashboard/markets/page.tsx:18-27 | In the sample data a `+` shows exactly for positive changes. |
| SettingsPage.InitialValues | app/dashboard/settings/page.tsx:24-46 | Every switch starts on except marketing e-mail and compact mode; theme dark, USD, English, 24h. |
| SettingsPage.HandleToggle | app/dashboard/settings/page.tsx:48-56 | The named switch is negated; every other switch and every choice is kept. |
| SettingsPage.ToggleTwice | app/dashboard/settings/page.tsx:48-56 | Flipping a switch twice restores the settings. |
| SettingsPage.TogglesCommute | app/dashboard/settings/page.tsx:48-56 | Two flips commute. |
| SettingsPage.SetTheme | app/dashboard/settings/page.tsx:407-413 | The theme becomes the selected value; nothing else changes. |
| SettingsPage.SetCurrency | app/dashboard/settings/page.tsx:447-453 | The currency becomes the selected value; nothing else changes. |
| SettingsPage.SetLanguage | app/dashboard/settings/page.tsx:468-474 | The language becomes the selected value; nothing else changes. |
| SettingsPage.SetTimeFormat | app/dashboard/settings/page.tsx:489-496 | The time format becomes the selected value; nothing else changes. |
| SettingsPage.SelectCurrentValue | app/dashboard/settings/page.tsx:407-496 | Re-selecting the current value changes nothing. |
| SettingsPage.ClickTab | app/dashboard/settings/page.tsx:79 | The clicked tab's id becomes active. |
| SettingsPage.TabsMatchPanels | app/dashboard/settings/page.tsx:58-64 | Five tabs, with the five distinct panel ids in order. |
| SettingsPage.ClickShowsOnePanel | app/dashboard/settings/page.tsx:79-94 | After a click exactly the tab's panel is rendered. |
| SettingsPage.ClickHighlightsOneTab | app/dashboard/settings/page.tsx:79-82 | After a click exactly that tab is highlighted. |
| SettingsPage.InitialPanel | app/dashboard/settings/page.tsx:21 | The page opens on the profile panel alone. |
| DashboardSidebar.IsActive | components/dashboard/DashboardSidebar.tsx:113-114 | The highlight rule; `DashboardOnlyExact`, `OthersByPrefix` and `AtMostOneActive` state when it holds. |
| DashboardSidebar.ActiveOnOwnHref | components/dashboard/DashboardSidebar.tsx:113-114 | Each item is active on its own href. |
| DashboardSidebar.DashboardOnlyExact | components/dashboard/DashboardSidebar.tsx:113-114 | The overview item is active iff the path is exactly `/dashboard`. |
| DashboardSidebar.OthersByPrefix | components/dashboard/DashboardSidebar.tsx:113-114 | Other items are active iff the path starts with their href. |
| DashboardSidebar.HrefsDiverge | components/dashboard/DashboardSidebar.tsx:30-66 | The four sub-page hrefs share `/dashboard/` and differ at their next character. |
| DashboardSidebar.AtMostOneActive | components/dashboard/DashboardSidebar.tsx:30-114 | No path highlights two items. |
| DashboardSidebar.OnlyOwnItemActive | components/dashboard/DashboardSidebar.tsx:30-114 | Below a sub-page only that page's item is active. |
| UsePerformance.Penalty | hooks/usePerformance.ts:89-93 | A metric costs its points iff it is present, non-zero and over its threshold. |
| UsePerformance.Score | hooks/usePerformance.ts:83-96 | Between 0 and 100, and 0 with no metrics. |
| UsePerformance.GetPerformanceScore | hooks/usePerformance.ts:83-96 | The sequential deductions compute the score. |
| UsePerformance.ScoreDeductions | hooks/usePerformance.ts:88-95 | The score is 100 less 20/25/20/15/20 for each of FCP, LCP, FID, CLS and TTFB over 2000 ms, 2500 ms, 100 ms, 0.1 and 600 ms. |
| UsePerformance.FullScoreIff | hooks/usePerformance.ts:83-96 | 100 iff some metric is recorded and none is over budget. |
| UsePerformance.ZeroScoreIff | hooks/usePerformance.ts:83-96 | 0 iff nothing is recorded or all five are over budget. |
| UsePerformance.SlowerNeverScoresHigher | hooks/usePerformance.ts:83-96 | Slower metrics never score higher. |
| UsePerformance.Measure | hooks/usePerformance.ts:16-35 | TTFB is response start minus request start when there is navigation timing; FCP is the paint time; nothing else is set. |
| UsePerformance.Observe | hooks/usePerformance.ts:45-67 | LCP takes the start time. FID takes processing start minus start time. A shift without recent input adds its value to CLS, and one with recent input is ignored. |
| UsePerformance.ObserveAll | hooks/usePerformance.ts:46-66 | The `forEach` over one batch of entries, each applied to the latest metrics; `ClsAccumulates`, `ClsNeverDecreases` and `RecentInputIgnored` state its effect. |
| UsePerformance.ClsAccumulates | hooks/usePerformance.ts:58-64 | After a batch, CLS is the old CLS plus the sum of the shifts without recent input. |
| UsePerformance.ClsNeverDecreases | hooks/usePerformance.ts:58-64 | With non-negative shift values CLS never decreases. |
| UsePerformance.RecentInputIgnored | hooks/usePerformance.ts:58-64 | Shifts after recent input leave the metrics unchanged. |

## Left out

Not modelled:

- **External systems.** The rendering, styling and animation; the Firebase SDKs; Firestore queries and listeners; the Notification API; `console` logging; and the timers.
- **Concurrency.** Snapshots and asynchronous writes are modelled as atomic steps. A listener firing between two writes is not modelled.
- **Unicode case mapping.** `toLowerCase` and `toUpperCase` are modelled on ASCII letters only. Other characters are left unchanged.
- **Floating point.** Amounts and prices are exact reals, with no IEEE rounding, NaN or Infinity.
- **Number formatting.** The output of `toFixed` and `toLocaleString` is not modelled.

Member-specific limits:

- `PortfolioOverview.ChangePercent`: an infinite or NaN result (dividing by a previous value of 0) is `None`, not IEEE Infinity or NaN.
- `CreditCard3D.Tilt`: requires a non-zero width and height. The source would divide by 0 for an element that is not laid out.
- `AddToPortfolio` and `UsePortfolio.NewAmount` use the holdings current at the call. The source's callback can see holdings one snapshot old (hooks/usePortfolio.ts:70).
- `RateLimiter.Handle`: `Date.now()` is a parameter.
- `PortfolioStore` and `AlertBoard`: document ids and ISO timestamps are inputs. `AlertBoard.AddAlert` requires the new id to be fresh.
- `ReadTransactions`: timestamps are integer milliseconds, not ISO strings.
- `UsePortfolio.PortfolioStore.Subscribe`: only the loading flag is modelled. The listener registration is not.
- `AssetAllocation.DisplayList`: the source sorts the array that the pie chart also reads (components/crypto/AssetAllocation.tsx:122). The model keeps one sorted list and does not model the chart sharing it.
- `SettingsPage.HandleToggle`: covers the nine `(category, setting)` pairs the page passes. Other strings would add new keys in the source.
- `UserMenu.Initials`: for a name of spaces only, the source returns an empty string and not `U`. The model keeps that behaviour, and `UserMenu.BlankNameHasNoInitials` states it.
- `UsePerformance.Measure`: the source replaces the whole metrics record (hooks/usePerformance.ts:33), so a metric observed earlier is dropped. The model returns that new record.
- `ProtectedRoute.Effects`: `window.location.reload` and `router.push` are recorded as actions. Navigation itself is not modelled.
- `AuthContext.AuthProvider.SignInWithGoogle` returns whether sign-in succeeded, not the `UserCredential` object.
- `UserMenu.Initials`, `CreditCard3D.MaskCardNumber`, `CreditCard3D.FormatCardNumber` and `CardGrouping.GroupFours` count Unicode scalar values, where `charAt`, `slice` and `/(.{4})/g` count UTF-16 code units. For text outside the Basic Multilingual Plane the source can split a surrogate pair ("😀 Bob" gives a lone high surrogate followed by `B`), so its initials, masks and groupings differ from the model's.
- `UriComponent.Encode` treats every `char` as a Unicode scalar value. Lone surrogates, which make `encodeURIComponent` throw, are not modelled.
- **Sample data.** The sample data of the markets and transactions pages is copied as literals. The other page mock data (dashboard statistics, payment cards) is not modelled.
