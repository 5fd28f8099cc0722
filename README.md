# crypto_platform in Dafny

A model of the logic of a cryptocurrency tracking platform. The platform has a Django back end and a Next.js front end.

The back end keeps two tables filled by a periodic task from the CoinGecko market feed:

- assets, keyed by their CoinGecko id;
- price points, one per asset and timestamp.

Its REST views serve, for one symbol, a price history, OHLC candles and two moving averages, plus a heat map of every asset's latest point. It also has a registration view and a login view that issues JWT pairs.

The front end has these parts:

- an authentication provider: the session state machine;
- two route guards;
- the sign-up, change-password, profile, admin-login, user-management and data-source pages;
- the dashboard widgets: charts, heat map, market cards, asset and range pickers, and the price-alert dialog;
- the fetch wrappers and transforms of its API service module.

## Layout

There is one module per source file. Code that is a pure expression is modelled as datatypes, functions and lemmas. Code that updates state is modelled as classes whose methods have `modifies` clauses and whose `ensures` tie the new state to those functions.

| file | module | source |
|---|---|---|
| common.dfy | `Common` | shared vocabulary (Option, ASCII case mapping, `includes`/`startsWith`, decimal rendering, string order) |
| models.dfy | `Models` | backend/core/models.py |
| tasks.dfy | `Tasks` | backend/core/tasks.py |
| views.dfy | `Views` | backend/core/views.py: lookups, windows, `price_history`, `indicators` |
| ohlc.dfy | `Ohlc` | backend/core/views.py: `ohlc_data` |
| heatmap.dfy | `Heatmap` | backend/core/views.py: `heatmap` |
| accounts.dfy | `Accounts` | backend/core/views.py: `register`, `login_view` |
| auth.dfy | `Auth` | frontend/context/auth.tsx |
| middleware.dfy, proxy.dfy | `Middleware`, `Proxy` | frontend/middleware.ts, frontend/proxy.ts |
| sidebar.dfy, admin_sidebar.dfy | `Sidebar`, `AdminSidebar` | the two sidebars |
| theme.dfy | `Theme` | frontend/components/theme-provider.tsx |
| signup.dfy, edit_password.dfy, profile.dfy | `SignUp`, `EditPassword`, `ProfilePage` | the account pages |
| admin_login.dfy, admin_users.dfy, api_config.dfy | `AdminLogin`, `AdminUsers`, `ApiConfig` | the admin pages |
| api_service.dfy | `ApiService` | frontend/lib/api-service.ts |
| advanced_charts.dfy, header.dfy, heatmap_section.dfy, market_overview.dfy, new_alert_modal.dfy | `AdvancedCharts`, `Header`, `HeatmapSection`, `MarketOverview`, `NewAlertModal` | the dashboard components |

Timestamps are integer seconds. Prices and percentages are `real`.

Everything outside the program becomes a parameter:

- the network: the CoinGecko response, `fetch`, the API calls of the auth provider;
- Django's `authenticate`, the clock, `parse_datetime` and `parseFloat`;
- the locale date labels.

The browser effects (cookies, `localStorage`, redirects) are recorded as fields.

Where the code and its documentation disagree, the model follows the code. The dashboard sidebar's Dashboard item uses `isActive("/")`. That test holds for "/" and also for any path that starts with "//", and `Sidebar.DashboardActive` states exactly that.

## Model

| member | source | states |
|---|---|---|
| Common.Upper | backend/core/tasks.py:39 | upper-casing keeps the length and maps each character by the ASCII rule |
| Common.Lower | frontend/app/admin/users/page.tsx:80 | lower-casing keeps the length and maps each character by the ASCII rule |
| Common.UpperIdempotent | backend/core/models.py:19 | upper-casing twice is upper-casing once |
| Common.NatToStringRoundTrip | backend/core/tasks.py:66 | the decimal rendering of a count reads back as that count |
| Common.NatToStringInjective | backend/core/views.py:198 | distinct counters render as distinct digit strings |
| Common.IndexOf | backend/core/views.py:194 | the position of the first occurrence of a character, or the length when there is none |
| Common.CollectSomeKeys | frontend/components/dashboard/market-overview.tsx:25-38 | a key is in the record filled by the loop iff some position holds it with a value |
| Common.CollectSomeLastWins | frontend/components/dashboard/market-overview.tsx:25-38 | a present key holds the value written by its last position that had a value |
| Common.StrLessTotal | frontend/components/dashboard/advanced-charts.tsx:117 | the default sort order compares any two distinct strings |
| Common.StrLessTransitive | frontend/components/dashboard/advanced-charts.tsx:117 | the default sort order is transitive |
| Models.AssetLabel | backend/core/models.py:18-19 | an asset displays as its name, " (", its upper-cased symbol, ")" |
| Models.AssetLabelIgnoresSymbolCase | backend/core/models.py:18-19 | the label does not depend on the case in which the symbol is stored |
| Models.OrderByTimestamp | backend/core/views.py:36 | `order_by('timestamp')` gives a permutation of the rows, oldest first |
| Models.DefaultOrdering | backend/core/models.py:36 | the default `-timestamp` ordering is a permutation of the rows, newest first |
| Models.ParseCondition | backend/core/models.py:52-59 | a condition is accepted iff it is "above" or "below", and it keeps that stored value |
| Models.ConditionRoundTrip | backend/core/models.py:52-59 | every choice's stored value parses back to that choice |
| Models.NewAlert | backend/core/models.py:57-63 | a new alert is active, never triggered, and stamped with its creation time |
| Models.CreatePortfolio | backend/core/models.py:86-90 | creation fails iff the user already has a portfolio; otherwise it appends one with 100000.00 initial balance, 100000.00 cash and 0 realised P&L, and at most one portfolio per user still holds |
| Models.CreateHolding | backend/core/models.py:98-105 | creation fails iff the (portfolio, asset) pair exists; otherwise it appends a zero holding and the pair stays unique |
| Tasks.FindAsset | backend/core/tasks.py:36-37 | the first asset row with the CoinGecko id, or none when no row has it |
| Tasks.UpsertAsset | backend/core/tasks.py:36-42 | an existing row with the id gets the upper-cased symbol and the new name; otherwise one is appended; CoinGecko ids stay unique |
| Tasks.FindPoint | backend/core/tasks.py:50-52 | a point recorded for (asset, timestamp), or none when there is none |
| Tasks.ChangeOrZero | backend/core/tasks.py:57-59 | a missing or null change is stored as 0 |
| Tasks.GetOrCreatePoint | backend/core/tasks.py:50-61 | an existing (asset, timestamp) point is kept as it is; otherwise the new point is appended; it raises iff a price key is missing, or a null price would be inserted |
| Tasks.IngestCoin | backend/core/tasks.py:34-64 | a coin without its id, symbol or name changes nothing; otherwise the asset is upserted; a coin whose timestamp does not parse adds no price point; existing rows are never removed; all table constraints are preserved |
| Tasks.Ingest | backend/core/tasks.py:33-64 | the loop only appends price points, keeps every asset id, and preserves the constraints |
| Tasks.RunMessage | backend/core/tasks.py:24-66 | a failed request reports "Erreur…"; otherwise the message starts with the number of coins received, skipped ones included |
| Tasks.FailedRequestChangesNothing | backend/core/tasks.py:24-31 | a failed upstream request leaves both tables unchanged |
| Tasks.CoinUpsertsItsAsset | backend/core/tasks.py:35-47 | after a usable coin exactly one row has its id, holding the upper-cased symbol and the new name, whether or not the timestamp parsed |
| Tasks.NewTimestampAccumulates | backend/core/tasks.py:49-61 | a complete coin with a new timestamp appends exactly its point |
| Tasks.ExistingPointKept | backend/core/tasks.py:49-61 | a coin whose (asset, timestamp) point exists leaves the price table as it was |
| Tasks.IngestSnoc | backend/core/tasks.py:33-64 | ingesting one more coin is one more pass of the loop body |
| Tasks.FailingCoinSkipped | backend/core/tasks.py:62-64 | a coin that raises before the upsert is skipped and the loop goes on with the rest |
| Tasks.PriceTables.LookupAsset | backend/core/tasks.py:36-37 | the linear scan finds the first row with the id |
| Tasks.PriceTables.LookupPoint | backend/core/tasks.py:50-52 | the linear scan finds a point for (asset, timestamp) iff one exists |
| Tasks.PriceTables.UpsertAssetRow | backend/core/tasks.py:36-42 | the asset table becomes `UpsertAsset` of the old one; the price table is unchanged |
| Tasks.PriceTables.GetOrCreatePointRow | backend/core/tasks.py:50-61 | the price table becomes `GetOrCreatePoint` of the old one, or stays as it was when that raises |
| Tasks.PriceTables.IngestOne | backend/core/tasks.py:34-64 | one loop pass, with its exception caught, is `IngestCoin` |
| Tasks.PriceTables.FetchCryptoPrices | backend/core/tasks.py:12-66 | the task leaves the tables as `Run` of the old ones, keeps them valid, and returns `RunMessage` |
| Views.IndicesWhere | backend/core/views.py:33-35 | the indices of the rows a filter keeps, each once, in table order |
| Views.GetUnique | backend/core/views.py:28-31 | `objects.get`: not found iff no row matches, the row when exactly one matches, and an error iff two or more match |
| Views.GetAssetBySymbol | backend/core/views.py:28-31 | the asset whose stored symbol equals the upper-cased request symbol |
| Views.SymbolLookupIgnoresCase | backend/core/views.py:29 | the lookup gives the same outcome whatever the case of the request symbol |
| Views.WindowStart | backend/core/views.py:17-26 | a known range starts that long before now; a missing or unknown range starts one day before |
| Views.InWindow | backend/core/views.py:33-35 | exactly the asset's points with start <= t <= end |
| Views.PriceHistory | backend/core/views.py:12-38 | 404 iff the symbol is unknown; otherwise the asset's points in the window, oldest first |
| Views.PriceValues | backend/core/views.py:167 | the prices of the points, index by index |
| Views.Sma | backend/core/views.py:169-172 | none iff fewer values than the window exist; otherwise the mean of the last `window` values |
| Views.SmaWithinWindow | backend/core/views.py:169-172 | a moving average lies between any lower and upper bound of its window |
| Views.PointsOf | backend/core/views.py:163-165 | exactly the asset's points |
| Views.AssetSeries | backend/core/views.py:163-167 | the prices of some rearrangement of the asset's points that keeps each point as often and puts no point after a newer one |
| Views.IndicatorsView | backend/core/views.py:155-177 | 404 iff the symbol is unknown; otherwise SMA_7 and SMA_25 are the moving averages of the 7 and 25 last prices of the time-ordered series, null iff the asset has fewer than 7 or 25 points |
| Views.IndicatorsAreNewestMeans | backend/core/views.py:162-175 | each average is the mean of the prices of the last `window` points of the asset's points in time order, so no point left out is newer than a point averaged |
| Views.IndicatorsBounded | backend/core/views.py:155-177 | when all the asset's prices lie in [lo, hi], so do both averages |
| Ohlc.BucketMinutes | backend/core/views.py:69-76 | the listed intervals map to their size; a missing or unknown interval gives 60; every size divides a day |
| Ohlc.TruncateTo | backend/core/views.py:83 | the minute of the day rounded down to a multiple of the bucket size: a multiple of the size, less than one size below the minute |
| Ohlc.BucketHoldsTimestamp | backend/core/views.py:83-89 | a bucket starts on a whole minute of the same day, at most one bucket length before the timestamp, and its offset into the day is a multiple of the bucket length |
| Ohlc.Group | backend/core/views.py:90 | a bucket's list holds exactly the window's points that fall into it |
| Ohlc.GroupAscending | backend/core/views.py:81-90 | the points are appended in window order, so the bucket of an oldest-first window is oldest first |
| Ohlc.GroupEnds | backend/core/views.py:81-90 | in an oldest-first window a bucket's first point is its earliest and its last point its latest |
| Ohlc.BucketKeys | backend/core/views.py:81-90 | there are no more buckets than points |
| Ohlc.BucketKeysMembers | backend/core/views.py:81-90 | a bucket exists iff some point falls into it |
| Ohlc.GroupsNonEmpty | backend/core/views.py:90 | no bucket is empty |
| Ohlc.Buckets | backend/core/views.py:79-90 | the dictionary's keys are the buckets, each mapped to its non-empty group |
| Ohlc.BucketsSnoc | backend/core/views.py:90 | appending a point to its bucket's list is the dictionary of the longer window |
| Ohlc.Min | backend/core/views.py:100 | `min`: a member of the list, no greater than any element |
| Ohlc.Max | backend/core/views.py:101 | `max`: a member of the list, no less than any element |
| Ohlc.MakeCandle | backend/core/views.py:94-102 | a candle is stamped with its bucket; open is the first price and close the last |
| Ohlc.CandleSpansBucket | backend/core/views.py:98-101 | a candle's low and high are the lowest and highest prices of the bucket, and they bound its open and close |
| Ohlc.CandleOpensEarliest | backend/core/views.py:60-101 | on the time-ordered window a candle opens at the price of its bucket's earliest point and closes at that of its latest |
| Ohlc.CandlesOver | backend/core/views.py:92-102 | one candle per key, in key order |
| Ohlc.SetMin | backend/core/views.py:93 | the least bucket of a non-empty set |
| Ohlc.SortedSet | backend/core/views.py:93 | `sorted(keys)`: the keys in strictly increasing order |
| Ohlc.IncreasingUnique | backend/core/views.py:93 | a strictly increasing list is determined by its elements |
| Ohlc.SortKeys | backend/core/views.py:93 | taking the least remaining key each time yields the sorted keys |
| Ohlc.CandlesOrdered | backend/core/views.py:92-104 | one candle per bucket, strictly ascending, never more than the points |
| Ohlc.CandlesWellFormed | backend/core/views.py:96-101 | every candle has low <= open <= high and low <= close <= high |
| Ohlc.CandleTimestamps | backend/core/views.py:92-97 | the candle timestamps are exactly the buckets some point falls into |
| Ohlc.CandleSummarisesBucket | backend/core/views.py:93-101 | each candle is made from its bucket's points, in window order |
| Ohlc.PointInItsCandle | backend/core/views.py:81-101 | every point of the window lies between the low and high of its bucket's candle |
| Ohlc.Ohlc | backend/core/views.py:41-104 | 404 iff the symbol is unknown; otherwise [] for an empty window and the candles of the window's points otherwise |
| Ohlc.OhlcCoversWindow | backend/core/views.py:41-104 | every point of the asset within the window is covered by a candle stamped with its bucket |
| Ohlc.BucketPoints | backend/core/views.py:79-90 | the first loop builds `Buckets` of the window |
| Ohlc.EmitCandles | backend/core/views.py:92-102 | the second loop emits one candle per key, in key order |
| Ohlc.WindowCandles | backend/core/views.py:78-104 | the two loops together yield the candles of the window |
| Ohlc.OhlcData | backend/core/views.py:41-104 | the view computes `Ohlc` |
| Heatmap.LatestRows | backend/core/views.py:125-138 | exactly the rows that are their asset's newest point in the window, in order |
| Heatmap.NewestOf | backend/core/views.py:125-127 | an asset's newest point at or after the window start, or none when it has no point there |
| Heatmap.LatestExists | backend/core/views.py:125-130 | every asset with a point in the window has a latest point |
| Heatmap.Item | backend/core/views.py:142-150 | an entry copies the asset's symbol and name and the point's price, changes and market cap |
| Heatmap.CollectKeys | backend/core/views.py:140-150 | the dictionary has one key per symbol of the rows and no other |
| Heatmap.CollectLastWins | backend/core/views.py:140-150 | each entry is written by the last row with its symbol |
| Heatmap.HeatmapRowsAreLatest | backend/core/views.py:125-138 | a row is listed iff it is its asset's newest point in the window |
| Heatmap.HeatmapRowsDescending | backend/core/views.py:138 | the listed rows come newest first |
| Heatmap.HeatmapRowsAsWritten | backend/core/views.py:133-138 | as written: with no point in the window the query matches every row; otherwise it lists the latest rows |
| Heatmap.HeatmapAsWritten | backend/core/views.py:107-152 | as written: 400 iff the range is not 1h, 24h or 7d |
| Heatmap.Heatmap | backend/core/views.py:107-152 | 400 iff the range is not 1h, 24h or 7d; otherwise the dictionary of the latest points in the window |
| Heatmap.LatestRowsSymbols | backend/core/views.py:125-138 | the latest rows carry exactly the symbols that have a point in the window |
| Heatmap.HeatmapKeys | backend/core/views.py:121-152 | a symbol has an entry iff some asset with that symbol has a point in the window |
| Heatmap.HeatmapValue | backend/core/views.py:121-152 | each entry is the latest in-window point of an asset with that symbol |
| Heatmap.StaleFeedFillsHeatmap | backend/core/views.py:133-138 | with no point in the window the intended map is empty, but the code as written lists stored rows |
| Heatmap.AsWrittenAgreesWhenFresh | backend/core/views.py:133-138 | when some point is in the window, the code as written and the intended view agree |
| Heatmap.CollectRows | backend/core/views.py:140-150 | the loop builds the dictionary of the rows |
| Heatmap.WindowData | backend/core/views.py:121-150 | the view body builds the dictionary of the latest points in the window |
| Accounts.LocalPart | backend/core/views.py:194 | `split('@')[0]`: the longest '@'-free prefix of the email |
| Accounts.CandidateInjective | backend/core/views.py:195-198 | distinct counters give distinct usernames |
| Accounts.TakenCandidatesBound | backend/core/views.py:196-199 | at most as many candidates as there are users can be taken, so the loop ends |
| Accounts.Authenticate | backend/core/views.py:222-224 | a user with that username and password who is active, or none when no active user has both |
| Accounts.LoginView | backend/core/views.py:208-227 | 400 iff a field is missing or empty; 401 for an unknown email and for a known email whose user does not authenticate; 500 when two users share the email; tokens only for an active user whose password matches |
| Accounts.LoginIssuesToEmailOwner | backend/core/views.py:216-227 | with unique usernames, tokens are issued iff exactly one user has the email, that user is active and the password matches, and to that user |
| Accounts.RegisteredUserCanLogIn | backend/core/views.py:180-227 | an active user that registration stored can log in with its email and password |
| Accounts.UserTable.Register | backend/core/views.py:180-205 | 400 for a missing field or a taken email, with the table unchanged; otherwise 201 and one active row under the first free candidate username; usernames stay unique |
| Auth.Initial | frontend/context/auth.tsx:19-21 | a new session is signed out and loading, with no user |
| Auth.AfterRefresh | frontend/context/auth.tsx:24-79 | loading ends in every branch; a failed or thrown refresh leaves the session signed out; an OK refresh with a token stores it and signs in, and sets the user only from an OK profile; an OK refresh without a token changes nothing else |
| Auth.AfterLogin | frontend/context/auth.tsx:81-108 | loading ends even when the call throws; a returned token is stored and signs in; the user is set only from an OK profile response |
| Auth.LogoutRedirect | frontend/context/auth.tsx:152-159 | "/admin/login" iff the user is staff or superuser or the path contains "/admin"; "/signin" otherwise |
| Auth.AfterLogout | frontend/context/auth.tsx:147-179 | token, flag, user and cookie are cleared whatever the backend does, and the browser goes to the redirect |
| Auth.StoredProfile | frontend/context/auth.tsx:142 | the stored user keeps only id, email, name, phone and country |
| Auth.AfterUpdateProfile | frontend/context/auth.tsx:139-145 | a returned profile replaces the user; none leaves the session alone |
| Auth.FailedRefreshSignedOut | frontend/context/auth.tsx:63-75 | a failed, thrown or tokenless refresh leaves a fresh session signed out, without a user, and not loading |
| Auth.RefreshWithoutProfile | frontend/context/auth.tsx:42-61 | a refresh with a token signs in even when the profile fetch fails, leaving no user |
| Auth.ThrownLoginStaysSignedOut | frontend/context/auth.tsx:83-107 | a login that throws leaves a signed-out session signed out and not loading |
| Auth.UpdatedProfileLosesRole | frontend/context/auth.tsx:139-159 | after `updateProfile` the role flags are gone, so logout redirects by path alone |
| Auth.LogoutTwice | frontend/context/auth.tsx:147-179 | a second logout on the same page changes nothing, except that a staff user's second redirect is decided by path alone |
| Auth.AuthSession.constructor | frontend/context/auth.tsx:19-21 | mounting yields `Initial` |
| Auth.AuthSession.Init | frontend/context/auth.tsx:24-79 | the startup effect moves the state to `AfterRefresh` |
| Auth.AuthSession.Login | frontend/context/auth.tsx:81-108 | `login` moves the state to `AfterLogin` and rethrows iff the call threw |
| Auth.AuthSession.AdminLogin | frontend/context/auth.tsx:110-137 | `adminLogin` moves the state to `AfterLogin` and rethrows iff the call threw |
| Auth.AuthSession.UpdateProfile | frontend/context/auth.tsx:139-145 | the state becomes `AfterUpdateProfile` and the call's data is returned |
| Auth.AuthSession.Logout | frontend/context/auth.tsx:147-179 | the state becomes `AfterLogout` |
| Middleware.Middleware | frontend/middleware.ts:3-37 | public pages always pass; any token passes; a protected prefix without a token goes to "/signin"; an admin path other than "/admin/login" without a token goes to "/admin/login"; nothing else redirects |
| Middleware.EmptyTokenIsNoToken | frontend/middleware.ts:7-33 | an empty cookie value decides like no cookie |
| Middleware.UnguardedPathAllowed | frontend/middleware.ts:36 | a path no rule names is allowed |
| Middleware.PrefixGuardsLookalike | frontend/middleware.ts:16-23 | "/profileX" without a token is sent to "/signin" |
| Middleware.AdminPathNeedsToken | frontend/middleware.ts:26-34 | every "/admin…" path except the login page needs a token |
| Proxy.Proxy | frontend/proxy.ts:3-18 | it redirects to "/admin/login" iff the path starts with "/admin", is not "/admin/login", and carries no `adminSession` cookie |
| Proxy.CookieValueIgnored | frontend/proxy.ts:9-14 | any cookie value, even an empty one, passes |
| Sidebar.SlashBoundary | frontend/components/dashboard/sidebar.tsx:14 | an item is active below its path only across a '/' boundary |
| Sidebar.PortfolioNotActiveOnLookalike | frontend/components/dashboard/sidebar.tsx:14 | "/portfolio" is not active on "/portfolioX" |
| Sidebar.DashboardActive | frontend/components/dashboard/sidebar.tsx:32 | the Dashboard item is active iff the path is "/" or starts with "//" |
| Sidebar.HandleLogout | frontend/components/dashboard/sidebar.tsx:16-18 | the button is the provider's `logout` |
| AdminSidebar.DashboardActive | frontend/components/admin/admin-sidebar.tsx:36-41 | the Dashboard item is active iff the path is exactly "/admin" |
| AdminSidebar.UsersActiveBelow | frontend/components/admin/admin-sidebar.tsx:42-47 | User Management is active on "/admin/users" and every page below it |
| AdminSidebar.HandleLogout | frontend/components/admin/admin-sidebar.tsx:17-19 | the button is the provider's `logout` |
| Theme.ReportedTheme | frontend/components/theme-provider.tsx:16 | the library's theme when it is set, "dark" otherwise |
| Theme.ToggleTheme | frontend/components/theme-provider.tsx:17-19 | "light" iff the library's theme is "dark"; otherwise "dark" |
| Theme.ToggleTwice | frontend/components/theme-provider.tsx:17-19 | two toggles from "dark" or "light" restore it |
| Theme.UnsetThemeToggleSetsDark | frontend/components/theme-provider.tsx:6-19 | with no theme (or "system") the hook reports a non-light theme and a toggle sets "dark" |
| SignUp.PasswordStrength | frontend/app/signup/page.tsx:29 | strong iff more than 8 characters, medium iff 5 to 8, weak iff at most 4 |
| SignUp.EightCharactersRateMedium | frontend/app/signup/page.tsx:29-51 | an 8-character password passes the length check yet rates medium |
| SignUp.EmailValidMatchesPattern | frontend/app/signup/page.tsx:39-44 | the email test accepts exactly the strings the pattern `^[^\s@]+@[^\s@]+\.[^\s@]+$` matches |
| SignUp.SpaceRejected | frontend/app/signup/page.tsx:39-44 | no email with a white-space character passes |
| SignUp.Validate | frontend/app/signup/page.tsx:39-55 | the email error iff the email fails; the length message iff fewer than 8 characters; otherwise the composition message iff a digit or a letter is missing; the confirm error iff the two passwords differ |
| SignUp.FailureMessage | frontend/app/signup/page.tsx:65 | the thrown message when it is non-empty, otherwise "Failed to create account" |
| SignUp.SignUpPage.constructor | frontend/app/signup/page.tsx:15-27 | an empty form with no errors and not loading |
| SignUp.SignUpPage.HandleSignUp | frontend/app/signup/page.tsx:31-71 | every check runs; `register` is called iff none failed; success navigates to "/signin"; failure shows `FailureMessage`; loading ends false |
| SignUp.SignUpPage.HandleChange | frontend/app/signup/page.tsx:73-79 | stores the value and clears that field's own error only |
| EditPassword.PreCheck | frontend/app/profile/edit-password/page.tsx:21-29 | "Please fill all fields." iff a field is empty; else the mismatch error iff the new password and its confirmation differ |
| EditPassword.EditPasswordPage.constructor | frontend/app/profile/edit-password/page.tsx:9-14 | empty fields, no messages, not loading |
| EditPassword.EditPasswordPage.SetFields | frontend/app/profile/edit-password/page.tsx:67-87 | the inputs set the three fields and nothing else |
| EditPassword.EditPasswordPage.HandleSubmit | frontend/app/profile/edit-password/page.tsx:16-43 | messages cleared first; no call when `PreCheck` fails; success sets the message and clears the fields; failure keeps them and shows the thrown or default message; loading ends false |
| EditPassword.SubmitTwice | frontend/app/profile/edit-password/page.tsx:16-43 | after a successful change a second submit asks to fill all fields |
| ProfilePage.OrEmpty | frontend/app/profile/page.tsx:25-28 | a missing field reads as "" |
| ProfilePage.FormOf | frontend/app/profile/page.tsx:22-32 | the form copies the user's fields with "" for missing ones, and bio is "" |
| ProfilePage.PayloadOf | frontend/app/profile/page.tsx:42 | save sends full_name from the name, plus phone and country |
| ProfilePage.PayloadIgnoresEmail | frontend/app/profile/page.tsx:42 | the email and bio never reach the request |
| ProfilePage.Page.constructor | frontend/app/profile/page.tsx:14-37 | an empty form, not editing, not saving |
| ProfilePage.Page.SyncFromUser | frontend/app/profile/page.tsx:22-32 | a signed-in user overwrites the form; no user leaves it |
| ProfilePage.Page.ToggleEditing | frontend/app/profile/page.tsx:83 | the edit button flips `isEditing` |
| ProfilePage.Page.HandleSave | frontend/app/profile/page.tsx:39-52 | it sends `PayloadOf` the form; success ends editing; failure keeps it; saving ends false in both cases |
| AdvancedCharts.Interval | frontend/components/dashboard/advanced-charts.tsx:80 | "1m" for 1h, "15m" for 24h, "1h" for any other range |
| AdvancedCharts.EntriesOnlyForFetched | frontend/components/dashboard/advanced-charts.tsx:84-98 | a symbol gets a chart or indicator entry iff it is selected and its request returned a body |
| AdvancedCharts.SortTimestamps | frontend/components/dashboard/advanced-charts.tsx:116-117 | the timestamps in strictly ascending order, each once |
| AdvancedCharts.CollectTimestamps | frontend/components/dashboard/advanced-charts.tsx:111-114 | the set holds every timestamp of every series |
| AdvancedCharts.FindAt | frontend/components/dashboard/advanced-charts.tsx:121 | `find`: the first point at the timestamp, or none when there is none |
| AdvancedCharts.PointFields | frontend/components/dashboard/advanced-charts.tsx:118-127 | `time` equals `timestamp`; a symbol has fields iff it is selected and has a point there, taken from its first match |
| AdvancedCharts.FirstSeries | frontend/components/dashboard/advanced-charts.tsx:130 | the first selected symbol's series, or [] when it has none |
| AdvancedCharts.MergedData | frontend/components/dashboard/advanced-charts.tsx:109-130 | with compare mode and two or more symbols: one point per distinct timestamp, ascending; otherwise the first series |
| AdvancedCharts.AscendingUnique | frontend/components/dashboard/advanced-charts.tsx:116-117 | the merged timeline is determined by the set of timestamps |
| AdvancedCharts.AscendingDistinct | frontend/components/dashboard/advanced-charts.tsx:116-117 | no timestamp appears twice in the timeline |
| AdvancedCharts.Sma7Trend | frontend/components/dashboard/advanced-charts.tsx:487 | the SMA(7) arrow is up iff SMA_7 > SMA_25, with null counted as 0 |
| AdvancedCharts.Sma25Trend | frontend/components/dashboard/advanced-charts.tsx:493 | the SMA(25) arrow is down iff SMA_25 > SMA_7 |
| AdvancedCharts.TrendsDisagreeIffEqual | frontend/components/dashboard/advanced-charts.tsx:487-493 | the two arrows disagree iff the averages are equal, and then SMA(7) is down and SMA(25) up |
| AdvancedCharts.ShowSma | frontend/components/dashboard/advanced-charts.tsx:485 | "N/A" iff the value is missing or zero; otherwise the value |
| AdvancedCharts.Charts.constructor | frontend/components/dashboard/advanced-charts.tsx:33-35 | empty records, loading |
| AdvancedCharts.Charts.FetchData | frontend/components/dashboard/advanced-charts.tsx:73-103 | an empty selection only ends loading; otherwise both records become those of the fetched bodies |
| Header.Without | frontend/components/dashboard/header.tsx:30 | the filter drops every occurrence of the asset and keeps the others |
| Header.ToggleAsset | frontend/components/dashboard/header.tsx:28-32 | a present asset is removed everywhere; an absent one is appended; membership flips |
| Header.ToggleKeepsOthers | frontend/components/dashboard/header.tsx:28-32 | with the toggled asset set aside, the selection is the same list before and after |
| Header.ToggleAbsentTwice | frontend/components/dashboard/header.tsx:28-32 | toggling an absent asset twice restores the selection |
| Header.ClickHighlightsItsButton | frontend/components/dashboard/header.tsx:83-94 | once the range a button hands to the callback is current, that button and no other is highlighted |
| Header.UnlistedRangeHighlightsNone | frontend/components/dashboard/header.tsx:83-94 | a current range no button names highlights none |
| HeatmapSection.HeatmapColor | frontend/components/dashboard/heatmap-section.tsx:43-50 | the six colour bands, each with an inclusive lower bound |
| HeatmapSection.ChangePrefix | frontend/components/dashboard/heatmap-section.tsx:82 | "+" iff the change is >= 0 |
| HeatmapSection.GreenIffNonNegative | frontend/components/dashboard/heatmap-section.tsx:43-50 | a tile is green iff its change is >= 0, exactly when it shows "+" |
| HeatmapSection.FirstPage | frontend/components/dashboard/heatmap-section.tsx:26 | the first 12 tiles, or all when there are fewer |
| HeatmapSection.ShowMoreButton | frontend/components/dashboard/heatmap-section.tsx:88-95 | no button up to 12 tiles; otherwise "Show less" or "Show more (n more)" |
| HeatmapSection.ShowMoreCountsHidden | frontend/components/dashboard/heatmap-section.tsx:94 | the count in the label is the number of hidden tiles |
| HeatmapSection.Panel.constructor | frontend/components/dashboard/heatmap-section.tsx:14-17 | no tiles, loading, the first page |
| HeatmapSection.Panel.FetchHeatmap | frontend/components/dashboard/heatmap-section.tsx:20-29 | a body replaces the tiles and shows the first page; no body keeps them; loading ends |
| HeatmapSection.Panel.ToggleShowAll | frontend/components/dashboard/heatmap-section.tsx:34-41 | flips the flag and shows all tiles or the first page |
| HeatmapSection.ToggleTwice | frontend/components/dashboard/heatmap-section.tsx:34-41 | two toggles bring back the first page |
| MarketOverview.CardOf | frontend/components/dashboard/market-overview.tsx:28-36 | the card copies the symbol, name and change, and parses price, market cap and volume |
| MarketOverview.CardFor | frontend/components/dashboard/market-overview.tsx:26-37 | no card iff the history is null or empty; otherwise the card of its last element |
| MarketOverview.CardsAt | frontend/components/dashboard/market-overview.tsx:25-38 | one optional card per selected symbol, in order |
| MarketOverview.CardPresent | frontend/components/dashboard/market-overview.tsx:25-38 | a symbol has a card iff one of its fetches returned a non-empty history |
| MarketOverview.CardFromLatest | frontend/components/dashboard/market-overview.tsx:25-38 | a card comes from the last point of the last non-empty history fetched for the symbol |
| MarketOverview.PositiveAgreesWithHeatmap | frontend/components/dashboard/market-overview.tsx:73 | a card is positive iff its change is >= 0, just as the heat map colours it |
| MarketOverview.Overview.constructor | frontend/components/dashboard/market-overview.tsx:17-18 | no cards, loading |
| MarketOverview.Overview.FetchAssets | frontend/components/dashboard/market-overview.tsx:21-42 | the record becomes the cards of the whole selection, and only then does loading end |
| MarketOverview.Overview.Refresh | frontend/components/dashboard/market-overview.tsx:44-46 | an empty selection changes nothing, so loading stays on |
| ApiService.BaseUrl | frontend/lib/api-service.ts:1 | the configured URL when set and non-empty, otherwise the local default |
| ApiService.PriceHistoryUrl | frontend/lib/api-service.ts:42-44 | base + "/price-history/" + symbol + "/?range=" + range, with "7d" as the default range |
| ApiService.OhlcUrl | frontend/lib/api-service.ts:55-57 | base + "/ohlc/" + symbol + "/?interval=" … "&range=" …, with defaults "1h" and "24h" |
| ApiService.HeatmapUrl | frontend/lib/api-service.ts:68-70 | base + "/heatmap/?range=" + range, with "24h" as the default |
| ApiService.IndicatorsUrl | frontend/lib/api-service.ts:81-83 | base + "/indicators/" + symbol + "/" |
| ApiService.PriceHistoryUrlInjective | frontend/lib/api-service.ts:44 | for symbols without '/', the URL determines the symbol and the range |
| ApiService.Settle | frontend/lib/api-service.ts:43-51 | null on a non-OK response or a throw; the parsed body otherwise |
| ApiService.GetPriceHistory | frontend/lib/api-service.ts:42-52 | the body fetched from the price-history URL, or null |
| ApiService.GetOhlcData | frontend/lib/api-service.ts:55-65 | the body fetched from the OHLC URL, or null |
| ApiService.GetHeatmapData | frontend/lib/api-service.ts:68-78 | the body fetched from the heat-map URL, or null |
| ApiService.GetIndicators | frontend/lib/api-service.ts:81-91 | the body fetched from the indicators URL, or null |
| ApiService.TransformPriceHistory | frontend/lib/api-service.ts:94-101 | same length; index by index, the parsed price and volume and the 24h change |
| ApiService.TransformOhlc | frontend/lib/api-service.ts:104-113 | same length; open, high, low, close and timestamp copied index by index |
| ApiService.TransformHeatmap | frontend/lib/api-service.ts:116-126 | one tile per entry, in entry order, with the percent_change_* and market_cap fields renamed |
| ApiService.TransformsDistribute | frontend/lib/api-service.ts:94-126 | all three transforms commute with concatenation |
| AdminUsers.Filter | frontend/app/admin/users/page.tsx:78-82 | `filter`: keeps exactly the users the predicate accepts |
| AdminUsers.FilterDistributes | frontend/app/admin/users/page.tsx:78-82 | the filter of a concatenation is the concatenation of the filters, so order is kept |
| AdminUsers.FilterAll | frontend/app/admin/users/page.tsx:78-82 | a filter every user passes changes nothing |
| AdminUsers.FilteredUsers | frontend/app/admin/users/page.tsx:78-82 | a user is kept iff the lower-cased email or username contains the lower-cased term |
| AdminUsers.EmptySearchKeepsAll | frontend/app/admin/users/page.tsx:78-82 | an empty search keeps everyone, in order |
| AdminUsers.SearchIgnoresCase | frontend/app/admin/users/page.tsx:80-81 | the case of the search term does not matter |
| AdminUsers.DeleteUser | frontend/app/admin/users/page.tsx:84-86 | removes exactly the users with that id |
| AdminUsers.DeleteIdempotent | frontend/app/admin/users/page.tsx:84-86 | deleting twice is deleting once; deleting an absent id changes nothing |
| AdminUsers.StatusColor | frontend/app/admin/users/page.tsx:88-99 | green for active, red for suspended, gray for anything else |
| AdminUsers.StatusLabel | frontend/app/admin/users/page.tsx:159 | the status with its first character upper-cased |
| AdminUsers.MockLabels | frontend/app/admin/users/page.tsx:159 | the three statuses display as Active, Suspended and Inactive |
| AdminUsers.Render | frontend/app/admin/users/page.tsx:68-82 | a visitor who is not signed in is redirected to "/admin/login" and sees nothing; otherwise the filtered table |
| AdminUsers.UsersPage.constructor | frontend/app/admin/users/page.tsx:65-66 | the mock users and an empty search |
| AdminUsers.UsersPage.SetSearchTerm | frontend/app/admin/users/page.tsx:66 | the search field changes the term only |
| AdminUsers.UsersPage.HandleDeleteUser | frontend/app/admin/users/page.tsx:84-86 | the user list becomes `DeleteUser` of the old one |
| AdminLogin.FindAdmin | frontend/app/admin/login/page.tsx:30 | `find`: the first listed administrator matching both email and password, or none |
| AdminLogin.OnlyListedPairs | frontend/app/admin/login/page.tsx:25-30 | login succeeds iff the pair is one of the two listed; mixed pairs fail |
| AdminLogin.LoginPage.constructor | frontend/app/admin/login/page.tsx:11-15 | empty fields, no error, not loading, nothing stored |
| AdminLogin.LoginPage.SetCredentials | frontend/app/admin/login/page.tsx:84-98 | the inputs set email and password only |
| AdminLogin.LoginPage.HandleAdminLogin | frontend/app/admin/login/page.tsx:17-54 | no match: "Invalid admin credentials", loading off, nothing stored; a match stores the session {email, "admin", time} and goes to "/admin" with loading left on; a storage failure shows the generic error |
| ApiConfig.LoadDefaults | frontend/app/admin/api-config/page.tsx:17-22 | four distinct fresh objects holding the default values |
| ApiConfig.Page.constructor | frontend/app/admin/api-config/page.tsx:25-26 | the state array is the defaults array itself; no changes |
| ApiConfig.Page.HandleFrequencyChange | frontend/app/admin/api-config/page.tsx:28-33 | writes the frequency into the shared element object and sets `changes` |
| ApiConfig.Page.HandleToggleApi | frontend/app/admin/api-config/page.tsx:35-40 | flips `enabled` in the shared element object and sets `changes` |
| ApiConfig.Page.HandleSave | frontend/app/admin/api-config/page.tsx:42-45 | clears `changes` and leaves the configs as they are |
| ApiConfig.Page.HandleReset | frontend/app/admin/api-config/page.tsx:47-50 | the state array becomes the defaults array again and `changes` is cleared |
| ApiConfig.ToggleTwice | frontend/app/admin/api-config/page.tsx:35-40 | two toggles restore the entry |
| ApiConfig.EditSurvivesReset | frontend/app/admin/api-config/page.tsx:17-50 | as written, a frequency set before Reset is still there after it |
| ApiConfig.WithFrequency | frontend/app/admin/api-config/page.tsx:28-33 | only the indexed entry's frequency changes |
| ApiConfig.WithToggled | frontend/app/admin/api-config/page.tsx:35-40 | only the indexed entry's `enabled` flips |
| ApiConfig.ToggledTwice | frontend/app/admin/api-config/page.tsx:35-40 | two toggles give the list back |
| ApiConfig.ValuePage.constructor | frontend/app/admin/api-config/page.tsx:25-26 | the default values; no changes |
| ApiConfig.ValuePage.HandleFrequencyChange | frontend/app/admin/api-config/page.tsx:28-33 | configs become `WithFrequency` of the old ones; `changes` is set |
| ApiConfig.ValuePage.HandleToggleApi | frontend/app/admin/api-config/page.tsx:35-40 | configs become `WithToggled` of the old ones; `changes` is set |
| ApiConfig.ValuePage.HandleSave | frontend/app/admin/api-config/page.tsx:42-45 | clears `changes` and leaves the configs as they are |
| ApiConfig.ValuePage.HandleReset | frontend/app/admin/api-config/page.tsx:47-50 | the configs are the defaults again and `changes` is cleared |
| ApiConfig.ResetRestoresDefaults | frontend/app/admin/api-config/page.tsx:47-50 | on the intended page, the same edit and Reset restore every default |
| NewAlertModal.ChoicesDistinct | frontend/components/alerts/new-alert-modal.tsx:13-24 | ten currency choices with distinct symbols |
| NewAlertModal.InitialFormValid | frontend/components/alerts/new-alert-modal.tsx:27-31 | the initial currency is a listed choice, and the condition is one the back end accepts |
| NewAlertModal.WithField | frontend/components/alerts/new-alert-modal.tsx:41-47 | an input change updates only the field it names |
| NewAlertModal.FieldsIndependent | frontend/components/alerts/new-alert-modal.tsx:41-47 | edits to different fields do not interfere, and a later edit of one field overrides an earlier one |
| NewAlertModal.Modal.constructor | frontend/components/alerts/new-alert-modal.tsx:27-31 | the form starts as {BTC, "", above} |
| NewAlertModal.Modal.HandleInputChange | frontend/components/alerts/new-alert-modal.tsx:41-47 | the form becomes `WithField` of the old one and the dialog stays as it was |
| NewAlertModal.Modal.HandleSubmit | frontend/components/alerts/new-alert-modal.tsx:33-39 | the form resets to its initial values and the dialog closes |
| NewAlertModal.Modal.Cancel | frontend/components/alerts/new-alert-modal.tsx:123-125 | the dialog closes and the form is kept |

## Left out

- Rendering (JSX, Tailwind classes, charts, icons, toasts, console output) is presentation only.
- Upper- and lower-casing cover ASCII letters only. Python and JavaScript also map non-ASCII letters.
- `StrLess` compares code points. JavaScript's default sort compares UTF-16 code units, and the two orders differ only above U+FFFF.
- Decimal and floating-point values are `real`. Rounding, `toFixed`, locale date and time labels, and a `NaN` from `parseFloat` are outside the model. So is a `NaN` from `Number.parseInt` in the data-source page's frequency field: ApiConfig.Page.HandleFrequencyChange takes an integer. `parseFloat` and the label functions are parameters.
- Timestamps are integer seconds, so a bucket's `isoformat()` rendering is left out. A candle carries its bucket start as a number.
- The network is left out: CoinGecko's response, `fetch`, and the auth provider's `apiLogin`, `apiAdminLogin`, `apiLogout`, `authFetch`, `setAccessToken` and `apiUpdateProfile`. Their outcomes are parameters. Those helpers, `register` and `changePassword` are not part of this model: they are not defined in api-service.ts.
- Django's `authenticate`, `RefreshToken.for_user`, `parse_datetime` and password hashing are oracles or plain values. A stored password stands for its hash.
- Concurrency is left out. The `Promise.all` of the charts runs sequentially, with one request per URL, and the effects' `mounted` flag is assumed true.
- The admin login's 500 ms `setTimeout` is taken as immediate navigation.
- `Object.values` order: the heat-map body is a sequence of entries in key order; JavaScript's rule that integer-like keys come first is not modelled.
- A JSON `null` body from a successful fetch is not distinguished from a missing body. `undefined` and `null` compare alike in the SMA arrows.
- The per-symbol `<symbol>_volume` field of a merged chart point is always `undefined`, because the chart points carry no volume. The model records that as `None`.
- An input name other than the form's own fields adds a key to the form in `handleChange` (sign-up) and `handleInputChange` (alert dialog). The model leaves the form unchanged in that case.
- The market overview's oracle gives one result per position of the selection, so a symbol selected twice may see two different results.
- `PriceHistory.__str__`, `Alert.__str__` and `VirtualPortfolio.__str__` format datetimes, decimals and user objects. They are left out for the same reason as number formatting.
- `Alert.Meta.ordering`, the `Notification` model and the `indexes` declarations carry no logic beyond what is modelled. Of the `User` model's fields, the model keeps username, email, first name, password and `is_active`, the flag `authenticate` checks.
- The matcher configuration of the middleware and the proxy (which paths Next.js routes to them) is framework configuration.
- The legacy `core/` app is superseded by the back end's own app. It imports a model it never defines.
- The back-end views routed but absent from views.py, and `check_alerts`, are not part of this model.
- Tasks.RunMessage: pins down the message's prefix (the count and a space, or "Erreur"). It does not state the exception text embedded in the error message.
- AdvancedCharts.FetchData: each symbol's requests are read from a URL-to-outcome function, so two identical requests always see the same outcome.
- ApiConfig.Page.HandleFrequencyChange: requires a valid index, as the page only calls it from the rows it renders. An out-of-range index would throw in the browser.

## Findings

| source | as written | input that shows it | evidently intended | confidence | as-written member | corrected member |
|---|---|---|---|---|---|---|
| backend/core/views.py:133-138 | `query` starts as `Q()` and is OR-ed with one term per latest point; when no point lies in the window the loop adds nothing, and `filter(Q())` matches every row | an asset whose only point is older than the window start, with range "1h" | an empty heat map when no point lies in the window | not executed | Heatmap.StaleFeedFillsHeatmap | Heatmap.HeatmapKeys |
| frontend/app/admin/api-config/page.tsx:17-50 | the handlers copy the array but not its objects, so they write into the objects `defaultConfigs` holds, and Reset re-installs the edited objects | on a fresh page set Binance's frequency to 60, then press Reset: the frequency is still 60 | Reset restores the default values | not executed | ApiConfig.EditSurvivesReset | ApiConfig.ResetRestoresDefaults |

The heat-map view as written is `Heatmap.HeatmapAsWritten` over `Heatmap.HeatmapRowsAsWritten`. The corrected view is `Heatmap.Heatmap`, computed by `Heatmap.WindowData`. `Heatmap.AsWrittenAgreesWhenFresh` shows that the two agree whenever some point is in the window.

The data-source page as written is `ApiConfig.Page`, with shared `Config` objects. The corrected page is `ApiConfig.ValuePage`, whose edits copy the entry.
