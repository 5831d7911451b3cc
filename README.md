# mon-site-pronos — a verified model of the tips back end

This project models, in Dafny, the decision and aggregation logic of the
back end of *mon-site-pronos*, a small Express and Mongoose server that
publishes betting tips (*pronos*). It proves properties about that logic.
The server has the following parts:

- **Tip schema.** The `Prono` schema defines a tip: match, pick, odds (`cote`), date, visibility `public`/`vip`, result `gagnant`/`perdant`/`pending`. The `User` schema defines a user: unique email, VIP and admin flags, billing ids.
- **Tip routes.** Public, VIP and admin listings; the admin `add` route with its ordered validation chain and record normalisation; admin update and delete.
- **History and statistics.**
  - The history listing: a filter built from query parameters, a sort by date, a skip/limit window and pagination arithmetic.
  - The overall statistics fold: counts, win rate and mean odds.
  - The per-league rollup, sorted by win rate.
  - The per-month rollup: `YYYY-MM` labels, newest first, at most 12 months.
- **Match routes.**
  - The live feed: fixtures from the sports-data service, filtered to four statuses and formatted.
  - All tips by date.
  - A result update. No authentication guards it.
  - The count of tips per result, built by a loop that writes into an object.
- **Settlement heuristic.** A keyword heuristic that guesses from a score whether a pick is winning, and the display record built around it.
- **Live-match list.** An in-memory list of hand-entered matches, with add, merge-update, delete and clear.
- **Billing webhook.** It grants VIP on a completed checkout and revokes it when a subscription is deleted.
- **Access control.**
  - The shared `auth`, `isAdmin` and `isVIP` middleware.
  - The account routes' own token check, which answers an invalid token with 403 where the middleware answers 401.
  - Renaming oneself, and the profile projection.

The document store is modelled as a sequence of records in insertion order.
A route that changes the store or the live list is a method on a class that
holds that sequence. Each such method is specified by pure functions on
sequences: `Filter`, `SortBy`, `Window`, `UpdateFirst`, `Tally` and `Transition`.
Read-only routes and the aggregation pipelines are pure functions. The
per-result count in `routes/matches.js` keeps its loop (`Matches.CountResults`),
which is proved against the function `Tally`.

Foreign services are parameters of the model:

- token verification (`Auth.Verifier`);
- the webhook signature check (`Payment.Verification`);
- date parsing (`History.DateParser`);
- the store's cast of the odds (`Pronos.CoteReading`);
- the clock;
- the generated ids;
- the sports-data response.

JavaScript's string and number conversions are modelled in `JsText` and
`JsNumber`: `trim`, `toLowerCase`, `includes`, `split`, `parseInt`,
`parseFloat` and `Number`.

## Model

| member | source | states |
|---|---|---|
| PronoModel.Violations | models/Prono.js:5-12 | a draft is refused exactly when `match` or `prono` is missing or empty, or `type`/`resultat` is outside its enumeration |
| PronoModel.Create | models/Prono.js:3-14 | a stored tip satisfies the schema, carries the given id and creation time, and takes `public`/`pending` when those fields are left out; otherwise the schema's messages are returned |
| PronoModel.CreateDefaults | models/Prono.js:9-12 | a draft without `type` or `resultat` is stored as `public` and `pending` |
| PronoModel.ApplyPatch | routes/pronos.js:115 | an update keeps `id`; each of the ten other fields takes the patch's value when the patch carries it and keeps the tip's value otherwise; an empty patch changes nothing |
| PronoModel.PatchIdempotent | routes/pronos.js:115 | sending an update twice stores what sending it once stores, and a patch carrying every field gives the same tip whatever tip with that id it updates |
| PronoModel.TipStore.Insert | routes/pronos.js:91 | the new tip is appended and ids stay unique |
| PronoModel.TipStore.Find | routes/pronos.js:115 | `findById` answers a stored tip with that id, or nothing exactly when no tip has it |
| PronoModel.TipStore.UpdateById | routes/pronos.js:115 | the first tip with the id is replaced by its patched version and nothing else changes; with no such tip the store is unchanged |
| PronoModel.TipStore.DeleteById | routes/pronos.js:125 | the tip with the id is spliced out and every other tip stays |
| UserModel.NewUser | models/User.js:3-12 | a new user is neither VIP nor admin and has no billing ids |
| UserModel.UpdateFirst | routes/payment.js:54-62 | `findOneAndUpdate`: the first selected user is replaced by its changed version, otherwise nothing changes |
| UserModel.UpdateFirstKeeps | models/User.js:6 | an update that keeps id and email keeps ids and emails unique and non-empty |
| UserModel.UserTable.Insert | models/User.js:6 | an empty email is refused as required, a taken email as a duplicate key, anything else is appended |
| UserModel.UserTable.Update | routes/payment.js:54-62 | the table becomes `UpdateFirst` of the old table and stays valid; the answer is the changed user or nothing |
| UserModel.UserTable.Find | routes/user.js:62 | `findById` answers a stored user with that id, or nothing exactly when no user has it |
| Auth.BearerToken | middleware/auth.js:4 | there is no token exactly when the header is missing or has no space; otherwise the token holds no space and is the second space-separated word of the header, ended by a space or by the end of the header |
| Auth.SecondPart | middleware/auth.js:4 | when `split(' ')` gives two parts or more, the header is the first part, a space, the second part, then nothing or a space and the rest |
| Auth.BearerTokenOfHeader | middleware/auth.js:4 | the token of `scheme token` is read back exactly |
| Auth.NoSpaceNoToken | middleware/auth.js:4-5 | a header without a space carries no token |
| Auth.Authenticate | middleware/auth.js:3-12 | no token is 401 `Non connecté`, a token that fails verification is 401 `Token invalide`, otherwise the verified claims go on |
| Auth.RequireAdmin | middleware/auth.js:14-17 | only an `isAdmin` claim passes; everything else is 403 `Admin requis` |
| Auth.RequireVip | middleware/auth.js:19-22 | a VIP or an administrator passes; everything else is 403 `VIP requis` |
| Auth.AdminPassesVipGate | middleware/auth.js:14-22 | whoever passes the admin guard passes the VIP guard |
| Auth.Guarded | middleware/auth.js:3-22 | a guarded route proceeds only with the verified claims; authentication failures pass through unchanged; past authentication, an admin route proceeds exactly for `isAdmin` and a VIP route exactly for `isVIP` or `isAdmin`, and the refusal is 403 `Admin requis` or `VIP requis` |
| Auth.AdminRouteAnswers | routes/pronos.js:36 | an admin route answers 401 without a token, proceeds exactly for administrators, and answers 403 `Admin requis` to anyone else |
| Auth.VipRouteAnswers | routes/pronos.js:16 | a VIP route answers 401 without a token, proceeds exactly for VIPs and administrators, and answers 403 `VIP requis` to anyone else |
| JsText.Trim | routes/pronos.js:78-80 | the result is the input with exactly its leading and trailing white space removed |
| JsText.TrimAround | routes/user.js:29 | trimming a trimmed text padded with white space gives back that text, so `trim` has one answer |
| JsText.LowerIdempotent | services/football-api.js:65 | lowering twice is lowering once |
| JsText.JoinSplit | middleware/auth.js:4 | joining the parts of a split with the separator gives back the text |
| JsText.SplitJoin | middleware/auth.js:4 | splitting a join of separator-free parts gives back the parts |
| JsText.LexTotal | routes/history.js:139 | the string order of the month labels compares any two labels |
| JsText.LexTransitive | routes/history.js:139 | the string order of the month labels is transitive |
| JsNumber.NatToStringRoundTrip | routes/history.js:128-133 | the decimal text of a number is all digits and reads back as that number |
| JsNumber.NatToStringInjective | routes/history.js:128-133 | two numbers with the same decimal text are equal |
| JsNumber.ParsesNatToString | routes/live-matches.js:19-20 | `parseInt`, `parseFloat` and `Number` all read the decimal text of `n` as `n` |
| JsNumber.ParseFloatDots | services/football-api.js:84 | `parseFloat` of any non-empty run of dots is `NaN` |
| Collections.FirstIndex | routes/live-matches.js:43 | `findIndex` answers the first position satisfying the test, or nothing exactly when no element does |
| Collections.Filter | routes/history.js:22 | `find(filter)` keeps exactly the matching elements, as many as `countDocuments` counts |
| Collections.FilterAppend | routes/matches.js:30-35 | filtering keeps the relative order of what it keeps |
| Collections.SortBySorted | routes/history.js:23 | the result of `sort` is ordered when the order is a total preorder |
| Collections.SortBy | routes/history.js:23 | `sort` returns a permutation of its input |
| Collections.SortByStable | routes/history.js:23 | elements that tie under the order come out in the order they went in |
| Collections.SumBySort | routes/history.js:90 | sorting does not change a sum over the elements |
| Collections.GroupsPartition | routes/history.js:63-79 | with distinct keys covering every element, the group sizes add up to the number of elements |
| Collections.TakeSorted | routes/history.js:139-140 | `$limit` after `$sort` keeps an ordered prefix, and an element left out stands after every kept one |
| History.Rate | routes/history.js:185 | the win rate lies in [0, 100], is 0 for an empty selection and is `gagnants/total*100` otherwise |
| History.CalculateStats | routes/history.js:151-188 | `total` is the number of tips selected, each outcome counter counts its `resultat`, the rate is `Rate(gagnants, total)`, the mean odds skips missing odds, and an empty selection gives all zeros |
| History.OutcomeCounts | routes/history.js:157-172 | `gagnants + perdants + enAttente <= total`, with equality exactly when every result is in the enumeration |
| History.MeanOdds | routes/history.js:173-186 | when some tip has odds, the mean odds lies between any bounds that hold every present odds value; when no tip has odds it is 0 |
| History.MeanWithin | routes/history.js:173 | a mean lies within the bounds of its values |
| History.BuildCriteria | routes/history.js:11-19 | the filter fails exactly when a given date bound is not a date; each bound is applied only when given |
| History.GivenOnly | routes/history.js:12-14 | a query field joins the filter exactly when it is a non-empty string |
| History.QuerySelects | routes/history.js:11-19 | a tip is selected exactly when it matches the league case-insensitively, equals the type and result, and lies within both inclusive bounds, each only when given |
| History.LeagueIgnoresCase | routes/history.js:12 | lower-casing the league filter selects the same tips |
| History.LaterDateOrders | routes/history.js:23 | newest-date-first is a total preorder |
| History.Window | routes/history.js:24-25 | the window starts at `skip`, holds at most the limit, and a limit of 0 means no limit |
| History.PagePosition | routes/history.js:24-25 | the tip at position `i` of the sorted selection is on page `i / limit + 1` |
| History.CeilDiv | routes/history.js:39 | `pages` is the least number of pages of `limit` tips that holds `total` |
| History.PageOf | routes/history.js:22-25 | the page is sorted newest first, holds only selected tips and at most `limit` of them |
| History.ListHistory | routes/history.js:6-47 | a bad date or a negative skip is 500; otherwise the page is exactly the window of `limit` tips at `(page-1)*limit` of the selection sorted newest first, `stats.total == pagination.total`, both count the selection, and `pages` is the ceiling of `total / limit` (absent for limit 0) |
| History.UnfilteredHistory | routes/history.js:50-58 | with no filter, the listing's statistics are those of `/stats` |
| History.OverallStats | routes/history.js:50-58 | `/stats` counts every tip in `total`, counts each outcome, gives the rate `Rate(gagnants, total)` and the mean of the present odds, and is all zeros for an empty store |
| History.LeagueRowOf | routes/history.js:63-89 | a league row counts the tips of that league, and among them the `gagnant` and the `perdant` ones; `gagnants + perdants <= total`, and its rate is `Rate(gagnants, total)` |
| History.WonAndLost | routes/history.js:68-77 | won and lost tips of a group never exceed the group |
| History.LeagueGroupsCover | routes/history.js:63-79 | every group is a non-empty league's row, and every tip's league has a row |
| History.HigherRateOrders | routes/history.js:90 | highest-rate-first is a total preorder |
| History.LeagueStats | routes/history.js:61-98 | the rows are sorted by falling rate, are exactly the league groups, each non-empty, and every tip's league appears |
| History.LeagueTotals | routes/history.js:63-79 | the league rows' totals add up to the number of tips |
| History.MonthPartDigits | routes/history.js:130-134 | the month part is two digits, with a leading `0` exactly for months below 10 |
| History.MonthLabelFormat | routes/history.js:126-136 | the label is the year's digits, a `-` and the two-digit month |
| History.MonthLabelInjective | routes/history.js:126-136 | two months with the same label are the same month |
| History.MonthRowOf | routes/history.js:103-136 | a month row counts the tips of that month and, among them, the `gagnant` ones; `gagnants <= total`, its rate is `Rate(gagnants, total)` and its label is `MonthLabel` |
| History.MonthGroupsCover | routes/history.js:103-117 | every group is a non-empty month's row, and every tip's month has a row |
| History.LaterLabelOrders | routes/history.js:139 | latest-label-first is a total preorder |
| History.MonthlyStats | routes/history.js:101-148 | at most 12 rows, exactly `min(12, months)`, sorted by falling label, all of them month groups |
| History.MonthlyKeepsLatest | routes/history.js:139-140 | a tip's month is kept, or 12 months are kept and each kept label is at least its label |
| FootballApi.FirstNumber | services/football-api.js:84 | nothing exactly when the pick has no digit or dot; otherwise a non-empty run of digits and dots that stands in the pick with no digit or dot before it and cannot be extended |
| FootballApi.Analyze | services/football-api.js:59-95 | the verdict is pending exactly when no keyword rule applies (the lemmas below state each rule's verdict and their order: victory, draw, over, under) |
| FootballApi.HomeVictoryDecides | services/football-api.js:67-72 | a victory pick naming the home team wins exactly when the home side leads |
| FootballApi.AwayVictoryDecides | services/football-api.js:67-75 | a victory pick naming the away team and not the home team wins exactly when the away side leads |
| FootballApi.VictoryFallsThrough | services/football-api.js:67-93 | a victory pick naming neither team is read as a draw pick when it has a draw keyword, and is pending when it has no other keyword |
| FootballApi.DrawDecides | services/football-api.js:78-80 | past the victory rule, a draw pick wins exactly on equal scores, `null` equal only to `null` |
| FootballApi.OverDecides | services/football-api.js:82-86 | past the victory and draw rules, an over pick wins exactly when the goal total exceeds the pick's threshold |
| FootballApi.UnderDecides | services/football-api.js:88-92 | past the victory, draw and over rules, an under pick wins exactly when the goal total is below the pick's threshold |
| FootballApi.DrawIsNul | services/football-api.js:78 | the two draw keywords reduce to containing `nul` |
| FootballApi.DefaultThreshold | services/football-api.js:84-91 | without a number in the pick the threshold is 2.5, so over means at least 3 goals and under at most 2 |
| FootballApi.DotsAreNaN | services/football-api.js:84-91 | whenever the pick's first run of digits and dots is only dots, the threshold is `NaN` and neither over nor under can win |
| FootballApi.DrawExamples | services/football-api.js:78-94 | `Match nul` wins on 1-1 and loses on 2-1; `BTTS` stays pending |
| FootballApi.FormatForDisplay | services/football-api.js:98-115 | the display copies the fixture's fields unchanged, `null` scores included, and attaches the heuristic's verdict |
| LiveMatches.ScoreOr | routes/live-matches.js:19-20 | `parseInt(v) \|\| fallback`: the fallback exactly when the text does not parse, parses to 0 or parses to the fallback |
| LiveMatches.NewLiveMatch | routes/live-matches.js:12-28 | the new match keeps the teams as sent, reads scores with fallback 0, defaults status and league when falsy, keeps a truthy minute and stamps the given time |
| LiveMatches.Merge | routes/live-matches.js:48-57 | id, teams, league, date and origin are kept; a score is replaced only by a non-zero number; a sent minute always replaces, even `null`; a falsy status keeps the old one |
| LiveMatches.ZeroScoreKept | routes/live-matches.js:50 | an update cannot set a score to 0 |
| LiveMatches.EmptyUpdate | routes/live-matches.js:48-57 | an empty update changes only `updatedAt` |
| LiveMatches.LiveBoard.Add | routes/live-matches.js:8-31 | the new match is appended and answered |
| LiveMatches.LiveBoard.Update | routes/live-matches.js:38-63 | 404 `Match non trouvé` with no change exactly when no match has the id; otherwise the first such match is replaced by the merge |
| LiveMatches.LiveBoard.Delete | routes/live-matches.js:66-80 | 404 with no change exactly when no match has the id; otherwise the first such match is spliced out and answered |
| LiveMatches.LiveBoard.List | routes/live-matches.js:83-89 | the list is answered as stored |
| LiveMatches.LiveBoard.Clear | routes/live-matches.js:92-99 | the list is emptied and the confirmation answered |
| LiveMatches.AddThenDelete | routes/live-matches.js:30-75 | deleting a freshly added match whose id no earlier match has restores the list |
| Pronos.ListByType | routes/pronos.js:8 | exactly the tips of that visibility, newest first |
| Pronos.ListAll | routes/pronos.js:38 | every tip, newest first |
| Pronos.PublicTips | routes/pronos.js:6-13 | the public listing answers 200 with exactly the public tips, each as often as stored, newest first |
| Pronos.VipTips | routes/pronos.js:16-23 | the VIP listing answers 200 exactly when the VIP guard passes, with exactly the VIP tips, each as often as stored, newest first; otherwise the guard's refusal |
| Pronos.AllTips | routes/pronos.js:36-43 | the admin listing answers 200 exactly when the admin guard passes, with every tip as often as stored, newest first; otherwise the guard's refusal |
| Pronos.VipTipsStayBehindGuard | routes/pronos.js:6-23 | a VIP tip never appears in the public listing and always in the VIP listing once the guard passes |
| Pronos.FirstFailure | routes/pronos.js:54-75 | the first failing check in the order required fields, odds, type, result gives its 400 message; none fails exactly when all pass |
| Pronos.Submit | routes/pronos.js:77-87 | league, match and pick are trimmed; tag and analyse are trimmed or empty; the odds are the store's reading; the date is parsed or now |
| Pronos.DefaultsAreDead | routes/pronos.js:83-86 | past validation, `type` and `resultat` are always the values sent, so their defaults never apply |
| Pronos.MissingTypeOrResultRefused | routes/pronos.js:66-75 | a body without `type` or `resultat` is refused before the defaults are reached |
| Pronos.AddWith | routes/pronos.js:46-110 | a failed check is 400 with its message; a cast or schema error is 400; otherwise 201 with the stored tip |
| Pronos.AddAsWritten | routes/pronos.js:60-81 | as written, the stored odds are `parseFloat` of the text that passed the `Number` check |
| Pronos.HexCoteStoredAsZero | routes/pronos.js:60-81 | the odds `"0x10"` pass the check as 16 and are stored as 0 |
| Pronos.AddTip | routes/pronos.js:46-110 | the corrected route, storing the odds it checked: accepted exactly when all checks pass and the date parses; the stored tip satisfies the schema, with the odds as checked and positive, trimmed texts and the type and result sent |
| Pronos.ZeroCoteMessages | routes/pronos.js:54-63 | numeric odds 0 are reported as a missing field, the text `"0"` as invalid odds |
| Pronos.BlankMatchRefused | routes/pronos.js:79-91 | a match of only spaces passes the checks but the schema refuses it once trimmed |
| Pronos.Add | routes/pronos.js:46-110 | the guard's refusal without a change, or past the admin guard the answer of `AddWith` for the given reading of the odds (the route as written with `CoteParsed`, the corrected `AddTip` with `CoteNumber`); the store grows by the new tip exactly when the answer is 201 |
| Pronos.Update | routes/pronos.js:113-120 | the guard's refusal with its code and message and no change; past the admin guard the answer is 200 with the patched tip, or `null` when no tip has the id, and only that tip changes |
| Pronos.Delete | routes/pronos.js:123-130 | the guard's refusal with its code and message and no change; past the admin guard the answer is always `Supprimé ✅`; the store is unchanged when no tip has the id, and otherwise loses exactly one tip with that id, the others keeping their order |
| Matches.Minute | routes/matches.js:49 | `elapsed \|\| null`: a minute of 0 or `null` is answered as `null` |
| Matches.Row | routes/matches.js:38-53 | a `null` goal count is 0; every other field is copied |
| Matches.LiveRows | routes/matches.js:30-53 | one row per fixture with status `LIVE`, `FT`, `AET` or `PEN`, and no other |
| Matches.LiveRowsAppend | routes/matches.js:30-53 | the feed keeps the service's order |
| Matches.Live | routes/matches.js:6-60 | a missing key is 500 `Clé API Sports non configurée`, a failed call 500 `Erreur serveur`, otherwise the rows |
| Matches.EarlierDateOrders | routes/matches.js:65 | earliest-date-first is a total preorder |
| Matches.ByDate | routes/matches.js:63-70 | every tip, earliest date first |
| Matches.SetResult | routes/matches.js:73-90 | 404 `Prono non trouvé` with no change exactly when no tip has the id; otherwise only that tip's result changes, to any text sent |
| Matches.TallyKeys | routes/matches.js:104-114 | the answer's keys are the four initial keys and the groups' results, except `__proto__`, which a plain object cannot hold as its own key |
| Matches.TallyCounts | routes/matches.js:111-114 | each group's count is written under its result, unless the result is `total` or `__proto__` |
| Matches.TallyZero | routes/matches.js:104-109 | an initial key no group has stays 0 |
| Matches.TallyTotal | routes/matches.js:111-114 | without a group keyed `total`, `total` is the sum of the counts |
| Matches.CountResults | routes/matches.js:104-114 | the loop computes `Tally`: keys without `__proto__`, counts, zeros and total as above |
| Matches.ResultGroups | routes/matches.js:95-102 | one group per distinct result, counting the tips with it; the counts add up to the number of tips |
| Matches.ResultStats | routes/matches.js:93-120 | the keys are the four initial keys and the tips' results other than `__proto__`; every key but `total` holds the number of tips with that result, `gagnant`/`perdant`/`pending` included at 0; `total` is the number of tips, `__proto__` tips included, unless a tip's result is `total` |
| Payment.Transition | routes/payment.js:46-101 | a checkout without an email and any other event type leave the users unchanged |
| Payment.CheckoutGrants | routes/payment.js:47-62 | only the first user with the buyer's email becomes VIP with the checkout's ids; no other user and no `isAdmin` changes |
| Payment.CancellationRevokes | routes/payment.js:75-89 | the holder of the subscription loses VIP and both ids, nobody else changes, and no user keeps that subscription |
| Payment.CheckoutIdempotent | routes/payment.js:54-62 | replaying a completed checkout changes nothing more |
| Payment.CancellationIdempotent | routes/payment.js:81-89 | replaying a cancellation changes nothing more when at most one user holds the subscription |
| Payment.CancellationReplayedReachesSecond | routes/payment.js:81-89 | with two users on one subscription, a cancellation revokes the first and its replay the second |
| Payment.Webhook | routes/payment.js:34-104 | a refused signature is 400 `Webhook Error: ...` with no change; every verified event answers `received: true` and applies `Transition` |
| UserRoutes.AuthenticateToken | routes/user.js:7-22 | no token is 401 `Token requis`, a failed verification 403 `Token invalide`, otherwise the claims go on |
| UserRoutes.TokenChecksAgree | routes/user.js:7-22 | the account check and the shared middleware admit the same requests with the same claims, and differ only in answering an invalid token with 403 instead of 401 |
| UserRoutes.TwoLettersAccepted | routes/user.js:29 | two visible characters inside any spacing are an acceptable name |
| UserRoutes.BlankNameRefused | routes/user.js:29 | spacing alone is refused |
| UserRoutes.AnswersHideBilling | routes/user.js:43-76 | the answers do not depend on the billing ids |
| UserRoutes.UpdateUsername | routes/user.js:25-57 | the token check, then 400 for a short name, then 404 for an unknown user, each with no change; otherwise only that user's name becomes the trimmed name |
| UserRoutes.ProfileAnswer | routes/user.js:60-82 | the token check, then 404 exactly when no user has the token's id, otherwise that user's profile with `createdAt` and without billing ids |

## Left out

- Network calls are not modelled; their results are inputs:
  - the sports-data fetches (`getTodayMatches`, `getLiveScores`, the `fetch` in `/live`);
  - Stripe checkout session creation (`/create-checkout`).
- `/webhook/test` is left out; it answers a fixed message.
- `jwt.verify` and `stripe.webhooks.constructEvent` are oracles. Date parsing and the store's cast of the odds are oracles too.
- The clock and generated ids are parameters. So is the live-match id `Date.now().toString()`.
- One instant stands for every clock read of a request. The source reads the clock separately, so the model makes equal what the source only makes close:
  - in `add`, the default `date` (`new Date()`) and the schema's `createdAt` default;
  - in the live-match `add`, `date` and `updatedAt`.
  Pronos.AddTip and LiveMatches.NewLiveMatch therefore imply these equalities, which the source does not guarantee.
- Floating point and `toFixed` are not modelled. Rates and means are exact reals, without rounding or the string form `toFixed` gives.
- The league filter `new RegExp(league, 'i')` is modelled as a case-insensitive substring match. Regular-expression metacharacters in the filter are not treated as a pattern, and an invalid pattern, which throws and gives a 500, is not modelled.
- JsText.Lower: `toLowerCase` is modelled for ASCII and Latin-1 letters only; other scripts' capitals, and the characters whose lower case is longer, are left as they are.
- History.ListHistory: `page` and `limit` are modelled as integers, not as query-string text. The route reads them three ways (`limit * 1`, `(page - 1) * limit` and `parseInt`), which disagree on texts such as `"2.5"`, `"abc"` or an empty limit; those texts are not modelled.
- Tips without a date: `date` is modelled as always present. The schema leaves it optional: `add` always sets it, but an update can send `"date": null`, after which the monthly rollup groups the tip under a `null` label. Such tips are not modelled.
- PronoModel.ApplyPatch: `null` is modelled for the optional fields (`league`, `cote`, `tag`, `analyse`). It is not modelled for `match`, `prono`, `date`, `type`, `resultat` and `createdAt`: the store would write `null` there, since no validator runs on an update, whereas in the model a patch field for these either carries a value or is absent.
- Pronos.Update: inherits the gap above. A `PUT` that sends `null` for one of those six fields is not modelled.
- The `/user` listing (routes/pronos.js:26-33) is left out. It filters on `userId`, which the schema does not declare, so its answer depends on the store's strict-query setting rather than on any logic of the route.
- Request fields of a non-string type are left out: a number for `username`, an array for `league`, and so on. Only strings, `null` and missing values are modelled.
- Matches.SetResult: a `resultat` of `null` is not modelled; a missing one updates nothing.
- ObjectId casting is not modelled: an id is text, so a malformed id is simply not found rather than a 500. The 11000 duplicate-key branch of `add` cannot be reached, because the tip schema has no unique index.
- Cast errors on `add` are modelled as 400 answers. Their exact wording and order among the schema messages are not modelled.
- Pronos.Update: an update body whose text the store cannot cast (`{"cote": "abc"}`, `{"date": "garbage"}`) makes `findByIdAndUpdate` throw, and the route answers 500 with the error's message. This is not modelled: the model's patch carries values that are already typed.
- The store's order of tied documents in `sort`, and the order of `$group` output, are modelled as insertion order (`Collections.SortByStable`). This matters only for ties. Matches.ResultStats does not state the value of `total` when a tip's result is the text `total`, because that depends on group order.
- Month labels are compared as strings, as the route does. The model does not relate this order to chronological order for years of other lengths than four digits.
- Calendar conversion of instants is not modelled (year, month and day are fields of `Instant`). Neither is the time zone of `$year`/`$month`.
- `Infinity` and `-Infinity` as odds text are not modelled.
- Concurrency between requests on the live list and atomicity in the store are not modelled; the model is sequential.
- Logging and the generic 500 answers for unexpected exceptions are left out.

## Findings

| source | as written | input that shows it | evidently intended | confidence | as-written member | corrected member |
|---|---|---|---|---|---|---|
| routes/pronos.js:60-81 | the odds are checked with `Number` semantics (`isNaN(cote)`, `cote <= 0`) but stored as `parseFloat(cote)`, which reads a different prefix | `cote: "0x10"` passes the check as 16 and is stored as 0 | store the value that was checked, so stored odds are always positive | not executed | Pronos.HexCoteStoredAsZero | Pronos.AddTip |
