# Linkr matching and session logic in Dafny

Linkr is a single-page networking application. A signed-in user types a
free-text query, and a generative model picks and scores matching contacts
from a roster of profiles. This project models the deterministic logic
around that call, plus the session-state transitions of the application
shell:

- **Request context** (`GeminiService`). Each candidate profile is projected
  onto the six fields the prompt carries. Tags are joined with `", "`.
  A missing or unparsable response falls back to an empty result. A
  transport failure of the model call is thrown to the caller.
- **Result combiner and match view** (`MatchView`, `ScoreSort`, `JsArray`).
  The combiner first drops blank queries, using the ECMAScript `trim`
  whitespace set. It sends the service the roster without the signed-in
  user. It joins each returned record with the first roster profile that
  has its id, drops the records it cannot resolve, and keeps duplicates.
  It then sorts stably by score, highest first, and focuses the first
  entry. Around all this sit the loading and error transitions of
  `handleMatch`.
- **Session** (`Session`). This covers upgrading to Pro with an expiry
  date, the sign-in/registration modal, the admin gating of the sidebar
  link and the `/admin` route, and the role label.
- **Pricing wiring** (`PricingView`). This is the discrepancy described
  under Findings.

Every record is an immutable datatype, so building the context cannot
change the roster. The model call, the JSON parser, the clock, the random
avatar seed and date formatting are all parameters.

Three behaviours of the code shape the model:

- The model call in `getMatchingResults` (services/geminiService.ts:23) sits
  outside the `try`, which starts at services/geminiService.ts:59 and covers
  only the parse. A transport failure therefore reaches the match view's
  `catch`, which shows the fixed connection-error message. It is not turned
  into an empty result.
- When a query yields no results, the previous focused result is kept,
  because the focus is only set when there is a first entry
  (components/MatchView.tsx:49).
- The comparator `b.score - a.score` (components/MatchView.tsx:46) sorts
  non-increasingly by score, and the sort is stable, so equal scores keep
  the service's order.

## Model

| member | source | states |
|---|---|---|
| JsArray.Find | App.tsx:52 | `find` yields nothing exactly when no element qualifies. Otherwise it yields the element at the first qualifying index. |
| JsArray.Filter | components/MatchView.tsx:39 | `filter` keeps exactly the qualifying elements, each with its original multiplicity. It never lengthens the sequence. Their order is stated by FilterAppend. |
| JsArray.FilterAppend | components/MatchView.tsx:39 | Filtering a concatenation is concatenating the filtered halves, so the survivors keep their input order. |
| JsArray.FilterSingleton | components/MatchView.tsx:39 | Filtering a single element keeps it exactly when it qualifies. |
| GeminiService.JoinTags | services/geminiService.ts:18 | Joining no tags gives `""` and one tag gives that tag. Otherwise the length is the tag lengths plus two per separator, and the first tag leads. |
| GeminiService.JoinTagsAppend | services/geminiService.ts:18 | Joining `a + b` is joining `a`, then one `", "`, then joining `b`. |
| GeminiService.BuildContext | services/geminiService.ts:14-21 | There is one entry per profile, in the same order. Each entry copies `id`, `role`, `industry`, `resources` and `needs`, and carries the joined tags. |
| GeminiService.BuildContextAppend | services/geminiService.ts:14-21 | Building the context commutes with concatenating rosters, so entry order follows roster order. |
| GeminiService.ContextIgnoresOtherFields | services/geminiService.ts:14-21 | Rosters that agree on the six projected fields give the same context. No other profile field reaches the prompt. |
| GeminiService.ResponseText | services/geminiService.ts:60 | The text handed to the parser is never empty. A missing or empty response text becomes `"[]"`. A non-empty response text passes through unchanged. |
| GeminiService.GetMatchingResults | services/geminiService.ts:23-64 | The call throws exactly when the transport fails. Missing or empty text gives `[]`, given the parser reads `"[]"` as empty. Text the parser rejects gives `[]`. Parsed text is returned as parsed. |
| ScoreSort.Insert | components/MatchView.tsx:46 | Inserting into a sorted sequence keeps it sorted and adds exactly one element. The new element goes behind the entries with its score. |
| ScoreSort.Sort | components/MatchView.tsx:46 | The output is non-increasing by score and is a permutation of the input. For every score, the entries with that score keep their input order. |
| ScoreSort.SortedStableIsUnique | components/MatchView.tsx:46 | Two sorted sequences that agree score-by-score on their entries and order are equal. So a stable sort by score has exactly one result. |
| ScoreSort.SortIsTheStableSort | components/MatchView.tsx:46 | Any sorted arrangement that keeps equal scores in input order is `Sort` of the input. |
| MatchView.Trim | components/MatchView.tsx:34 | The trimmed query is a slice of the query that starts after its leading whitespace and is followed only by whitespace. It neither starts nor ends with whitespace. |
| MatchView.BlankIffAllWhitespace | components/MatchView.tsx:34 | A query is blank exactly when every character is ECMAScript whitespace or a line terminator. |
| MatchView.ExcludeUser | components/MatchView.tsx:39 | No candidate has the signed-in user's id. Every other roster profile is kept with its multiplicity. |
| MatchView.ExcludeUserAppend | components/MatchView.tsx:39 | Exclusion commutes with concatenation, so the candidates keep their roster order. |
| MatchView.ExcludeUserSingleton | components/MatchView.tsx:39 | A single profile is dropped exactly when it has the signed-in user's id. |
| MatchView.Lookup | components/MatchView.tsx:43 | The lookup finds nothing exactly when no roster profile has the id. Otherwise it finds the earliest roster profile with that id. |
| MatchView.Resolve | components/MatchView.tsx:40-45 | Every entry is joined with the first roster profile that has its id. The underlying records are exactly the resolvable input records, in service order. Nothing is added. |
| MatchView.Combine | components/MatchView.tsx:40-46 | The output is at most as long as the input and non-increasing by score. Each entry is joined with its profile. The records are a permutation of the resolvable input records, duplicates kept. Equal scores keep service order. |
| MatchView.RecordsWithScore | components/MatchView.tsx:40-46 | Taking the entries of one score and then their records gives the same as taking the records and then filtering them by that score. |
| MatchView.CombineIsStable | components/MatchView.tsx:46 | For each score, the records of the combined output with that score are exactly the resolvable service records with that score, in service order. |
| MatchView.CombineExample | components/MatchView.tsx:40-46 | Records `u1@80`, `missing@95` and `u2@60`, against a roster of `u1` and `u2`, combine to exactly `[u1@80, u2@60]`. |
| MatchView.MatchRequest | components/MatchView.tsx:34-39 | A blank query sends no request. Any other query is sent unchanged, with candidates that are exactly the roster profiles other than the signed-in user. |
| MatchView.Settle | components/MatchView.tsx:48-54 | Loading always ends. A throw keeps results and focus and sets the fixed message. Success replaces the results, focuses the first one, and keeps the old focus when there are none. |
| MatchView.HandleMatch | components/MatchView.tsx:33-55 | A blank query changes nothing. A thrown call only ends loading and sets the message. A returned call clears the error, shows the combined results and focuses the first. |
| MatchView.FocusedIsBest | components/MatchView.tsx:46-49 | After a successful match with results, the focused entry scores at least as high as every result. |
| Session.Upgrade | App.tsx:35-47 | The user becomes Pro. Expiry is today plus 1, 3 or 12 months for month, quarter or year, and today for any other argument. Every other field is unchanged. |
| Session.UpgradeIdempotent | App.tsx:42-46 | Upgrading twice with the same argument equals upgrading once. |
| Session.Login | App.tsx:52-53 | With no roster profile holding the email, the current user stays. Otherwise the user becomes the first roster profile with that email. |
| Session.Register | App.tsx:56-77 | The new profile gets the entered email and the entered name, or `新用户` when the name is empty. It is neither Pro nor admin, with completeness 10, empty tags and texts, zero counters, and an id of `u` followed by the timestamp. The slogan is `新加入 Linkr 的人脉探索者`, role and industry are `待完善`, and the location is `未知`. |
| Session.HandleAuthAction | App.tsx:49-83 | The sign-in view signs in and the registration view registers. Either way the modal closes and both fields are cleared. |
| Session.UnknownEmailKeepsUser | App.tsx:49-83 | A sign-in with an unknown email only closes and clears the modal. |
| Session.AdminRoute | App.tsx:174-177 | The route renders the dashboard exactly for admins and redirects everyone else to `/`. |
| Session.SidebarLinks | App.tsx:95-104 | There are exactly five links for admins and four for everyone else. The four common links always come first. The admin link is present exactly for admins. |
| Session.AdminGatingAgrees | App.tsx:102-104 | The admin link is shown exactly to the users the admin route lets through. |
| Session.RoleOf | App.tsx:114 | The label is admin exactly for admins, Pro exactly for non-admin Pro users, and free otherwise. |
| Session.UpgradeRoleAndAccess | App.tsx:42-46 | After an upgrade the label is Pro, unless the user is an admin. The admin route and the sidebar are unchanged. |
| Session.RegisteredUserIsFree | App.tsx:68-70 | A newly registered user has the free label, is redirected away from `/admin`, and has no admin link. |
| PricingView.SubscribeAsWritten | components/PricingView.tsx:55-57 | With the button wired as written, any package gives expiry today. |
| PricingView.Subscribe | App.tsx:37-40 | With the package's duration passed, the expiry is today plus that duration's months, and nothing else changes. |
| PricingView.AsWrittenExpiresToday | components/PricingView.tsx:56 | Whenever today and today plus the package's months are different dates, the wired button's expiry differs from the one the package promises. |
| PricingView.YearPackageLastsAYear | App.tsx:40 | Under the intended wiring, a yearly package expires twelve months from today. |

## Left out

- The model call: client construction from the API key at module load, the model name, the prompt text and the response schema (services/geminiService.ts:6, 12, 23-57). They are a foreign library call and become the parameter `ai`, which fails or answers with a possibly missing text. A failure while building the client at services/geminiService.ts:6 happens at module load, outside `getMatchingResults`, and is not modelled.
- JSON parsing internals and schema checking are left out. `JSON.parse` is the parameter `parse`, returning a record sequence or nothing. A parse that yields something other than an array of match records is not represented.
- GetMatchingResults: the missing-text case promises `[]` only if `parse("[]")` is the empty sequence, because the parser is abstract.
- Logging of parse failures (services/geminiService.ts:62) is left out, since it is output only.
- JavaScript `Date` arithmetic, month overflow, the two separate clock reads and ISO formatting (App.tsx:36-45) are left out. They become the parameter `dateAfterMonths`, and a year counts as twelve months.
- `Date.now()` and `Math.random()` in registration (App.tsx:57, 59) are left out. They become the string parameters `now` and `seed`.
- Floating-point scores are left out: NaN and fractional comparator results do not arise with `int` scores.
- Overlapping `handleMatch` calls race, with the last resolve winning. This is asynchronous UI behaviour. The button's `disabled` guard (components/MatchView.tsx:88) is not modelled either.
- Clipboard copy and its timer (components/MatchView.tsx:57-62) are left out, since they are browser side effects.
- The roster fixture and the initial signed-in user (App.tsx:26) are left out. constants.ts is not part of this model, so the roster is a parameter everywhere.
- The password field of the auth modal is left out, because no code reads it. Opening the modal, switching between sign-in and registration, and the sidebar toggle (App.tsx:131, 154-157, 241) are single-field UI toggles and are also left out.
- All rendering is left out: the admin dashboard, profile editor, dashboard and pricing cards, and the weekly quota display. Nothing enforces the quota.

## Findings

| source | as written | input that shows it | evidently intended | confidence | as-written member | corrected member |
|---|---|---|---|---|---|---|
| components/PricingView.tsx:56 | `onClick={onUpgrade}` hands `handleUpgrade` the click event. No duration branch matches it, so the expiry date is today. | Clicking "subscribe" on any package, e.g. the yearly one: expiry is today, not a year from today (PricingView.AsWrittenExpiresToday) | The package's duration is passed (`onUpgrade(pkg.duration)`), so the expiry is 1, 3 or 12 months from today | high; not executed | PricingView.SubscribeAsWritten | PricingView.Subscribe |
