# AGB card game web app — a verified model of its core logic

This project models the parts of the AGB card game web application that hold real logic, and proves properties about them:

- **Card catalog API** (`app/api/cards/route.ts`): the canonical list of 54 cards and the generated nine-stat vectors that must meet a rarity budget. It also covers the merge with optional database rows, the faction filter and the shuffled, size-limited deck (module `CardsApi`).
- **Local card API** (`app/api/cards/local/route.ts`): the umbrella and ascension membership tests, the ordered class-to-umbrella classifier and the taxonomy fallback chain. It also covers the narrowing query filters and the flat-to-nested reshaping (module `LocalCards`).
- **Offline CSV builder** (`scripts/agb_build_csv.py`): the display-name cleaner (module `CleanName`) and the integer phases of the stat allocator (module `StatAlloc`). The allocator phases are the rounding correction, the clamp to rarity caps and the cap-respecting greedy rebalance.
- **Play page** (`app/play/page.tsx`): the bounded notification log with its id counter and toast, and the start/focus/select state machine (module `Play`, classes `Notifications` and `Game`).
- **Route guards.** Three files, three modules:
  - `middleware.auth.bak.ts`: the protected-path middleware and its matcher list (module `AuthGuard`).
  - `older.middleware.disabled.ts`: the public-path gate (module `PublicGate`).
  - `app/auth/callback/route.ts`: the auth callback's redirect target and token POST (module `AuthCallback`).

Supporting modules:
- `Wrappers`: `Option`.
- `Seqs`: sums, subsequences, an order-keeping filter, reversal.
- `Text`: ASCII case mapping, JavaScript and Python whitespace classes, substring search, left padding, decimal printing.
- `UrlQuery`: the part of `URLSearchParams` that the middleware uses.

Randomness, floating point, the database and the session service do not appear in the model. Their results are parameters:
- the `Math.random` draws of the shuffle;
- the rounded stat shares;
- the database fetch outcome;
- the session flag;
- the `setSession` error.

## Model

| member | source | states |
|---|---|---|
| CardsApi.PickIndex | app/api/cards/route.ts:38 | the swap index drawn from a roll in [0,1) lies in [0, i] |
| CardsApi.Shuffle | app/api/cards/route.ts:35-42 | the result has the argument's length and multiset (a permutation); the argument value is untouched |
| CardsApi.DeckSize | app/api/cards/route.ts:48 | the size lies in [1,60]; it is 20 when the parameter is absent, non-numeric or 0; it is the value itself when in range, 60 above, 1 below |
| CardsApi.ApplyFactionFilter | app/api/cards/route.ts:275-278 | unchanged unless the filter is exactly Highlanders or Keepers; then an order-keeping subsequence holding exactly the cards of that faction, each as often as in the input |
| CardsApi.NormId | app/api/cards/route.ts:208-213 | null/undefined gives ""; otherwise the upper-cased value right-aligned in at least 8 characters with '0' fill; ids of 8 or more characters are only upper-cased |
| CardsApi.NormIdIdempotent | app/api/cards/route.ts:208-213 | normalising a normalised id changes nothing |
| CardsApi.NumReadingsAgree | app/api/cards/route.ts:214-217 | `num` as written and the corrected reading agree on every column except null, where the first gives 0 and the second the fallback |
| CardsApi.NullColumnLosesFallback | app/api/cards/route.ts:214-217 | a null column gives 0 as written but the fallback under the corrected reading |
| CardsApi.Overlay | app/api/cards/route.ts:91-97 | the merged card keeps the base card's id, name and image; class, rarity and faction are the row's when present and the base card's otherwise; heroType and attackType take the snake-case column, else the camel-case one, else the base value |
| CardsApi.OverlayStatAsWritten | app/api/cards/route.ts:98-108 | each merged stat is its column's number when numeric, 0 when the column is null, and the base card's same stat when absent or not finite |
| CardsApi.OverlayEmptyRow | app/api/cards/route.ts:91-109 | a row with no text column and every stat column absent or not finite leaves the base card unchanged |
| CardsApi.OverlayIdempotent | app/api/cards/route.ts:91-109 | applying the same row twice equals applying it once |
| CardsApi.OverlayCorrected | app/api/cards/route.ts:91-109 | the intended merge keeps id, name and image, and each stat is its column's number when numeric and the base stat otherwise |
| CardsApi.OverlaysAgree | app/api/cards/route.ts:91-109 | the two merges agree on every field but the stats, and on a row without a null stat column they agree outright |
| CardsApi.OverlayNullColumn | app/api/cards/route.ts:98-108 | a null stat column gives 0 as written and keeps the base stat once corrected |
| CardsApi.LastIndex | app/api/cards/route.ts:79-82 | finds the last occurrence, or reports that there is none |
| CardsApi.RowFor | app/api/cards/route.ts:78-82 | the row kept for an id is the last row with that normalised id; there is none for "" or an unmatched id |
| CardsApi.IndexRows | app/api/cards/route.ts:78-82 | the map built by the loop has exactly the ids RowFor finds, each bound to that row |
| CardsApi.MergeCatalog | app/api/cards/route.ts:83-110 | one card per base card in order, with id, name and image kept; cards without a row are unchanged, cards with one are overlaid |
| CardsApi.Meta | app/api/cards/route.ts:196-198 | all fields are copied, the id is the upper-cased argument of the same length, and an 8-character id is already normalised |
| CardsApi.Budget | app/api/cards/route.ts:219-221 | every rarity budget lies in [270, 345] |
| CardsApi.InitialStats | app/api/cards/route.ts:243-252 | every pushed value is at least 10 and at least the raw share plus its faction bump, and equals one of the two |
| CardsApi.RoundRobinStep | app/api/cards/route.ts:254 | one more top-up step adds one to the slot `d mod 9` |
| CardsApi.TopUp | app/api/cards/route.ts:254 | a positive remainder is spent to 0, giving the round-robin distribution; otherwise nothing changes |
| CardsApi.Trim | app/api/cards/route.ts:255 | the loop terminates with the sum equal to the budget; each stat stays at least 10 and no stat grows |
| CardsApi.GenStatsFor | app/api/cards/route.ts:232-261 | all nine stats are at least 10 and sum exactly to the rarity budget; below budget the result is the round-robin top-up of the initial values, above it no stat exceeds its initial value |
| CardsApi.SynthesizeAll | app/api/cards/route.ts:200-206 | one card per canonical entry, in order, carrying its id, name, taxonomy and `/images/<id>.png` and well-formed stats |
| CardsApi.BuildCatalog | app/api/cards/route.ts:56-110 | one card per canonical entry with canonical id, name and image; without usable rows it is the generated catalog, with rows each card is overlaid by its last matching row |
| CardsApi.Deal | app/api/cards/route.ts:116 | the deck has min(size, filtered count) cards, all drawn from the filtered cards |
| CardsApi.Get | app/api/cards/route.ts:44-132 | the catalog holds one card per canonical entry, generated with well-formed stats and, with usable rows, overlaid by its last matching row; the deck length is min(size, filtered count) and the deck is drawn from the faction-filtered catalog; the object format is chosen iff requested, and its total is the filtered count |
| LocalCards.IsUmbrella | app/api/cards/local/route.ts:99-101 | true exactly for members of the umbrella list; false for null and "" |
| LocalCards.IsAscension | app/api/cards/local/route.ts:102-104 | true exactly for Hero, Champion and Guardian; false for null and "" |
| LocalCards.DeriveUmbrellaFromClass | app/api/cards/local/route.ts:110-165 | the result is always a member of the umbrella list |
| LocalCards.DeriveIsFirstMatch | app/api/cards/local/route.ts:111-164 | the classifier is the first rule, in the fixed order, whose pattern matches the lower-cased class, with Specialist as the fallback |
| LocalCards.ClassifierFirstMatchWins | app/api/cards/local/route.ts:111-161 | if rule k matches and no earlier rule does, the result is rule k's umbrella |
| LocalCards.ClassifierFallback | app/api/cards/local/route.ts:164 | the result is Specialist iff no rule matches |
| LocalCards.BattleMageIsNotHybrid | app/api/cards/local/route.ts:146-161 | a class containing "battle mage" never reaches the Hybrid rule, because Caster is tested first |
| LocalCards.NormalizeTypeAndAscension | app/api/cards/local/route.ts:172-190 | ascension is the valid ascensionRank, else a heroType that names an ascension, else Hero; umbrella is a valid heroType, else derived from the class; both are always valid |
| LocalCards.Shape | app/api/cards/local/route.ts:220-245 | identity fields are copied unchanged and the taxonomy fields are valid |
| LocalCards.ShapeFlattenRoundTrip | app/api/cards/local/route.ts:220-245 | flattening a shaped card gives back the raw card with only its two taxonomy fields replaced; all nine stats are copied one-for-one |
| LocalCards.ShapeIdempotent | app/api/cards/local/route.ts:220-245 | shaping an already shaped card changes nothing |
| LocalCards.NarrowSpec | app/api/cards/local/route.ts:210-217 | a narrowing step gives an order-keeping subsequence holding exactly the cards that pass (all of them when the parameter is absent), each as often as in the input |
| LocalCards.RawFiltersAsOne | app/api/cards/local/route.ts:209-217 | the chain of raw filters equals one order-keeping filter by the conjunction (exact faction and rarity, case-insensitive class and name substring) |
| LocalCards.LocalGetCharacterised | app/api/cards/local/route.ts:195-257 | the answer is the shape of every raw card that passes all active filters, in data order |
| LocalCards.LocalGetSoundComplete | app/api/cards/local/route.ts:195-257 | every answered card is the shape of a passing card, and every passing card's shape is answered |
| LocalCards.InvalidHeroTypeIgnored | app/api/cards/local/route.ts:249-251 | an invalid heroType parameter leaves the answer as if it were absent |
| LocalCards.InvalidAscensionIgnored | app/api/cards/local/route.ts:252-254 | an invalid ascension parameter leaves the answer as if it were absent |
| CleanName.StripParensChars | scripts/agb_build_csv.py:86 | removing groups introduces no character |
| CleanName.StripParensLeavesNoGroup | scripts/agb_build_csv.py:86 | no '(' is followed later by ')' in the result |
| CleanName.StripParensDropsGroup | scripts/agb_build_csv.py:86 | a parenthesised segment is removed together with the whitespace before it, and the text before it is kept |
| CleanName.StripParensKeepsPlain | scripts/agb_build_csv.py:86 | text without a group is unchanged |
| CleanName.StraightenQuotesSpec | scripts/agb_build_csv.py:88 | the length is preserved, no curly quote is left, each one adds a straight double quote, and every other character keeps its count |
| CleanName.DropQuotesSpec | scripts/agb_build_csv.py:88-89 | no quote of either kind survives; every other character keeps its count |
| CleanName.CollapseLeavesNoDoubleSpace | scripts/agb_build_csv.py:91 | after collapsing, no two whitespace characters are adjacent |
| CleanName.CollapseKeepsPlain | scripts/agb_build_csv.py:91 | text without a whitespace run is unchanged |
| CleanName.Strip | scripts/agb_build_csv.py:91 | the result is a slice of the input with no edge whitespace, everything cut off at either end is whitespace, and it is empty iff the input is all whitespace |
| CleanName.CleanSpec | scripts/agb_build_csv.py:84-92 | a cleaned name has no parenthesised group, no quote, no edge whitespace and no whitespace run |
| CleanName.CleanIdempotent | scripts/agb_build_csv.py:84-92 | cleaning a cleaned name changes nothing |
| StatAlloc.Budget | scripts/agb_build_csv.py:104 | every rarity budget lies in [360, 560] |
| StatAlloc.Caps | scripts/agb_build_csv.py:105 | every rarity's caps satisfy 25 <= min < max <= 95 |
| StatAlloc.ClampValue | scripts/agb_build_csv.py:198 | with ordered caps the value ends within them; values inside are kept, values below become min and values above become max |
| StatAlloc.PickRaise | scripts/agb_build_csv.py:205-207 | none iff every stat is at the max cap; otherwise the first stat with the greatest headroom below it |
| StatAlloc.PickLower | scripts/agb_build_csv.py:209-211 | none iff every stat is at the min cap; otherwise the first stat with the greatest excess over it |
| StatAlloc.CorrectRounding | scripts/agb_build_csv.py:189-196 | the sum moves toward the total by min(abs diff, 1000), one unit per step; stats only grow when raising and only shrink when lowering |
| StatAlloc.Clamp | scripts/agb_build_csv.py:197-198 | every stat becomes its clamped value |
| StatAlloc.Rebalance | scripts/agb_build_csv.py:199-211 | caps are preserved and the sum moves monotonically toward the total; it ends at the total, at the cap in that direction, or after 2000 steps |
| StatAlloc.AllocateStats | scripts/agb_build_csv.py:186-212 | nine stats within the caps; when 9·min <= total <= 9·max they sum to the total; beyond those bounds every stat sits at that cap |
| StatAlloc.RarityTableFits | scripts/agb_build_csv.py:104-105 | every rarity's budget lies between 9·min and 9·max, and the gap fits the 2000-step bound |
| Play.KeepNewest | app/play/page.tsx:28-31 | the result holds the newest min(n, max) entries as a suffix |
| Play.AfterTimer | app/play/page.tsx:34 | the toast is cleared iff it still carries the timer's id; otherwise it is kept |
| Play.AppendKeepsOrder | app/play/page.tsx:22-31 | pushing keeps ids strictly increasing and below the next id, and the new notice is last |
| Play.NewestFirst | app/play/page.tsx:431-434 | the displayed list is the log reversed, entry by entry |
| Play.Notifications.constructor | app/play/page.tsx:19-22 | the log is empty, there is no toast and ids start at 1 |
| Play.Notifications.Push | app/play/page.tsx:24-39 | returns the current id and advances the counter by one; the log is the newest max entries of the old log plus the notice; the toast is the notice iff requested |
| Play.Notifications.TimerFired | app/play/page.tsx:34 | only the toast may change, and only when it carries that id |
| Play.SelectText | app/play/page.tsx:324-330 | the logged line starts with the side's name |
| Play.SelectTextSpec | app/play/page.tsx:324-330 | the logged line names the chosen stat right after " selected ", contains its value and ends with it |
| Play.Game.constructor | app/play/page.tsx:306-309 | not started, no active card, no selections, an empty 50-entry log |
| Play.Game.HandleStart | app/play/page.tsx:311-317 | started, left card active, both selections cleared, the start notice pushed |
| Play.Game.OnCardFocus | app/play/page.tsx:319-322 | only the active card changes, and the focus notice is pushed |
| Play.Game.OnStatSelect | app/play/page.tsx:324-330 | only the chosen side's selection changes, and that stat's notice is pushed |
| UrlQuery.Get | middleware.auth.bak.ts:31 | the first value of a name, or none iff the name is absent |
| UrlQuery.SetSpec | middleware.auth.bak.ts:31 | after set the name occurs once with the new value, and every other name reads as before |
| AuthGuard.NeedsAuth | middleware.auth.bak.ts:5-18 | true iff the path starts with a protected root and either ends there or goes on with a '/' (whole segments only) |
| AuthGuard.HubxIsNotProtected | middleware.auth.bak.ts:17-18 | `/agb/hubx` is not protected while `/agb/hub` and `/agb/hub/x` are |
| AuthGuard.Middleware | middleware.auth.bak.ts:13-37 | unprotected paths continue; protected ones continue with a session and otherwise redirect to /agb/login with next set to the path |
| AuthGuard.UnprotectedIgnoresSession | middleware.auth.bak.ts:19 | the session does not affect an unprotected path |
| AuthGuard.RedirectKeepsOtherParams | middleware.auth.bak.ts:29-31 | the login redirect keeps every query parameter other than next |
| AuthGuard.LoginPasses | middleware.auth.bak.ts:17-19 | the login page is never redirected, so there is no loop |
| AuthGuard.MatcherIsProtected | middleware.auth.bak.ts:40-53 | a path matches a matcher entry iff it needs auth |
| PublicGate.PublicPaths | older.middleware.disabled.ts:9-18 | public exactly for '/', the login page and the auth, _next, favicon and images prefixes; `/agb/authority` counts as public by prefix |
| PublicGate.Gate | older.middleware.disabled.ts:20-44 | without a session it redirects to login iff the path is not public; with one it redirects to the hub iff the path is an entry page; the query is kept |
| PublicGate.RedirectTargetsPass | older.middleware.disabled.ts:32-41 | a redirect target passes the gate, so there is no redirect loop |
| AuthCallback.Dest | app/auth/callback/route.ts:20 | the destination always starts with /agb; it equals next iff next does, otherwise it is /agb followed by next |
| AuthCallback.DestIdempotent | app/auth/callback/route.ts:20 | prefixing a destination again changes nothing, and the destination is not protocol-relative |
| AuthCallback.DefaultTarget | app/auth/callback/route.ts:13-20 | without a next parameter the redirect goes to /agb/hub |
| AuthCallback.ExplicitNextTarget | app/auth/callback/route.ts:13-20 | with a next parameter the redirect goes to it, prefixed with /agb unless it already starts with it |
| AuthCallback.Post | app/auth/callback/route.ts:29-48 | missing tokens give 400 "Missing tokens"; a session error gives 400 with its message; otherwise 200 ok; ok iff status 200 |
| AuthCallback.MissingTokensSkipSession | app/auth/callback/route.ts:32-34 | with a missing token the session outcome cannot affect the reply |

## Left out

- Floating point:
  - The weight tables, `Math.round(w*budget)` and `randRange` in `genStatsFor`. Their sum per stat arrives as the integer input `raw`.
  - `Number.isFinite`. A column is either a finite integer or one of undefined, null or not finite.
  - The percentage profiles, faction nudges, guardian signatures, `normalize_profile` and the rounding in `allocate_stats`. The rounded integers and the correction `order` are inputs.
- CardsApi.DeckSize: a fractional `size` is not modelled; `Number(...)` is taken to give an integer or nothing.
- The seeded `hash`. The `meta` index and seed that feed the noise are folded into `raw`.
- Randomness:
  - The shuffle draws are a sequence of reals in [0,1). They are not a distribution, and the JavaScript double arithmetic of `Math.floor(r*(i+1))` is not modelled.
  - CardsApi.Shuffle is stated on a sequence value copied into an array. The argument's immutability therefore holds by construction, not as a proved frame.
- I/O and services:
  - The Supabase client and query, the environment check, `NextResponse` and JSON encoding, and the logging of the catch block are left out. The fetch outcome (not configured, failed, or rows) is an input, and the catch path is that input's failure case.
  - `readFileSync` and the module-level `CACHE` of the local route are left out; the loaded cards are an input.
  - The CSV and DataFrame writing of the build script is left out.
- Auth plumbing:
  - The code exchange in the callback GET is left out; it has no effect on the redirect target.
  - `setSession` is reduced to its optional error message, and the session lookup of both middlewares to a boolean.
  - The tokens are modelled as optional strings. JavaScript falsiness is taken as absent or empty, and non-string JSON values are not modelled.
- Redirect URLs: the `new URL(dest, origin)` resolution of the callback and the cloned request URL of the middlewares are not modelled. A redirect carries a path and the query parameters.
- Matchers:
  - The `:path*` matcher syntax is modelled only as "the root, or the root followed by '/' and more". Other path-to-regexp features are not modelled.
  - The catch-all regular-expression matcher of the older middleware is left out.
- Case and whitespace:
  - `toLowerCase`/`toUpperCase` are modelled on ASCII letters only.
  - JavaScript `\s` and Python `\s`/`str.strip` are modelled as two separate fixed character sets, because they differ (U+FEFF, U+001C to U+001F, U+0085).
- LocalCards patterns: the classifier's regular expressions are written as a small pattern language of words, optional spaces and optional dashes. It captures exactly the alternatives and word boundaries the source uses, not a general regex engine.
- `String(...)` of non-string identifiers is not modelled: `normId` receives a string or nothing.
- StatAlloc.AllocateStats: the exact-sum guarantee is stated only when `9*(max-min) <= 2000`. Without it the 2000-step bound of the rebalance loop can stop short. RarityTableFits shows that every rarity of the table meets the condition.
- Play.Game.OnStatSelect: requires an index below 9. With a larger index the source sets the selection and then fails reading an undefined stat.
- The React hook machinery, the resize hook, rendering, styles and the real-time toast timer are left out. The timer firing is the explicit `TimerFired` call, and the cleanup function returned by `push` is not modelled.
- Static pages, the CSV-to-JSON converter and the Next configuration hold no logic and are not part of this model.

## Findings

| source | as written | input that shows it | evidently intended | confidence | as-written member | corrected member |
|---|---|---|---|---|---|---|
| app/api/cards/route.ts:214-217 | `num` returns `Number(v)` when that is finite; `Number(null)` is 0, so a SQL NULL stat column replaces the generated stat with 0 | a database row whose `hp` column is NULL, with a generated hp of 30: the merged card gets hp 0 | a null column falls back to the generated stat, like an absent one and like the `??` fallbacks of the other fields | not executed | CardsApi.Overlay (with CardsApi.OverlayNullColumn) | CardsApi.OverlayCorrected |

The catalog route (`MergeCatalog`, `BuildCatalog`, `Get`) is modelled as written, so it uses `Overlay`. `OverlayCorrected` is the intended merge, and `OverlaysAgree` shows the two differ only on rows with a null stat column.
