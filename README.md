# OnSide dashboard: gamification engine and update handler, in Dafny

OnSide is a single-page personal-finance dashboard. It shows a balance, transactions,
subscriptions and savings goals, and it keeps a small game layer of levels and XP. A remote
REST backend stores the data. All of the logic worth stating lives in the frontend's
`App.jsx`. This project models that logic:

- **The XP / level-up engine** (`gamification.dfy`, module `Gamification`). Adding an item
  earns XP: `floor(|amount|)` for a transaction or subscription, 150 for a goal. The engine
  reads the user's `(xp, level, nextLevelXp)` with defaults, credits the XP and runs the
  level-up loop. The loop pays thresholds and raises the level. Past level 10 it wraps back
  to level 1 with a threshold of 1000 and sets the voucher flag.
  - `ApplyXp` is the loop itself, over local variables.
  - `Settle` is its recursive specification, and `ApplyXp` is proved to compute it.
  - The loop is proved to terminate for every integer input. While the threshold is not
    positive, the level climbs until the wrap resets the threshold to 1000.
- **The update handler `handleUpdateData`** (`orchestrator.dfy`, module `Orchestrator`),
  modelled as the ordered list of requests one call issues: the primary POST/PUT/DELETE,
  the profile PATCH, the voucher POST and the refetches. The inputs are the collection, the
  action, the item, the user and what the network does. Nothing follows a failed primary
  request. A successful XP-earning add refetches twice, once from inside
  `handleUpdateProfile` and once at the end.
- **The date filter of the Transactions view** (`transaction_filter.dfy`, module
  `TransactionFilter`). It covers "all", daily, monthly, yearly and range filtering on ISO
  date strings compared as strings, applied as an order-preserving filter.
- **The level-name and currency-symbol lookups** (`lookups.dfy`, module `Lookups`). The
  level-name lookup keeps JavaScript's truncating `%`.
- `js_core.dfy` (module `JsCore`) holds the missing-value type and JavaScript's `||`
  fallback on numbers, where both a missing value and 0 select the fallback.

The model follows the code where the code and the design intent differ:

- a stored level or threshold of 0 is treated as missing;
- a negative threshold does not hang the loop;
- an action other than add/edit/delete becomes a DELETE on the collection URL with the
  item as its body;
- the currency table holds the characters the source file actually contains (UTF-8
  symbols read back as Mac Roman, e.g. `EUR` maps to U+201A U+00C7 U+00A8).

## Model

| member | source | states |
|---|---|---|
| Gamification.EarnedXp | onside/frontend/src/App.jsx:1037-1042 | a goal earns 150; a transaction or subscription earns the floor of the amount's magnitude (`r <= abs(amount) < r + 1`), 0 when the amount is missing; any other collection earns 0 |
| Gamification.Defaults | onside/frontend/src/App.jsx:1045-1052 | missing xp reads as 0; a missing or 0 level reads as 1 and any other stored level, negative included, is kept; the threshold is `nextLevelXp`, else `next_level_xp`, else 1000, so neither the level nor the threshold is ever 0 |
| Gamification.GrowThreshold | onside/frontend/src/App.jsx:1065 | the new threshold is the floor of 1.2 times the old (`5r <= 6t < 5r + 5`), never smaller for a non-negative threshold |
| Gamification.Step | onside/frontend/src/App.jsx:1058-1066 | one pass removes exactly one threshold of XP; the level goes up by exactly one, or, past 10, wraps to level 1 with threshold 1000 and the reward; without a wrap the threshold grows by the 1.2 floor, and a positive threshold never shrinks |
| Gamification.Settle | onside/frontend/src/App.jsx:1057-1067 | the loop ends below its threshold; non-negative XP stays non-negative and leaves a positive threshold; a level in 1..10 stays in 1..10; a set reward flag stays set |
| Gamification.ApplyXp | onside/frontend/src/App.jsx:1050-1067 | the loop over `currentXp`, `currentLevel`, `currentNextXp`, `rewardVoucher` computes `Settle` of the defaulted, credited state, ending with `xp < nextLevelXp`, and with `0 <= xp` and a positive threshold when the credited XP is non-negative |
| Gamification.Conservation | onside/frontend/src/App.jsx:1054-1058 | starting XP (stored plus earned) equals the final XP plus the sum of the thresholds the loop paid |
| Gamification.CrossedPositive | onside/frontend/src/App.jsx:1057-1066 | from a positive threshold every threshold paid is positive, so each pass costs XP |
| Gamification.RewardIffWrap | onside/frontend/src/App.jsx:1055-1063 | the reward flag is set exactly when at least one pass wraps past level 10; it is a boolean however many wraps occur |
| Gamification.ClimbWithoutWrap | onside/frontend/src/App.jsx:1057-1066 | without a wrap the final level is the start level plus the number of passes, no reward fires, and a positive threshold does not shrink |
| Gamification.SettleIdempotent | onside/frontend/src/App.jsx:1057 | running the loop again on its own result changes nothing |
| Gamification.ExampleLevelUp | onside/frontend/src/App.jsx:1050-1067 | (xp 900, level 3, threshold 1000) plus 150 gives (50, 4, 1200) without reward |
| Gamification.ExampleWrap | onside/frontend/src/App.jsx:1050-1067 | (xp 950, level 10, threshold 1000) plus 100 wraps to (50, 1, 1000) with the reward |
| Orchestrator.PrimaryRequest | onside/frontend/src/App.jsx:1021-1031 | add is POST to `/api/{type}/` with the item; edit is PUT to `/api/{type}/{id}/` with the item; delete is DELETE to `/api/{type}/{id}/` with a null body; any other action is DELETE to `/api/{type}/` with the item |
| Orchestrator.KnownActionShape | onside/frontend/src/App.jsx:1021-1031 | for add/edit/delete the id is in the URL exactly when the method is not POST, and the body is null exactly when the method is DELETE |
| Orchestrator.ActionXp | onside/frontend/src/App.jsx:1036-1042 | only an add earns XP; an add earns what `EarnedXp` gives for its collection and amount |
| Orchestrator.Orchestrate | onside/frontend/src/App.jsx:1019-1097 | the primary request comes first; a failed primary request is the only request; no XP earned gives primary then one refetch; XP earned puts the PATCH carrying the engine's result second, followed only by refetches and the voucher, with the voucher just before the final refetch, or last when its POST throws |
| Orchestrator.RequestCounts | onside/frontend/src/App.jsx:1007-1097 | one PATCH exactly when the primary request succeeded and XP was earned; one voucher exactly when, in addition, the engine wrapped; refetch count is 0 after a failure, 1 with no XP, otherwise 1 from `handleUpdateProfile` unless the PATCH throws plus 1 at the end unless the voucher POST throws |
| Orchestrator.AtMostOneVoucher | onside/frontend/src/App.jsx:1079-1091 | at most one voucher POST per call |
| Orchestrator.GoalAdded | onside/frontend/src/App.jsx:1040-1091 | a successful goal add issues exactly one PATCH, carrying a resolved state below its threshold, and a voucher exactly when the engine wrapped |
| TransactionFilter.Prefix | onside/frontend/src/App.jsx:764-767 | `slice(0, n)` is a prefix of the string, of length n or the whole string when shorter |
| TransactionFilter.FilterTransactions | onside/frontend/src/App.jsx:753-775 | the result is an order-preserving subsequence of the transactions, and each transaction occurs in it as often as in the input when the filter keeps its date and not at all otherwise |
| TransactionFilter.FilterKeepsEverything | onside/frontend/src/App.jsx:755-773 | "all", an unknown filter type, and a range with an empty bound show every transaction unchanged |
| TransactionFilter.FilterWidening | onside/frontend/src/App.jsx:753-775 | a filter that keeps at least what another keeps shows a supersequence of what the other shows |
| TransactionFilter.PrefixOfPrefix | onside/frontend/src/App.jsx:764-767 | the first 4 characters of the first 7 are the first 4 |
| TransactionFilter.DayWithinMonthWithinYear | onside/frontend/src/App.jsx:760-768 | for one chosen date, the daily result is a subsequence of the monthly one, and that of the yearly one |
| TransactionFilter.LexLeReflexive | onside/frontend/src/App.jsx:771 | string `<=` is reflexive |
| TransactionFilter.LexLeAntisymmetric | onside/frontend/src/App.jsx:771 | string `<=` both ways means equal strings |
| TransactionFilter.LexLeTransitive | onside/frontend/src/App.jsx:771 | string `<=` is transitive |
| TransactionFilter.LexLeTotal | onside/frontend/src/App.jsx:771 | any two strings are ordered one way or the other |
| TransactionFilter.InvertedRangeShowsNothing | onside/frontend/src/App.jsx:769-772 | a range whose start comes after its end shows no transaction |
| Lookups.JsRem | onside/frontend/src/App.jsx:340 | JavaScript `%` by a positive number: in `[0, n)` and equal to the mathematical remainder for a non-negative dividend, in `(-n, 0]` for a negative one |
| Lookups.JsRemOdd | onside/frontend/src/App.jsx:340 | negating the dividend negates the remainder |
| Lookups.LevelName | onside/frontend/src/App.jsx:340 | over the table `LEVEL_NAMES` (`App.jsx:86-97`): the name is always one of the ten level names; level n >= 1 gets the name at `(n-1) mod 10`; a level <= 0 gets "Fresh Wallet" |
| Lookups.LevelNamesCycle | onside/frontend/src/App.jsx:340 | levels 1..10 get the ten names in order, and names repeat every ten levels |
| Lookups.CurrencySymbol | onside/frontend/src/App.jsx:341 | the table lookup with a fallback, as at `App.jsx:192` and `341`, over the table of `App.jsx:74-84`: a known code gives its non-empty table symbol; an unknown code gives the fallback |
| Lookups.StatsSymbol | onside/frontend/src/App.jsx:341 | in the user-stats card a known code shows its table symbol and an unknown code shows as the code itself |
| Lookups.ViewSymbol | onside/frontend/src/App.jsx:192 | elsewhere a known code shows its table symbol and an unknown code shows as `$` |
| Lookups.SymbolsAgree | onside/frontend/src/App.jsx:341 | the two places agree exactly on the known codes and on the code `$` |
| JsCore.OrElse | onside/frontend/src/App.jsx:1050-1052 | the `or` fallback on a number yields `n` when present and non-zero, else `d` |
| JsCore.Abs | onside/frontend/src/App.jsx:1039 | `Math.abs` is non-negative and equals the number or its negation |

## Left out

- GrowThreshold: `Math.floor(t * 1.2)` is computed on doubles in the browser, where `1.2` is not exact. The model takes the exact product, whose floor is `(t * 6) / 5`.
- XP, level and threshold are modelled as integers. The browser holds doubles, so a fractional stored XP and precision loss above 2^53 are not modelled. `undefined`, `null` and `NaN` are falsy, so `||` (`App.jsx:1050-1052`) reads them as missing, and the model passes None for them. A truthy non-number, such as a numeric string or `true`, is not modelled. The source keeps it, and `+=` at `App.jsx:1054` and `1059` then concatenates it as a string: a stored xp of "250" becomes "250150", and a stored level of "3" becomes "31", which wraps.
- LevelName, StatsSymbol: they take a present `level` and `currency`. A user without a `level` is not modelled: at `App.jsx:340` `(undefined - 1) % 10` is `NaN`, the lookup reads `undefined`, and the card falls back to "Fresh Wallet". A user without a `currency` is not modelled either: at `App.jsx:341` both sides of the `or` are `undefined`, so the stats card shows no symbol. (`ViewSymbol` covers the other places, where `App.jsx:625` falls back to '$'.)
- The `fetch` calls, `async`/`await`, `localStorage` and the login, logout and data-fetch handlers are I/O (`App.jsx:947-1017`). Only the abstract list of requests is modelled. A refetch is one `Refetch` entry standing for the four parallel GETs of `fetchUserData`. The local bundle is replaced only by a refetch, so "unchanged after a failed primary request" shows as the absence of any refetch.
- The voucher's `date` comes from the clock (`App.jsx:1088`) and is not part of the model's voucher body. The same holds for the other clock reads (`App.jsx:191, 748, 1112`).
- The responses of the PATCH and voucher POST are never checked by the source. Only whether they throw matters, so that is all the network parameter records.
- The handler reads `currentUser` as captured when the call started. Overlapping calls are not serialized, and concurrency is not modelled.
- Lookups.CurrencySymbol: JavaScript object lookup also finds inherited keys such as `"constructor"`, which yield a function rather than a symbol. The model treats every code outside the table as unknown.
- LexLe: JavaScript compares strings by UTF-16 code units, while Dafny characters are Unicode scalar values. The two orders agree on ASCII dates but may differ for characters outside the Basic Multilingual Plane.
- Prefix: `slice(0, n)` (`App.jsx:764, 767`) counts UTF-16 code units, while `Prefix` counts Unicode scalar values. The two agree on ASCII dates but differ when a date holds a character outside the Basic Multilingual Plane.
- The unused `new Date(...)` values in the filter (`App.jsx:757-758`) have no effect and are not modelled. Dates are modelled as strings, so a transaction without a `date` is not modelled. In the source such a transaction makes only the monthly and yearly filters throw (at `t.date.slice`, `App.jsx:764, 767`). "all" and unknown filter types keep it. The daily filter drops it, because `undefined` never equals a string. The range filter keeps it when either bound is unset, since that test returns `true` first (`App.jsx:770`), and drops it only when both bounds are set, because `undefined` is not ordered against a string.
- Everything else in `App.jsx` is out of scope:
  - the rendering, theme, modals and charts (`App.jsx:122-932, 1103-1298`);
  - the floating-point totals, budget percentage and XP percentage (`App.jsx:199-207, 270-285, 339, 423-431, 622-624`);
  - `handleRegister`, which is referenced at `App.jsx:1193` but never defined.
- The Django backend (`models.py`, `views.py`, `serializers.py`, `urls.py`) is declarative framework wiring and is not part of this model.
