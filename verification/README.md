# Habit client decision rules, in Dafny

This project models the pure decision logic of a small single-page client for
the Habitica REST API. The client shows a user's habits and lets them score a
habit up or down. The model covers:

- **`compareHabits`**, the comparator builder for a `(key, direction)` sort
  order (module `HabitsApi`). A habit sort that uses it is in `HabitOrder`.
- **`calculateAverageScore`**, as real division (`HabitsApi`).
- **The three authenticated calls** `getUser`, `getHabits` and `scoreTask`
  (`HabitsApi`). Each is modelled as a pure request builder plus the mapping
  from a response status to the call's outcome. The network call `fetch` is a
  function parameter. The source never parses a request. The model adds a
  reader, `ParseRequest`, as the builder's inverse, so that a round trip
  shows the builder keeps the credentials and the endpoint.
- **The display rules of the habit page** (`HabitsData`):
  - the seven-tier value colouring of `HabitCard` and `HabitButton`;
  - the `HabitPriority` label;
  - the "disabled while this score is in flight" predicate and the up/down
    affordance choice of `HabitsGrid`;
  - the `UserForm` submit validation.

  Colours are modelled as the `Tier` they encode. Labels are modelled as the
  `Label` datatype.

Files: `wrappers.dfy` (`Option`), `api.dfy` (`HabitsApi`), `order.dfy`
(`HabitOrder`), `data.dfy` (`HabitsData`).

## Model

| member | source | states |
|---|---|---|
| HabitsApi.Compare | src/habits/api.ts:26-44 | the comparator's sign is the lexicographic order of the key pair (direction-adjusted primary key, ascending value tie-break for priority; no tie-break for value) |
| HabitsApi.ValueAscIsDifference | src/habits/api.ts:29-43 | under ("value","asc") the comparison is exactly a.value - b.value; priority is never consulted |
| HabitsApi.ValueDescNegatesAsc | src/habits/api.ts:35-43 | ("value","desc") is the negation of ("value","asc"), and equal values compare 0 whatever the priorities |
| HabitsApi.HigherPriorityFirst | src/habits/api.ts:30-43 | a strictly higher priority compares negative under ("priority","asc") and positive under ("priority","desc") |
| HabitsApi.PriorityTieBreakIgnoresDirection | src/habits/api.ts:38-43 | with equal priorities a priority order returns a.value - b.value in both directions |
| HabitsApi.CompareAntisymmetric | src/habits/api.ts:26-44 | compare(o)(a,b) == -compare(o)(b,a) and compare(o)(a,a) == 0 for every order |
| HabitsApi.CompareTransitive | src/habits/api.ts:26-44 | "compares <= 0" is transitive and total for every order |
| HabitsApi.FoldValues | src/habits/api.ts:47 | the left-fold reduce starting at acc yields acc plus the sum of the values |
| HabitsApi.AverageScore | src/habits/api.ts:46-49 | for a non-empty list, the average times the count is the sum of the values |
| HabitsApi.SumBounds | src/habits/api.ts:47 | values within [lo, hi] bound the sum by n*lo and n*hi |
| HabitsApi.AverageWithinBounds | src/habits/api.ts:46-49 | the average lies within any bounds of the values |
| HabitsApi.BuildRequest | src/habits/api.ts:54-65 | no credentials means no request; otherwise exactly the headers x-api-user = userId and x-api-key = token, and POST exactly for scoring |
| HabitsApi.Path | src/habits/api.ts:57-109 | each of the user, habits and score paths reads back as the endpoint it was built from, for every task id |
| HabitsApi.PathInjective | src/habits/api.ts:57-109 | distinct endpoints (including score endpoints whose task ids differ or contain '/') never share a path |
| HabitsApi.RequestRoundTrip | src/habits/api.ts:52-117 | reading a built request back yields the credentials and endpoint it was built from, for every task id |
| HabitsApi.IsOk | src/habits/api.ts:67 | `res.ok` holds exactly for a status in the 2xx class |
| HabitsApi.Receive | src/habits/api.ts:67-72 | a non-2xx status fails with the body text as message; a 2xx status returns the envelope's data |
| HabitsApi.Call | src/habits/api.ts:54-72 | a call is skipped exactly when there are no credentials; otherwise it is the status check of fetch's response to the built request |
| HabitsApi.GetUser | src/habits/api.ts:52-73 | getUser skips without credentials, else GETs user?userFields=profile.name under the base URL with the two auth headers |
| HabitsApi.GetHabits | src/habits/api.ts:75-95 | getHabits skips without credentials, else GETs tasks/user?type=habits with the two auth headers |
| HabitsApi.ScoreTask | src/habits/api.ts:97-125 | scoreTask skips without credentials, else POSTs tasks/{taskId}/score/{up or down} with the two auth headers |
| HabitsApi.NoCredentialsNoRequest | src/habits/api.ts:54-55 | without credentials the outcome is Skipped and does not depend on fetch at all |
| HabitsApi.UnauthorizedExample | src/habits/api.ts:67-69 | a 401 with body "Unauthorized" fails with message "Unauthorized" |
| HabitOrder.Insert | src/habits/api.ts:26-44 | inserting into a list sorted by the comparator keeps it sorted and adds exactly that habit |
| HabitOrder.Sort | src/habits/api.ts:26-44 | sorting with the comparator yields a permutation in which no habit compares after a later one |
| HabitOrder.SortedIsKeyOrdered | src/habits/api.ts:26-44 | a list sorted by the comparator is lexicographically ordered by the key pair |
| HabitOrder.SortPriorityFirst | src/habits/api.ts:30-43 | sorting by priority gives non-increasing priorities (asc) or non-decreasing priorities (desc) |
| HabitsData.CardTier | src/habits/data.tsx:280-293 | the value lies strictly above its tier's bound and at or below the bound of the tier above |
| HabitsData.CardTierIsTableScan | src/habits/data.tsx:280-293 | the cascade equals a descending scan of the (bound, tier) table 10, 5, 1, -1, -10, -20 |
| HabitsData.CardTierCharacterized | src/habits/data.tsx:281-293 | a value is in tier t if and only if it is above t's bound and not above the next tier's bound |
| HabitsData.CardTierMonotone | src/habits/data.tsx:281-293 | a larger value never gets a lower tier |
| HabitsData.CardTierBoundaries | src/habits/data.tsx:281-293 | bounds are exclusive: 10 is in the >5 tier, 11 in >10, -20 and below in the lowest tier |
| HabitsData.HabitButton | src/habits/data.tsx:301-399 | the button carries the handler exactly when onClick is given, and is grey exactly when it is not |
| HabitsData.ButtonAgreesWithCard | src/habits/data.tsx:319-397 | an interactive button has the card's tier for every value |
| HabitsData.InertWithoutHandler | src/habits/data.tsx:307-317 | without onClick the button is grey whatever the value, and disabled is passed through |
| HabitsData.DisabledPassedExceptLowest | src/habits/data.tsx:319-397 | an interactive button is disabled exactly when disabled is asked for and the value is not in the lowest tier |
| HabitsData.ScoreInFlight | src/habits/data.tsx:228-232 | the disabled expression holds exactly when a score is loading and its variables are exactly this habit's id and this direction (the same expression at 256-260 for up) |
| HabitsData.ScoreButton | src/habits/data.tsx:212-264 | a card's up (down) button is interactive exactly when habit.up (habit.down) holds |
| HabitsData.ScoreButtonDisabledIff | src/habits/data.tsx:228-260 | a score button is disabled exactly when it is interactive, a score for this habit id and direction is loading, and the value is not in the lowest tier |
| HabitsData.ScoringDisablesOnlyItsButton | src/habits/data.tsx:228-260 | scoring one direction never disables the other direction's button or any other habit's buttons |
| HabitsData.FallbackButtonInert | src/habits/data.tsx:212-218 | a direction the habit does not allow gets the grey button with no handler that is never disabled |
| HabitsData.PriorityLabel | src/habits/data.tsx:401-433 | a label is given only for its own priority |
| HabitsData.PriorityLabelRoundTrip | src/habits/data.tsx:401-433 | priority p gets label l if and only if p is l's priority; no label exactly for priorities other than 2, 1.5, 1, 0.1 |
| HabitsData.PriorityLabelExamples | src/habits/data.tsx:401-433 | 2 is Hard, 1.5 Medium, 1 Easy, 0.1 Trivial, and 0.7 has no label |
| HabitsData.HabitCardView | src/habits/data.tsx:192-268 | a card shows the value's tier and the priority's label, and its down (up) button is interactive exactly when habit.down (habit.up) holds |
| HabitsData.CardButtonsAgree | src/habits/data.tsx:194-268 | every interactive button of a card wears the card's tier |
| HabitsData.SubmitForm | src/habits/data.tsx:97-111 | an empty user id or token alerts and leaves the credentials unchanged; otherwise the credentials become exactly {userId, token} |
| HabitsData.SubmitThenRequest | src/habits/data.tsx:103-107 | after a successful submit every request authenticates with the entered user id and token |
| HabitsData.RejectedSubmitStaysSignedOut | src/habits/data.tsx:103-107 | a rejected submit from the signed-out state leads to no request |

## Left out

- HabitsApi.AverageScore: requires a non-empty list. The source divides by zero there and formats NaN. The call site can pass an empty list (`habitsQuery.data || []`).
- HabitsApi.AverageScore: the `toFixed(1)` formatting is not modelled. The result is the real average. The `toFixed(2)` of a card's value is left out too.
- Floating point: values and priorities are `real`. NaN, `-0` in `||`, rounding, and the float equality of 0.1 and 1.5 are not modelled.
- The network: `fetch`, `res.text()`, `res.json()` and the async sequencing are not modelled. `fetch` is a function parameter. Its response carries the status, the body text and the envelope's `data` field already parsed.
- `console.warn` / `console.log` / `console.error` logging is not modelled. `alert` is modelled only as the message the form would show.
- The credentials store (src/habits/credentials.tsx) is not part of this model. It covers localStorage persistence through a framework effect. Note that a malformed stored entry makes `JSON.parse` throw; it does not yield "absent".
- Logout (`setCredentials(undefined)`) and the page's "no credentials shows the login form" routing are not modelled. They are framework signal wiring; the credential guard that follows from them is `BuildRequest`.
- Query caching, staleness windows, `retry: false` and `invalidateQueries` belong to the data-fetching library. They are not modelled.
- Markdown-to-HTML conversion of a habit's text and notes is a foreign library. It is not modelled.
- JSX, CSS class strings, the show-values/show-notes toggles and the provider wiring in src/App.tsx are not modelled.
- `compareHabits` is exported, but no sort call is made in the files modelled. `HabitOrder.Sort` is an insertion sort that stands in for `Array.prototype.sort`. It is specified only by its result, and stability is not stated.
