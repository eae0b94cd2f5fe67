# SEA Advocate Matcher — a verified model of its core

SEA Advocate Matcher is a Next.js directory of health advocates. A browser
page lists advocates and narrows the list by a free-text search, a city and a
degree. The page works through a React hook, `useAdvocates`, which debounces
the search, builds a query string and calls `GET /api/advocates`. The route
handler loads every advocate row and filters the rows in memory. A small
environment module reads and validates the process configuration, and the
table component formats phone numbers.

This project models that logic in Dafny and proves what it promises.

- `AdvocatesRoute` (`route.dfy`): the handler's three filter steps, as
  composed filters over a sequence of `Advocate` records.
  - The result equals one filter by the conjunction of the three predicates.
  - It is a subsequence of the input, its `count` is its length, and the
    filtering is idempotent.
- `UseAdvocates` (`use_advocates.dfy`): the hook, as a class `AdvocatesHook`
  whose fields are the hook's state cells, its timer reference and the
  latest props.
  - React's runtime becomes explicit events. A render with new options is
    `Rerender`, which runs the effects whose dependencies changed.
  - The debounce timer is a pending value that `TimerFired` delivers; there
    is no clock.
  - `fetch` is split in two: its start, logged in `fetchCalls`, and its
    completion, `Settle`, which may arrive in any order.
  - The serializer behind `URLSearchParams.toString()` is a parameter
    `encode`.
- `HookScenarios` and `PageScenarios`: runs of the hook and of the page, event
  by event. They cover the cases the hook's unit tests describe and orderings
  of overlapping requests.
- `PhoneFormat` (`phone.dfy`): `formatPhoneNumber`.
- `Env` (`env.dfy`): the environment readers, the `env` object, validation,
  the mode helpers and the allowed origins. `process.env` is passed as a map.
- `HomePage` (`page.dfy`): the page `Home`, as a class.
  - Its state is the three filter inputs plus the hook instance.
  - It models the dropdown-option memo (a loop adding into two sets, then a
    sort), the results summary, the choice of screen, and the handlers.
- Library modules model the JavaScript built-ins the core relies on:
  - `JsStrings`: `trim`, `toLowerCase`/`toUpperCase`, `includes`, `split`,
    `join`, and number-to-string conversion.
  - `Seqs`: `Array.prototype.filter`.
  - `Sorting`: the default `Array.prototype.sort` on strings.
  - `Results` and `Advocates` hold the shared data types.

The model follows the code as written:
- The hook has no staleness guard. `Settle` writes whatever request completes
  last (`src/hooks/useAdvocates.ts:82-87`), and `HookScenarios.LateReplyWins`
  shows an older reply overwriting newer rows.
- A failed request keeps the rows already shown; it does not clear them.
- A later success does not clear an earlier error
  (`HookScenarios.ErrorOutlivesLateSuccess`).
- The route trims the query parameter but not the record's city
  (`AdvocatesRoute.CityIsNotTrimmed`).
- The hook's own code writes no state after unmount, because the state
  setters of an unmounted React component do nothing. That is React's
  behaviour, not a check in the hook; `disposed` models it.

## Model

| member | source | states |
|---|---|---|
| `AdvocatesRoute.LowerTerm` | src/app/api/advocates/route.ts:37-39 | The search or city filter is off exactly when the parameter is absent or blank; when it is on, its term is the trimmed, lower-cased parameter and is not empty |
| `AdvocatesRoute.UpperTerm` | src/app/api/advocates/route.ts:62-64 | The degree filter is off exactly when the parameter is absent or blank; when it is on, its term is the trimmed, upper-cased parameter and is not empty |
| `AdvocatesRoute.Get` | src/app/api/advocates/route.ts:71-77 | The response's `count` equals the number of returned rows, `filters` echoes the parameters, and every returned row is one of the loaded rows |
| `AdvocatesRoute.FilterAdvocates` | src/app/api/advocates/route.ts:35-69 | The search, city and degree steps applied in order; the result has no more rows than the input, each one an input row; its meaning is `AdvocatesRoute.FilterAsConjunction` |
| `AdvocatesRoute.FilterAsConjunction` | src/app/api/advocates/route.ts:35-69 | The three successive filter steps equal one filter by the conjunction of the active search, city and degree predicates |
| `AdvocatesRoute.MatchesSearch` | src/app/api/advocates/route.ts:40-49 | The search step's callback; a predicate without a contract, its meaning is stated by `AdvocatesRoute.SearchOnly` and `AdvocatesRoute.ReturnedIff` |
| `AdvocatesRoute.MatchesCity` | src/app/api/advocates/route.ts:56-58 | The city step's callback; a predicate without a contract, its meaning is stated by `AdvocatesRoute.CityOnly` and `AdvocatesRoute.ReturnedIff` |
| `AdvocatesRoute.MatchesDegree` | src/app/api/advocates/route.ts:65-67 | The degree step's callback; a predicate without a contract, its meaning is stated by `AdvocatesRoute.DegreeOnly` and `AdvocatesRoute.ReturnedIff` |
| `AdvocatesRoute.ResultIsSubsequence` | src/app/api/advocates/route.ts:35-71 | The returned rows are a subsequence of the loaded rows: rows are dropped, never added or reordered |
| `AdvocatesRoute.ReturnedIff` | src/app/api/advocates/route.ts:35-71 | A row is returned if and only if it is a loaded row that passes every active filter |
| `AdvocatesRoute.SearchOnly` | src/app/api/advocates/route.ts:37-51 | With only a non-blank search, a row survives iff the trimmed, lower-cased term occurs in its lower-cased first name, last name, city, degree or one of its specialties, or in the decimal years of experience |
| `AdvocatesRoute.CityOnly` | src/app/api/advocates/route.ts:53-60 | With only a non-blank city, a row survives iff its lower-cased city equals the trimmed, lower-cased parameter |
| `AdvocatesRoute.DegreeOnly` | src/app/api/advocates/route.ts:62-69 | With only a non-blank degree, a row survives iff its upper-cased degree equals the trimmed, upper-cased parameter |
| `AdvocatesRoute.BlankFiltersKeepAll` | src/app/api/advocates/route.ts:37-69 | Parameters that are absent, empty or only whitespace leave the rows unchanged |
| `AdvocatesRoute.FilterIdempotence` | src/app/api/advocates/route.ts:35-71 | Filtering the returned rows again with the same parameters returns the same rows |
| `AdvocatesRoute.CityIsNotTrimmed` | src/app/api/advocates/route.ts:56-58 | The record's own city is not trimmed: a city written with a leading space does not match the same name without it |
| `UseAdvocates.WithDefaults` | src/hooks/useAdvocates.ts:33 | Undefined options default to empty search, city and degree and a 300 ms delay; given values, an explicit empty string included, are kept |
| `UseAdvocates.QueryParams` | src/hooks/useAdvocates.ts:70-73 | The parameters appended to `URLSearchParams`, one per non-empty filter; no contract of its own, its meaning is `UseAdvocates.QueryParamsMeaning` |
| `UseAdvocates.QueryParamsMeaning` | src/hooks/useAdvocates.ts:70-73 | The query holds each filter exactly when it is non-empty, under its own name and with that filter's value, in the order search, city, degree, with nothing else; it is empty iff all three filters are empty |
| `UseAdvocates.Serialize` | src/hooks/useAdvocates.ts:75 | `params.toString()`: the encoded pairs joined by `&`; no contract of its own, its results are stated by `UseAdvocates.SingleParamUrl` and `UseAdvocates.ThreeParamUrl` |
| `UseAdvocates.RequestUrl` | src/hooks/useAdvocates.ts:75 | Every request URL starts with `/api/advocates?`, and with all filters empty it is exactly that |
| `UseAdvocates.SingleParamUrl` | src/hooks/useAdvocates.ts:70-75 | With only a search, the URL is the endpoint followed by the encoded `search=value` pair |
| `UseAdvocates.ThreeParamUrl` | src/hooks/useAdvocates.ts:70-75 | With all three filters, the URL is the endpoint followed by the search, city and degree pairs joined by `&`, in that order |
| `UseAdvocates.ErrorMessage` | src/hooks/useAdvocates.ts:85 | A thrown `Error` gives its own message; any other thrown value gives "Failed to fetch advocates" |
| `UseAdvocates.IsOk` | src/hooks/useAdvocates.ts:77 | `response.ok`, a status from 200 to 299; a predicate without a contract, its meaning is stated by `UseAdvocates.Resolve` and `UseAdvocates.HttpErrorCarriesStatus` |
| `UseAdvocates.Resolve` | src/hooks/useAdvocates.ts:75-89 | A request loads rows iff the response is 2xx and its body parses, and then the rows are the body's `data`. A 2xx response whose body does not parse fails with the message of what parsing threw, and a rejected fetch fails with the message of what it threw |
| `UseAdvocates.HttpErrorCarriesStatus` | src/hooks/useAdvocates.ts:77-79 | A non-2xx response fails with "HTTP error! status: " followed by the status, whatever its body, and the status can be parsed back from the message |
| `UseAdvocates.Status500Message` | src/hooks/__tests__/useAdvocates.test.ts:74-87 | A 500 response fails with the message `HTTP error! status: 500` |
| `UseAdvocates.EffectFetches` | src/hooks/useAdvocates.ts:93-95 | A render issues at most two requests, none exactly when the (debounced search, city, degree) triple is unchanged, and the last one is for the new triple |
| `UseAdvocates.AdvocatesHook.constructor` | src/hooks/useAdvocates.ts:32-95 | On mount the rows are empty, loading is on, there is no error and the debounced search is empty; a non-empty search schedules a timer; exactly one request is issued, with the empty debounced search |
| `UseAdvocates.AdvocatesHook.FetchAdvocates` | src/hooks/useAdvocates.ts:65-75 | Starting a request logs its URL, built from the given triple; it turns loading on and clears the error, and leaves the rows and every other field as they were |
| `UseAdvocates.AdvocatesHook.DebounceEffect` | src/hooks/useAdvocates.ts:43-62 | When the effect runs, it drops the pending timer; an empty search is published at once and schedules nothing, and a non-empty one schedules exactly one timer carrying it. When it does not run, the timer stays as it was |
| `UseAdvocates.AdvocatesHook.FetchEffects` | src/hooks/useAdvocates.ts:93-95 | The fetch effects of one render issue exactly the requests `EffectFetches` names, with loading and error following from whether any were issued |
| `UseAdvocates.AdvocatesHook.Rerender` | src/hooks/useAdvocates.ts:43-95 | A render with new options keeps the state valid. The timer is replaced only when the search or the delay changed, and an empty search is published at once. The requests follow the change of the triple, and the rows are untouched |
| `UseAdvocates.AdvocatesHook.TimerFired` | src/hooks/useAdvocates.ts:52-54 | The firing timer publishes its search and is gone; a changed debounced search issues one request for the current triple, and an unchanged one issues none |
| `UseAdvocates.AdvocatesHook.Settle` | src/hooks/useAdvocates.ts:81-89 | A success stores the body's rows and stops loading, leaving the error as it is. A failure stores its message and stops loading, leaving the rows as they are. After unmount nothing is written |
| `UseAdvocates.AdvocatesHook.Retry` | src/hooks/useAdvocates.ts:107-115 | `retry` and `refetch` issue one more request for the current triple and change nothing else except loading and error |
| `UseAdvocates.AdvocatesHook.Unmount` | src/hooks/useAdvocates.ts:98-104 | Teardown clears any pending timer, harmlessly when there is none, and leaves the rest of the state as it was |
| `HookScenarios.FetchSucceeds` | src/hooks/__tests__/useAdvocates.test.ts:51-58 | A hook without options whose first request succeeds issues one request to `/api/advocates?` and ends with the body's rows and no error |
| `HookScenarios.NetworkFails` | src/hooks/__tests__/useAdvocates.test.ts:61-72 | A rejected first request ends with the error "Network error", loading off and an empty list |
| `HookScenarios.SomethingElseThrown` | src/hooks/useAdvocates.ts:84-87 | A thrown value that is not an `Error` ends with the fallback message and an empty list |
| `HookScenarios.HttpFails` | src/hooks/__tests__/useAdvocates.test.ts:74-88 | A 500 response ends with "HTTP error! status: 500", loading off and an empty list |
| `HookScenarios.DebouncesSearch` | src/hooks/__tests__/useAdvocates.test.ts:97-113 | Re-rendering with a search leaves the hook loading and issues no request; the timer's firing issues the request with the search |
| `HookScenarios.SendsAllFilters` | src/hooks/__tests__/useAdvocates.test.ts:123-131 | Mounting with three filters first requests only the city and degree, and the timer then requests all three |
| `HookScenarios.DebouncedRequestUrl` | src/hooks/__tests__/useAdvocates.test.ts:113 | With an encoder that leaves the words alone, the debounced request is `/api/advocates?search=john` |
| `HookScenarios.AllFiltersRequestUrl` | src/hooks/__tests__/useAdvocates.test.ts:130 | With an encoder that writes the space as `%20`, the three-filter request is the URL the test expects |
| `HookScenarios.FormEncodedRequestUrl` | src/hooks/useAdvocates.ts:70-75 | With the form-urlencoded serializer, which writes the space as `+`, the three-filter request is `/api/advocates?search=test&city=New+York&degree=MD`, which is not the URL the test expects |
| `HookScenarios.LateReplyWins` | src/hooks/useAdvocates.ts:81-83 | With two overlapping successful requests, the one that settles last decides the rows, even when it is the older one |
| `HookScenarios.ErrorOutlivesLateSuccess` | src/hooks/useAdvocates.ts:81-87 | A newer failure followed by an older success shows the rows together with the failure's error |
| `HookScenarios.RetryAfterFailure` | src/hooks/useAdvocates.ts:107-109 | A retry after a failure repeats the same request and clears the error while it loads |
| `HookScenarios.ReplyAfterUnmount` | src/hooks/useAdvocates.ts:98-104 | After unmount the pending timer is gone and a late reply changes nothing (React's no-op setters, modelled by `disposed`) |
| `PhoneFormat.FormatPhoneNumber` | src/app/components/AdvocatesTable.tsx:9-20 | The formatter itself; no contract of its own, its behaviour is stated by `PhoneFormat.TenDigitsLayout`, `PhoneFormat.OtherDigitCountsUnchanged`, `PhoneFormat.FormatKeepsDigits` and `PhoneFormat.FormatIdempotent` |
| `PhoneFormat.Digits` | src/app/components/AdvocatesTable.tsx:11 | The stripped string consists of digits only |
| `PhoneFormat.DigitsAreTheInputDigits` | src/app/components/AdvocatesTable.tsx:11 | The stripped string is a subsequence of the input holding exactly its digits: every digit occurs in it as often as in the input, and nothing else occurs |
| `PhoneFormat.TenDigitsLayout` | src/app/components/AdvocatesTable.tsx:14-16 | Ten digits give the 14-character `(xxx) xxx-xxxx` layout with the digits in order |
| `PhoneFormat.OtherDigitCountsUnchanged` | src/app/components/AdvocatesTable.tsx:18-19 | Any other number of digits returns the input unchanged |
| `PhoneFormat.FormatKeepsDigits` | src/app/components/AdvocatesTable.tsx:9-20 | In both branches the output's digits are the input's digits |
| `PhoneFormat.FormatIdempotent` | src/app/components/AdvocatesTable.tsx:9-20 | Formatting a formatted number returns it unchanged |
| `PhoneFormat.FormatsTestNumber` | src/app/components/AdvocatesTable.tsx:14-16 | `5551234567` is shown as `(555) 123-4567` |
| `PhoneFormat.DigitsOfLayout` | src/app/components/AdvocatesTable.tsx:15 | The punctuation of the layout adds no digits |
| `PhoneFormat.DigitsOfDigits` | src/app/components/AdvocatesTable.tsx:11 | Stripping a string of digits returns it unchanged |
| `Env.IsSet` | src/lib/env.ts:57 | The falsiness test `!process.env[varName]`, also the `!value` tests of lines 20, 28 and 34: unset or empty; a predicate without a contract, its meaning is stated by `Env.GetEnvVar`, `Env.GetArrayEnvVar` and `Env.ValidationIff` |
| `Env.GetEnvVar` | src/lib/env.ts:18-24 | Reading fails exactly when the variable is unset or empty and the default is absent or empty, with the "is required but not set" message; otherwise the result is the value when given, else the default, and never empty |
| `Env.GetBooleanEnvVar` | src/lib/env.ts:26-30 | An unset or empty variable gives the default; otherwise the result is true iff the lower-cased value is exactly "true" |
| `Env.BooleanIgnoresCase` | src/lib/env.ts:26-30 | The comparison ignores case: "TRUE" gives true, "yes" gives false, and an empty value gives the default |
| `Env.TrimAll` | src/lib/env.ts:35 | Every piece is trimmed, in order |
| `Env.CleanItems` | src/lib/env.ts:35 | The items are non-empty and have no leading or trailing whitespace, and there are no more of them than pieces |
| `Env.CleanItemsMembers` | src/lib/env.ts:35 | A string is an item iff it is non-empty and is some piece, trimmed |
| `Env.GetArrayEnvVar` | src/lib/env.ts:32-36 | An unset or empty variable gives the default; otherwise it gives at most one item per comma plus one, each non-empty and unpadded |
| `Env.ArrayItemsArePieces` | src/lib/env.ts:35 | The items of a set variable are its trimmed comma-separated pieces in their order, without the empty ones: a subsequence of the trimmed pieces in which every non-empty piece occurs as often as among the pieces |
| `Env.ArrayRoundTrip` | src/lib/env.ts:35 | When every piece is already non-empty and unpadded, joining the items with commas gives back the value |
| `Env.LoadConfig` | src/lib/env.ts:38-49 | Building `env` fails exactly when DATABASE_URL is not given; otherwise the URL is kept and NODE_ENV falls back to "development" |
| `Env.Validation` | src/lib/env.ts:52-78 | The rule `validateEnvironment` applies; no contract of its own, its meaning is `Env.ValidationIff` |
| `Env.ValidateEnvironment` | src/lib/env.ts:52-78 | The loop collects exactly the required variables that are not given, and the outcome is the validation rule's: missing variables, then the PostgreSQL prefix, then NODE_ENV |
| `Env.ValidationIff` | src/lib/env.ts:52-78 | Validation passes iff DATABASE_URL is given, starts with `postgresql://` and NODE_ENV is development, production or test; each failure reports its own message, in that order |
| `Env.LoadedConfigValidation` | src/lib/env.ts:38-78 | For an environment that loads, the missing-variable error cannot occur, and validation passes iff the URL has the PostgreSQL prefix and NODE_ENV is unset, empty or one of the three modes |
| `Env.MissingMessageIsDistinct` | src/lib/env.ts:62-76 | The missing-variables message differs from the two format messages |
| `Env.IsDevelopment` | src/lib/env.ts:81-83 | NODE_ENV is "development"; a predicate without a contract, related to the other two by `Env.ModesExclusive` |
| `Env.IsProduction` | src/lib/env.ts:85-87 | NODE_ENV is "production"; a predicate without a contract, related to the other two by `Env.ModesExclusive` |
| `Env.IsTest` | src/lib/env.ts:89-91 | NODE_ENV is "test"; a predicate without a contract, related to the other two by `Env.ModesExclusive` |
| `Env.ModesExclusive` | src/lib/env.ts:81-91 | At most one of `isDevelopment`, `isProduction`, `isTest` is true, and for a validated configuration one of them is |
| `Env.GetAllowedOrigins` | src/lib/env.ts:93-95 | An unset or empty ALLOWED_ORIGINS gives `["http://localhost:3000"]`; every origin is non-empty |
| `Env.BlankOriginsGiveNone` | src/lib/env.ts:93-95 | An ALLOWED_ORIGINS made only of blanks and commas is given, so it yields no origins rather than the default |
| `HomePage.AddToSet` | src/app/page.tsx:31-32 | Adding to a set keeps its members and the new value, and adds nothing already present |
| `HomePage.Distinct` | src/app/page.tsx:27-36 | The set's values are free of repetitions and are exactly the values added |
| `HomePage.UniqueOptions` | src/app/page.tsx:26-39 | The options are the sorted distinct cities and degrees: each list is strictly ascending, and it holds exactly the values some row has |
| `HomePage.InCityList` | src/app/page.tsx:30-31 | A city is collected iff some row has it |
| `HomePage.InDegreeList` | src/app/page.tsx:30-32 | A degree is collected iff some row has it |
| `HomePage.Summary` | src/app/page.tsx:106-111 | The summary line; no contract of its own, its text is stated by `HomePage.SummaryCount`, `HomePage.SummaryPlural`, `HomePage.SummaryQualifiers` and `HomePage.QualifiersInOrder` |
| `HomePage.SummaryCount` | src/app/page.tsx:107 | The row count can be read back from the summary, right after "Showing " |
| `HomePage.SummaryPlural` | src/app/page.tsx:107 | The noun "advocate" takes an "s" iff the count is not 1 |
| `HomePage.SummaryQualifiers` | src/app/page.tsx:108-110 | What follows the noun starts with the phrase of the first non-empty filter, in the order search, city, degree, and is empty iff no filter is set |
| `HomePage.QualifiersInOrder` | src/app/page.tsx:108-110 | An active search's phrase is followed by the text for city and degree alone, an active city's phrase by the text for the degree alone, and the degree's phrase ends the text; an empty filter adds nothing |
| `HomePage.QualifiersShape` | src/app/page.tsx:108-110 | The phrases are empty iff no filter is set; otherwise the first one names the first active filter |
| `HomePage.SummaryOfOne` | src/app/page.tsx:107 | One row and no filters read "Showing 1 advocate" |
| `HomePage.SummaryWithFilters` | src/app/page.tsx:107-110 | Three rows and all filters read `Showing 3 advocates matching "john" in Austin with MD` |
| `HomePage.View` | src/app/page.tsx:69-118 | The spinner shows iff loading. Otherwise a non-empty error shows the error panel with its message. Otherwise the summary and table of the rows show, with the no-results panel iff there are no rows |
| `HomePage.Home.Shown` | src/app/page.tsx:69-118 | The screen for the page's current state; no contract of its own, it is `HomePage.View` applied to the hook's state and the filters |
| `HomePage.Home.constructor` | src/app/page.tsx:13-23 | The page starts with empty filters and a hook that has requested every row and is loading |
| `HomePage.Home.HandleSearchChange` | src/app/page.tsx:42-44 | A new search re-renders the hook: an empty one is published at once, and a new non-empty one waits for its timer and issues no request. Any request issued turns loading on and clears the error; without one, loading and error stay |
| `HomePage.Home.HandleCityChange` | src/app/page.tsx:50-52 | A changed city issues one request with the debounced search as it was, turning loading on and clearing the error; an unchanged city issues none and leaves them. The other filters, the rows, the timer and the debounced search stay |
| `HomePage.Home.HandleDegreeChange` | src/app/page.tsx:54-56 | A changed degree issues one request with the debounced search as it was, turning loading on and clearing the error; an unchanged degree issues none and leaves them. The other filters, the rows, the timer and the debounced search stay |
| `HomePage.Home.HandleReset` | src/app/page.tsx:58-62 | The three filters become empty and the rows stay; the hook drops its timer, any filtered state ends with a request for every row, and a request issued turns loading on and clears the error |
| `HomePage.Home.HandleRetry` | src/app/page.tsx:64-66 | Retry repeats the current request, loading and without an error; the rows, the timer, the debounced search and the filters stay |
| `PageScenarios.FirstLoad` | src/app/page.tsx:69-114 | The page shows the spinner until the first request succeeds, then the summary and the rows |
| `PageScenarios.ResetAfterSearchAndCity` | src/app/page.tsx:58-62 | Searching, choosing a city and resetting issues the requests in order, ending with the unfiltered one |
| `PageScenarios.ClearSearch` | src/hooks/useAdvocates.ts:48-51 | Clearing the search publishes the empty search at once and requests every row, with no timer left |
| `PageScenarios.TypingReplacesTimer` | src/hooks/useAdvocates.ts:44-55 | A second keystroke replaces the pending timer, so only the final search reaches a request |
| `JsStrings.ToLower` | src/app/api/advocates/route.ts:38 | Lower-casing keeps the length and maps every character |
| `JsStrings.ToUpper` | src/app/api/advocates/route.ts:63 | Upper-casing keeps the length and maps every character |
| `JsStrings.Trim` | src/app/api/advocates/route.ts:38 | The trimmed string is empty iff the input is all whitespace, and otherwise begins and ends with non-whitespace |
| `JsStrings.TrimIsMiddle` | src/lib/env.ts:35 | Trimming removes a whitespace run at each end and keeps the middle |
| `JsStrings.TrimUnpadded` | src/lib/env.ts:35 | Trimming a string without leading or trailing whitespace returns it unchanged |
| `JsStrings.Includes` | src/app/api/advocates/route.ts:41-48 | `includes`; no contract of its own, its meaning is `JsStrings.IncludesAt` |
| `JsStrings.StartsWith` | src/lib/env.ts:70 | `startsWith`; a predicate without a contract, its meaning at that call is stated by `Env.ValidationIff` |
| `JsStrings.IncludesAt` | src/app/api/advocates/route.ts:41-48 | `includes` holds iff the term occurs at some position |
| `JsStrings.Split` | src/lib/env.ts:35 | Splitting gives one piece more than there are separators, and no piece holds the separator |
| `JsStrings.Join` | src/lib/env.ts:64 | `join`; no contract of its own, it is the inverse of `split` by `JsStrings.JoinSplit` |
| `JsStrings.JoinSplit` | src/lib/env.ts:35 | Joining the pieces of a split with the separator gives back the string |
| `JsStrings.NatToString` | src/app/api/advocates/route.ts:48 | The decimal form of a number is non-empty digits without a leading zero |
| `JsStrings.ParseNatToString` | src/app/page.tsx:107 | Parsing a number's decimal form gives the number back |
| `JsStrings.IntToString` | src/app/api/advocates/route.ts:48 | `toString` on an integer; no contract of its own, it is read back by `JsStrings.IntToStringRoundTrip` |
| `JsStrings.IntToStringRoundTrip` | src/hooks/useAdvocates.ts:78 | Parsing an integer's decimal form, sign included, gives the integer back |
| `Seqs.Filter` | src/app/api/advocates/route.ts:40 | An element is in the filtered list iff it is in the input and satisfies the predicate, and the list is no longer than the input |
| `Seqs.FilterMultiplicity` | src/app/api/advocates/route.ts:40 | Filtering keeps every occurrence of an element that satisfies the predicate and none of one that does not |
| `Seqs.FilterIsSubsequence` | src/app/api/advocates/route.ts:40 | Filtering yields a subsequence of its input |
| `Seqs.FilterThenFilter` | src/app/api/advocates/route.ts:40-67 | Two filters in a row are one filter by their conjunction |
| `Seqs.FilterIdempotent` | src/app/api/advocates/route.ts:40 | Filtering twice by the same predicate is filtering once |
| `Sorting.Less` | src/app/page.tsx:36 | JavaScript's `<` on strings, character by character with a proper prefix first; a predicate without a contract, whose order properties are `Sorting.LessTotal` and `Sorting.LessTransitive` |
| `Sorting.LessTotal` | src/app/page.tsx:36 | The string order ranks two different strings one way, never both |
| `Sorting.LessTransitive` | src/app/page.tsx:36 | The string order is transitive |
| `Sorting.SortStrings` | src/app/page.tsx:36-37 | Sorting gives an ascending rearrangement of its input, which has no repetitions when the input has none |
| `Sorting.SortedUnique` | src/app/page.tsx:36-37 | Two ascending rearrangements of the same strings are equal, so any correct sorting algorithm gives the same list |
| `Sorting.IncreasingIff` | src/app/page.tsx:36-37 | A list is strictly ascending iff it is sorted and has no repetitions |

## Left out

- Request and response plumbing: `NextResponse`, the CORS check and headers, and the database query. The handler's rows are the parameter `all`.
- The route's 500 responses, for a missing database connection and for a thrown exception, are not modelled. They involve no filtering.
- The catch block's logging and its `NODE_ENV`-dependent error text are left out with that path.
- I/O: `fetch`, `response.json()` and `console.error` are not modelled. A reply is an input event, and an unreadable body is a reply that fails with the value it threw.
- A body without `data`, which would set `advocates` to `undefined`, is not modelled: a parsed body always carries its rows.
- Time is not modelled. `setTimeout`'s delay, `debounceMs` and the order of asynchronous events beyond what the events express are left out. The delay matters only as an effect dependency.
- URL encoding: `URLSearchParams.toString()` is the opaque parameter `encode`.
  - The test's `New%20York` is proved only for an encoder that writes a space as `%20`.
  - The WHATWG form-urlencoded serializer writes `+` for a space. For such an encoder the request differs from the test's URL (`HookScenarios.FormEncodedRequestUrl`).
- `Seqs.Filter`: its own contract gives membership and length only. That every occurrence is kept is the separate lemma `Seqs.FilterMultiplicity`, so that the many uses of `Filter` stay cheap to verify.
- `JsStrings.ToLower`: maps ASCII letters only, not the full Unicode case tables of `toLowerCase`.
- `JsStrings.ToUpper`: maps ASCII letters only, not the full Unicode case tables of `toUpperCase`.
- `JsStrings.IsWhitespace` has the ECMAScript white-space and line-terminator characters, with the space separators of current Unicode.
- `Sorting.Less` compares characters as Dafny `char`s. This agrees with JavaScript's UTF-16 code-unit order for strings in the Basic Multilingual Plane.
- The engine's own sorting algorithm is replaced by insertion sort. `Sorting.SortedUnique` shows any correct sort gives the same list.
- `handleFormSubmit` only prevents the browser's default form submission; it has no state.
- The page's markup and the presentational components are not modelled, apart from the choice of screen in `HomePage.View`. Neither is the `AdvocateCard` and `AdvocatesTable` markup.
- The superseded copies `useAdvocates-broken.ts`, `useAdvocates-debug.ts`, `page-simple.tsx` and `page-old.tsx` are not used by the page and are not modelled.
- Also not modelled:
  - the seed route, the database schema and the seed data;
  - logging and monitoring;
  - the setup scripts and the build configuration.
- `HookScenarios.LateReplyWins`: stated for two replies with the same 2xx status, which is the case that matters.
- `AdvocatesRoute.CityIsNotTrimmed`: stated for one padded city, with a single leading space, rather than for every padding.
- `Env.LoadConfig`: states only the DATABASE_URL and NODE_ENV fields, which validation reads. The other fields are built as `src/lib/env.ts:41-48` does but are not stated in the contract.
