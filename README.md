# trackex: dashboard aggregation and route guards, in Dafny

A model of the logic inside a personal expense-tracking web client. The
client signs users in through a hosted identity service and reads their
expense records from a hosted document store. What it computes itself is
small, and this model covers it:

- **Records and the category registry** (`Types.dfy`, from
  `src/types/index.ts`). These are the `Expense`, `Category`, `User` and
  `UserProfile` records, and the fixed list of six built-in categories, with
  their registry facts proved: a count of six, distinct identifiers, distinct
  names, each identifier the lower-cased name, and no identifier equal to any
  name.
- **The dashboard's reductions** (`Aggregation.dfy` and `Dashboard.dfy`, from
  `src/pages/Dashboard.tsx`). A fetched list of expenses becomes:
  - a total spend;
  - a per-category table;
  - the first five records;
  - a monthly trend.

  The per-category table and the monthly trend are built by loops (methods
  `ByCategory` and `CalculateMonthlyTrend`). These loops are proved equal to
  reference definitions: `GroupTotals`, `KeyOrder`, `SumWhere` and
  `MonthlyTrend`. The lemmas about those definitions state the promises:
  - the table's keys are exactly the categories that occur;
  - summed over its keys, the table equals the total;
  - the trend has at most six entries, with distinct month labels;
  - the trend's labels are the last six of the distinct labels in
    first-occurrence order.
- **The dashboard's fetch state** (`Dashboard.DashboardState`), a small state
  machine over the summary shown and the loading flag. The fetch effect takes
  the signed-in user and the query's result as inputs. Three things can
  happen:
  - with no user it returns at once and changes nothing, so the page stays
    loading;
  - a failed query keeps the summary and ends loading;
  - a successful query shows the summary of the records and ends loading.
- **The chart colour lookup.** A category name maps to its registry colour.
  The fallback grey `#6B7280` is used for any name that is not registered.
  The registry's names are distinct, so the lookup is unambiguous.
- **The route guards and route table** (`App.dfy`, from `src/App.tsx`):
  - the private guard shows a loading placeholder while the session is
    resolving, then the page to a signed-in user, and otherwise redirects
    to `/login`;
  - the public guard redirects a signed-in user to `/` and shows the page
    to anyone else;
  - the table puts `/login` and `/register` behind the public guard;
  - `/`, `/add-expense` and `/profile` sit behind the private guard, inside
    the layout.

  The lemmas over every path and every session state show three things:
  - without a session, protected content is never shown;
  - a signed-in user is never shown the login or registration page;
  - a redirect never leads to another redirect.

Points where the code's behaviour differs from what a reader might expect.
The model follows the code on each:

- **The monthly trend is not "the last six calendar months".** The code
  fills an insertion-ordered dictionary with one month label per record and
  keeps the dictionary's *last* six entries. The records arrive newest first,
  so the trend holds the six *oldest* months of the input, listed newest
  first. `Dashboard.EightMonthsNewestFirst` shows this on eight one-record
  months: the two most recent are dropped.
- **While the session resolves, only the protected routes show the loading
  placeholder.** The public guard never reads the loading flag. A visitor
  with no user yet sees the login page straight away
  (`App.ResolvingSession`).
- **A fetch without a user does not reset anything.** The summary and the
  loading flag stay as they were. On first mount the page therefore stays on
  its loading placeholder.
- **On the page's first fetch, a successful fetch of no records shows the
  same summary as a failed fetch**: the default one (`Dashboard.EmptySummary`,
  `Dashboard.MountFetchFails`). A failed query never resets the summary,
  so after an earlier successful fetch the page keeps showing that fetch's
  summary (`Dashboard.FetchSucceedsThenFails`).
- **Identifiers get the fallback colour.** The colour lookup matches the
  category *name*, so a record filed under a registry *identifier* (such as
  `food`) gets the fallback colour (`Dashboard.IdentifierGetsFallback`). The
  page that writes records is not part of this model, so it is unknown which
  of the two the application stores.

Inputs the model takes as parameters:
- the month label of a date is a function `monthOf: string -> string`, in
  place of date formatting;
- the query's outcome is a `QueryResult` value;
- the auth context's user and loading flag form an `AuthState` value.

Amounts are integers (cents), so every sum is exact.

## Model

| member | source | states |
|---|---|---|
| Types.DefaultCategoriesCount | src/types/index.ts:35-42 | the registry holds exactly six categories |
| Types.DefaultCategoryIdsDistinct | src/types/index.ts:36-41 | no two registry entries share an identifier |
| Types.DefaultCategoryNamesDistinct | src/types/index.ts:36-41 | no two registry entries share a name, so a lookup by name is unambiguous |
| Types.DefaultCategoryIdIsLowerName | src/types/index.ts:36-41 | every identifier is the ASCII lower-cased form of its name |
| Types.DefaultCategoryIdsAreNotNames | src/types/index.ts:36-41 | no identifier equals any name |
| Aggregation.TotalSpentSnoc | src/pages/Dashboard.tsx:46 | one more record adds exactly its amount to the running total |
| Aggregation.KeyOrderKeys | src/pages/Dashboard.tsx:79-85 | the dictionary's key order lists each key once, and exactly the keys that occur in the input |
| Aggregation.KeyOrderPrefix | src/pages/Dashboard.tsx:79-85 | keys are only ever appended: the key order of any prefix of the input is a prefix of the key order |
| Aggregation.KeyOrderFirstOccurrence | src/pages/Dashboard.tsx:79-85 | first-occurrence order: wherever a key occurs in the input, every key listed before it has already occurred earlier |
| Aggregation.SumWhereAbsent | src/pages/Dashboard.tsx:50 | a key that never occurs has sum zero |
| Aggregation.SumKeysIsTotal | src/pages/Dashboard.tsx:46-52 | summing each key's total over the distinct keys gives the overall total: no record is lost or counted twice |
| Aggregation.GroupTotalsContents | src/pages/Dashboard.tsx:49-52 | the table has exactly the occurring keys (absent keys are not zero-filled), each mapped to the sum of its records' amounts, in one-to-one correspondence with the key order |
| Aggregation.GroupTotalsSum | src/pages/Dashboard.tsx:46-52 | the table's values summed over its keys equal the total spend |
| Aggregation.GroupTotalsSnoc | src/pages/Dashboard.tsx:50 | one more record changes only its own key's entry, to the old entry (or 0 when absent) plus its amount |
| Aggregation.TableStep | src/pages/Dashboard.tsx:79-82 | one loop step: a new key is appended to the key order and a known key leaves it alone, while the table is updated at that key |
| Aggregation.DistinctKeysOrder | src/pages/Dashboard.tsx:79-85 | when no two records share a key, the key order is the records' keys in input order and each key sums to its one record's amount |
| Aggregation.EntriesFromTable | src/pages/Dashboard.tsx:84-85 | every key of the key order is in the table, and the entries are the table read off in key order |
| Aggregation.MonthlyTrendShape | src/pages/Dashboard.tsx:76-87 | the trend has min(6, k) entries for k distinct months, with distinct labels that are the last of the first-occurrence order; each entry is a month of the input carrying that month's summed amount |
| Aggregation.MonthlyTrendAllMonths | src/pages/Dashboard.tsx:84-86 | with at most six distinct months, every month of the input appears in the trend |
| Aggregation.MonthlyTrendDropsEarliestListed | src/pages/Dashboard.tsx:84-86 | with more than six distinct months, the months listed first are the ones left out |
| Dashboard.ByCategory | src/pages/Dashboard.tsx:49-52 | the loop's table equals the reference table: keys exactly the occurring categories, each mapped to its summed amounts |
| Dashboard.CalculateMonthlyTrend | src/pages/Dashboard.tsx:76-87 | the loop's result (dictionary, entries, last six) equals the reference trend |
| Dashboard.Aggregate | src/pages/Dashboard.tsx:45-58 | the computed summary equals the reference summary, field by field |
| Dashboard.SummaryTotal | src/pages/Dashboard.tsx:46 | the total of no records is 0, and each further record adds its amount |
| Dashboard.ByCategoryAddsUp | src/pages/Dashboard.tsx:46-52 | the summary's category table, summed over its keys (a duplicate-free list of exactly its keys), equals the summary's total |
| Dashboard.RecentIsPrefix | src/pages/Dashboard.tsx:55 | the recent list has min(5, n) records and is a prefix of the input, in input order |
| Dashboard.EmptySummary | src/pages/Dashboard.tsx:19-24 | an empty list summarises to the default summary |
| Dashboard.TwoRecordsOneMonth | src/pages/Dashboard.tsx:45-58 | two January food records of 10 and 20 give total 30, one category entry of 30, both records as recent, one month of 30 |
| Dashboard.EightMonthsNewestFirst | src/pages/Dashboard.tsx:76-87 | eight one-record months newest first yield the six oldest months, newest first, each with its amount |
| Dashboard.DashboardState.constructor | src/pages/Dashboard.tsx:19-25 | the page starts with the default summary and loading |
| Dashboard.DashboardState.FetchExpenses | src/pages/Dashboard.tsx:28-70 | no user: summary and loading unchanged; failed query: summary unchanged, loading over; success: summary of the records, loading over |
| Dashboard.MountWithoutUser | src/pages/Dashboard.tsx:19-29 | mounted with no user the page keeps the default summary and stays loading |
| Dashboard.MountFetchFails | src/pages/Dashboard.tsx:66-70 | mounted with a user whose query fails, the page shows the default summary with loading over |
| Dashboard.MountFetchSucceeds | src/pages/Dashboard.tsx:39-70 | mounted with a user whose query succeeds, the page shows the records' summary, with their total, and loading over |
| Dashboard.FetchSucceedsThenFails | src/pages/Dashboard.tsx:45-69 | a failed query after a successful one leaves the successful fetch's summary on show, with loading over |
| Dashboard.FindByName | src/pages/Dashboard.tsx:168 | the search finds nothing exactly when no entry has the name; otherwise it returns the first entry carrying it |
| Dashboard.CategoryColor | src/pages/Dashboard.tsx:168 | a registered name gets its registry colour; any other name gets the fallback `#6B7280` |
| Dashboard.IdentifierGetsFallback | src/pages/Dashboard.tsx:168 | looking up a registry identifier as a name yields the fallback colour |
| App.PrivateRoute | src/App.tsx:10-22 | placeholder exactly while loading; children exactly when not loading with a user; redirect to `/login` exactly when not loading without one |
| App.PublicRoute | src/App.tsx:24-27 | redirect to `/` exactly when a user is present; children exactly when none is |
| App.FindRoute | src/App.tsx:31-81 | no route is found exactly when no entry has the path; a found route is a table entry with that path |
| App.PublicRouteIgnoresLoading | src/App.tsx:24-27 | the public guard's outcome is the same whatever the loading flag |
| App.RouteTableShape | src/App.tsx:31-81 | paths are distinct; the public guard covers exactly `/login` and `/register` (bare pages), the private guard exactly `/`, `/add-expense`, `/profile` (inside the layout); no other path is in the table |
| App.VisitCases | src/App.tsx:31-81 | each path renders as its guard on its page; any other path matches no route |
| App.SignedOutNeverSeesProtected | src/App.tsx:21 | a resolved, signed-out visitor is redirected to `/login` from every protected path and never shown content inside the layout |
| App.ProtectedContentNeedsSession | src/App.tsx:13-21 | content inside the layout is shown only on a protected path, to a signed-in user, after the session resolved |
| App.SignedInNeverSeesSignIn | src/App.tsx:24-48 | a signed-in user is redirected to `/` from both public paths and never shown the login or registration page |
| App.ResolvingSession | src/App.tsx:13-27 | while resolving, every protected path shows the placeholder, and a visitor with no user still sees the login page |
| App.RedirectsSettle | src/App.tsx:21-26 | a redirect leads to a path of the table that, in the same session state, renders without a further redirect |

## Left out

- The expense query (src/pages/Dashboard.tsx:32-43) is network I/O. Its outcome is an input, `QueryResult`. Nothing checks that its records belong to the user, or that they come newest first. The merge of a document's id with its data (`{ id, ...data }`) is not modelled either.
- The failed-query branch's logging (`console.error`, src/pages/Dashboard.tsx:67) is console output and is not modelled; the branch's effect on the state (summary kept, loading over) is.
- The auth context (`useAuth`), sign-out and navigation belong to external libraries. The session state is an input.
- The chrome and logout handler of src/components/Layout.tsx are presentation; `InLayout` only records that a page is wrapped. The type augmentations of src/types/firebase.d.ts are about a foreign library, and the file it imports is not part of this model.
- Date parsing and month formatting are a foreign call whose result depends on the timezone. The month label is the parameter `monthOf`.
- Floating-point addition and `toFixed(2)` are not modelled. Amounts are integer cents. The proof that category sums add up to the total needs exact arithmetic and would not survive float rounding.
- Errors thrown while aggregating malformed records are not modelled. The source's `catch` treats them like a failed query. Model records are well-typed, so the only failure is `QueryFailed`.
- Plain-object key quirks are not modelled. A category named after an inherited member (`constructor`, `toString`, `__proto__`) would make `acc[k] || 0` read that member. Integer-like keys would be listed first by `Object.entries`. Month labels (`MMM yyyy`) are never integer-like, so the trend's order is as modelled. The category table is a `map`, whose order does not matter.
- React scheduling is concurrency and lifecycle, not modelled: effect re-runs, the async ordering of overlapping fetches, and state updates after unmount. `FetchExpenses` models one whole pass of the effect.
- JSX rendering and the charts are UI only. Only the loading flag that selects the placeholder is kept.
- The router's path matching ignores case and a trailing slash. It is modelled as exact string comparison against the table; an unmatched path renders nothing (`None`).
- `Types.Lower` lower-cases ASCII letters only. The registry is ASCII.
- `UserProfile` is declared for completeness. The core does not use it.
