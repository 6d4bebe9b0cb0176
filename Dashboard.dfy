/** The dashboard page (src/pages/Dashboard.tsx): the reductions run on a
    fetched expense list, the summary/loading state they feed, and the
    chart-colour lookup by category name. */
module Dashboard {
  import opened Types
  import opened Aggregation

  /** What the page shows once loading is over. */
  datatype ExpenseSummary = ExpenseSummary(
    totalSpent: int,
    byCategory: map<string, int>,
    recentExpenses: seq<Expense>,
    monthlyTrend: seq<MonthAmount>)

  /** The summary the page starts with. */
  const DefaultSummary: ExpenseSummary := ExpenseSummary(0, map[], [], [])

  /** The summary of a fetched list: total, per-category table, first five
      records and monthly trend. */
  function Summarize(es: seq<Expense>, monthOf: string -> string): ExpenseSummary
  {
    ExpenseSummary(TotalSpent(es), GroupTotals(es, CategoryOf), RecentExpenses(es), MonthlyTrend(es, monthOf))
  }

  /** What the expense query hands back: the user's records, or an error. */
  datatype QueryResult = Fetched(docs: seq<Expense>) | QueryFailed(error: string)

  // ---------------------------------------------------------------------
  // The reductions

  /** The per-category table: one pass over the records, adding each
      amount to the entry of its category (`(acc[c] || 0) + amount`). */
  method ByCategory(es: seq<Expense>) returns (acc: map<string, int>)
    ensures acc == GroupTotals(es, CategoryOf)
    ensures forall c :: c in acc <==> Occurs(es, CategoryOf, c)
    ensures forall c :: c in acc ==> acc[c] == SumWhere(es, CategoryOf, c)
  {
    acc := map[];
    var i := 0;
    while i < |es|
      invariant 0 <= i <= |es|
      invariant acc == GroupTotals(es[..i], CategoryOf)
    {
      var e := es[i];
      GroupTotalsSnoc(es[..i], CategoryOf, e);
      acc := acc[e.category := (if e.category in acc then acc[e.category] else 0) + e.amount];
      assert es[..i + 1] == es[..i] + [e];
      i := i + 1;
    }
    assert es[..|es|] == es;
    GroupTotalsContents(es, CategoryOf);
  }

  /** The monthly trend: one pass over the records accumulating a
      dictionary keyed by month label (its keys kept in insertion order),
      then its entries, of which the last six are kept. */
  method CalculateMonthlyTrend(es: seq<Expense>, monthOf: string -> string) returns (trend: seq<MonthAmount>)
    ensures trend == MonthlyTrend(es, monthOf)
  {
    ghost var key := MonthKey(monthOf);
    var months: seq<string> := [];
    var data: map<string, int> := map[];
    var i := 0;
    while i < |es|
      invariant 0 <= i <= |es|
      invariant months == KeyOrder(es[..i], key)
      invariant data == GroupTotals(es[..i], key)
    {
      var month := monthOf(es[i].date);
      assert key(es[i]) == month;
      TableStep(es, key, i);
      var known := month in data;
      if !known {
        months := months + [month];
      }
      data := data[month := (if known then data[month] else 0) + es[i].amount];
      assert months == KeyOrder(es[..i + 1], key);
      assert data == GroupTotals(es[..i + 1], key);
      i := i + 1;
    }
    assert es[..|es|] == es;
    EntriesFromTable(es, key, months, data);
    var entries := seq(|months|, j requires 0 <= j < |months| => MonthAmount(months[j], data[months[j]]));
    trend := if |entries| <= 6 then entries else entries[|entries| - 6..];
  }

  /** The whole summary of a fetched list. */
  method Aggregate(es: seq<Expense>, monthOf: string -> string) returns (s: ExpenseSummary)
    ensures s == Summarize(es, monthOf)
  {
    var totalSpent := TotalSpent(es);
    var byCategory := ByCategory(es);
    var recentExpenses := RecentExpenses(es);
    var monthlyTrend := CalculateMonthlyTrend(es, monthOf);
    s := ExpenseSummary(totalSpent, byCategory, recentExpenses, monthlyTrend);
  }

  // ---------------------------------------------------------------------
  // What the summary promises

  /** The total is the sum of all amounts; with no records it is 0. */
  lemma {:induction false} SummaryTotal(es: seq<Expense>, monthOf: string -> string)
    ensures Summarize([], monthOf).totalSpent == 0
    ensures forall e :: Summarize(es + [e], monthOf).totalSpent == Summarize(es, monthOf).totalSpent + e.amount
  {
    forall e ensures TotalSpent(es + [e]) == TotalSpent(es) + e.amount {
      TotalSpentSnoc(es, e);
    }
  }

  /** The summary's per-category table, summed over its keys (each listed
      once), equals the summary's total. */
  lemma ByCategoryAddsUp(es: seq<Expense>, monthOf: string -> string)
    ensures var s := Summarize(es, monthOf);
      var ks := KeyOrder(es, CategoryOf);
      && Distinct(ks)
      && (forall c :: c in ks <==> c in s.byCategory)
      && SumValues(s.byCategory, ks) == s.totalSpent
  {
    GroupTotalsContents(es, CategoryOf);
    GroupTotalsSum(es, CategoryOf);
  }

  /** The recent list is the first min(5, n) records, in input order. */
  lemma RecentIsPrefix(es: seq<Expense>, monthOf: string -> string)
    ensures var r := Summarize(es, monthOf).recentExpenses;
      |r| == (if |es| <= 5 then |es| else 5) && r <= es
  {
  }

  /** An empty list summarises to the default summary. */
  lemma EmptySummary(monthOf: string -> string)
    ensures Summarize([], monthOf) == DefaultSummary
  {
    assert GroupTotals([], CategoryOf) == map[];
  }

  /** A record with only the fields the example needs. */
  function Sample(amount: int, category: string, date: string): Expense
  {
    Expense("", "", amount, category, date, None, "", "", "")
  }

  /** Two January food records, newest first, summarise to a total of 30,
      one "Food" entry of 30, both records as recent, and one month. */
  lemma TwoRecordsOneMonth(monthOf: string -> string)
    requires monthOf("2025-01-05") == "Jan 2025" && monthOf("2025-01-01") == "Jan 2025"
    ensures var a, b := Sample(10, "Food", "2025-01-05"), Sample(20, "Food", "2025-01-01");
      var s := Summarize([a, b], monthOf);
      && s.totalSpent == 30
      && s.byCategory == map["Food" := 30]
      && s.recentExpenses == [a, b]
      && s.monthlyTrend == [MonthAmount("Jan 2025", 30)]
  {
    var a, b := Sample(10, "Food", "2025-01-05"), Sample(20, "Food", "2025-01-01");
    var key := MonthKey(monthOf);
    assert [a] == [] + [a] && [a, b] == [a] + [b];
    KeyOrderSnoc([], CategoryOf, a);
    KeyOrderSnoc([a], CategoryOf, b);
    KeyOrderSnoc([], key, a);
    KeyOrderSnoc([a], key, b);
    SumWhereSnoc([], CategoryOf, a, "Food");
    SumWhereSnoc([a], CategoryOf, b, "Food");
    SumWhereSnoc([], key, a, "Jan 2025");
    SumWhereSnoc([a], key, b, "Jan 2025");
    TotalSpentSnoc([], a);
    TotalSpentSnoc([a], b);
  }

  /** Dates of the eight months of the example, newest first. */
  const MonthDates: seq<string> := [
    "2025-08-01", "2025-07-01", "2025-06-01", "2025-05-01",
    "2025-04-01", "2025-03-01", "2025-02-01", "2025-01-01"
  ]

  /** Eight records, one per month and newest first: the trend keeps the six
      OLDEST months, listed newest first (first-occurrence order, last
      six kept), and drops the two most recent. */
  lemma EightMonthsNewestFirst(monthOf: string -> string, labels: seq<string>)
    requires |labels| == 8 && Distinct(labels)
    requires forall i :: 0 <= i < 8 ==> monthOf(MonthDates[i]) == labels[i]
    ensures var es := seq(8, i requires 0 <= i < 8 => Sample(i + 1, "Other", MonthDates[i]));
      MonthlyTrend(es, monthOf) == seq(6, i requires 0 <= i < 6 => MonthAmount(labels[i + 2], i + 3))
  {
    var es := seq(8, i requires 0 <= i < 8 => Sample(i + 1, "Other", MonthDates[i]));
    var key := MonthKey(monthOf);
    assert forall i :: 0 <= i < 8 ==> key(es[i]) == labels[i];
    DistinctKeysOrder(es, key);
    assert KeyOrder(es, key) == labels;
  }

  // ---------------------------------------------------------------------
  // The fetch state

  /** The page's state: the summary shown and whether it is still loading. */
  class DashboardState {
    var summary: ExpenseSummary
    var loading: bool

    /** The page mounts loading, with the default summary. */
    constructor ()
      ensures summary == DefaultSummary && loading
    {
      summary := DefaultSummary;
      loading := true;
    }

    /** One run of the fetch effect, given the signed-in user and what the
        query returned. Without a user it returns before touching the state;
        a failed query leaves the summary alone; either way but the first,
        loading ends. */
    method FetchExpenses(user: Option<User>, result: QueryResult, monthOf: string -> string)
      modifies this
      ensures user.None? ==> summary == old(summary) && loading == old(loading)
      ensures user.Some? && result.QueryFailed? ==> summary == old(summary) && !loading
      ensures user.Some? && result.Fetched? ==> summary == Summarize(result.docs, monthOf) && !loading
    {
      if user.None? {
        return;
      }
      if result.Fetched? {
        var s := Aggregate(result.docs, monthOf);
        summary := s;
      }
      loading := false;
    }
  }

  /** Mounting with no user: the fetch returns at once, so the page keeps
      the default summary and stays loading. */
  method MountWithoutUser(result: QueryResult, monthOf: string -> string) returns (summary: ExpenseSummary, loading: bool)
    ensures summary == DefaultSummary && loading
  {
    var page := new DashboardState();
    page.FetchExpenses(None, result, monthOf);
    summary, loading := page.summary, page.loading;
  }

  /** Mounting with a user whose query fails: the default summary, loading
      over. */
  method MountFetchFails(user: User, error: string, monthOf: string -> string) returns (summary: ExpenseSummary, loading: bool)
    ensures summary == DefaultSummary && !loading
  {
    var page := new DashboardState();
    page.FetchExpenses(Some(user), QueryFailed(error), monthOf);
    summary, loading := page.summary, page.loading;
  }

  /** Mounting with a user whose query succeeds: the summary of the records,
      loading over. */
  method MountFetchSucceeds(user: User, docs: seq<Expense>, monthOf: string -> string) returns (summary: ExpenseSummary, loading: bool)
    ensures summary == Summarize(docs, monthOf) && !loading
    ensures summary.totalSpent == TotalSpent(docs)
  {
    var page := new DashboardState();
    page.FetchExpenses(Some(user), Fetched(docs), monthOf);
    summary, loading := page.summary, page.loading;
  }

  /** A query that fails after one that succeeded: the page keeps showing
      the earlier records' summary, not the default one. */
  method FetchSucceedsThenFails(user: User, docs: seq<Expense>, error: string, monthOf: string -> string) returns (summary: ExpenseSummary, loading: bool)
    ensures summary == Summarize(docs, monthOf) && !loading
  {
    var page := new DashboardState();
    page.FetchExpenses(Some(user), Fetched(docs), monthOf);
    page.FetchExpenses(Some(user), QueryFailed(error), monthOf);
    summary, loading := page.summary, page.loading;
  }

  // ---------------------------------------------------------------------
  // Chart colours

  /** Colour of a slice whose category is not in the registry. */
  const FallbackColor: string := "#6B7280"

  /** `cats.find(cat => cat.name === name)`: the first entry with that name. */
  function FindByName(cats: seq<Category>, name: string): (r: Option<Category>)
    ensures r.None? <==> forall i :: 0 <= i < |cats| ==> cats[i].name != name
    ensures r.Some? ==>
      exists i :: (0 <= i < |cats| && cats[i] == r.value && cats[i].name == name &&
        forall j :: 0 <= j < i ==> cats[j].name != name)
  {
    if cats == [] then None
    else if cats[0].name == name then Some(cats[0])
    else
      var r := FindByName(cats[1..], name);
      assert forall i :: 1 <= i < |cats| ==> cats[i] == cats[1..][i - 1];
      r
  }

  /** The slice colour for a category name: the registry entry's colour, or
      the grey fallback when no entry has that name (or its colour is empty). */
  function CategoryColor(name: string): (r: string)
    ensures forall i :: 0 <= i < |DefaultCategories| && DefaultCategories[i].name == name ==>
      r == DefaultCategories[i].color
    ensures (forall i :: 0 <= i < |DefaultCategories| ==> DefaultCategories[i].name != name) ==>
      r == FallbackColor
  {
    DefaultCategoryNamesDistinct();
    match FindByName(DefaultCategories, name)
    case Some(c) => if c.color != "" then c.color else FallbackColor
    case None => FallbackColor
  }

  /** A record filed under a registry IDENTIFIER rather than a name gets the
      fallback colour, since identifiers and names never coincide. */
  lemma IdentifierGetsFallback(i: nat)
    requires i < |DefaultCategories|
    ensures CategoryColor(DefaultCategories[i].id) == FallbackColor
  {
    DefaultCategoryIdsAreNotNames();
  }
}
