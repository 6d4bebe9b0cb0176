/** Reference definitions for the dashboard's reductions over a list of
    expenses (src/pages/Dashboard.tsx), and what is proved about them.

    A "key function" picks the dictionary key of a record: its category
    for the per-category table, its month label for the monthly trend.
    Every fold here peels off the LAST record, as a left-to-right
    `reduce` or `forEach` does. */
module Aggregation {
  import opened Types

  /** The label shown for a month, with its summed amount. */
  datatype MonthAmount = MonthAmount(month: string, amount: int)

  /** The key of a record in the monthly table: the month label of its date.
      The label function stands for date formatting and is a parameter. */
  function MonthKey(monthOf: string -> string): Expense -> string
  {
    (e: Expense) => monthOf(e.date)
  }

  /** The key of a record in the per-category table. */
  function CategoryOf(e: Expense): string
  {
    e.category
  }

  /** Sum of all amounts, accumulated from the first record to the last. */
  function TotalSpent(es: seq<Expense>): int
  {
    if es == [] then 0 else TotalSpent(es[..|es| - 1]) + es[|es| - 1].amount
  }

  /** Some record of `es` has key `k`. */
  predicate Occurs(es: seq<Expense>, keyOf: Expense -> string, k: string)
  {
    exists i :: 0 <= i < |es| && keyOf(es[i]) == k
  }

  /** Sum of the amounts of the records whose key is `k`. */
  function SumWhere(es: seq<Expense>, keyOf: Expense -> string, k: string): int
  {
    if es == [] then 0
    else SumWhere(es[..|es| - 1], keyOf, k) + (if keyOf(es[|es| - 1]) == k then es[|es| - 1].amount else 0)
  }

  /** No element twice. */
  predicate Distinct(ks: seq<string>)
  {
    forall i, j :: 0 <= i < j < |ks| ==> ks[i] != ks[j]
  }

  /** The distinct keys of `es`, each placed where it first occurs: the
      order in which a dictionary with string keys lists keys inserted
      one record at a time. */
  function KeyOrder(es: seq<Expense>, keyOf: Expense -> string): seq<string>
  {
    if es == [] then []
    else
      var before := KeyOrder(es[..|es| - 1], keyOf);
      var k := keyOf(es[|es| - 1]);
      if k in before then before else before + [k]
  }

  /** The dictionary from each key occurring in `es` to the summed amounts
      of its records. Keys that do not occur are absent, not zero. */
  function GroupTotals(es: seq<Expense>, keyOf: Expense -> string): map<string, int>
  {
    map k | k in KeyOrder(es, keyOf) :: SumWhere(es, keyOf, k)
  }

  /** The dictionary's entries in key order as {month, amount} pairs. */
  function Entries(es: seq<Expense>, keyOf: Expense -> string): seq<MonthAmount>
  {
    var ks := KeyOrder(es, keyOf);
    seq(|ks|, i requires 0 <= i < |ks| => MonthAmount(ks[i], SumWhere(es, keyOf, ks[i])))
  }

  /** `s.slice(-n)` for n > 0: the last min(n, |s|) elements. (For n = 0
      JavaScript's `slice(-0)` is the whole array; the model only uses n = 6.) */
  function TakeLast<T>(s: seq<T>, n: nat): seq<T>
  {
    if |s| <= n then s else s[|s| - n..]
  }

  /** The monthly trend: the month entries in first-occurrence order, of
      which only the last six are kept. */
  function MonthlyTrend(es: seq<Expense>, monthOf: string -> string): seq<MonthAmount>
  {
    TakeLast(Entries(es, MonthKey(monthOf)), 6)
  }

  /** `expenses.slice(0, 5)`. */
  function RecentExpenses(es: seq<Expense>): seq<Expense>
  {
    if |es| <= 5 then es else es[..5]
  }

  /** Sums the values of `m` at the keys `ks`, in order. */
  function SumValues(m: map<string, int>, ks: seq<string>): int
    requires forall k :: k in ks ==> k in m
  {
    if ks == [] then 0 else SumValues(m, ks[..|ks| - 1]) + m[ks[|ks| - 1]]
  }

  // ---------------------------------------------------------------------
  // One more record

  /** Adding a record at the end extends the total by its amount. */
  lemma TotalSpentSnoc(es: seq<Expense>, e: Expense)
    ensures TotalSpent(es + [e]) == TotalSpent(es) + e.amount
  {
    assert (es + [e])[..|es|] == es;
  }

  /** A key occurs after adding a record iff it occurred before or is the
      new record's key. */
  lemma OccursSnoc(es: seq<Expense>, keyOf: Expense -> string, e: Expense, k: string)
    ensures Occurs(es + [e], keyOf, k) <==> Occurs(es, keyOf, k) || keyOf(e) == k
  {
    var es' := es + [e];
    if Occurs(es', keyOf, k) && keyOf(e) != k {
      var i :| 0 <= i < |es'| && keyOf(es'[i]) == k;
      assert i < |es| && es[i] == es'[i];
    }
    if Occurs(es, keyOf, k) {
      var i :| 0 <= i < |es| && keyOf(es[i]) == k;
      assert es'[i] == es[i];
    }
    if keyOf(e) == k {
      assert es'[|es|] == e;
    }
  }

  /** Adding a record extends the sum of its own key by its amount and
      leaves every other key's sum unchanged. */
  lemma SumWhereSnoc(es: seq<Expense>, keyOf: Expense -> string, e: Expense, k: string)
    ensures SumWhere(es + [e], keyOf, k) == SumWhere(es, keyOf, k) + (if keyOf(e) == k then e.amount else 0)
  {
    assert (es + [e])[..|es|] == es;
  }

  /** A key order is extended at the end, and only by a key not yet seen. */
  lemma KeyOrderSnoc(es: seq<Expense>, keyOf: Expense -> string, e: Expense)
    ensures KeyOrder(es + [e], keyOf) ==
      if keyOf(e) in KeyOrder(es, keyOf) then KeyOrder(es, keyOf) else KeyOrder(es, keyOf) + [keyOf(e)]
  {
    assert (es + [e])[..|es|] == es;
  }

  // ---------------------------------------------------------------------
  // Sums per key

  /** A key that never occurs sums to zero. */
  lemma {:induction false} SumWhereAbsent(es: seq<Expense>, keyOf: Expense -> string, k: string)
    requires !Occurs(es, keyOf, k)
    ensures SumWhere(es, keyOf, k) == 0
  {
    if es != [] {
      var p := es[..|es| - 1];
      SumWhereAbsent(p, keyOf, k);
      assert keyOf(es[|es| - 1]) != k;
    }
  }

  /** Sum over the keys `ks` of each key's summed amounts. */
  function SumKeys(es: seq<Expense>, keyOf: Expense -> string, ks: seq<string>): int
  {
    if ks == [] then 0 else SumKeys(es, keyOf, ks[..|ks| - 1]) + SumWhere(es, keyOf, ks[|ks| - 1])
  }

  /** Over a list of distinct keys, adding a record adds its amount once if
      its key is listed and not at all otherwise. */
  lemma {:induction false} SumKeysSnoc(es: seq<Expense>, keyOf: Expense -> string, e: Expense, ks: seq<string>)
    requires Distinct(ks)
    ensures SumKeys(es + [e], keyOf, ks) == SumKeys(es, keyOf, ks) + (if keyOf(e) in ks then e.amount else 0)
  {
    if ks != [] {
      var init, last := ks[..|ks| - 1], ks[|ks| - 1];
      assert ks == init + [last];
      assert keyOf(e) in ks <==> keyOf(e) in init || keyOf(e) == last;
      assert last !in init;
      SumKeysSnoc(es, keyOf, e, init);
      SumWhereSnoc(es, keyOf, e, last);
    }
  }

  /** Summing every key's total over the key order gives the total of all
      amounts: no record is lost or counted twice. */
  lemma {:induction false} SumKeysIsTotal(es: seq<Expense>, keyOf: Expense -> string)
    ensures SumKeys(es, keyOf, KeyOrder(es, keyOf)) == TotalSpent(es)
  {
    if es != [] {
      var p, e := es[..|es| - 1], es[|es| - 1];
      assert es == p + [e];
      var d := KeyOrder(p, keyOf);
      var k := keyOf(e);
      SumKeysIsTotal(p, keyOf);
      KeyOrderKeys(p, keyOf);
      KeyOrderKeys(es, keyOf);
      SumKeysSnoc(p, keyOf, e, KeyOrder(es, keyOf));
      if k !in d {
        assert KeyOrder(es, keyOf) == d + [k];
        assert (d + [k])[..|d|] == d;
        SumWhereAbsent(p, keyOf, k);
      }
    }
  }

  /** Summing the dictionary's values at the keys `ks` equals summing each
      key's total directly. */
  lemma {:induction false} SumValuesOfGroupTotals(es: seq<Expense>, keyOf: Expense -> string, ks: seq<string>)
    requires forall k :: k in ks ==> k in KeyOrder(es, keyOf)
    ensures forall k :: k in ks ==> k in GroupTotals(es, keyOf)
    ensures SumValues(GroupTotals(es, keyOf), ks) == SumKeys(es, keyOf, ks)
  {
    if ks != [] {
      var init := ks[..|ks| - 1];
      assert forall k :: k in init ==> k in ks;
      SumValuesOfGroupTotals(es, keyOf, init);
    }
  }

  // ---------------------------------------------------------------------
  // The key order

  /** The key order lists each key once, and exactly the keys that occur. */
  lemma {:induction false} KeyOrderKeys(es: seq<Expense>, keyOf: Expense -> string)
    ensures Distinct(KeyOrder(es, keyOf))
    ensures forall k :: k in KeyOrder(es, keyOf) <==> Occurs(es, keyOf, k)
  {
    if es != [] {
      var p, e := es[..|es| - 1], es[|es| - 1];
      assert es == p + [e];
      KeyOrderKeys(p, keyOf);
      forall k ensures k in KeyOrder(es, keyOf) <==> Occurs(es, keyOf, k) {
        OccursSnoc(p, keyOf, e, k);
      }
    }
  }

  /** The key order of a prefix is a prefix of the key order: keys are
      only ever appended. */
  lemma {:induction false} KeyOrderPrefix(es: seq<Expense>, keyOf: Expense -> string, n: nat)
    requires n <= |es|
    ensures KeyOrder(es[..n], keyOf) <= KeyOrder(es, keyOf)
    decreases |es|
  {
    if n < |es| {
      var p := es[..|es| - 1];
      assert p[..n] == es[..n];
      KeyOrderPrefix(p, keyOf, n);
    } else {
      assert es[..n] == es;
    }
  }

  /** First-occurrence order: wherever a key occurs in the input, every key
      listed before it in the key order has already occurred. */
  lemma KeyOrderFirstOccurrence(es: seq<Expense>, keyOf: Expense -> string, a: nat, b: nat, j: nat)
    requires a < b < |KeyOrder(es, keyOf)|
    requires j < |es| && keyOf(es[j]) == KeyOrder(es, keyOf)[b]
    ensures Occurs(es[..j], keyOf, KeyOrder(es, keyOf)[a])
  {
    var ks := KeyOrder(es, keyOf);
    var p := es[..j + 1];
    KeyOrderPrefix(es, keyOf, j + 1);
    KeyOrderKeys(p, keyOf);
    KeyOrderKeys(es, keyOf);
    var kp := KeyOrder(p, keyOf);
    assert p[j] == es[j];
    assert Occurs(p, keyOf, ks[b]);
    // ks[b] is in kp, which is a prefix of the distinct ks, so it sits at index b
    var ib :| 0 <= ib < |kp| && kp[ib] == ks[b];
    assert ks[ib] == ks[b];
    assert ib == b;
    assert kp[a] == ks[a];
    assert Occurs(p, keyOf, ks[a]);
    var i :| 0 <= i < |p| && keyOf(p[i]) == ks[a];
    assert i != j;
    assert es[..j][i] == p[i];
  }

  /** When no two records share a key, the key order is the records' keys
      in input order, and each key sums to its one record's amount. */
  lemma {:induction false} DistinctKeysOrder(es: seq<Expense>, keyOf: Expense -> string)
    requires forall i, j :: 0 <= i < j < |es| ==> keyOf(es[i]) != keyOf(es[j])
    ensures KeyOrder(es, keyOf) == seq(|es|, i requires 0 <= i < |es| => keyOf(es[i]))
    ensures forall i :: 0 <= i < |es| ==> SumWhere(es, keyOf, keyOf(es[i])) == es[i].amount
  {
    if es != [] {
      var p, e := es[..|es| - 1], es[|es| - 1];
      assert es == p + [e];
      DistinctKeysOrder(p, keyOf);
      KeyOrderKeys(p, keyOf);
      assert !Occurs(p, keyOf, keyOf(e));
      SumWhereAbsent(p, keyOf, keyOf(e));
      forall i | 0 <= i < |es|
        ensures SumWhere(es, keyOf, keyOf(es[i])) == es[i].amount
      {
        SumWhereSnoc(p, keyOf, e, keyOf(es[i]));
        if i < |p| {
          assert es[i] == p[i];
        }
      }
    }
  }

  // ---------------------------------------------------------------------
  // The dictionary

  /** The dictionary has exactly the keys that occur, in one-to-one
      correspondence with the key order, and each maps to its sum. */
  lemma GroupTotalsContents(es: seq<Expense>, keyOf: Expense -> string)
    ensures forall k :: k in GroupTotals(es, keyOf) <==> Occurs(es, keyOf, k)
    ensures forall k :: k in GroupTotals(es, keyOf) ==> GroupTotals(es, keyOf)[k] == SumWhere(es, keyOf, k)
    ensures Distinct(KeyOrder(es, keyOf))
    ensures forall k :: k in KeyOrder(es, keyOf) <==> k in GroupTotals(es, keyOf)
  {
    KeyOrderKeys(es, keyOf);
  }

  /** Summed over its keys, the dictionary's values equal the total. */
  lemma GroupTotalsSum(es: seq<Expense>, keyOf: Expense -> string)
    ensures forall k :: k in KeyOrder(es, keyOf) ==> k in GroupTotals(es, keyOf)
    ensures SumValues(GroupTotals(es, keyOf), KeyOrder(es, keyOf)) == TotalSpent(es)
  {
    SumValuesOfGroupTotals(es, keyOf, KeyOrder(es, keyOf));
    SumKeysIsTotal(es, keyOf);
  }

  /** Adding a record updates only its own key: `(acc[k] || 0) + amount`. */
  lemma GroupTotalsSnoc(es: seq<Expense>, keyOf: Expense -> string, e: Expense)
    ensures GroupTotals(es + [e], keyOf) ==
      var m := GroupTotals(es, keyOf);
      m[keyOf(e) := (if keyOf(e) in m then m[keyOf(e)] else 0) + e.amount]
  {
    var m := GroupTotals(es, keyOf);
    var k := keyOf(e);
    var m' := m[k := (if k in m then m[k] else 0) + e.amount];
    var g := GroupTotals(es + [e], keyOf);
    var ks := KeyOrder(es, keyOf);
    KeyOrderSnoc(es, keyOf, e);
    assert KeyOrder(es + [e], keyOf) == if k in ks then ks else ks + [k];
    assert forall x :: x in g <==> x in ks || x == k;
    assert g.Keys == m'.Keys;
    if k !in ks {
      KeyOrderKeys(es, keyOf);
      SumWhereAbsent(es, keyOf, k);
    }
    forall x | x in g ensures g[x] == m'[x] {
      SumWhereSnoc(es, keyOf, e, x);
    }
  }

  /** One step of a pass that builds the dictionary and its key order: the
      record at index i updates both as the source's loop body does. */
  lemma TableStep(es: seq<Expense>, keyOf: Expense -> string, i: nat)
    requires i < |es|
    ensures var m, ks, k := GroupTotals(es[..i], keyOf), KeyOrder(es[..i], keyOf), keyOf(es[i]);
      && (k in m <==> k in ks)
      && KeyOrder(es[..i + 1], keyOf) == (if k in m then ks else ks + [k])
      && GroupTotals(es[..i + 1], keyOf) == m[k := (if k in m then m[k] else 0) + es[i].amount]
  {
    assert es[..i + 1] == es[..i] + [es[i]];
    KeyOrderSnoc(es[..i], keyOf, es[i]);
    GroupTotalsSnoc(es[..i], keyOf, es[i]);
  }

  /** The entries, read off the dictionary in key order. */
  lemma EntriesFromTable(es: seq<Expense>, keyOf: Expense -> string, ks: seq<string>, m: map<string, int>)
    requires ks == KeyOrder(es, keyOf) && m == GroupTotals(es, keyOf)
    ensures forall k :: k in ks ==> k in m
    ensures Entries(es, keyOf) == seq(|ks|, j requires 0 <= j < |ks| => MonthAmount(ks[j], m[ks[j]]))
  {
  }

  // ---------------------------------------------------------------------
  // The monthly trend

  /** The trend keeps at most six entries, with distinct month labels, each
      carrying the summed amounts of its month; its labels are the last
      min(6, k) of the k distinct labels in first-occurrence order. */
  lemma MonthlyTrendShape(es: seq<Expense>, monthOf: string -> string)
    ensures var t := MonthlyTrend(es, monthOf);
      var ks := KeyOrder(es, MonthKey(monthOf));
      && |t| == (if |ks| <= 6 then |ks| else 6)
      && (forall i :: 0 <= i < |t| ==> t[i].month == ks[|ks| - |t| + i])
      && (forall i :: 0 <= i < |t| ==> t[i].amount == SumWhere(es, MonthKey(monthOf), t[i].month))
      && (forall i :: 0 <= i < |t| ==> Occurs(es, MonthKey(monthOf), t[i].month))
      && (forall i, j :: 0 <= i < j < |t| ==> t[i].month != t[j].month)
  {
    KeyOrderKeys(es, MonthKey(monthOf));
  }

  /** With six or fewer distinct months, every month of the input appears
      in the trend. */
  lemma MonthlyTrendAllMonths(es: seq<Expense>, monthOf: string -> string, k: string)
    requires |KeyOrder(es, MonthKey(monthOf))| <= 6
    requires Occurs(es, MonthKey(monthOf), k)
    ensures exists i :: 0 <= i < |MonthlyTrend(es, monthOf)| && MonthlyTrend(es, monthOf)[i].month == k
  {
    KeyOrderKeys(es, MonthKey(monthOf));
    var ks := KeyOrder(es, MonthKey(monthOf));
    var i :| 0 <= i < |ks| && ks[i] == k;
    assert MonthlyTrend(es, monthOf)[i].month == k;
  }

  /** With more than six distinct months, the months listed first in the
      input are the ones dropped: the first |ks| - 6 labels are absent. */
  lemma MonthlyTrendDropsEarliestListed(es: seq<Expense>, monthOf: string -> string, d: nat)
    requires d + 6 < |KeyOrder(es, MonthKey(monthOf))|
    ensures forall i :: 0 <= i < |MonthlyTrend(es, monthOf)| ==>
      MonthlyTrend(es, monthOf)[i].month != KeyOrder(es, MonthKey(monthOf))[d]
  {
    KeyOrderKeys(es, MonthKey(monthOf));
  }
}
