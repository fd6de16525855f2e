/** The financial calculations of utils/calculations.ts. Filters keep input
    order; every `reduce` is a left fold, so the folds below recurse on the
    last element. Finite amounts are exact reals. */
module Calculations {
  import opened Common
  import opened TransactionTypes

  // ---------------------------------------------------------------------
  // calculateTotal

  /** `transactions.filter(t => t.type === type)`. */
  function OfType(ts: seq<Transaction>, k: TransactionType): (r: seq<Transaction>)
    ensures |r| <= |ts|
    ensures forall t :: t in r <==> t in ts && t.kind == k
  {
    if ts == [] then []
    else
      var rest := OfType(ts[..|ts| - 1], k);
      assert ts == ts[..|ts| - 1] + [ts[|ts| - 1]];
      if ts[|ts| - 1].kind == k then rest + [ts[|ts| - 1]] else rest
  }

  /** The reducer of `calculateTotal`: non-finite amounts are skipped. */
  function SumFinite(ts: seq<Transaction>): (r: real)
    ensures ts == [] ==> r == 0.0
    ensures ts != [] && !ts[|ts| - 1].amount.IsFinite() ==> r == SumFinite(ts[..|ts| - 1])
  {
    if ts == [] then 0.0
    else
      var t := ts[|ts| - 1];
      SumFinite(ts[..|ts| - 1]) + (if t.amount.IsFinite() then t.amount.value else 0.0)
  }

  /** `calculateTotal(transactions, type)`. */
  function Total(ts: seq<Transaction>, k: TransactionType): (r: real)
    ensures r == SumOfContributions(ts, k)
  {
    FilteredSumIsSumOfContributions(ts, k);
    SumFinite(OfType(ts, k))
  }

  /** What one transaction adds to the total of type `k`. */
  function Contribution(t: Transaction, k: TransactionType): real
  {
    if t.kind == k && t.amount.IsFinite() then t.amount.value else 0.0
  }

  /** A reference definition of the total, independent of filter and fold:
      the sum over the whole list of each transaction's contribution. */
  function SumOfContributions(ts: seq<Transaction>, k: TransactionType): real
  {
    if ts == [] then 0.0 else Contribution(ts[0], k) + SumOfContributions(ts[1..], k)
  }

  lemma {:induction false} OfTypeAppend(ts: seq<Transaction>, us: seq<Transaction>, k: TransactionType)
    ensures OfType(ts + us, k) == OfType(ts, k) + OfType(us, k)
    decreases |us|
  {
    if us == [] {
      assert ts + us == ts;
    } else {
      var init := us[..|us| - 1];
      assert (ts + us)[..|ts + us| - 1] == ts + init;
      assert (ts + us)[|ts + us| - 1] == us[|us| - 1];
      OfTypeAppend(ts, init, k);
    }
  }

  lemma {:induction false} SumFiniteAppend(ts: seq<Transaction>, us: seq<Transaction>)
    ensures SumFinite(ts + us) == SumFinite(ts) + SumFinite(us)
    decreases |us|
  {
    if us == [] {
      assert ts + us == ts;
    } else {
      var init := us[..|us| - 1];
      assert (ts + us)[..|ts + us| - 1] == ts + init;
      assert (ts + us)[|ts + us| - 1] == us[|us| - 1];
      SumFiniteAppend(ts, init);
    }
  }

  /** The total of a concatenation is the sum of the totals. */
  lemma TotalAppend(ts: seq<Transaction>, us: seq<Transaction>, k: TransactionType)
    ensures Total(ts + us, k) == Total(ts, k) + Total(us, k)
  {
    OfTypeAppend(ts, us, k);
    SumFiniteAppend(OfType(ts, k), OfType(us, k));
  }

  /** Filtering by type and then folding with the skipping reducer sums the
      finite amounts of exactly the transactions of type `k`: it agrees with
      the contribution-by-contribution sum. */
  lemma {:induction false} FilteredSumIsSumOfContributions(ts: seq<Transaction>, k: TransactionType)
    ensures SumFinite(OfType(ts, k)) == SumOfContributions(ts, k)
  {
    if ts != [] {
      var t := ts[0];
      assert ts == [t] + ts[1..];
      OfTypeAppend([t], ts[1..], k);
      SumFiniteAppend(OfType([t], k), OfType(ts[1..], k));
      assert [t][..0] == [];
      assert OfType([t], k) == if t.kind == k then [t] else [];
      assert SumFinite([t]) == SumFinite([]) + (if t.amount.IsFinite() then t.amount.value else 0.0);
      FilteredSumIsSumOfContributions(ts[1..], k);
    }
  }

  lemma TotalSingleton(t: Transaction, k: TransactionType)
    ensures Total([t], k) == Contribution(t, k)
  {
    assert [t][..0] == [];
    assert OfType([t], k) == if t.kind == k then [t] else [];
    assert SumFinite([t]) == SumFinite([]) + (if t.amount.IsFinite() then t.amount.value else 0.0);
  }

  /** Transactions of the other type and invalid amounts never change a
      total; an empty list totals 0. */
  lemma TotalIgnores(ts: seq<Transaction>, t: Transaction, k: TransactionType)
    requires t.kind != k || !t.amount.IsFinite()
    ensures Total(ts + [t], k) == Total(ts, k) && Total([t] + ts, k) == Total(ts, k)
    ensures Total([], k) == 0.0
  {
    TotalAppend(ts, [t], k);
    TotalAppend([t], ts, k);
    TotalSingleton(t, k);
  }

  // ---------------------------------------------------------------------
  // calculateBalance and calculateStats

  /** `calculateBalance`: income total minus expense total. */
  function Balance(ts: seq<Transaction>): (r: real)
    ensures r == SumOfSignedAmounts(ts)
  {
    SignedSumSplits(ts);
    Total(ts, Income) - Total(ts, Expense)
  }

  /** What one transaction adds to the balance: its finite amount, with the
      sign of its type. */
  function SignedAmount(t: Transaction): real
  {
    if !t.amount.IsFinite() then 0.0
    else if t.kind == Income then t.amount.value
    else -t.amount.value
  }

  function SumOfSignedAmounts(ts: seq<Transaction>): real
  {
    if ts == [] then 0.0 else SignedAmount(ts[0]) + SumOfSignedAmounts(ts[1..])
  }

  lemma {:induction false} SignedSumSplits(ts: seq<Transaction>)
    ensures SumOfSignedAmounts(ts) == SumOfContributions(ts, Income) - SumOfContributions(ts, Expense)
  {
    if ts != [] {
      SignedSumSplits(ts[1..]);
    }
  }

  /** The balance of a concatenation is the sum of the balances. */
  lemma BalanceAppend(ts: seq<Transaction>, us: seq<Transaction>)
    ensures Balance(ts + us) == Balance(ts) + Balance(us)
  {
    TotalAppend(ts, us, Income);
    TotalAppend(ts, us, Expense);
  }

  datatype Stats = Stats(income: real, expenses: real, balance: real, count: nat, average: real)

  /** `calculateStats`. */
  function CalculateStats(ts: seq<Transaction>): (s: Stats)
    ensures s.count == |ts|
    ensures s.income == Total(ts, Income) && s.expenses == Total(ts, Expense)
    ensures s.balance == s.income - s.expenses && s.balance == Balance(ts)
    ensures ts == [] ==> s.average == 0.0
    ensures s == StatsOf(s.income, s.expenses, |ts|)
    ensures s.average == 0.0 <==> ts == [] || s.income + s.expenses == 0.0
  {
    var income := Total(ts, Income);
    var expenses := Total(ts, Expense);
    assert Balance(ts) == income - expenses;
    StatsOf(income, expenses, |ts|)
  }

  /** The record `calculateStats` builds from the two totals and the count. */
  function StatsOf(income: real, expenses: real, count: nat): (s: Stats)
    ensures s.income == income && s.expenses == expenses && s.balance == income - expenses
    ensures s.count == count
    ensures count > 0 ==> s.average * (count as real) == income + expenses
    ensures s.average == 0.0 <==> count == 0 || income + expenses == 0.0
  {
    Stats(income, expenses, income - expenses, count, Average(income + expenses, count))
  }

  /** `count > 0 ? sum / count : 0`. */
  function Average(sum: real, count: nat): (a: real)
    ensures count > 0 ==> a * (count as real) == sum
    ensures a == 0.0 <==> count == 0 || sum == 0.0
  {
    if count > 0 then
      var n := count as real;
      assert (sum / n) * n == sum;
      sum / n
    else 0.0
  }

  /** A zero average does not mean an empty list: one zero-amount
      transaction averages 0 too. */
  lemma ZeroAverageOfNonEmptyList(t: Transaction)
    requires t.amount == Finite(0.0)
    ensures CalculateStats([t]).count == 1 && CalculateStats([t]).average == 0.0
  {
    assert [t][1..] == [];
  }

  // ---------------------------------------------------------------------
  // calculateByCategory

  /** `transactions.filter(t => !type || t.type === type)`. */
  function Selected(ts: seq<Transaction>, kind: Option<TransactionType>): (r: seq<Transaction>)
    ensures kind.None? ==> r == ts
    ensures forall t :: t in r <==> t in ts && (kind.None? || t.kind == kind.value)
  {
    if kind.None? then ts else OfType(ts, kind.value)
  }

  /** `(acc[t.category] || 0) + t.amount`: a running sum that is `NaN` (or 0)
      is falsy and starts again from 0. */
  function Accumulate(acc: map<Category, Num>, t: Transaction): (r: map<Category, Num>)
    ensures r.Keys == acc.Keys + {t.category}
    ensures forall c :: c in acc && c != t.category ==> r[c] == acc[c]
  {
    var prior := if t.category in acc && NumTruthy(acc[t.category]) then acc[t.category] else Finite(0.0);
    acc[t.category := Add(prior, t.amount)]
  }

  /** The reduce of `calculateByCategory` over a list. */
  function CategoryTotals(ts: seq<Transaction>): (r: map<Category, Num>)
    ensures r.Keys == Categories(ts)
  {
    if ts == [] then map[]
    else
      CategoriesSnoc(ts);
      Accumulate(CategoryTotals(ts[..|ts| - 1]), ts[|ts| - 1])
  }

  /** The sum of the finite amounts of category `c`. */
  function CategorySum(ts: seq<Transaction>, c: Category): real
  {
    if ts == [] then 0.0
    else
      var t := ts[|ts| - 1];
      CategorySum(ts[..|ts| - 1], c) + (if t.category == c && t.amount.IsFinite() then t.amount.value else 0.0)
  }

  predicate AllFinite(ts: seq<Transaction>)
  {
    forall i :: 0 <= i < |ts| ==> ts[i].amount.IsFinite()
  }

  function Categories(ts: seq<Transaction>): set<Category>
  {
    set i | 0 <= i < |ts| :: ts[i].category
  }

  /** The categories of a list are those of all but its last transaction,
      and the last one's. */
  lemma CategoriesSnoc(ts: seq<Transaction>)
    requires ts != []
    ensures Categories(ts) == Categories(ts[..|ts| - 1]) + {ts[|ts| - 1].category}
  {
    var init := ts[..|ts| - 1];
    forall c | c in Categories(ts) ensures c in Categories(init) + {ts[|ts| - 1].category} {
      var i :| 0 <= i < |ts| && ts[i].category == c;
      if i < |ts| - 1 { assert init[i] == ts[i]; }
    }
    forall c | c in Categories(init) ensures c in Categories(ts) {
      var i :| 0 <= i < |init| && init[i].category == c;
      assert ts[i] == init[i];
    }
  }

  /** With every amount finite, each category maps to the sum of its
      amounts. */
  lemma {:induction false} CategoryTotalsAreSums(ts: seq<Transaction>)
    requires AllFinite(ts)
    ensures forall c :: c in CategoryTotals(ts) ==> CategoryTotals(ts)[c] == Finite(CategorySum(ts, c))
  {
    if ts != [] {
      var init := ts[..|ts| - 1];
      assert AllFinite(init) by {
        forall i | 0 <= i < |init| ensures init[i].amount.IsFinite() { assert init[i] == ts[i]; }
      }
      CategoryTotalsAreSums(init);
      var t := ts[|ts| - 1];
      assert t.amount.IsFinite();
      if t.category !in CategoryTotals(init) {
        CategorySumAbsent(init, t.category);
      }
    }
  }

  lemma {:induction false} CategorySumAbsent(ts: seq<Transaction>, c: Category)
    requires c !in Categories(ts)
    ensures CategorySum(ts, c) == 0.0
  {
    if ts != [] {
      var init := ts[..|ts| - 1];
      assert Categories(init) <= Categories(ts) by {
        forall x | x in Categories(init) ensures x in Categories(ts) {
          var i :| 0 <= i < |init| && init[i].category == x;
          assert ts[i] == init[i];
        }
      }
      assert ts[|ts| - 1].category in Categories(ts);
      CategorySumAbsent(init, c);
    }
  }

  /** The sum over the listed categories of their sums. */
  function SumOverCategories(ts: seq<Transaction>, cs: seq<Category>): real
  {
    if cs == [] then 0.0 else CategorySum(ts, cs[0]) + SumOverCategories(ts, cs[1..])
  }

  /** How often `c` occurs in `cs`. */
  function Occurrences(cs: seq<Category>, c: Category): nat
  {
    if cs == [] then 0 else (if cs[0] == c then 1 else 0) + Occurrences(cs[1..], c)
  }

  lemma {:induction false} SumOverCategoriesStep(ts: seq<Transaction>, t: Transaction, cs: seq<Category>)
    ensures SumOverCategories(ts + [t], cs) ==
              SumOverCategories(ts, cs) +
              (if t.amount.IsFinite() then Copies(Occurrences(cs, t.category), t.amount.value) else 0.0)
  {
    if cs != [] {
      SumOverCategoriesStep(ts, t, cs[1..]);
      CategorySumSnoc(ts, t, cs[0]);
    }
  }

  /** `n` copies of `v` added up. */
  function Copies(n: nat, v: real): real
  {
    if n == 0 then 0.0 else v + Copies(n - 1, v)
  }

  lemma CategorySumSnoc(ts: seq<Transaction>, t: Transaction, c: Category)
    ensures CategorySum(ts + [t], c) ==
              CategorySum(ts, c) + (if t.category == c && t.amount.IsFinite() then t.amount.value else 0.0)
  {
    assert (ts + [t])[..|ts + [t]| - 1] == ts;
  }

  lemma {:induction false} SumOverCategoriesOfEmpty(cs: seq<Category>)
    ensures SumOverCategories([], cs) == 0.0
  {
    if cs != [] {
      SumOverCategoriesOfEmpty(cs[1..]);
    }
  }

  /** Every transaction falls in exactly one of the five categories, so the
      per-category sums add up to the sum of all finite amounts. */
  lemma {:induction false} CategorySumsAddUp(ts: seq<Transaction>)
    ensures SumOverCategories(ts, AllCategories) == SumFinite(ts)
  {
    if ts == [] {
      SumOverCategoriesOfEmpty(AllCategories);
    } else {
      var init := ts[..|ts| - 1];
      var t := ts[|ts| - 1];
      assert ts == init + [t];
      CategorySumsAddUp(init);
      SumOverCategoriesStep(init, t, AllCategories);
      assert Occurrences(AllCategories, t.category) == 1;
    }
  }

  /** The values of a per-category result, read over the five categories
      (absent ones count 0, non-finite ones are skipped). */
  function SumOfValues(m: map<Category, Num>, cs: seq<Category>): real
  {
    if cs == [] then 0.0
    else (if cs[0] in m && m[cs[0]].IsFinite() then m[cs[0]].value else 0.0) + SumOfValues(m, cs[1..])
  }

  lemma {:induction false} SumOfValuesMatches(ts: seq<Transaction>, cs: seq<Category>)
    requires AllFinite(ts)
    ensures SumOfValues(CategoryTotals(ts), cs) == SumOverCategories(ts, cs)
  {
    if cs != [] {
      CategoryTotalsAreSums(ts);
      if cs[0] !in CategoryTotals(ts) {
        CategorySumAbsent(ts, cs[0]);
      }
      SumOfValuesMatches(ts, cs[1..]);
    }
  }

  /** `calculateByCategory(transactions, type)`: the dictionary accumulator
      updated in place, one transaction at a time. */
  method CalculateByCategory(ts: seq<Transaction>, kind: Option<TransactionType>)
    returns (acc: map<Category, Num>)
    ensures acc == CategoryTotals(Selected(ts, kind))
    ensures acc.Keys == Categories(Selected(ts, kind))
    ensures AllFinite(ts) ==>
              forall c :: c in acc ==> acc[c] == Finite(CategorySum(Selected(ts, kind), c))
    ensures AllFinite(ts) && kind.Some? ==> SumOfValues(acc, AllCategories) == Total(ts, kind.value)
    ensures AllFinite(ts) && kind.None? ==>
              SumOfValues(acc, AllCategories) == Total(ts, Income) + Total(ts, Expense)
  {
    var filtered := Selected(ts, kind);
    acc := map[];
    var i := 0;
    while i < |filtered|
      invariant 0 <= i <= |filtered|
      invariant acc == CategoryTotals(filtered[..i])
    {
      var t := filtered[i];
      assert filtered[..i + 1][..i] == filtered[..i];
      assert CategoryTotals(filtered[..i + 1]) == Accumulate(acc, t);
      var prior := if t.category in acc && NumTruthy(acc[t.category]) then acc[t.category] else Finite(0.0);
      acc := acc[t.category := Add(prior, t.amount)];
      i := i + 1;
    }
    assert filtered[..i] == filtered;
    if AllFinite(ts) {
      ByCategorySums(ts, kind);
    }
  }

  /** With every amount finite, the per-category result of a selection maps
      each category to its sum, and its values add up to the selected total. */
  lemma ByCategorySums(ts: seq<Transaction>, kind: Option<TransactionType>)
    requires AllFinite(ts)
    ensures forall c :: c in CategoryTotals(Selected(ts, kind)) ==>
              CategoryTotals(Selected(ts, kind))[c] == Finite(CategorySum(Selected(ts, kind), c))
    ensures kind.Some? ==> SumOfValues(CategoryTotals(Selected(ts, kind)), AllCategories) == Total(ts, kind.value)
    ensures kind.None? ==>
              SumOfValues(CategoryTotals(Selected(ts, kind)), AllCategories) == Total(ts, Income) + Total(ts, Expense)
  {
    var filtered := Selected(ts, kind);
    assert AllFinite(filtered) by {
      forall j | 0 <= j < |filtered| ensures filtered[j].amount.IsFinite() {
        assert filtered[j] in ts;
      }
    }
    CategoryTotalsAreSums(filtered);
    SumOfValuesMatches(filtered, AllCategories);
    CategorySumsAddUp(filtered);
    if kind.None? {
      SumFiniteSplits(ts);
    }
  }

  /** The sum of all finite amounts is the income total plus the expense
      total. */
  lemma {:induction false} SumFiniteSplits(ts: seq<Transaction>)
    ensures SumFinite(ts) == Total(ts, Income) + Total(ts, Expense)
  {
    if ts != [] {
      var init := ts[..|ts| - 1];
      var t := ts[|ts| - 1];
      assert ts == init + [t];
      SumFiniteSplits(init);
      TotalAppend(init, [t], Income);
      TotalAppend(init, [t], Expense);
      SumFiniteAppend(init, [t]);
      TotalSingleton(t, Income);
      TotalSingleton(t, Expense);
      assert [t][..0] == [];
      assert SumFinite([t]) == if t.amount.IsFinite() then t.amount.value else 0.0;
    }
  }
}
