/**
 * The four read-side aggregations of the in-memory store (server/storage.ts):
 * dashboard summary, expense breakdown, income versus expense over six
 * months, and budget progress. Each works on the transactions (and budgets)
 * of one user, which the store hands over in insertion order.
 */
module Aggregates {
  import opened Schema
  import opened Dedup

  // ---------------------------------------------------------------------------
  // Sums over transactions. Each is a left fold, like `reduce` and `forEach`.

  /** Sum of the amounts of transactions whose type is exactly `kind`: `filter` then `reduce`. */
  function TypeTotal(ts: seq<Transaction>, kind: string): (r: real)
    ensures (forall i :: 0 <= i < |ts| ==> ts[i].kind != kind) ==> r == 0.0
    ensures |ts| == 1 && ts[0].kind == kind ==> r == ts[0].amount
    decreases |ts|
  {
    if ts == [] then 0.0
    else
      var t := ts[|ts| - 1];
      TypeTotal(ts[..|ts| - 1], kind) + (if t.kind == kind then t.amount else 0.0)
  }

  /** The dashboard's `income`. */
  function IncomeTotal(ts: seq<Transaction>): real {
    TypeTotal(ts, "income")
  }

  /** The dashboard's `expenses`. */
  function ExpenseTotal(ts: seq<Transaction>): real {
    TypeTotal(ts, "expense")
  }

  /** Sum of the amounts of the "expense" transactions in `category`. */
  function SpentIn(ts: seq<Transaction>, category: string): (r: real)
    ensures (forall i :: 0 <= i < |ts| ==> ts[i].category != category) ==> r == 0.0
    ensures |ts| == 1 && ts[0].kind == "expense" && ts[0].category == category ==> r == ts[0].amount
    decreases |ts|
  {
    if ts == [] then 0.0
    else
      var t := ts[|ts| - 1];
      SpentIn(ts[..|ts| - 1], category)
        + (if t.kind == "expense" && t.category == category then t.amount else 0.0)
  }

  /** The categories of the "expense" transactions, in order, with repetitions. */
  function ExpenseCategories(ts: seq<Transaction>): (cs: seq<string>)
    ensures forall c :: c in cs <==> exists t :: t in ts && t.kind == "expense" && t.category == c
    decreases |ts|
  {
    if ts == [] then []
    else
      var t := ts[|ts| - 1];
      var init := ts[..|ts| - 1];
      assert ts == init + [t];
      ExpenseCategories(init) + (if t.kind == "expense" then [t.category] else [])
  }

  predicate NonNegativeAmounts(ts: seq<Transaction>) {
    forall i :: 0 <= i < |ts| ==> ts[i].amount >= 0.0
  }

  /** A total over two lists together is the sum of their totals. */
  lemma {:induction false} TypeTotalConcat(a: seq<Transaction>, b: seq<Transaction>, kind: string)
    ensures TypeTotal(a + b, kind) == TypeTotal(a, kind) + TypeTotal(b, kind)
    decreases |b|
  {
    if b != [] {
      assert (a + b)[..|a + b| - 1] == a + b[..|b| - 1];
      TypeTotalConcat(a, b[..|b| - 1], kind);
    } else {
      assert a + b == a;
    }
  }

  /** With non-negative amounts, every total is non-negative. */
  lemma {:induction false} TotalsNonNegative(ts: seq<Transaction>, category: string)
    requires NonNegativeAmounts(ts)
    ensures IncomeTotal(ts) >= 0.0 && ExpenseTotal(ts) >= 0.0 && SpentIn(ts, category) >= 0.0
    decreases |ts|
  {
    if ts != [] {
      TotalsNonNegative(ts[..|ts| - 1], category);
    }
  }

  // ---------------------------------------------------------------------------
  // `parseFloat(x.toFixed(1))` on exact reals.

  lemma FloorMonotone(a: real, b: real)
    requires a <= b
    ensures a.Floor <= b.Floor
  {
  }

  /** A value with at most one decimal: ten times it is a whole number. */
  predicate OneDecimal(r: real) {
    (r * 10.0).Floor as real == r * 10.0
  }

  /** Rounds to one decimal, halves away from zero (as `toFixed` rounds the magnitude). */
  function RoundTenth(x: real): (r: real)
    ensures OneDecimal(r)
    ensures x - 0.05 <= r <= x + 0.05
    ensures x >= 0.0 ==> r >= 0.0
    ensures x <= 0.0 ==> r <= 0.0
  {
    if x >= 0.0 then
      var k := (x * 10.0 + 0.5).Floor;
      var r := k as real / 10.0;
      assert r * 10.0 == k as real && (k as real).Floor == k;
      r
    else
      var k := ((-x) * 10.0 + 0.5).Floor;
      var r := -(k as real) / 10.0;
      assert r * 10.0 == (-k) as real && ((-k) as real).Floor == -k;
      r
  }

  /** Rounding never reverses the order of two values. */
  lemma RoundTenthMonotone(x: real, y: real)
    requires x <= y
    ensures RoundTenth(x) <= RoundTenth(y)
  {
    if 0.0 <= x {
      FloorMonotone(x * 10.0 + 0.5, y * 10.0 + 0.5);
    } else if y < 0.0 {
      FloorMonotone((-y) * 10.0 + 0.5, (-x) * 10.0 + 0.5);
    }
  }

  /** A value with one decimal is left as it is; in particular 100 stays 100. */
  lemma RoundTenthHundred()
    ensures RoundTenth(100.0) == 100.0 && RoundTenth(0.0) == 0.0
  {
    assert (100.0 * 10.0 + 0.5).Floor == 1000;
    assert (0.0 * 10.0 + 0.5).Floor == 0;
  }

  /** A rounded value above 100 comes from a value above 100. */
  lemma RoundTenthAboveHundred(x: real)
    requires RoundTenth(x) > 100.0
    ensures x > 100.0
  {
    if x <= 100.0 {
      RoundTenthMonotone(x, 100.0);
      RoundTenthHundred();
    }
  }

  // ---------------------------------------------------------------------------
  // getDashboardSummary

  datatype DashboardSummary = DashboardSummary(balance: real, income: real, expenses: real, savingsRate: real)

  /** `income > 0 ? (income - expenses) / income * 100 : 0`, rounded to one decimal. */
  function SavingsRate(income: real, expenses: real): (r: real)
    ensures OneDecimal(r)
    ensures income <= 0.0 ==> r == 0.0
    ensures income > 0.0 ==>
      (income - expenses) / income * 100.0 - 0.05 <= r <= (income - expenses) / income * 100.0 + 0.05
  {
    if income > 0.0 then RoundTenth((income - expenses) / income * 100.0) else 0.0
  }

  /** The dashboard summary of one user's transactions. */
  function Summarize(ts: seq<Transaction>): (r: DashboardSummary)
    ensures r.income == IncomeTotal(ts) && r.expenses == ExpenseTotal(ts)
    ensures r.balance == r.income - r.expenses
    ensures r.savingsRate == SavingsRate(r.income, r.expenses)
    ensures ts == [] ==> r == DashboardSummary(0.0, 0.0, 0.0, 0.0)
  {
    var income := IncomeTotal(ts);
    var expenses := ExpenseTotal(ts);
    DashboardSummary(income - expenses, income, expenses, SavingsRate(income, expenses))
  }

  /** A transaction whose type is neither "income" nor "expense" counts in neither total, wherever it stands. */
  lemma {:induction false} OtherTypesIgnored(ts: seq<Transaction>, k: int, t: Transaction)
    requires 0 <= k <= |ts|
    requires t.kind != "income" && t.kind != "expense"
    ensures Summarize(ts[..k] + [t] + ts[k..]) == Summarize(ts)
  {
    var a, b := ts[..k], ts[k..];
    assert ts == a + b;
    assert [t][..0] == [];
    TypeTotalConcat(a + [t], b, "income");
    TypeTotalConcat(a, [t], "income");
    TypeTotalConcat(a, b, "income");
    TypeTotalConcat(a + [t], b, "expense");
    TypeTotalConcat(a, [t], "expense");
    TypeTotalConcat(a, b, "expense");
  }

  lemma RatioAtMostOne(a: real, b: real)
    requires 0.0 < b && a <= b
    ensures a / b <= 1.0
  {
  }

  /** With non-negative amounts, the savings rate is at most 100. */
  lemma SavingsRateAtMostHundred(ts: seq<Transaction>)
    requires NonNegativeAmounts(ts)
    ensures Summarize(ts).savingsRate <= 100.0
  {
    var income, expenses := IncomeTotal(ts), ExpenseTotal(ts);
    TotalsNonNegative(ts, "");
    if income > 0.0 {
      var x := (income - expenses) / income * 100.0;
      RatioAtMostOne(income - expenses, income);
      RoundTenthMonotone(x, 100.0);
      RoundTenthHundred();
    }
  }

  // ---------------------------------------------------------------------------
  // getExpenseBreakdown

  /** One `{category, amount}` entry of a `Record<string, number>`. */
  datatype CategoryAmount = CategoryAmount(category: string, amount: real)

  function Keys(d: seq<CategoryAmount>): (ks: seq<string>)
    ensures |ks| == |d| && forall i :: 0 <= i < |d| ==> ks[i] == d[i].category
  {
    if d == [] then [] else [d[0].category] + Keys(d[1..])
  }

  predicate DistinctKeys(d: seq<CategoryAmount>) {
    forall i, j :: 0 <= i < j < |d| ==> d[i].category != d[j].category
  }

  /** `dict[c] || 0`. */
  function Lookup(d: seq<CategoryAmount>, c: string): real {
    if d == [] then 0.0 else if d[0].category == c then d[0].amount else Lookup(d[1..], c)
  }

  /** Sum of the amounts of the entries. */
  function Sum(d: seq<CategoryAmount>): real {
    if d == [] then 0.0 else d[0].amount + Sum(d[1..])
  }

  lemma {:induction false} SumConcat(a: seq<CategoryAmount>, b: seq<CategoryAmount>)
    ensures Sum(a + b) == Sum(a) + Sum(b)
  {
    if a != [] {
      assert (a + b)[1..] == a[1..] + b;
      SumConcat(a[1..], b);
    } else {
      assert a + b == b;
    }
  }

  /** In a dictionary, the entry of a key holds the value looked up for that key. */
  lemma {:induction false} LookupEntry(d: seq<CategoryAmount>, i: int)
    requires DistinctKeys(d) && 0 <= i < |d|
    ensures Lookup(d, d[i].category) == d[i].amount
  {
    if i > 0 {
      LookupEntry(d[1..], i - 1);
    }
  }

  /** `dict[c] = (dict[c] || 0) + a` on an insertion-ordered dictionary. */
  function AddTo(d: seq<CategoryAmount>, c: string, a: real): (r: seq<CategoryAmount>)
    ensures Keys(r) == if c in Keys(d) then Keys(d) else Keys(d) + [c]
    ensures Sum(r) == Sum(d) + a
    ensures forall k :: Lookup(r, k) == Lookup(d, k) + (if k == c then a else 0.0)
    ensures DistinctKeys(d) ==> DistinctKeys(r)
  {
    if d == [] then
      var r := [CategoryAmount(c, a)];
      assert r[1..] == [];
      r
    else if d[0].category == c then
      var r := [d[0].(amount := d[0].amount + a)] + d[1..];
      AddToHead(d, c, a, r);
      r
    else
      var rest := AddTo(d[1..], c, a);
      var r := [d[0]] + rest;
      AddToCons(d, c, a, rest, r);
      r
  }

  /** What adding `a` under key `c` does to a dictionary `d`, giving `r`. */
  ghost predicate Added(d: seq<CategoryAmount>, c: string, a: real, r: seq<CategoryAmount>) {
    && Keys(r) == (if c in Keys(d) then Keys(d) else Keys(d) + [c])
    && Sum(r) == Sum(d) + a
    && (forall k :: Lookup(r, k) == Lookup(d, k) + (if k == c then a else 0.0))
    && (DistinctKeys(d) ==> DistinctKeys(r))
  }

  /** Adding to the first entry's key changes that entry's amount only. */
  lemma AddToHead(d: seq<CategoryAmount>, c: string, a: real, r: seq<CategoryAmount>)
    requires d != [] && d[0].category == c
    requires r == [d[0].(amount := d[0].amount + a)] + d[1..]
    ensures Added(d, c, a, r)
  {
    var e, tail := d[0], d[1..];
    assert r[0] == e.(amount := e.amount + a) && r[1..] == tail;
    assert Sum(r) == e.amount + a + Sum(tail);
    assert Sum(d) == e.amount + Sum(tail);
    forall k
      ensures Lookup(r, k) == Lookup(d, k) + (if k == c then a else 0.0)
    {
      if k != c {
        assert Lookup(r, k) == Lookup(tail, k);
        assert Lookup(d, k) == Lookup(tail, k);
      }
    }
    DistinctTail(d);
    DistinctCons(r[0], tail);
    assert Keys(d)[0] == c;
  }

  /** Adding to a later key passes the first entry through unchanged. */
  lemma AddToCons(d: seq<CategoryAmount>, c: string, a: real, rest: seq<CategoryAmount>, r: seq<CategoryAmount>)
    requires d != [] && d[0].category != c
    requires Added(d[1..], c, a, rest)
    requires r == [d[0]] + rest
    ensures Added(d, c, a, r)
  {
    var e, tail := d[0], d[1..];
    assert r[0] == e && r[1..] == rest;
    assert Sum(r) == e.amount + Sum(rest);
    assert Sum(d) == e.amount + Sum(tail);
    forall k
      ensures Lookup(r, k) == Lookup(d, k) + (if k == c then a else 0.0)
    {
      if k != e.category {
        assert Lookup(r, k) == Lookup(rest, k);
        assert Lookup(d, k) == Lookup(tail, k);
      }
    }
    DistinctTail(d);
    DistinctCons(e, rest);
    if c in Keys(tail) {
      assert Keys(rest) == Keys(tail);
      assert c in Keys(d);
    } else {
      assert Keys(rest) == Keys(tail) + [c];
      assert Keys(r) == [e.category] + (Keys(tail) + [c]);
      assert Keys(d) + [c] == [e.category] + (Keys(tail) + [c]);
      assert c !in Keys(d);
    }
  }

  lemma DistinctTail(d: seq<CategoryAmount>)
    requires d != []
    ensures Keys(d) == [d[0].category] + Keys(d[1..])
    ensures DistinctKeys(d) ==> DistinctKeys(d[1..]) && d[0].category !in Keys(d[1..])
  {
  }

  lemma DistinctCons(e: CategoryAmount, rest: seq<CategoryAmount>)
    ensures Keys([e] + rest) == [e.category] + Keys(rest)
    ensures DistinctKeys(rest) && e.category !in Keys(rest) ==> DistinctKeys([e] + rest)
  {
    var r := [e] + rest;
    assert r[1..] == rest;
    if DistinctKeys(rest) && e.category !in Keys(rest) {
      forall i, j | 0 <= i < j < |r|
        ensures r[i].category != r[j].category
      {
        assert r[j].category == Keys(rest)[j - 1];
      }
    }
  }

  /** The dictionary built by the `forEach` over the expense transactions. */
  function Tally(ts: seq<Transaction>): (d: seq<CategoryAmount>)
    ensures DistinctKeys(d)
    ensures Sum(d) == ExpenseTotal(ts)
    decreases |ts|
  {
    if ts == [] then []
    else
      var t := ts[|ts| - 1];
      var d := Tally(ts[..|ts| - 1]);
      if t.kind == "expense" then AddTo(d, t.category, t.amount) else d
  }

  /** The tally's keys are the expense categories, once each, in order of first occurrence. */
  lemma {:induction false} TallyKeys(ts: seq<Transaction>)
    ensures Keys(Tally(ts)) == Distinct(ExpenseCategories(ts))
    decreases |ts|
  {
    if ts != [] {
      var init := ts[..|ts| - 1];
      var t := ts[|ts| - 1];
      TallyKeys(init);
      if t.kind == "expense" {
        var cs := ExpenseCategories(init) + [t.category];
        assert ExpenseCategories(ts) == cs;
        assert cs[..|cs| - 1] == ExpenseCategories(init);
      } else {
        assert ExpenseCategories(ts) == ExpenseCategories(init);
      }
    }
  }

  /** The tally's value for a category is that category's expense total. */
  lemma {:induction false} TallyLookup(ts: seq<Transaction>, c: string)
    ensures Lookup(Tally(ts), c) == SpentIn(ts, c)
    decreases |ts|
  {
    if ts != [] {
      TallyLookup(ts[..|ts| - 1], c);
    }
  }

  // JavaScript orders the own keys of an object: array indices first, in
  // ascending numeric order, then the other string keys in insertion order.

  predicate IsDigit(c: char) { '0' <= c <= '9' }

  /** The value of a decimal numeral (a non-digit counts as 0; only numerals are asked). */
  function DigitsValue(s: string): nat {
    if s == [] then 0
    else
      var c := s[|s| - 1];
      DigitsValue(s[..|s| - 1]) * 10 + (if IsDigit(c) then c as int - '0' as int else 0)
  }

  /** A canonical array index: "0" or a numeral without leading zero, below 2^32 - 1. */
  predicate IsArrayIndex(s: string): (b: bool)
    ensures b ==> 1 <= |s| <= 10
    ensures b && |s| > 1 ==> s[0] != '0'
  {
    DigitsAtLeast(s);
    Pow10Grows(10, |s| - 1);
    && |s| >= 1
    && (forall i :: 0 <= i < |s| ==> IsDigit(s[i]))
    && (s[0] == '0' ==> |s| == 1)
    && DigitsValue(s) < 0xFFFF_FFFF
  }

  function Pow10(n: nat): (p: nat)
    ensures p >= 1
  {
    if n == 0 then 1 else 10 * Pow10(n - 1)
  }

  lemma {:induction false} Pow10Grows(m: nat, n: int)
    ensures m <= n ==> Pow10(m) <= Pow10(n)
    decreases n
  {
    if m < n {
      Pow10Grows(m, n - 1);
    }
  }

  /** A numeral of `n` digits without leading zero is at least 10^(n-1). */
  lemma {:induction false} DigitsAtLeast(s: string)
    ensures |s| >= 1 && (forall i :: 0 <= i < |s| ==> IsDigit(s[i])) && s[0] != '0'
      ==> DigitsValue(s) >= Pow10(|s| - 1)
    decreases |s|
  {
    if |s| > 1 {
      var init := s[..|s| - 1];
      assert init[0] == s[0];
      DigitsAtLeast(init);
    }
  }

  function IndexValue(e: CategoryAmount): nat {
    DigitsValue(e.category)
  }

  predicate AllIndexKeys(d: seq<CategoryAmount>) {
    forall i :: 0 <= i < |d| ==> IsArrayIndex(d[i].category)
  }

  predicate AscendingIndices(d: seq<CategoryAmount>) {
    forall i, j :: 0 <= i < j < |d| ==> IndexValue(d[i]) <= IndexValue(d[j])
  }

  /** The entries whose key is an array index, in dictionary order. */
  function IndexEntries(d: seq<CategoryAmount>): (r: seq<CategoryAmount>)
    ensures AllIndexKeys(r)
    ensures forall e :: e in r <==> e in d && IsArrayIndex(e.category)
  {
    if d == [] then []
    else
      var rest := IndexEntries(d[1..]);
      assert d == [d[0]] + d[1..];
      if IsArrayIndex(d[0].category) then [d[0]] + rest
      else rest
  }

  /** The entries whose key is not an array index, in dictionary order. */
  function NamedEntries(d: seq<CategoryAmount>): (r: seq<CategoryAmount>)
    ensures forall i :: 0 <= i < |r| ==> !IsArrayIndex(r[i].category)
    ensures forall e :: e in r <==> e in d && !IsArrayIndex(e.category)
    ensures (forall i :: 0 <= i < |d| ==> !IsArrayIndex(d[i].category)) ==> r == d
  {
    if d == [] then []
    else
      var rest := NamedEntries(d[1..]);
      assert d == [d[0]] + d[1..];
      if IsArrayIndex(d[0].category) then rest
      else [d[0]] + rest
  }

  /** The two parts together hold the whole dictionary, amount for amount. */
  lemma {:induction false} PartsPartition(d: seq<CategoryAmount>)
    ensures multiset(IndexEntries(d)) + multiset(NamedEntries(d)) == multiset(d)
  {
    if d != [] {
      var rest := d[1..];
      PartsPartition(rest);
      assert d == [d[0]] + rest;
      if IsArrayIndex(d[0].category) {
        assert IndexEntries(d) == [d[0]] + IndexEntries(rest);
        assert NamedEntries(d) == NamedEntries(rest);
      } else {
        assert IndexEntries(d) == IndexEntries(rest);
        assert NamedEntries(d) == [d[0]] + NamedEntries(rest);
      }
    }
  }

  /** Inserts an array-index entry before the first entry with a larger or equal index. */
  function InsertByIndex(e: CategoryAmount, s: seq<CategoryAmount>): (r: seq<CategoryAmount>)
    ensures multiset(r) == multiset(s) + multiset{e}
  {
    if s == [] || IndexValue(e) <= IndexValue(s[0]) then [e] + s
    else
      assert s == [s[0]] + s[1..];
      [s[0]] + InsertByIndex(e, s[1..])
  }

  /** An entry no larger than every entry of an ascending list can go in front of it. */
  lemma ConsAscending(x: CategoryAmount, rest: seq<CategoryAmount>)
    requires AscendingIndices(rest)
    requires forall y :: y in rest ==> IndexValue(x) <= IndexValue(y)
    ensures AscendingIndices([x] + rest)
  {
    var r := [x] + rest;
    forall i, j | 0 <= i < j < |r|
      ensures IndexValue(r[i]) <= IndexValue(r[j])
    {
      assert r[j] == rest[j - 1];
      if i > 0 {
        assert r[i] == rest[i - 1];
      }
    }
  }

  lemma {:induction false} InsertAscending(e: CategoryAmount, s: seq<CategoryAmount>)
    requires AscendingIndices(s)
    ensures AscendingIndices(InsertByIndex(e, s))
  {
    if s == [] {
      assert InsertByIndex(e, s) == [e];
    } else if IndexValue(e) <= IndexValue(s[0]) {
      forall y | y in s
        ensures IndexValue(e) <= IndexValue(y)
      {
        var k :| 0 <= k < |s| && s[k] == y;
      }
      ConsAscending(e, s);
    } else {
      var tail := s[1..];
      assert AscendingIndices(tail) by {
        forall i, j | 0 <= i < j < |tail|
          ensures IndexValue(tail[i]) <= IndexValue(tail[j])
        {
          assert tail[i] == s[i + 1] && tail[j] == s[j + 1];
        }
      }
      InsertAscending(e, tail);
      var rest := InsertByIndex(e, tail);
      forall x | x in rest
        ensures IndexValue(s[0]) <= IndexValue(x)
      {
        assert x in multiset(rest);
        if x != e {
          var k :| 0 <= k < |tail| && tail[k] == x;
          assert s[k + 1] == x;
        }
      }
      ConsAscending(s[0], rest);
    }
  }

  /** Ascending numeric order of the array-index entries (an insertion sort). */
  function SortByIndex(s: seq<CategoryAmount>): (r: seq<CategoryAmount>)
    ensures multiset(r) == multiset(s)
  {
    if s == [] then []
    else
      assert s == [s[0]] + s[1..];
      InsertByIndex(s[0], SortByIndex(s[1..]))
  }

  lemma {:induction false} SortAscending(s: seq<CategoryAmount>)
    ensures AscendingIndices(SortByIndex(s))
  {
    if s != [] {
      SortAscending(s[1..]);
      InsertAscending(s[0], SortByIndex(s[1..]));
    }
  }

  /** Taking one entry out of a list takes its amount out of the sum. */
  lemma {:induction false} SumRemove(b: seq<CategoryAmount>, k: int)
    requires 0 <= k < |b|
    ensures Sum(b) == b[k].amount + Sum(b[..k] + b[k + 1..])
  {
    var without := b[..k] + b[k + 1..];
    if k == 0 {
      assert without == b[1..];
    } else {
      var tail := b[1..];
      SumRemove(tail, k - 1);
      assert without[0] == b[0];
      assert without[1..] == tail[..k - 1] + tail[k..];
    }
  }

  /** Taking one entry out of a list takes it out of the multiset. */
  lemma MultisetRemove(b: seq<CategoryAmount>, k: int)
    requires 0 <= k < |b|
    ensures multiset(b[..k] + b[k + 1..]) == multiset(b) - multiset{b[k]}
  {
    assert b == b[..k] + [b[k]] + b[k + 1..];
  }

  /** Reordering entries keeps their sum. */
  lemma {:induction false} SumPermutation(a: seq<CategoryAmount>, b: seq<CategoryAmount>)
    requires multiset(a) == multiset(b)
    ensures Sum(a) == Sum(b)
    decreases |a|
  {
    if a == [] {
      assert |b| == |multiset(b)| == 0;
    } else {
      assert a[0] in multiset(b);
      var k :| 0 <= k < |b| && b[k] == a[0];
      var b' := b[..k] + b[k + 1..];
      MultisetRemove(b, k);
      assert a == [a[0]] + a[1..];
      assert multiset(a[1..]) == multiset(a) - multiset{a[0]};
      SumPermutation(a[1..], b');
      SumRemove(b, k);
    }
  }

  /** A list with distinct keys holds no entry twice. */
  lemma {:induction false} DistinctKeysNoRepeats(a: seq<CategoryAmount>, x: CategoryAmount)
    requires DistinctKeys(a)
    ensures multiset(a)[x] <= 1
  {
    if a != [] {
      DistinctKeysNoRepeats(a[1..], x);
      assert a == [a[0]] + a[1..];
      if a[0] == x {
        assert x !in a[1..];
      }
    }
  }

  /** Reordering entries with distinct keys keeps the keys distinct. */
  lemma DistinctKeysPermutation(a: seq<CategoryAmount>, b: seq<CategoryAmount>)
    requires multiset(a) == multiset(b) && DistinctKeys(a)
    ensures DistinctKeys(b)
  {
    forall i, j | 0 <= i < j < |b|
      ensures b[i].category != b[j].category
    {
      if b[i] == b[j] {
        assert b == b[..i] + [b[i]] + b[i + 1..j] + [b[j]] + b[j + 1..];
        assert multiset(b)[b[i]] >= 2;
        DistinctKeysNoRepeats(a, b[i]);
      } else {
        assert b[i] in multiset(a) && b[j] in multiset(a);
        var p :| 0 <= p < |a| && a[p] == b[i];
        var q :| 0 <= q < |a| && a[q] == b[j];
        assert p != q;
      }
    }
  }

  /** `Object.entries(dict)`: array-index keys first in ascending order, then the others in insertion order. */
  function ObjectEntries(d: seq<CategoryAmount>): (r: seq<CategoryAmount>)
    ensures multiset(r) == multiset(d)
    ensures (forall i :: 0 <= i < |d| ==> !IsArrayIndex(d[i].category)) ==> r == d
  {
    PartsPartition(d);
    assert (forall i :: 0 <= i < |d| ==> !IsArrayIndex(d[i].category)) ==> IndexEntries(d) == [] by {
      if IndexEntries(d) != [] {
        assert IndexEntries(d)[0] in d;
      }
    }
    SortByIndex(IndexEntries(d)) + NamedEntries(d)
  }

  /** The expense breakdown as specified: the entries of the tally of the expense transactions. */
  function ExpenseBreakdownOf(ts: seq<Transaction>): seq<CategoryAmount> {
    ObjectEntries(Tally(ts))
  }

  /**
   * getExpenseBreakdown: walks the user's transactions once, adding each
   * expense amount into the dictionary entry of its category, then lists the
   * dictionary's entries.
   */
  method ExpenseBreakdown(ts: seq<Transaction>) returns (r: seq<CategoryAmount>)
    ensures r == ExpenseBreakdownOf(ts)
  {
    var byCategory: seq<CategoryAmount> := [];
    for i := 0 to |ts|
      invariant byCategory == Tally(ts[..i])
    {
      assert ts[..i + 1][..i] == ts[..i];
      var t := ts[i];
      if t.kind == "expense" {
        byCategory := AddTo(byCategory, t.category, t.amount);
      }
    }
    assert ts[..|ts|] == ts;
    r := ObjectEntries(byCategory);
  }

  /** The breakdown's amounts add up to the summary's expenses. */
  lemma BreakdownSum(ts: seq<Transaction>)
    ensures Sum(ExpenseBreakdownOf(ts)) == Summarize(ts).expenses
  {
    SumPermutation(Tally(ts), ExpenseBreakdownOf(ts));
  }

  /** No category appears twice in the breakdown. */
  lemma BreakdownDistinct(ts: seq<Transaction>)
    ensures DistinctKeys(ExpenseBreakdownOf(ts))
  {
    DistinctKeysPermutation(Tally(ts), ExpenseBreakdownOf(ts));
  }

  /** Each entry of the breakdown is a category with an expense, holding that category's expense total. */
  lemma BreakdownEntries(ts: seq<Transaction>)
    ensures forall e :: e in ExpenseBreakdownOf(ts) ==>
      e.category in ExpenseCategories(ts) && e.amount == SpentIn(ts, e.category)
  {
    var d := Tally(ts);
    forall e | e in ExpenseBreakdownOf(ts)
      ensures e.category in ExpenseCategories(ts) && e.amount == SpentIn(ts, e.category)
    {
      assert e in multiset(d);
      var j :| 0 <= j < |d| && d[j] == e;
      TallyEntry(ts, j);
    }
  }

  /** Each entry of the tally is a category with an expense, holding that category's expense total. */
  lemma TallyEntry(ts: seq<Transaction>, j: int)
    requires 0 <= j < |Tally(ts)|
    ensures Tally(ts)[j].category in ExpenseCategories(ts)
    ensures Tally(ts)[j].amount == SpentIn(ts, Tally(ts)[j].category)
  {
    var d := Tally(ts);
    TallyKeys(ts);
    LookupEntry(d, j);
    TallyLookup(ts, d[j].category);
    assert Keys(d)[j] == d[j].category;
    assert d[j].category in Distinct(ExpenseCategories(ts));
  }

  /** Reordering entries keeps the set of keys. */
  lemma KeyPermutation(a: seq<CategoryAmount>, b: seq<CategoryAmount>, c: string)
    requires multiset(a) == multiset(b) && c in Keys(a)
    ensures c in Keys(b)
  {
    var j :| 0 <= j < |a| && Keys(a)[j] == c;
    assert a[j] in multiset(b);
    var i :| 0 <= i < |b| && b[i] == a[j];
    assert Keys(b)[i] == c;
  }

  /** Every category with an expense has an entry in the breakdown. */
  lemma BreakdownCovers(ts: seq<Transaction>)
    ensures forall c :: c in ExpenseCategories(ts) ==> c in Keys(ExpenseBreakdownOf(ts))
  {
    TallyKeys(ts);
    forall c | c in ExpenseCategories(ts)
      ensures c in Keys(ExpenseBreakdownOf(ts))
    {
      KeyPermutation(Tally(ts), ExpenseBreakdownOf(ts), c);
    }
  }

  /** When no category name is an array index, the entries come in order of first occurrence. */
  lemma BreakdownOrder(ts: seq<Transaction>)
    requires forall c :: c in ExpenseCategories(ts) ==> !IsArrayIndex(c)
    ensures Keys(ExpenseBreakdownOf(ts)) == Distinct(ExpenseCategories(ts))
  {
    var d := Tally(ts);
    TallyKeys(ts);
    forall i | 0 <= i < |d|
      ensures !IsArrayIndex(d[i].category)
    {
      assert Keys(d)[i] == d[i].category;
      assert d[i].category in Distinct(ExpenseCategories(ts));
    }
  }

  // ---------------------------------------------------------------------------
  // getIncomeVsExpense

  /** Short month names of the default (en-US) locale. */
  const ShortMonthNames: seq<string> :=
    ["Jan", "Feb", "Mar", "Apr", "May", "Jun", "Jul", "Aug", "Sep", "Oct", "Nov", "Dec"]

  /** `toLocaleString('default', { month: 'short' })` of a valid date in month `m`. */
  function MonthLabel(m: Month): (name: string)
    ensures |name| == 3
  {
    ShortMonthNames[m]
  }

  /** What `toLocaleString` returns for an invalid date. */
  const InvalidDateLabel: string := "Invalid Date"

  /** The month label of a transaction date. */
  function DateLabel(d: Date): (name: string)
    ensures name == InvalidDateLabel <==> d.InvalidDate?
    ensures d.Date? ==> name == MonthLabel(d.month)
  {
    if d.InvalidDate? then InvalidDateLabel else MonthLabel(d.month)
  }

  /** Labels identify months: two months share a label only if they are the same month. */
  lemma MonthLabelsDistinct(m: Month, n: Month)
    ensures MonthLabel(m) == MonthLabel(n) <==> m == n
    ensures MonthLabel(m) != InvalidDateLabel
  {
    if m != n {
      assert MonthLabel(m)[0] != MonthLabel(n)[0] || MonthLabel(m)[1] != MonthLabel(n)[1]
        || MonthLabel(m)[2] != MonthLabel(n)[2];
    }
  }

  /** The `j`-th month (0 = oldest) of the six-month window ending at `current`: `5 - j` months before it. */
  function WindowMonth(current: Month, j: int): (m: Month)
    requires 0 <= j < 6
    ensures (current - m) % 12 == 5 - j
  {
    var m := (current - 5 + j) % 12;
    if current - 5 + j >= 0 then
      assert m == current - 5 + j;
      m
    else
      assert m == current - 5 + j + 12;
      assert current - m == (5 - j) - 12;
      m
  }

  /** The labels of the six-month window, oldest first. */
  function WindowLabels(current: Month): (labels: seq<string>)
    ensures |labels| == 6
  {
    seq(6, j requires 0 <= j < 6 => MonthLabel(WindowMonth(current, j)))
  }

  /** The six labels are pairwise distinct and the last one is the current month's. */
  lemma WindowLabelsDistinct(current: Month)
    ensures forall i, j :: 0 <= i < j < 6 ==> WindowLabels(current)[i] != WindowLabels(current)[j]
    ensures WindowLabels(current)[5] == MonthLabel(current)
  {
    var labels := WindowLabels(current);
    forall i, j | 0 <= i < j < 6
      ensures labels[i] != labels[j]
    {
      MonthLabelsDistinct(WindowMonth(current, i), WindowMonth(current, j));
    }
  }

  /** A month is in the window ending at `current` when it is at most five months back. */
  predicate InWindow(current: Month, m: Month) {
    (current - m) % 12 < 6
  }

  /** Income booked under `monthLabel`: type exactly "income". */
  function MonthIncome(ts: seq<Transaction>, monthLabel: string): real
    decreases |ts|
  {
    if ts == [] then 0.0
    else
      var t := ts[|ts| - 1];
      MonthIncome(ts[..|ts| - 1], monthLabel)
        + (if DateLabel(t.date) == monthLabel && t.kind == "income" then t.amount else 0.0)
  }

  /** Expenses booked under `monthLabel`: every type other than "income". */
  function MonthExpenses(ts: seq<Transaction>, monthLabel: string): real
    decreases |ts|
  {
    if ts == [] then 0.0
    else
      var t := ts[|ts| - 1];
      MonthExpenses(ts[..|ts| - 1], monthLabel)
        + (if DateLabel(t.date) == monthLabel && t.kind != "income" then t.amount else 0.0)
  }

  /** One `{month, income, expenses}` entry of the series. */
  datatype MonthTotals = MonthTotals(month: string, income: real, expenses: real)

  /** The totals of `ts` for each label. */
  function Series(ts: seq<Transaction>, labels: seq<string>): (r: seq<MonthTotals>)
    ensures |r| == |labels|
  {
    seq(|labels|, j requires 0 <= j < |labels| =>
      MonthTotals(labels[j], MonthIncome(ts, labels[j]), MonthExpenses(ts, labels[j])))
  }

  /** The income-versus-expense series as specified. */
  function IncomeVsExpenseOf(ts: seq<Transaction>, current: Month): seq<MonthTotals> {
    Series(ts, WindowLabels(current))
  }

  /** `data.find(entry => entry.month === monthLabel)`, as an index, or -1. */
  function FindMonth(data: seq<MonthTotals>, monthLabel: string): (k: int)
    ensures -1 <= k < |data|
    ensures k >= 0 ==> data[k].month == monthLabel && forall i :: 0 <= i < k ==> data[i].month != monthLabel
    ensures k == -1 ==> forall i :: 0 <= i < |data| ==> data[i].month != monthLabel
  {
    if data == [] then -1
    else if data[0].month == monthLabel then 0
    else
      var k := FindMonth(data[1..], monthLabel);
      if k == -1 then -1 else k + 1
  }

  /** What adding one transaction does to a series: only the entry carrying its month's label changes. */
  function MonthStep(data: seq<MonthTotals>, t: Transaction): seq<MonthTotals> {
    var k := FindMonth(data, DateLabel(t.date));
    if k == -1 then data
    else if t.kind == "income" then data[k := data[k].(income := data[k].income + t.amount)]
    else data[k := data[k].(expenses := data[k].expenses + t.amount)]
  }

  /** With distinct labels, adding one transaction to the list is one step of the series. */
  lemma SeriesStep(ts: seq<Transaction>, labels: seq<string>, t: Transaction)
    requires forall i, j :: 0 <= i < j < |labels| ==> labels[i] != labels[j]
    ensures Series(ts + [t], labels) == MonthStep(Series(ts, labels), t)
  {
    var s := ts + [t];
    assert s[..|s| - 1] == ts;
  }

  /** The labels of the six months ending at the current one, oldest first. */
  method MonthWindow(currentMonth: Month) returns (months: seq<string>)
    ensures months == WindowLabels(currentMonth)
  {
    months := [];
    var i := 5;
    while i >= 0
      invariant -1 <= i <= 5
      invariant months == WindowLabels(currentMonth)[..5 - i]
    {
      assert (currentMonth - i) % 12 == WindowMonth(currentMonth, 5 - i);
      assert WindowLabels(currentMonth)[..6 - i]
          == WindowLabels(currentMonth)[..5 - i] + [WindowLabels(currentMonth)[5 - i]];
      months := months + [MonthLabel((currentMonth - i) % 12)];
      i := i - 1;
    }
  }

  /** The `forEach` callback: adds `t`'s amount to the entry carrying its month's label, if any. */
  method BookTransaction(data: array<MonthTotals>, t: Transaction)
    modifies data
    ensures data[..] == MonthStep(old(data[..]), t)
  {
    var j := FindMonth(data[..], DateLabel(t.date));
    if j >= 0 {
      var e := data[j];
      if t.kind == "income" {
        data[j] := e.(income := e.income + t.amount);
      } else {
        data[j] := e.(expenses := e.expenses + t.amount);
      }
    }
  }

  /**
   * getIncomeVsExpense: builds the six month labels ending at the current
   * month, starts each entry at zero, then adds each transaction's amount to
   * the entry whose label is its month's: to income when its type is
   * "income", to expenses otherwise; a transaction whose month has no entry
   * is dropped.
   */
  method IncomeVsExpense(ts: seq<Transaction>, currentMonth: Month) returns (r: seq<MonthTotals>)
    ensures r == IncomeVsExpenseOf(ts, currentMonth)
  {
    var months := MonthWindow(currentMonth);
    WindowLabelsDistinct(currentMonth);
    var data := new MonthTotals[6](j requires 0 <= j < 6 => MonthTotals(months[j], 0.0, 0.0));
    assert data[..] == Series([], months);
    for k := 0 to |ts|
      invariant data[..] == Series(ts[..k], months)
    {
      var t := ts[k];
      assert ts[..k + 1] == ts[..k] + [t];
      SeriesStep(ts[..k], months, t);
      BookTransaction(data, t);
    }
    assert ts[..|ts|] == ts;
    r := data[..];
  }

  /**
   * The series has six entries, for the six months ending at the current
   * one, oldest first, with distinct labels; each entry holds the income and
   * the non-income amounts of the transactions carrying its month label.
   */
  lemma IncomeVsExpenseShape(ts: seq<Transaction>, current: Month)
    ensures |IncomeVsExpenseOf(ts, current)| == 6
    ensures forall j :: 0 <= j < 6 ==>
      IncomeVsExpenseOf(ts, current)[j].month == MonthLabel(WindowMonth(current, j))
    ensures IncomeVsExpenseOf(ts, current)[5].month == MonthLabel(current)
    ensures forall i, j :: 0 <= i < j < 6 ==>
      IncomeVsExpenseOf(ts, current)[i].month != IncomeVsExpenseOf(ts, current)[j].month
  {
    WindowLabelsDistinct(current);
  }

  /** The year of a transaction's date plays no part: only its month label is compared. */
  lemma {:induction false} YearIgnored(ts: seq<Transaction>, k: int, year: int, current: Month)
    requires 0 <= k < |ts| && ts[k].date.Date?
    ensures IncomeVsExpenseOf(ts[k := ts[k].(date := ts[k].date.(year := year))], current)
         == IncomeVsExpenseOf(ts, current)
  {
    var us := ts[k := ts[k].(date := ts[k].date.(year := year))];
    forall monthLabel | true
      ensures MonthIncome(us, monthLabel) == MonthIncome(ts, monthLabel)
      ensures MonthExpenses(us, monthLabel) == MonthExpenses(ts, monthLabel)
    {
      SameLabelsSameTotals(ts, us, monthLabel);
    }
  }

  /** Two lists that agree on amounts, types and month labels give the same monthly totals. */
  lemma {:induction false} SameLabelsSameTotals(ts: seq<Transaction>, us: seq<Transaction>, monthLabel: string)
    requires |ts| == |us|
    requires forall i :: 0 <= i < |ts| ==>
      ts[i].amount == us[i].amount && ts[i].kind == us[i].kind && DateLabel(ts[i].date) == DateLabel(us[i].date)
    ensures MonthIncome(us, monthLabel) == MonthIncome(ts, monthLabel)
    ensures MonthExpenses(us, monthLabel) == MonthExpenses(ts, monthLabel)
    decreases |ts|
  {
    if ts != [] {
      SameLabelsSameTotals(ts[..|ts| - 1], us[..|us| - 1], monthLabel);
    }
  }

  /** A transaction whose month is outside the window, or whose date is invalid, changes nothing. */
  lemma OutsideWindowDropped(ts: seq<Transaction>, t: Transaction, current: Month)
    requires t.date.InvalidDate? || !InWindow(current, t.date.month)
    ensures IncomeVsExpenseOf(ts + [t], current) == IncomeVsExpenseOf(ts, current)
  {
    var labels := WindowLabels(current);
    forall j | 0 <= j < 6
      ensures DateLabel(t.date) != labels[j]
    {
      if t.date.Date? {
        MonthLabelsDistinct(WindowMonth(current, j), t.date.month);
      } else {
        MonthLabelsDistinct(WindowMonth(current, j), 0);
      }
    }
    var s := ts + [t];
    assert s[..|s| - 1] == ts;
  }

  // ---------------------------------------------------------------------------
  // getBudgetProgress

  /** One `{category, budgetAmount, spent, percentUsed, remaining}` entry. */
  datatype BudgetProgress = BudgetProgress(
    category: string, budgetAmount: real, spent: real, percentUsed: real, remaining: real)

  /** `budgetAmount > 0 ? spent / budgetAmount * 100 : 0`, rounded to one decimal. */
  function PercentUsed(spent: real, budgetAmount: real): (p: real)
    ensures OneDecimal(p)
    ensures budgetAmount <= 0.0 ==> p == 0.0
    ensures budgetAmount > 0.0 ==>
      spent / budgetAmount * 100.0 - 0.05 <= p <= spent / budgetAmount * 100.0 + 0.05
  {
    if budgetAmount > 0.0 then RoundTenth(spent / budgetAmount * 100.0) else 0.0
  }

  /** The progress entry of one budget against the user's transactions. */
  function ProgressOf(b: Budget, ts: seq<Transaction>): (r: BudgetProgress)
    ensures r.category == b.category && r.budgetAmount == b.amount
    ensures r.spent == SpentIn(ts, b.category)
    ensures r.remaining == r.budgetAmount - r.spent
    ensures r.percentUsed == PercentUsed(r.spent, r.budgetAmount)
  {
    var spent := SpentIn(ts, b.category);
    BudgetProgress(b.category, b.amount, spent, PercentUsed(spent, b.amount), b.amount - spent)
  }

  /** getBudgetProgress: one entry per budget, in budget order. */
  function BudgetProgressOf(bs: seq<Budget>, ts: seq<Transaction>): (r: seq<BudgetProgress>)
    ensures |r| == |bs|
    ensures forall i :: 0 <= i < |bs| ==> r[i] == ProgressOf(bs[i], ts)
  {
    seq(|bs|, i requires 0 <= i < |bs| => ProgressOf(bs[i], ts))
  }

  /** A percentage above 100 is shown only for a budget that is really overspent (remaining < 0). */
  lemma OverHundredMeansOverspent(b: Budget, ts: seq<Transaction>)
    requires ProgressOf(b, ts).percentUsed > 100.0
    ensures ProgressOf(b, ts).remaining < 0.0
  {
    var spent := SpentIn(ts, b.category);
    RoundTenthAboveHundred(spent / b.amount * 100.0);
    assert spent / b.amount > 1.0;
    assert spent == (spent / b.amount) * b.amount;
  }

  /** The spent amount of a budget is the breakdown entry of its category, or 0 when the category has no expense. */
  lemma SpentMatchesBreakdown(b: Budget, ts: seq<Transaction>)
    ensures b.category !in ExpenseCategories(ts) ==> ProgressOf(b, ts).spent == 0.0
    ensures b.category in ExpenseCategories(ts) ==>
      exists e :: e in ExpenseBreakdownOf(ts) && e.category == b.category && e.amount == ProgressOf(b, ts).spent
  {
    BreakdownCovers(ts);
    BreakdownEntries(ts);
    var r := ExpenseBreakdownOf(ts);
    if b.category in ExpenseCategories(ts) {
      assert b.category in Keys(r);
      var i :| 0 <= i < |r| && Keys(r)[i] == b.category;
      assert r[i] in r;
    } else {
      NoExpenseNothingSpent(ts, b.category);
    }
  }

  lemma {:induction false} NoExpenseNothingSpent(ts: seq<Transaction>, category: string)
    requires category !in ExpenseCategories(ts)
    ensures SpentIn(ts, category) == 0.0
    decreases |ts|
  {
    if ts != [] {
      var init := ts[..|ts| - 1];
      assert ExpenseCategories(ts) == ExpenseCategories(init)
        + (if ts[|ts| - 1].kind == "expense" then [ts[|ts| - 1].category] else []);
      NoExpenseNothingSpent(init, category);
    }
  }
}
