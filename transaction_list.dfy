/**
 * Presentation rules shared by the transaction list and the dashboard's
 * recent-transactions card: the category badge, the sign shown before an
 * amount, and the newest-first ordering by date.
 */
module TransactionList {
  import opened Text
  import opened Schema

  // ---------------------------------------------------------------------------
  // getBadgeVariant

  datatype BadgeVariant =
    | IncomeBadge | GroceriesBadge | DiningBadge | EntertainmentBadge | ShoppingBadge
    | HousingBadge | UtilitiesBadge | TransportationBadge | DefaultBadge

  /** The lower-cased category names that have a badge of their own, with their badge. */
  const BadgeTable: seq<(string, BadgeVariant)> := [
    ("income", IncomeBadge), ("groceries", GroceriesBadge), ("dining out", DiningBadge),
    ("entertainment", EntertainmentBadge), ("shopping", ShoppingBadge), ("housing", HousingBadge),
    ("utilities", UtilitiesBadge), ("transportation", TransportationBadge)
  ]

  /** `getBadgeVariant`: the badge of a category, compared case-insensitively; any other name gets the default badge. */
  function GetBadgeVariant(category: string): (r: BadgeVariant)
    ensures r != DefaultBadge <==> (ToLower(category), r) in BadgeTable
    ensures r == DefaultBadge ==> forall i :: 0 <= i < |BadgeTable| ==> BadgeTable[i].0 != ToLower(category)
  {
    var lower := ToLower(category);
    if lower == "income" then IncomeBadge
    else if lower == "groceries" then GroceriesBadge
    else if lower == "dining out" then DiningBadge
    else if lower == "entertainment" then EntertainmentBadge
    else if lower == "shopping" then ShoppingBadge
    else if lower == "housing" then HousingBadge
    else if lower == "utilities" then UtilitiesBadge
    else if lower == "transportation" then TransportationBadge
    else DefaultBadge
  }

  /** Lower-casing a string twice, or after upper-casing it, is lower-casing it once. */
  lemma LowerAfterUpper(s: string)
    ensures ToLower(ToUpper(s)) == ToLower(s)
  {
    forall i | 0 <= i < |s|
      ensures ToLower(ToUpper(s))[i] == ToLower(s)[i]
    {
    }
  }

  /** The badge does not depend on the case in which a category is written. */
  lemma BadgeIgnoresCase(category: string)
    ensures GetBadgeVariant(ToUpper(category)) == GetBadgeVariant(category)
    ensures GetBadgeVariant(ToLower(category)) == GetBadgeVariant(category)
  {
    LowerAfterUpper(category);
    ToLowerIdempotent(category);
  }

  /** The badge of each fixed category, in the order of the category list. */
  const CategoryBadgeList: seq<BadgeVariant> := [
    GroceriesBadge, DiningBadge, EntertainmentBadge, TransportationBadge, ShoppingBadge,
    HousingBadge, UtilitiesBadge, IncomeBadge, DefaultBadge
  ]

  /** The badges of the fixed categories: "Dining Out" gets the dining badge, "Others" the default one. */
  lemma CategoryBadge(i: int)
    requires 0 <= i < |TransactionCategories|
    ensures GetBadgeVariant(TransactionCategories[i]) == CategoryBadgeList[i]
  {
    var name := TransactionCategories[i];
    if i == 0 {
      assert ToLower(name) == "groceries";
    } else if i == 1 {
      assert ToLower(name) == "dining out";
    } else if i == 2 {
      assert ToLower(name) == "entertainment";
    } else if i == 3 {
      assert ToLower(name) == "transportation";
    } else if i == 4 {
      assert ToLower(name) == "shopping";
    } else if i == 5 {
      assert ToLower(name) == "housing";
    } else if i == 6 {
      assert ToLower(name) == "utilities";
    } else if i == 7 {
      assert ToLower(name) == "income";
    } else {
      assert ToLower(name) == "others";
    }
  }

  // ---------------------------------------------------------------------------
  // formatCurrency

  /** What `formatCurrency` shows: a sign and the magnitude passed to the currency formatter. */
  datatype SignedAmount = SignedAmount(sign: char, magnitude: real)

  /** `formatCurrency(amount, type)`: "-" for an expense, "+" for every other type, then `Math.abs(amount)`. */
  function FormatCurrency(amount: real, kind: string): (r: SignedAmount)
    ensures r.sign == '-' <==> kind == "expense"
    ensures r.sign == '+' <==> kind != "expense"
    ensures r.magnitude >= 0.0 && (r.magnitude == amount || r.magnitude == -amount)
  {
    SignedAmount(if kind == "expense" then '-' else '+', if amount < 0.0 then -amount else amount)
  }

  /** The sign comes from the type alone: a negative expense still shows "-", a negative income "+". */
  lemma SignFromTypeOnly(amount: real, kind: string)
    ensures FormatCurrency(-amount, kind) == FormatCurrency(amount, kind)
  {
  }

  // ---------------------------------------------------------------------------
  // Newest-first ordering

  /**
   * The sort comparator: `dateB.getTime() - dateA.getTime()`, and 0 when
   * either date is invalid (an explicit check on one page; on the other the
   * difference is `NaN`, which a sort treats as 0).
   */
  function CompareNewestFirst(a: Transaction, b: Transaction): (c: int)
    ensures a.date.InvalidDate? || b.date.InvalidDate? ==> c == 0
    ensures a.date.Date? && b.date.Date? ==> (c < 0 <==> a.date.time > b.date.time)
  {
    if a.date.InvalidDate? || b.date.InvalidDate? then 0 else b.date.time - a.date.time
  }

  /** Swapping the two transactions negates the comparison. */
  lemma CompareAntisymmetric(a: Transaction, b: Transaction)
    ensures CompareNewestFirst(a, b) == 0 - CompareNewestFirst(b, a)
  {
  }

  predicate AllDatesValid(s: seq<Transaction>) {
    forall i :: 0 <= i < |s| ==> s[i].date.Date?
  }

  predicate NewestFirst(s: seq<Transaction>)
    requires AllDatesValid(s)
  {
    forall i, j :: 0 <= i < j < |s| ==> s[i].date.time >= s[j].date.time
  }

  /** Inserts `x` into a list ahead of the first entry that must not come before it. */
  function InsertNewest(x: Transaction, s: seq<Transaction>): (r: seq<Transaction>)
    ensures multiset(r) == multiset(s) + multiset{x}
  {
    if s == [] || CompareNewestFirst(x, s[0]) <= 0 then [x] + s
    else
      assert s == [s[0]] + s[1..];
      [s[0]] + InsertNewest(x, s[1..])
  }

  /**
   * `sort` with the newest-first comparator, as a stable insertion sort.
   * With every date valid this is the one stable order by descending time;
   * with an invalid date the comparator is inconsistent and the engine's
   * order is not pinned down.
   */
  function SortNewestFirst(s: seq<Transaction>): (r: seq<Transaction>)
    ensures multiset(r) == multiset(s)
  {
    if s == [] then []
    else
      assert s == [s[0]] + s[1..];
      InsertNewest(s[0], SortNewestFirst(s[1..]))
  }

  lemma InsertKeepsValid(x: Transaction, s: seq<Transaction>)
    requires x.date.Date? && AllDatesValid(s)
    ensures AllDatesValid(InsertNewest(x, s))
  {
    var r := InsertNewest(x, s);
    forall i | 0 <= i < |r|
      ensures r[i].date.Date?
    {
      assert r[i] in multiset(r);
    }
  }

  /** An entry ahead of every entry of `s` stays ahead of everything after inserting a newer-or-equal `x` behind it. */
  lemma InsertBound(x: Transaction, s: seq<Transaction>, y: Transaction)
    requires x.date.Date? && y.date.Date? && AllDatesValid(s)
    requires y.date.time >= x.date.time
    requires forall i :: 0 <= i < |s| ==> y.date.time >= s[i].date.time
    ensures forall e :: e in InsertNewest(x, s) ==> e.date.Date? && y.date.time >= e.date.time
  {
    forall e | e in InsertNewest(x, s)
      ensures e.date.Date? && y.date.time >= e.date.time
    {
      assert e in multiset(InsertNewest(x, s));
      if e != x {
        assert e in multiset(s);
      }
    }
  }

  lemma {:induction false} InsertKeepsOrder(x: Transaction, s: seq<Transaction>)
    requires x.date.Date? && AllDatesValid(s) && NewestFirst(s)
    ensures AllDatesValid(InsertNewest(x, s)) && NewestFirst(InsertNewest(x, s))
  {
    InsertKeepsValid(x, s);
    var r := InsertNewest(x, s);
    if s != [] && CompareNewestFirst(x, s[0]) > 0 {
      var rest := InsertNewest(x, s[1..]);
      InsertKeepsOrder(x, s[1..]);
      InsertBound(x, s[1..], s[0]);
      forall i, j | 0 <= i < j < |r|
        ensures r[i].date.time >= r[j].date.time
      {
        if i > 0 {
          assert r[i] == rest[i - 1] && r[j] == rest[j - 1];
        } else {
          assert r[j] in rest;
        }
      }
    }
  }

  /** With every date valid, the sorted list runs from the newest transaction to the oldest. */
  lemma {:induction false} SortIsNewestFirst(s: seq<Transaction>)
    requires AllDatesValid(s)
    ensures AllDatesValid(SortNewestFirst(s)) && NewestFirst(SortNewestFirst(s))
  {
    if s != [] {
      SortIsNewestFirst(s[1..]);
      InsertKeepsOrder(s[0], SortNewestFirst(s[1..]));
    }
  }

  /** A list already in newest-first order is left as it is (ties keep their order). */
  lemma {:induction false} SortedUnchanged(s: seq<Transaction>)
    requires AllDatesValid(s) && NewestFirst(s)
    ensures SortNewestFirst(s) == s
  {
    if s != [] {
      SortedUnchanged(s[1..]);
      assert s == [s[0]] + s[1..];
    }
  }

  /** The transactions dated exactly at `time`, in their order. */
  function AtTime(s: seq<Transaction>, time: int): seq<Transaction> {
    if s == [] then []
    else TimeMatch(s[0], time) + AtTime(s[1..], time)
  }

  function TimeMatch(e: Transaction, time: int): seq<Transaction> {
    if e.date.Date? && e.date.time == time then [e] else []
  }

  lemma AtTimeCons(e: Transaction, s: seq<Transaction>, time: int)
    ensures AtTime([e] + s, time) == TimeMatch(e, time) + AtTime(s, time)
  {
    var es := [e] + s;
    assert es[0] == e && es[1..] == s;
  }

  /** Inserting only moves `x` past strictly newer entries, never past one of its own time. */
  lemma {:induction false} InsertStable(x: Transaction, s: seq<Transaction>, time: int)
    requires x.date.Date? && AllDatesValid(s)
    ensures AtTime(InsertNewest(x, s), time) == AtTime([x] + s, time)
  {
    if s == [] || CompareNewestFirst(x, s[0]) <= 0 {
      assert InsertNewest(x, s) == [x] + s;
    } else {
      var head, tail := s[0], s[1..];
      assert s == [head] + tail;
      var rest := InsertNewest(x, tail);
      assert InsertNewest(x, s) == [head] + rest;
      InsertStable(x, tail, time);
      AtTimeCons(head, rest, time);
      AtTimeCons(x, tail, time);
      AtTimeCons(x, s, time);
      AtTimeCons(head, tail, time);
      var mh, mx, at := TimeMatch(head, time), TimeMatch(x, time), AtTime(tail, time);
      assert AtTime(InsertNewest(x, s), time) == mh + (mx + at);
      assert AtTime([x] + s, time) == mx + (mh + at);
      if mh == [] {
        assert mh + (mx + at) == mx + at == mx + (mh + at);
      } else {
        assert mx == [];
        assert mh + (mx + at) == mh + at == mx + (mh + at);
      }
    }
  }

  /** The sort is stable: entries of equal time keep their relative order. */
  lemma {:induction false} SortStable(s: seq<Transaction>, time: int)
    requires AllDatesValid(s)
    ensures AtTime(SortNewestFirst(s), time) == AtTime(s, time)
  {
    if s != [] {
      var sorted := SortNewestFirst(s[1..]);
      SortStable(s[1..], time);
      SortIsNewestFirst(s[1..]);
      InsertStable(s[0], sorted, time);
      var xs := [s[0]] + sorted;
      assert xs[0] == s[0] && xs[1..] == sorted;
    }
  }

  /** Sorting twice gives what sorting once gives. */
  lemma SortIdempotent(s: seq<Transaction>)
    requires AllDatesValid(s)
    ensures SortNewestFirst(SortNewestFirst(s)) == SortNewestFirst(s)
  {
    SortIsNewestFirst(s);
    SortedUnchanged(SortNewestFirst(s));
  }
}
