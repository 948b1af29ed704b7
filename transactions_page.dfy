/**
 * The transactions page: the type and category filters, the newest-first
 * list, the category choices offered by the filter menu, and the guard and
 * title of the PDF export.
 */
module TransactionsPage {
  import opened Wrappers
  import opened Schema
  import opened Dedup
  import opened TransactionList

  /** A filter is active when it holds a non-empty string (`null` and "" are falsy). */
  predicate IsSet(filter: Option<string>) {
    filter.Some? && filter.value != ""
  }

  /** `filter || ""`. */
  function OrEmpty(filter: Option<string>): (s: string)
    ensures IsSet(filter) ==> s == filter.value
    ensures !IsSet(filter) ==> s == ""
  {
    if IsSet(filter) then filter.value else ""
  }

  /** The filter callback: an active type filter must equal the type, an active category filter the category. */
  predicate Keeps(t: Transaction, filterType: Option<string>, filterCategory: Option<string>): (b: bool)
    ensures (filterType.None? || filterType == Some("")) && (filterCategory.None? || filterCategory == Some("")) ==> b
    ensures filterType.Some? && filterType.value != "" && t.kind != filterType.value ==> !b
    ensures filterCategory.Some? && filterCategory.value != "" && t.category != filterCategory.value ==> !b
  {
    && (!IsSet(filterType) || t.kind == filterType.value)
    && (!IsSet(filterCategory) || t.category == filterCategory.value)
  }

  /** `transactions.filter(...)`: the transactions the filters keep, in their order. */
  function Kept(ts: seq<Transaction>, filterType: Option<string>, filterCategory: Option<string>): (r: seq<Transaction>)
    ensures forall t :: t in r <==> t in ts && Keeps(t, filterType, filterCategory)
    ensures |r| <= |ts|
  {
    if ts == [] then []
    else
      var rest := Kept(ts[1..], filterType, filterCategory);
      if Keeps(ts[0], filterType, filterCategory) then [ts[0]] + rest else rest
  }

  /** The filter keeps each transaction exactly as often as it occurs. */
  lemma {:induction false} KeptMultiplicity(ts: seq<Transaction>, filterType: Option<string>, filterCategory: Option<string>, t: Transaction)
    ensures multiset(Kept(ts, filterType, filterCategory))[t]
         == if Keeps(t, filterType, filterCategory) then multiset(ts)[t] else 0
  {
    if ts != [] {
      var rest := Kept(ts[1..], filterType, filterCategory);
      KeptMultiplicity(ts[1..], filterType, filterCategory, t);
      assert ts == [ts[0]] + ts[1..];
      assert multiset(ts)[t] == multiset([ts[0]])[t] + multiset(ts[1..])[t];
      if Keeps(ts[0], filterType, filterCategory) {
        assert multiset(Kept(ts, filterType, filterCategory)) == multiset([ts[0]]) + multiset(rest);
      } else {
        assert Kept(ts, filterType, filterCategory) == rest;
      }
    }
  }

  /** With neither filter active every transaction is kept, in order. */
  lemma {:induction false} NoFilterKeepsAll(ts: seq<Transaction>, filterType: Option<string>, filterCategory: Option<string>)
    requires !IsSet(filterType) && !IsSet(filterCategory)
    ensures Kept(ts, filterType, filterCategory) == ts
  {
    if ts != [] {
      NoFilterKeepsAll(ts[1..], filterType, filterCategory);
      assert ts == [ts[0]] + ts[1..];
    }
  }

  /** `filteredTransactions`: the kept transactions sorted newest first, or nothing while there is no data. */
  function FilteredTransactions(data: Option<seq<Transaction>>, filterType: Option<string>, filterCategory: Option<string>): (r: seq<Transaction>)
    ensures data.None? ==> r == []
    ensures data.Some? ==> multiset(r) == multiset(Kept(data.value, filterType, filterCategory))
  {
    if data.None? then [] else SortNewestFirst(Kept(data.value, filterType, filterCategory))
  }

  /**
   * The list holds exactly the transactions the filters keep, each as often
   * as in the data, and runs newest first when every date is valid.
   */
  lemma FilteredTransactionsSpec(ts: seq<Transaction>, filterType: Option<string>, filterCategory: Option<string>)
    ensures forall t ::
              multiset(FilteredTransactions(Some(ts), filterType, filterCategory))[t]
              == if Keeps(t, filterType, filterCategory) then multiset(ts)[t] else 0
    ensures AllDatesValid(ts) ==>
      AllDatesValid(FilteredTransactions(Some(ts), filterType, filterCategory))
      && NewestFirst(FilteredTransactions(Some(ts), filterType, filterCategory))
  {
    forall t {
      KeptMultiplicity(ts, filterType, filterCategory, t);
    }
    if AllDatesValid(ts) {
      var kept := Kept(ts, filterType, filterCategory);
      assert forall i :: 0 <= i < |kept| ==> kept[i] in ts;
      SortIsNewestFirst(Kept(ts, filterType, filterCategory));
    }
  }

  /** The categories of the transactions, in order, with repetitions. */
  function CategoryColumn(ts: seq<Transaction>): (cs: seq<string>)
    ensures |cs| == |ts| && forall i :: 0 <= i < |ts| ==> cs[i] == ts[i].category
  {
    seq(|ts|, i requires 0 <= i < |ts| => ts[i].category)
  }

  /** `categories`: `Array.from(new Set(transactions.map(t => t.category)))`, or nothing while there is no data. */
  function Categories(data: Option<seq<Transaction>>): (r: seq<string>)
    ensures data.None? ==> r == []
    ensures data.Some? ==> forall c :: c in r <==> exists i :: 0 <= i < |data.value| && data.value[i].category == c
    ensures forall i, j :: 0 <= i < j < |r| ==> r[i] != r[j]
  {
    if data.None? then []
    else
      var cs := CategoryColumn(data.value);
      var r := Distinct(cs);
      assert forall c :: c in cs <==> exists i :: 0 <= i < |data.value| && data.value[i].category == c;
      r
  }

  /** The category choices come in order of first occurrence. */
  lemma CategoriesInFirstOccurrenceOrder(ts: seq<Transaction>, i: int, j: int)
    requires 0 <= i < j < |Categories(Some(ts))|
    ensures FirstIndex(CategoryColumn(ts), Categories(Some(ts))[i])
          < FirstIndex(CategoryColumn(ts), Categories(Some(ts))[j])
  {
    DistinctFirstOccurrenceOrder(CategoryColumn(ts), i, j);
  }

  /** What pressing Export does. */
  datatype ExportOutcome =
    | NothingToExport
    | Exported(rows: seq<Transaction>, title: string, fileName: string)

  const AllTitle: string := "All Transactions"
  const FilteredTitlePrefix: string := "Filtered Transactions ("
  const ExportFileName: string := "expense-tracker-transactions"

  /** The export title: the active filters in parentheses, or the all-transactions title. */
  function ExportTitle(filterType: Option<string>, filterCategory: Option<string>): (title: string)
    ensures title == AllTitle <==> !IsSet(filterType) && !IsSet(filterCategory)
    ensures IsSet(filterType) || IsSet(filterCategory) ==>
      var n := |FilteredTitlePrefix|;
      var k := |OrEmpty(filterType)|;
      && |title| == n + k + 1 + |OrEmpty(filterCategory)| + 1
      && title[..n] == FilteredTitlePrefix
      && title[n..n + k] == OrEmpty(filterType)
      && title[n + k] == ' '
      && title[n + k + 1..|title| - 1] == OrEmpty(filterCategory)
      && title[|title| - 1] == ')'
  {
    if IsSet(filterType) || IsSet(filterCategory) then
      var ft, fc := OrEmpty(filterType), OrEmpty(filterCategory);
      var t := FilteredTitlePrefix + ft + " " + fc + ")";
      var n, k := |FilteredTitlePrefix|, |ft|;
      assert t[..n] == FilteredTitlePrefix;
      assert t[n..n + k] == ft;
      assert t[n + k + 1..|t| - 1] == fc;
      assert t[0] != AllTitle[0];
      t
    else AllTitle
  }

  /**
   * The export handler: with no data or an empty list nothing is exported
   * (an error toast is shown); otherwise the whole list, not the filtered
   * one, is exported, and only the title reflects the filters.
   */
  function OnExport(data: Option<seq<Transaction>>, filterType: Option<string>, filterCategory: Option<string>): (r: ExportOutcome)
    ensures r.NothingToExport? <==> data.None? || |data.value| == 0
    ensures r.Exported? ==> r.rows == data.value && r.fileName == ExportFileName
    ensures r.Exported? ==> r.title == ExportTitle(filterType, filterCategory)
  {
    if data.Some? && |data.value| > 0 then
      Exported(data.value, ExportTitle(filterType, filterCategory), ExportFileName)
    else NothingToExport
  }

  /** The filters change the export's title and never its rows. */
  lemma ExportIgnoresFilters(data: Option<seq<Transaction>>, f1: Option<string>, c1: Option<string>,
                             f2: Option<string>, c2: Option<string>)
    ensures OnExport(data, f1, c1).NothingToExport? == OnExport(data, f2, c2).NothingToExport?
    ensures OnExport(data, f1, c1).Exported? ==> OnExport(data, f1, c1).rows == OnExport(data, f2, c2).rows
  {
  }
}
