/**
 * The dashboard's recent-transactions card: a copy of the transactions,
 * sorted newest first, cut to the first five.
 */
module RecentTransactions {
  import opened Wrappers
  import opened Schema
  import opened TransactionList

  const RecentLimit: nat := 5

  function Min(a: nat, b: nat): nat {
    if a <= b then a else b
  }

  /** `recentTransactions`: `[...data].sort(newest first).slice(0, 5)`, or nothing while there is no data. */
  function Recent(data: Option<seq<Transaction>>): (r: seq<Transaction>)
    ensures data.None? ==> r == []
    ensures data.Some? ==> |r| == Min(RecentLimit, |data.value|)
    ensures data.Some? ==> forall t :: t in r ==> t in data.value
  {
    if data.None? then []
    else
      var sorted := SortNewestFirst(data.value);
      var r := sorted[..Min(RecentLimit, |sorted|)];
      assert forall t :: t in r ==> t in multiset(sorted);
      r
  }

  /** The sorted transactions the card leaves out. */
  function Dropped(ts: seq<Transaction>): seq<Transaction> {
    var sorted := SortNewestFirst(ts);
    sorted[Min(RecentLimit, |sorted|)..]
  }

  /** What is shown and what is left out together are the data, transaction for transaction. */
  lemma ShownAndDroppedPartition(ts: seq<Transaction>)
    ensures multiset(Recent(Some(ts))) + multiset(Dropped(ts)) == multiset(ts)
  {
    var sorted := SortNewestFirst(ts);
    assert sorted == Recent(Some(ts)) + Dropped(ts);
  }

  /** A prefix of a newest-first list with valid dates is itself newest first. */
  lemma PrefixNewestFirst(sorted: seq<Transaction>, n: nat)
    requires n <= |sorted| && AllDatesValid(sorted) && NewestFirst(sorted)
    ensures AllDatesValid(sorted[..n]) && NewestFirst(sorted[..n])
  {
    var shown := sorted[..n];
    assert AllDatesValid(shown) by {
      forall i | 0 <= i < |shown|
        ensures shown[i].date.Date?
      {
        assert shown[i] == sorted[i];
      }
    }
    forall i, j | 0 <= i < j < |shown|
      ensures shown[i].date.time >= shown[j].date.time
    {
      assert shown[i] == sorted[i] && shown[j] == sorted[j];
    }
  }

  /** In a newest-first list with valid dates, nothing after position `n` is newer than anything before it. */
  lemma PrefixBeforeSuffix(sorted: seq<Transaction>, n: nat)
    requires n <= |sorted| && AllDatesValid(sorted) && NewestFirst(sorted)
    ensures forall x, y :: x in sorted[..n] && y in sorted[n..] ==>
      x.date.Date? && y.date.Date? && x.date.time >= y.date.time
  {
    forall x, y | x in sorted[..n] && y in sorted[n..]
      ensures x.date.Date? && y.date.Date? && x.date.time >= y.date.time
    {
      var i :| 0 <= i < n && sorted[..n][i] == x;
      var dropped := sorted[n..];
      var j :| 0 <= j < |dropped| && dropped[j] == y;
      assert sorted[i] == x && sorted[n + j] == y;
    }
  }

  /**
   * With every date valid, the card runs newest first, and no transaction
   * left out is newer than one shown.
   */
  lemma RecentAreNewest(ts: seq<Transaction>)
    requires AllDatesValid(ts)
    ensures AllDatesValid(Recent(Some(ts))) && NewestFirst(Recent(Some(ts)))
    ensures forall x, y :: x in Recent(Some(ts)) && y in Dropped(ts) ==>
      x.date.Date? && y.date.Date? && x.date.time >= y.date.time
  {
    var sorted := SortNewestFirst(ts);
    SortIsNewestFirst(ts);
    var n := Min(RecentLimit, |sorted|);
    assert Recent(Some(ts)) == sorted[..n] && Dropped(ts) == sorted[n..];
    PrefixNewestFirst(sorted, n);
    PrefixBeforeSuffix(sorted, n);
  }
}
