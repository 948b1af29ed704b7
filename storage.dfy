/**
 * The in-memory store behind the API: three tables filled in insertion
 * order, each with its own id counter, and the four dashboard aggregations
 * computed over one user's rows.
 */
module Storage {
  import opened Wrappers
  import opened Schema
  import opened Aggregates

  /** `Array.from(transactions.values()).filter(t => t.userId === userId)`. */
  function TransactionsOf(ts: seq<Transaction>, userId: int): (r: seq<Transaction>)
    ensures forall t :: t in r <==> t in ts && t.userId == userId
    ensures |r| <= |ts|
    decreases |ts|
  {
    if ts == [] then []
    else
      var t := ts[|ts| - 1];
      TransactionsOf(ts[..|ts| - 1], userId) + (if t.userId == userId then [t] else [])
  }

  /** `Array.from(budgets.values()).filter(b => b.userId === userId)`. */
  function BudgetsOf(bs: seq<Budget>, userId: int): (r: seq<Budget>)
    ensures forall b :: b in r <==> b in bs && b.userId == userId
    ensures |r| <= |bs|
    decreases |bs|
  {
    if bs == [] then []
    else
      var b := bs[|bs| - 1];
      BudgetsOf(bs[..|bs| - 1], userId) + (if b.userId == userId then [b] else [])
  }

  /** Appending a row extends its owner's list by that row and leaves every other user's list alone. */
  lemma TransactionsOfAppend(ts: seq<Transaction>, t: Transaction, userId: int)
    ensures t.userId == userId ==> TransactionsOf(ts + [t], userId) == TransactionsOf(ts, userId) + [t]
    ensures t.userId != userId ==> TransactionsOf(ts + [t], userId) == TransactionsOf(ts, userId)
  {
    var s := ts + [t];
    assert s[..|s| - 1] == ts;
  }

  lemma BudgetsOfAppend(bs: seq<Budget>, b: Budget, userId: int)
    ensures b.userId == userId ==> BudgetsOf(bs + [b], userId) == BudgetsOf(bs, userId) + [b]
    ensures b.userId != userId ==> BudgetsOf(bs + [b], userId) == BudgetsOf(bs, userId)
  {
    var s := bs + [b];
    assert s[..|s| - 1] == bs;
  }

  /** The rows of one user keep their relative order: filtering is order-preserving. */
  lemma {:induction false} TransactionsOfOrder(ts: seq<Transaction>, userId: int, i: int, j: int)
    requires 0 <= i < j < |ts| && ts[i].userId == userId && ts[j].userId == userId
    ensures exists p, q ::
              && 0 <= p < q < |TransactionsOf(ts, userId)|
              && TransactionsOf(ts, userId)[p] == ts[i] && TransactionsOf(ts, userId)[q] == ts[j]
    decreases |ts|
  {
    var n := |ts| - 1;
    var init, last := ts[..n], ts[n];
    assert ts == init + [last];
    TransactionsOfAppend(init, last, userId);
    var ri := TransactionsOf(init, userId);
    var r := TransactionsOf(ts, userId);
    assert r == ri + (if last.userId == userId then [last] else []);
    if j < n {
      TransactionsOfOrder(init, userId, i, j);
      var p, q :| 0 <= p < q < |ri| && ri[p] == init[i] && ri[q] == init[j];
      assert r[p] == ts[i] && r[q] == ts[j];
    } else {
      assert r == ri + [last];
      assert init[i] in ri;
      var p :| 0 <= p < |ri| && ri[p] == init[i];
      assert r[p] == ts[i] && r[|ri|] == ts[j];
    }
  }

  /** A new row of one user changes no other user's dashboard. */
  lemma OtherUsersUnaffected(ts: seq<Transaction>, t: Transaction, userId: int, current: Month)
    requires t.userId != userId
    ensures Summarize(TransactionsOf(ts + [t], userId)) == Summarize(TransactionsOf(ts, userId))
    ensures ExpenseBreakdownOf(TransactionsOf(ts + [t], userId)) == ExpenseBreakdownOf(TransactionsOf(ts, userId))
    ensures IncomeVsExpenseOf(TransactionsOf(ts + [t], userId), current)
         == IncomeVsExpenseOf(TransactionsOf(ts, userId), current)
  {
    TransactionsOfAppend(ts, t, userId);
  }

  /** A new row moves its owner's income or expense total by exactly its amount. */
  lemma OwnerSummaryStep(ts: seq<Transaction>, t: Transaction)
    ensures Summarize(TransactionsOf(ts + [t], t.userId)).income
         == Summarize(TransactionsOf(ts, t.userId)).income + (if t.kind == "income" then t.amount else 0.0)
    ensures Summarize(TransactionsOf(ts + [t], t.userId)).expenses
         == Summarize(TransactionsOf(ts, t.userId)).expenses + (if t.kind == "expense" then t.amount else 0.0)
  {
    TransactionsOfAppend(ts, t, t.userId);
    TypeTotalConcat(TransactionsOf(ts, t.userId), [t], "income");
    TypeTotalConcat(TransactionsOf(ts, t.userId), [t], "expense");
  }

  /**
   * `MemStorage`. Each JavaScript `Map` is keyed by an id drawn from its
   * counter, which starts at 1 and grows by one per insert, so a table is a
   * sequence whose row at position `i` has id `i + 1`; iterating the map
   * (insertion order) is iterating the sequence.
   */
  class MemStorage {
    var users: seq<User>
    var transactions: seq<Transaction>
    var budgets: seq<Budget>
    var userIdCounter: int
    var transactionIdCounter: int
    var budgetIdCounter: int

    /** Every counter is the id the next row of its table will get. */
    predicate Valid()
      reads this
    {
      && userIdCounter == |users| + 1
      && transactionIdCounter == |transactions| + 1
      && budgetIdCounter == |budgets| + 1
      && (forall i :: 0 <= i < |users| ==> users[i].id == i + 1)
      && (forall i :: 0 <= i < |transactions| ==> transactions[i].id == i + 1)
      && (forall i :: 0 <= i < |budgets| ==> budgets[i].id == i + 1)
    }

    /** Empty tables, every counter at 1 (the seeding step adds nothing). */
    constructor()
      ensures Valid()
      ensures users == [] && transactions == [] && budgets == []
    {
      users := [];
      transactions := [];
      budgets := [];
      userIdCounter := 1;
      transactionIdCounter := 1;
      budgetIdCounter := 1;
    }

    /** `users.get(id)`: the user with that id, if there is one. */
    method GetUser(id: int) returns (r: Option<User>)
      requires Valid()
      ensures r.Some? <==> exists i :: 0 <= i < |users| && users[i].id == id
      ensures r.Some? ==> r.value in users && r.value.id == id
    {
      if 1 <= id <= |users| {
        r := Some(users[id - 1]);
      } else {
        r := None;
      }
    }

    /** `find` over the users in insertion order: the first user with that name. */
    method GetUserByUsername(username: string) returns (r: Option<User>)
      ensures r.None? <==> forall i :: 0 <= i < |users| ==> users[i].username != username
      ensures r.Some? ==> exists i ::
                && 0 <= i < |users| && users[i] == r.value && r.value.username == username
                && forall j :: 0 <= j < i ==> users[j].username != username
    {
      var i := 0;
      while i < |users|
        invariant 0 <= i <= |users|
        invariant forall j :: 0 <= j < i ==> users[j].username != username
      {
        if users[i].username == username {
          return Some(users[i]);
        }
        i := i + 1;
      }
      return None;
    }

    /** Stores the user under the next id. The name is not checked for uniqueness here. */
    method CreateUser(u: InsertUser) returns (r: User)
      requires Valid()
      modifies this
      ensures Valid()
      ensures r == User(old(userIdCounter), u.username, u.password, u.fullName)
      ensures users == old(users) + [r]
      ensures transactions == old(transactions) && budgets == old(budgets)
    {
      r := User(userIdCounter, u.username, u.password, u.fullName);
      userIdCounter := userIdCounter + 1;
      users := users + [r];
    }

    /** Every row of the store of a user, in insertion order. */
    method GetTransactionsByUserId(userId: int) returns (r: seq<Transaction>)
      ensures r == TransactionsOf(transactions, userId)
    {
      r := TransactionsOf(transactions, userId);
    }

    /** Stores the transaction of `userId` under the next id. */
    method CreateTransaction(t: InsertTransaction, userId: int) returns (r: Transaction)
      requires Valid()
      modifies this
      ensures Valid()
      ensures r == Transaction(old(transactionIdCounter), userId, t.description, t.amount, t.category, t.kind, t.date)
      ensures transactions == old(transactions) + [r]
      ensures TransactionsOf(transactions, userId) == old(TransactionsOf(transactions, userId)) + [r]
      ensures users == old(users) && budgets == old(budgets)
    {
      r := Transaction(transactionIdCounter, userId, t.description, t.amount, t.category, t.kind, t.date);
      TransactionsOfAppend(transactions, r, userId);
      transactionIdCounter := transactionIdCounter + 1;
      transactions := transactions + [r];
    }

    method GetBudgetsByUserId(userId: int) returns (r: seq<Budget>)
      ensures r == BudgetsOf(budgets, userId)
    {
      r := BudgetsOf(budgets, userId);
    }

    /** Stores the budget of `userId` under the next id. */
    method CreateBudget(b: InsertBudget, userId: int) returns (r: Budget)
      requires Valid()
      modifies this
      ensures Valid()
      ensures r == Budget(old(budgetIdCounter), userId, b.category, b.amount, b.period)
      ensures budgets == old(budgets) + [r]
      ensures BudgetsOf(budgets, userId) == old(BudgetsOf(budgets, userId)) + [r]
      ensures users == old(users) && transactions == old(transactions)
    {
      r := Budget(budgetIdCounter, userId, b.category, b.amount, b.period);
      BudgetsOfAppend(budgets, r, userId);
      budgetIdCounter := budgetIdCounter + 1;
      budgets := budgets + [r];
    }

    method GetDashboardSummary(userId: int) returns (r: DashboardSummary)
      ensures r == Summarize(TransactionsOf(transactions, userId))
    {
      var ts := GetTransactionsByUserId(userId);
      r := Summarize(ts);
    }

    method GetExpenseBreakdown(userId: int) returns (r: seq<CategoryAmount>)
      ensures r == ExpenseBreakdownOf(TransactionsOf(transactions, userId))
    {
      var ts := GetTransactionsByUserId(userId);
      r := ExpenseBreakdown(ts);
    }

    /** `currentMonth` stands for the month of `new Date()` at the time of the call. */
    method GetIncomeVsExpense(userId: int, currentMonth: Month) returns (r: seq<MonthTotals>)
      ensures r == IncomeVsExpenseOf(TransactionsOf(transactions, userId), currentMonth)
    {
      var ts := GetTransactionsByUserId(userId);
      r := IncomeVsExpense(ts, currentMonth);
    }

    method GetBudgetProgress(userId: int) returns (r: seq<BudgetProgress>)
      ensures r == BudgetProgressOf(BudgetsOf(budgets, userId), TransactionsOf(transactions, userId))
    {
      var bs := GetBudgetsByUserId(userId);
      var ts := GetTransactionsByUserId(userId);
      r := BudgetProgressOf(bs, ts);
    }
  }

  /** Ids are unique in every table of a well-formed store. */
  lemma IdsUnique(s: MemStorage)
    requires s.Valid()
    ensures forall i, j :: 0 <= i < j < |s.users| ==> s.users[i].id != s.users[j].id
    ensures forall i, j :: 0 <= i < j < |s.transactions| ==> s.transactions[i].id != s.transactions[j].id
    ensures forall i, j :: 0 <= i < j < |s.budgets| ==> s.budgets[i].id != s.budgets[j].id
  {
  }
}
