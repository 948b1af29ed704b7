/**
 * The worked dashboard example: one income of 1000 and two expenses, 200 on
 * groceries and 50 on dining out, with a grocery budget of 150.
 */
module Scenarios {
  import opened Schema
  import opened Aggregates

  function Sample(d: Date): seq<Transaction> {
    [ Transaction(1, 1, "Salary", 1000.0, "Income", "income", d),
      Transaction(2, 1, "Supermarket", 200.0, "Groceries", "expense", d),
      Transaction(3, 1, "Dinner", 50.0, "Dining Out", "expense", d) ]
  }

  /** Income 1000, expenses 250, balance 750, savings rate 75.0. */
  lemma SampleSummary(d: Date)
    ensures Summarize(Sample(d)) == DashboardSummary(750.0, 1000.0, 250.0, 75.0)
  {
    var ts := Sample(d);
    assert ts[..2][..1] == ts[..1];
    assert ts[..1][..0] == [];
    assert IncomeTotal(ts[..1]) == 1000.0 && ExpenseTotal(ts[..1]) == 0.0;
    assert IncomeTotal(ts[..2]) == 1000.0 && ExpenseTotal(ts[..2]) == 200.0;
    assert IncomeTotal(ts) == 1000.0 && ExpenseTotal(ts) == 250.0;
    assert (1000.0 - 250.0) / 1000.0 * 100.0 == 75.0;
    assert (75.0 * 10.0 + 0.5).Floor == 750;
    assert RoundTenth(75.0) == 75.0;
  }

  /** The breakdown lists groceries, then dining out, in order of first occurrence. */
  lemma SampleBreakdown(d: Date)
    ensures ExpenseBreakdownOf(Sample(d)) == [CategoryAmount("Groceries", 200.0), CategoryAmount("Dining Out", 50.0)]
  {
    var ts := Sample(d);
    assert ts[..2][..1] == [ts[0]];
    var tally := [CategoryAmount("Groceries", 200.0), CategoryAmount("Dining Out", 50.0)];
    assert Tally(ts[..1]) == [];
    assert Tally(ts[..2]) == [tally[0]];
    assert Tally(ts) == tally;
    assert !IsArrayIndex("Groceries") && !IsArrayIndex("Dining Out");
    assert IndexEntries(tally) == [] && NamedEntries(tally) == tally;
  }

  /** A grocery budget of 150 with 200 spent: 133.3 percent used, 50 over. */
  lemma SampleBudget(d: Date)
    ensures ProgressOf(Budget(1, 1, "Groceries", 150.0, DefaultPeriod), Sample(d))
         == BudgetProgress("Groceries", 150.0, 200.0, 133.3, -50.0)
  {
    var ts := Sample(d);
    assert ts[..2][..1] == ts[..1];
    assert ts[..1][..0] == [];
    assert SpentIn(ts[..1], "Groceries") == 0.0;
    assert SpentIn(ts[..2], "Groceries") == 200.0;
    assert SpentIn(ts, "Groceries") == 200.0;
    var x := 200.0 / 150.0 * 100.0;
    assert x * 10.0 + 0.5 == 8003.0 / 6.0;
    assert 1333.0 <= 8003.0 / 6.0 < 1334.0;
    assert (x * 10.0 + 0.5).Floor == 1333;
  }
}
