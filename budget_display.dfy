/**
 * How budget progress is shown, on the dashboard card and on the budgets
 * page: the bar variant and value, and the status line under the bar.
 */
module BudgetDisplay {
  import Wrappers
  import opened Schema
  import opened Aggregates
  import opened ProgressBar

  /** `getProgressVariant` (the same on both pages): four contiguous bands of the percentage. */
  function GetProgressVariant(percent: real): (v: ProgressVariant)
    ensures v == Success <==> percent < 50.0
    ensures v == Default <==> 50.0 <= percent < 85.0
    ensures v == Warning <==> 85.0 <= percent < 100.0
    ensures v == Danger <==> percent >= 100.0
  {
    if percent < 50.0 then Success
    else if percent < 85.0 then Default
    else if percent < 100.0 then Warning
    else Danger
  }

  /** How alarming a variant is. */
  function Severity(v: ProgressVariant): nat {
    match v
    case Success => 0
    case Default => 1
    case Warning => 2
    case Danger => 3
  }

  /** Spending more never makes the bar look less alarming. */
  lemma VariantMonotone(p: real, q: real)
    requires p <= q
    ensures Severity(GetProgressVariant(p)) <= Severity(GetProgressVariant(q))
  {
  }

  /** The value handed to the bar: `percentUsed > 100 ? 100 : percentUsed`. */
  function BarValue(percent: real): (v: real)
    ensures v <= 100.0
    ensures v == percent || (percent > 100.0 && v == 100.0)
  {
    if percent > 100.0 then 100.0 else percent
  }

  /** The explicit variant gives the bar the colour its own banding would give the shown value. */
  lemma VariantMatchesBarBanding(percent: real)
    ensures ProgressBarClass(GetProgressVariant(percent), BarValue(percent))
         == ProgressBarClass(Default, BarValue(percent))
    ensures VariantColour(GetProgressVariant(percent)) == ValueColour(BarValue(percent))
  {
    var cls1 := ProgressBarClass(GetProgressVariant(percent), BarValue(percent));
    var cls2 := ProgressBarClass(Default, BarValue(percent));
    assert cls1 == cls1[..|BaseClasses| + 1] + cls1[|BaseClasses| + 1..];
    assert cls2 == cls2[..|BaseClasses| + 1] + cls2[|BaseClasses| + 1..];
  }

  /** The colour of the status text. */
  datatype Tone = SuccessTone | NeutralTone | WarningTone

  /** `percentUsed < 50 ? success : percentUsed < 85 ? neutral : warning`. */
  function StatusTone(percent: real): (t: Tone)
    ensures t == SuccessTone <==> percent < 50.0
    ensures t == NeutralTone <==> 50.0 <= percent < 85.0
    ensures t == WarningTone <==> percent >= 85.0
  {
    if percent < 50.0 then SuccessTone else if percent < 85.0 then NeutralTone else WarningTone
  }

  /** The tone agrees with the bar's variant below 100 percent. */
  lemma ToneFollowsVariant(percent: real)
    requires percent < 100.0
    ensures StatusTone(percent) == SuccessTone <==> GetProgressVariant(percent) == Success
    ensures StatusTone(percent) == NeutralTone <==> GetProgressVariant(percent) == Default
    ensures StatusTone(percent) == WarningTone <==> GetProgressVariant(percent) == Warning
  {
  }

  /** The dashboard card's status line. */
  datatype CardStatus = CardOverBudget(overBy: real) | PercentUsedLine(percent: real, tone: Tone)

  /** `getStatusMessage` of the dashboard card: over budget by |remaining| above 100 percent, else the percentage used. */
  function CardStatusMessage(b: BudgetProgress): (s: CardStatus)
    ensures s.CardOverBudget? <==> b.percentUsed > 100.0
    ensures s.CardOverBudget? ==> s.overBy >= 0.0 && (s.overBy == b.remaining || s.overBy == -b.remaining)
    ensures s.PercentUsedLine? ==> s.percent == b.percentUsed && s.tone == StatusTone(b.percentUsed)
  {
    if b.percentUsed > 100.0 then CardOverBudget(Abs(b.remaining))
    else PercentUsedLine(b.percentUsed, StatusTone(b.percentUsed))
  }

  /** The budgets page's status line. */
  datatype PageStatus = PageOverBudget(overBy: real) | RemainingLine(remaining: real, tone: Tone)

  /** `getStatusMessage` of the budgets page: over budget by |remaining| above 100 percent, else the amount remaining. */
  function PageStatusMessage(b: BudgetProgress): (s: PageStatus)
    ensures s.PageOverBudget? <==> b.percentUsed > 100.0
    ensures s.PageOverBudget? ==> s.overBy >= 0.0 && (s.overBy == b.remaining || s.overBy == -b.remaining)
    ensures s.RemainingLine? ==> s.remaining == b.remaining && s.tone == StatusTone(b.percentUsed)
  {
    if b.percentUsed > 100.0 then PageOverBudget(Abs(b.remaining))
    else RemainingLine(b.remaining, StatusTone(b.percentUsed))
  }

  function Abs(x: real): real {
    if x < 0.0 then -x else x
  }

  /** Exactly 100 percent: the bar is red, but no over-budget line is shown. */
  lemma ExactlyHundred(b: BudgetProgress)
    requires b.percentUsed == 100.0
    ensures GetProgressVariant(b.percentUsed) == Danger
    ensures !CardStatusMessage(b).CardOverBudget? && !PageStatusMessage(b).PageOverBudget?
  {
  }

  /**
   * For an entry computed by the server, an over-budget line shows how far
   * spending went past the budget: the budget really is overspent, by
   * `spent - budgetAmount`.
   */
  lemma OverBudgetAmount(b: Budget, ts: seq<Transaction>)
    requires CardStatusMessage(ProgressOf(b, ts)).CardOverBudget?
    ensures ProgressOf(b, ts).remaining < 0.0
    ensures CardStatusMessage(ProgressOf(b, ts)).overBy == ProgressOf(b, ts).spent - b.amount
    ensures PageStatusMessage(ProgressOf(b, ts)).overBy == ProgressOf(b, ts).spent - b.amount
  {
    OverHundredMeansOverspent(b, ts);
  }

  /** What the budgets page shows below its header. */
  datatype BudgetsView = Loading | Grid(cards: seq<BudgetProgress>) | EmptyState

  /** A spinner while loading, a card per budget when there are budgets, otherwise the empty-state card. */
  function BudgetsPageView(isLoading: bool, data: Wrappers.Option<seq<BudgetProgress>>): (v: BudgetsView)
    ensures v.Loading? <==> isLoading
    ensures v.Grid? <==> !isLoading && data.Some? && |data.value| > 0
    ensures v.Grid? ==> v.cards == data.value
    ensures v.EmptyState? <==> !isLoading && (data.None? || |data.value| == 0)
  {
    if isLoading then Loading
    else if data.Some? && |data.value| > 0 then Grid(data.value)
    else EmptyState
  }
}
