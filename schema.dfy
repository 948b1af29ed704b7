/**
 * Record shapes and input rules of the shared schema: users, transactions,
 * budgets, the transaction and budget insert schemas, the fixed category
 * list and the login schema.
 */
module Schema {
  import opened Wrappers

  /** A calendar month, January = 0 (as `Date.getMonth()` numbers them). */
  type Month = m: int | 0 <= m < 12

  /**
   * A JavaScript `Date`: a time stamp in milliseconds with its local calendar
   * year and month, or an invalid date (`NaN` time stamp). The calendar that
   * relates `time` to `year` and `month` is not modelled.
   */
  datatype Date = Date(time: int, year: int, month: Month) | InvalidDate

  /** `users` row. */
  datatype User = User(id: int, username: string, password: string, fullName: Option<string>)

  /** `transactions` row; `kind` is the `type` column. */
  datatype Transaction = Transaction(
    id: int, userId: int, description: string, amount: real,
    category: string, kind: string, date: Date)

  /** `budgets` row. */
  datatype Budget = Budget(id: int, userId: int, category: string, amount: real, period: string)

  /** `InsertUser`: the user columns without `id`. */
  datatype InsertUser = InsertUser(username: string, password: string, fullName: Option<string>)

  /** `InsertTransaction`: a validated transaction body, without `id` and `userId`. */
  datatype InsertTransaction = InsertTransaction(
    description: string, amount: real, category: string, kind: string, date: Date)

  /** `InsertBudget`: a validated budget body, without `id` and `userId`. */
  datatype InsertBudget = InsertBudget(category: string, amount: real, period: string)

  /**
   * A transaction request body as it reaches the insert schema. A missing
   * field is `None`; `date` is what `z.coerce.date()` makes of the raw value
   * (`new Date(raw)`), so a missing or unparsable date is `InvalidDate`.
   */
  datatype TransactionBody = TransactionBody(
    description: Option<string>, amount: Option<real>,
    category: Option<string>, kind: Option<string>, date: Date)

  datatype TransactionField = DescriptionField | AmountField | CategoryField | TypeField | DateField

  /** The fields of a transaction body that the insert schema rejects. */
  function TransactionIssues(body: TransactionBody): set<TransactionField> {
    (if body.description.None? then {DescriptionField} else {})
    + (if body.amount.Some? && body.amount.value < 0.0 then {AmountField} else {})
    + (if body.category.None? then {CategoryField} else {})
    + (if body.kind.None? then {TypeField} else {})
    + (if body.date.InvalidDate? then {DateField} else {})
  }

  /**
   * `insertTransactionSchema.safeParse`: the amount must be at least 0 and
   * defaults to 0 when missing, the date must coerce to a valid date, and
   * `type` is any text.
   */
  function ParseTransaction(body: TransactionBody): (r: Result<InsertTransaction, set<TransactionField>>)
    ensures r.Success? <==>
      body.description.Some? && body.category.Some? && body.kind.Some?
      && (body.amount.None? || body.amount.value >= 0.0) && body.date.Date?
    ensures r.Failure? ==> r.error != {}
    ensures r.Failure? ==> (AmountField in r.error <==> body.amount.Some? && body.amount.value < 0.0)
    ensures r.Failure? ==> (DescriptionField in r.error <==> body.description.None?)
    ensures r.Failure? ==> (CategoryField in r.error <==> body.category.None?)
    ensures r.Failure? ==> (TypeField in r.error <==> body.kind.None?)
    ensures r.Failure? ==> (DateField in r.error <==> body.date.InvalidDate?)
    ensures r.Success? ==> r.value.amount >= 0.0
    ensures r.Success? && body.amount.None? ==> r.value.amount == 0.0
    ensures r.Success? && body.amount.Some? ==> r.value.amount == body.amount.value
    ensures r.Success? ==> r.value.date == body.date && r.value.date.Date?
    ensures r.Success? ==> r.value.kind == body.kind.value
  {
    var issues := TransactionIssues(body);
    if issues == {} then
      Success(InsertTransaction(
        body.description.value,
        if body.amount.Some? then body.amount.value else 0.0,
        body.category.value, body.kind.value, body.date))
    else
      assert body.description.None? ==> DescriptionField in issues;
      Failure(issues)
  }

  /** The `type` column is free text: whether a body is accepted does not depend on its value. */
  lemma TypeIsFreeText(body: TransactionBody, kind: string)
    requires body.kind.Some?
    ensures ParseTransaction(body.(kind := Some(kind))).Success? == ParseTransaction(body).Success?
  {
  }

  /** A budget request body; a missing field is `None`. */
  datatype BudgetBody = BudgetBody(category: Option<string>, amount: Option<real>, period: Option<string>)

  datatype BudgetField = BudgetCategoryField | BudgetAmountField

  const DefaultPeriod: string := "monthly"

  /** `insertBudgetSchema.safeParse`: category and amount required, `period` defaults to "monthly". */
  function ParseBudget(body: BudgetBody): (r: Result<InsertBudget, set<BudgetField>>)
    ensures r.Success? <==> body.category.Some? && body.amount.Some?
    ensures r.Failure? ==> (BudgetCategoryField in r.error <==> body.category.None?)
    ensures r.Failure? ==> (BudgetAmountField in r.error <==> body.amount.None?)
    ensures r.Success? && body.period.None? ==> r.value.period == DefaultPeriod
    ensures r.Success? && body.period.Some? ==> r.value.period == body.period.value
    ensures r.Success? ==> r.value.category == body.category.value && r.value.amount == body.amount.value
  {
    if body.category.Some? && body.amount.Some? then
      Success(InsertBudget(body.category.value, body.amount.value,
                           if body.period.Some? then body.period.value else DefaultPeriod))
    else
      Failure((if body.category.None? then {BudgetCategoryField} else {})
              + (if body.amount.None? then {BudgetAmountField} else {}))
  }

  /** `transactionCategories`: the categories offered by the forms, in display order. */
  const TransactionCategories: seq<string> := [
    "Groceries", "Dining Out", "Entertainment", "Transportation", "Shopping",
    "Housing", "Utilities", "Income", "Others"
  ]

  /** The category list has nine distinct names, "Income" next to last and "Others" last. */
  lemma CategoriesAreFixed()
    ensures |TransactionCategories| == 9
    ensures TransactionCategories[7] == "Income" && TransactionCategories[8] == "Others"
    ensures forall i, j :: 0 <= i < j < |TransactionCategories| ==> TransactionCategories[i] != TransactionCategories[j]
  {
  }

  datatype LoginField = LoginUsername | LoginPassword

  /** `loginSchema`: the fields that fail (each must be non-empty). */
  function LoginIssues(username: string, password: string): (errs: set<LoginField>)
    ensures LoginUsername in errs <==> username == ""
    ensures LoginPassword in errs <==> password == ""
    ensures errs == {} <==> |username| >= 1 && |password| >= 1
  {
    (if username == "" then {LoginUsername} else {}) + (if password == "" then {LoginPassword} else {})
  }
}
