/** `GetAccountSummaryUseCaseImpl`: ask the repository for the account detail,
    run the two injected calculators on its transactions and assemble the
    summary, turning a calculator failure into an `Error`.

    The repository call is a parameter: an `Outcome` that is either its
    `Result` or the exception it threw. Each calculator is a total function
    that either returns a total or throws. Only the calculator calls sit
    inside the `try`, so a throwing repository is not caught here.
 */
module SummaryUseCase {
  import opened Wrappers
  import opened Domain
  import Calculators

  const CalculationFallback := "Unexpected error during calculation"

  type Calculator = seq<Transaction> -> Outcome<real>

  /** The `when` over the repository's `Result` in `invoke`. The income
      calculator runs first, so when both would throw the income failure is
      the one reported. */
  function GetAccountSummary(repo: Result<AccountDetail>, income: Calculator, expenses: Calculator)
    : (r: Result<AccountSummary>)
    // Error and Loading from the repository are propagated unchanged.
    ensures repo.Error? ==> r == Error(repo.message)
    ensures repo.Loading? ==> r == Loading
    // No partial success: a summary exists exactly when the repository and
    // both calculators succeeded.
    ensures r.Success? <==>
              repo.Success? && income(repo.data.transactions).Ok? && expenses(repo.data.transactions).Ok?
    // The balance is copied, never recomputed; the list is passed unchanged;
    // the totals are exactly the calculators' outputs.
    ensures r.Success? ==>
              && repo.Success?
              && r.data.balance == repo.data.balance
              && r.data.transactions == repo.data.transactions
              && r.data.totalIncome == income(repo.data.transactions).value
              && r.data.totalExpenses == expenses(repo.data.transactions).value
    // A throwing calculator becomes an Error carrying its message or the fallback.
    ensures repo.Success? && income(repo.data.transactions).Throw? ==>
              r == Error(MessageOr(income(repo.data.transactions).message, CalculationFallback))
    ensures repo.Success? && income(repo.data.transactions).Ok? && expenses(repo.data.transactions).Throw? ==>
              r == Error(MessageOr(expenses(repo.data.transactions).message, CalculationFallback))
  {
    match repo
    case Success(detail) =>
      var txs := detail.transactions;
      (match income(txs)
       case Throw(m) => Error(MessageOr(m, CalculationFallback))
       case Ok(totalIncome) =>
         (match expenses(txs)
          case Throw(m) => Error(MessageOr(m, CalculationFallback))
          case Ok(totalExpenses) => Success(AccountSummary(detail.balance, totalIncome, totalExpenses, txs))))
    case Error(m) => Error(m)
    case Loading => Loading
  }

  /** `GetAccountSummaryUseCaseImpl.invoke`, the repository call included.
      An exception from the repository escapes to the caller unchanged; an
      exception from a calculator never does. */
  function Invoke(repo: Outcome<Result<AccountDetail>>, income: Calculator, expenses: Calculator)
    : (r: Outcome<Result<AccountSummary>>)
    ensures r.Throw? <==> repo.Throw?
    ensures repo.Throw? ==> r.message == repo.message
    ensures r.Ok? ==> r.value == GetAccountSummary(repo.value, income, expenses)
  {
    match repo
    case Throw(m) => Throw(m)
    case Ok(result) => Ok(GetAccountSummary(result, income, expenses))
  }

  /** The calculators the app's dependency injection binds: the income and
      expense use cases, which never throw. */
  function IncomeCalculator(txs: seq<Transaction>): Outcome<real>
  {
    Ok(Calculators.TotalIncome(txs))
  }

  /** The expense counterpart of `IncomeCalculator`. */
  function ExpensesCalculator(txs: seq<Transaction>): Outcome<real>
  {
    Ok(Calculators.TotalExpenses(txs))
  }

  /** With the app's own calculators, a repository success always yields a
      summary whose totals are the income and expense sums of its list, and
      the result is a `Success` exactly when the repository's is. */
  lemma SummaryWithAppCalculators(repo: Result<AccountDetail>)
    ensures var r := GetAccountSummary(repo, IncomeCalculator, ExpensesCalculator);
            && (r.Success? <==> repo.Success?)
            && (repo.Success? ==>
                  r == Success(AccountSummary(
                         repo.data.balance,
                         Calculators.TotalIncome(repo.data.transactions),
                         Calculators.TotalExpenses(repo.data.transactions),
                         repo.data.transactions)))
  {
  }

  /** A calculator that throws, whatever the other one does, never lets a
      summary through; without a message the fallback text is reported. */
  lemma CalculatorFailureIsNeverSuccess(detail: AccountDetail, income: Calculator, expenses: Calculator)
    requires income(detail.transactions).Throw? || expenses(detail.transactions).Throw?
    ensures GetAccountSummary(Success(detail), income, expenses).Error?
    ensures income(detail.transactions) == Throw(None) ==>
              GetAccountSummary(Success(detail), income, expenses) == Error(CalculationFallback)
    ensures income(detail.transactions).Ok? && expenses(detail.transactions) == Throw(None) ==>
              GetAccountSummary(Success(detail), income, expenses) == Error(CalculationFallback)
  {
  }

  /** The balance is the repository's, not income minus expenses: a detail
      with balance 0 and totals 1000 and 500 keeps balance 0. */
  lemma BalanceIsNotReconciled()
    ensures var txs := [Transaction(1, "Salary", 1000.0, "2024-01-01", Income),
                        Transaction(2, "Rent", 500.0, "2024-01-02", Expense)];
            GetAccountSummary(Success(AccountDetail(0.0, txs)), IncomeCalculator, ExpensesCalculator)
              == Success(AccountSummary(0.0, 1000.0, 500.0, txs))
  {
  }
}
