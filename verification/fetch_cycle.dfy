/** One fetch cycle as the app wires it: the API call feeds the repository,
    whose answer feeds the summary use case with the app's calculators, whose
    answer feeds the view model.
 */
module FetchCycle {
  import opened Wrappers
  import opened Domain
  import opened Dto
  import Calculators
  import Repository
  import SummaryUseCase
  import ViewModel

  /** The summary use case on top of the app's repository and calculators,
      given what the API call did. The repository catches every exception,
      so the use case call itself never throws, and it never answers
      `Loading`: it succeeds exactly when the API call did. */
  function Summarize(api: Outcome<TransactionResponseDto>): (r: Outcome<Result<AccountSummary>>)
    ensures r.Ok? && !r.value.Loading?
    ensures r.value.Success? <==> api.Ok?
  {
    SummaryUseCase.Invoke(
      Ok(Repository.GetAccountDetail(api)),
      SummaryUseCase.IncomeCalculator,
      SummaryUseCase.ExpensesCalculator)
  }

  /** End to end: a payload becomes a summary with the server's balance, the
      mapped list in server order, and the income and expense totals of that
      list; a failed call becomes an `Error` with its message or
      "Unknown error". The cycle never ends in `Loading`. */
  lemma SummarizeSpec(api: Outcome<TransactionResponseDto>)
    ensures api.Ok? ==>
              var ts := MapTransactions(api.value.record.transactions);
              Summarize(api) == Ok(Success(AccountSummary(
                                  api.value.record.balance,
                                  Calculators.TotalIncome(ts),
                                  Calculators.TotalExpenses(ts),
                                  ts)))
    ensures api.Throw? ==> Summarize(api) == Ok(Error(MessageOr(api.message, Repository.UnknownError)))
  {
  }

  /** The income total of a mapped payload only depends on the entries whose
      category token is "ingreso" in any letter case: appending an entry with
      another token leaves it unchanged. */
  lemma IncomeIgnoresOtherTokens(dtos: seq<TransactionDto>, extra: TransactionDto)
    requires Lowercase(extra.kind) != "ingreso"
    ensures Calculators.TotalIncome(MapTransactions(dtos + [extra]))
            == Calculators.TotalIncome(MapTransactions(dtos))
  {
    MapTransactionsAppend(dtos, [extra]);
    Calculators.TotalIgnoresOtherKinds(MapTransactions(dtos), MapTransactions([extra]), [], Income);
    assert MapTransactions(dtos) + MapTransactions([extra]) + [] == MapTransactions(dtos + [extra]);
    assert MapTransactions(dtos) + [] == MapTransactions(dtos);
  }

  /** The screen after the app starts: the summary of the payload, or the
      error of the call, after the initial `Loading`. */
  lemma StartupState(api: Outcome<TransactionResponseDto>)
    ensures var t := ViewModel.Create(Summarize(api));
            && t[0] == ViewModel.Loading
            && (api.Ok? <==> ViewModel.Current(t).Success?)
            && (api.Throw? ==> ViewModel.Current(t) == ViewModel.Error(MessageOr(api.message, Repository.UnknownError)))
  {
  }

  /** A sample payload: balance 2000 and one "ingreso" of 3000 named
      "Salary" gives that detail, and a summary with income 3000 and
      expenses 0. */
  lemma SamplePayload()
    ensures var response := TransactionResponseDto(RecordDto(2000.0,
              [TransactionDto(1, "Salary", 3000.0, "2024-07-15", "ingreso")]));
            var tx := Transaction(1, "Salary", 3000.0, "2024-07-15", Income);
            && Repository.GetAccountDetail(Ok(response)) == Success(AccountDetail(2000.0, [tx]))
            && Summarize(Ok(response)) == Ok(Success(AccountSummary(2000.0, 3000.0, 0.0, [tx])))
  {
    var dto := TransactionDto(1, "Salary", 3000.0, "2024-07-15", "ingreso");
    var response := TransactionResponseDto(RecordDto(2000.0, [dto]));
    var tx := Transaction(1, "Salary", 3000.0, "2024-07-15", Income);
    FromRawValue(Income);
    assert TransactionToDomain(dto) == tx;
    assert MapTransactions([dto]) == [tx];
    SummarizeSpec(Ok(response));
    Calculators.TotalSingleton(tx, Income);
    Calculators.TotalSingleton(tx, Expense);
  }

  /** A repository implementation that throws (the app's own catches every
      `Exception` itself) is not caught by the use case: the exception
      reaches the view model, whose catch turns it into an `Error` screen,
      whatever the calculators are. */
  lemma RepositoryThrowReachesScreen(message: Option<string>,
                                     income: SummaryUseCase.Calculator, expenses: SummaryUseCase.Calculator)
    ensures SummaryUseCase.Invoke(Throw(message), income, expenses) == Throw(message)
    ensures ViewModel.Current(ViewModel.Create(SummaryUseCase.Invoke(Throw(message), income, expenses)))
              == ViewModel.Error(MessageOr(message, ViewModel.UnknownError))
  {
  }
}
