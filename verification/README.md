# Movements: a Dafny model of the account data path

This project models the data path of the movements app, an Android client that
fetches one account record (a balance and a list of transactions), maps it into
domain records, totals income and expenses, and shows the result as a
loading / success / error screen. Every step is modelled as a pure function over
immutable datatypes. The general rules are proved for all inputs. A selection
of the unit tests' concrete cases is also proved as examples (`FromExamples`,
`MappingExamples`, `IncomeExamples`, `ExpensesExamples`, `RepositoryExamples`,
`SamplePayload`, `SuccessThenErrorTrace`, `ThrowingUseCase`). The tests about
NaN and Infinity amounts, HTTP status codes, cancellation and concurrency are
outside the model (see "Left out").

Layers, one Dafny module each:

- `Wrappers`: `Option`, and `Outcome` (`Ok(value)` or `Throw(message)`). `Outcome`
  stands for a call into a collaborator that may throw an exception whose
  message may be null. `MessageOr` is Kotlin's `e.message ?: fallback`.
- `Domain`: `TransactionType` with its raw values and its case-insensitive
  decoder `From`. Also the records `Transaction`, `AccountDetail` and
  `AccountSummary`, and the three-way `Result` (`Success`, `Error`, `Loading`).
- `Dto`: the decoded payload (`TransactionResponseDto`, `RecordDto`,
  `TransactionDto`) and its `toDomain` mappings.
- `Calculators`: the income and expense use cases. Each keeps one category
  (`Filter`) and then sums the amounts (`SumOf`).
- `SummaryUseCase`: `GetAccountSummaryUseCaseImpl.invoke`, with the repository
  call's outcome and the two calculators as parameters.
- `Repository`: `AccountRepositoryImpl.getAccountDetail`, with the API call's
  outcome as a parameter.
- `ViewModel`: `MovementsUiState` and `MovementsViewModel`. The state holder is a
  trace of every value written to it. `Conflate` gives what a `StateFlow`
  collector observes, and `Collect` computes the same thing forwards.
- `FetchCycle`: the layers composed as the app wires them, end to end.

Modelling choices:

- Amounts and balances are `real`, not IEEE doubles.
- Ids are `int`. They are only passed through, so Kotlin's 32-bit `Int` makes no
  difference.
- The Kotlin field `type` is called `kind`, because `type` is a Dafny keyword.
- Injected collaborators become parameters. A call to the API service, to the
  repository or to the summary use case is an `Outcome` value: the answer, or
  the exception the call threw. The calculators are total functions returning
  `Outcome<real>`. `Throw` stands for an `Exception`, the type all three
  `catch` blocks name.
- The repository call in `GetAccountSummaryUseCaseImpl.invoke` is outside its
  `try`. `SummaryUseCase.Invoke` therefore passes a throwing repository's
  exception on unchanged, and the view model's `catch` is what turns it into
  an error screen.
- `Result` is modelled from how its consumers match on it: the use case and
  the view model match on exactly `Success(data)`, `Error(message)` and
  `Loading`.
- The income calculator runs before the expense calculator. So when both throw,
  the income failure is the one reported.

## Model

| member | source | states |
|---|---|---|
| Domain.From | domain/src/main/java/com/domain/models/TransactionType.kt:12-17 | a decoded category other than `Unknown` has the lowercased input as its raw value, and an input whose lowercase is a known raw value decodes to that category |
| Domain.FromExactly | domain/src/main/java/com/domain/models/TransactionType.kt:12-17 | `Income` iff the lowercase is "ingreso", `Expense` iff "egreso", `Unknown` iff neither |
| Domain.FromRawValue | domain/src/main/java/com/domain/models/TransactionType.kt:6-17 | round trip: decoding any category's raw value gives that category back, `Unknown` via "desconocido" included |
| Domain.RawValue | domain/src/main/java/com/domain/models/TransactionType.kt:3-8 | each category's raw value is non-empty and already lowercase, so lowercasing it changes nothing |
| Wrappers.MessageOr | data/src/main/java/com/data/repositories/AccountRepositoryImpl.kt:20 | a present message is used as it is, even an empty one; only a missing message is replaced by the fallback |
| Domain.RawValueInjective | domain/src/main/java/com/domain/models/TransactionType.kt:6-8 | the three raw values are pairwise distinct |
| Domain.LowercaseIdempotent | domain/src/main/java/com/domain/models/TransactionType.kt:13 | lowercasing twice equals lowercasing once |
| Domain.FromIgnoresCase | domain/src/main/java/com/domain/models/TransactionType.kt:13 | two inputs equal up to letter case decode to the same category |
| Domain.FromOfLowercase | domain/src/main/java/com/domain/models/TransactionType.kt:13 | `From(lowercase(s)) == From(s)` |
| Domain.FromExamples | domain/src/main/java/com/domain/models/TransactionType.kt:12-17 | "INGRESO" decodes to `Income`, "Egreso" to `Expense`; "otro_tipo", "??" and "" decode to `Unknown` |
| Dto.TransactionToDomain | data/src/main/java/com/data/dto/AccountDetailDto.kt:34-41 | id, name, amount and date pass through unchanged; the category is `Unknown` exactly when the lowercased token is neither "ingreso" nor "egreso", and otherwise its raw value is that token |
| Dto.MapTransactions | data/src/main/java/com/data/dto/AccountDetailDto.kt:22 | the mapped list has the same length, and element i is the mapping of payload element i |
| Dto.RecordToDomain | data/src/main/java/com/data/dto/AccountDetailDto.kt:19-23 | the balance is kept exactly; the list keeps its length and order, element by element |
| Dto.MapTransactionsAppend | data/src/main/java/com/data/dto/AccountDetailDto.kt:22 | mapping distributes over concatenation |
| Dto.TransactionToDomainIgnoresCase | data/src/main/java/com/data/dto/AccountDetailDto.kt:40 | payload entries that differ only in the letter case of the category map to the same transaction |
| Dto.MappingExamples | data/src/test/java/com/data/dto/DtoMappingTest.kt:8-76 | the "egreso" entry maps field for field; "otro_tipo" maps to `Unknown`; a record of 999.99 with an "ingreso" and an "egreso" entry keeps its balance, both entries in order, and their categories |
| Calculators.Filter | data/src/main/java/com/data/usecases/CalculateTotalIncomeUseCaseImpl.kt:13 | the kept list holds exactly the input's transactions of the category, each of that category, and is no longer than the input |
| Calculators.FilterCount | data/src/main/java/com/data/usecases/CalculateTotalIncomeUseCaseImpl.kt:13 | as multisets, the kept list is the input restricted to the category: every occurrence of a matching transaction is kept, duplicates included, and no other transaction is |
| Calculators.FilterAppend | data/src/main/java/com/data/usecases/CalculateTotalIncomeUseCaseImpl.kt:13 | filtering distributes over concatenation and keeps order |
| Calculators.SumOfAppend | data/src/main/java/com/data/usecases/CalculateTotalIncomeUseCaseImpl.kt:14 | the amount sum of a concatenation is the sum of the two sums |
| Calculators.TotalEmpty | data/src/main/java/com/data/usecases/CalculateTotalIncomeUseCaseImpl.kt:11-14 | the empty list totals 0 |
| Calculators.TotalSingleton | data/src/main/java/com/data/usecases/CalculateTotalIncomeUseCaseImpl.kt:12-14 | one transaction contributes its amount, sign included, exactly when its category matches, and 0 otherwise |
| Calculators.TotalAppend | data/src/main/java/com/data/usecases/CalculateTotalIncomeUseCaseImpl.kt:12-14 | additivity: the total of `a + b` is the total of `a` plus the total of `b` |
| Calculators.TotalWithoutMatches | data/src/main/java/com/data/usecases/CalculateTotalIncomeUseCaseImpl.kt:12-14 | a list with no transaction of the category totals 0 |
| Calculators.TotalIgnoresOtherKinds | data/src/main/java/com/data/usecases/CalculateTotalIncomeUseCaseImpl.kt:13 | inserting or removing transactions of other categories anywhere leaves the total unchanged |
| Calculators.TotalsPartitionSum | data/src/main/java/com/data/usecases/CalculateTotalExpensesUseCaseImpl.kt:13 | income total + expense total + unknown total equals the sum of all amounts, so no transaction is counted in both totals |
| Calculators.IncomeExpenseDisjoint | data/src/main/java/com/data/usecases/CalculateTotalExpensesUseCaseImpl.kt:13 | no transaction is in both the income subset and the expense subset |
| Calculators.SumByKind | data/src/main/java/com/data/usecases/CalculateTotalIncomeUseCaseImpl.kt:11-14 | one left-to-right pass adding the matching amounts computes the filter-then-sum total |
| Calculators.CalculateTotalIncome | data/src/main/java/com/data/usecases/CalculateTotalIncomeUseCaseImpl.kt:11-14 | the result is the sum of the amounts of exactly the `Income` transactions, and 0 for an empty list |
| Calculators.CalculateTotalExpenses | data/src/main/java/com/data/usecases/CalculateTotalExpensesUseCaseImpl.kt:11-14 | the result is the sum of the amounts of exactly the `Expense` transactions, and 0 for an empty list |
| Calculators.IncomeExamples | data/src/test/java/com/data/usecases/CalculateTotalIncomeUseCaseImplTest.kt:44-149 | 100 income, 40 expense and 15 unknown give income 100; -30 + 80 income gives 50; one transaction of 10 per category gives income 10 |
| Calculators.ExpensesExamples | data/src/test/java/com/data/usecases/CalculateTotalExpensesUseCaseImplTest.kt:43-101 | 100 income, 40 expense and 15 unknown give expenses 40; -20 + 50 expenses gives 30 |
| SummaryUseCase.GetAccountSummary | data/src/main/java/com/data/usecases/GetAccountSummaryUseCaseImpl.kt:19-43 | `Error(m)` and `Loading` pass through; `Success` exactly when the repository and both calculators succeed, with the balance copied, the list unchanged and the calculators' outputs as totals; a throwing calculator gives `Error(message or "Unexpected error during calculation")` |
| SummaryUseCase.Invoke | data/src/main/java/com/data/usecases/GetAccountSummaryUseCaseImpl.kt:18-43 | the use case throws exactly when the repository call throws, with the same message, because that call is outside the `try`; a calculator exception never escapes; otherwise the answer is the `when` over the repository's result |
| SummaryUseCase.SummaryWithAppCalculators | data/src/main/java/com/data/usecases/GetAccountSummaryUseCaseImpl.kt:20-35 | with the app's calculators, a repository success always gives a summary whose totals are the list's income and expense totals |
| SummaryUseCase.CalculatorFailureIsNeverSuccess | data/src/main/java/com/data/usecases/GetAccountSummaryUseCaseImpl.kt:24-38 | if either calculator throws, the result is an `Error`, and without a message it is the fallback text |
| SummaryUseCase.BalanceIsNotReconciled | data/src/main/java/com/data/usecases/GetAccountSummaryUseCaseImpl.kt:21-30 | balance 0 with totals 1000 and 500 stays 0: the balance is not income minus expenses |
| Repository.GetAccountDetailWith | data/src/main/java/com/data/repositories/AccountRepositoryImpl.kt:14-21 | never `Loading`; `Success(mapped)` exactly when the call and the mapping succeed; a failure of either gives `Error(message or "Unknown error")` |
| Repository.GetAccountDetail | data/src/main/java/com/data/repositories/AccountRepositoryImpl.kt:14-21 | a response gives `Success(record.toDomain())`, a thrown exception gives `Error(message or "Unknown error")`, never `Loading` |
| Repository.RepositoryExamples | data/src/test/java/com/data/repositories/AccountRepositoryImplTest.kt:61-202 | "network error" and "timeout" pass through; no message gives "Unknown error"; a failing mapping gives "Mapping failed"; an empty record gives an empty detail; an entry with an empty name, an invalid date and "??" is still a `Success` |
| ViewModel.Mirror | app/src/main/java/com/app/ui/viewmodel/MovementsViewModel.kt:34-38 | each result variant becomes the UI state of the same variant, with the same summary or message |
| ViewModel.Settle | app/src/main/java/com/app/ui/viewmodel/MovementsViewModel.kt:33-41 | a returned result is mirrored; a thrown exception gives `Error(message or "Unknown error")` |
| ViewModel.LoadData | app/src/main/java/com/app/ui/viewmodel/MovementsViewModel.kt:30-43 | a load keeps the earlier trace, writes `Loading`, then exactly one follow-up state, the settled result |
| ViewModel.Create | app/src/main/java/com/app/ui/viewmodel/MovementsViewModel.kt:22-27 | the state holder starts at `Loading`; `init` runs one load, so the trace is Loading, Loading, then the settled result |
| ViewModel.LoadDataForgetsHistory | app/src/main/java/com/app/ui/viewmodel/MovementsViewModel.kt:32-41 | after a load, the current state depends only on that load's call, not on earlier states |
| ViewModel.Conflate | app/src/main/java/com/app/ui/viewmodel/MovementsViewModel.kt:22-23 | the observed sequence starts with the first write and ends with the last one, is no longer than the writes, contains exactly the values written, and never repeats a value twice in a row |
| ViewModel.ConflateIsSubsequence | app/src/main/java/com/app/ui/viewmodel/MovementsViewModel.kt:22-23 | the observed values appear in the order they were written: the observed sequence is a subsequence of the writes |
| ViewModel.Collect | app/src/main/java/com/app/ui/viewmodel/MovementsViewModel.kt:22-23 | walking the writes forwards and emitting a value only when it differs from the last one emitted, as a `StateFlow` does, gives exactly `Conflate` of the writes |
| ViewModel.SuccessThenErrorTrace | app/src/test/java/com/app/ui/viewmodel/MovementsViewModelTest.kt:99-124 | a successful load then a failing one write Loading, Loading, Success, Loading, Error, which a collector observes as Loading, Success, Loading, Error |
| ViewModel.ThrowingUseCase | app/src/main/java/com/app/ui/viewmodel/MovementsViewModel.kt:39-40 | a thrown message is observed as Loading then `Error(message)`; no message gives "Unknown error"; a `Loading` answer stays `Loading` |
| FetchCycle.Summarize | data/src/main/java/com/data/usecases/GetAccountSummaryUseCaseImpl.kt:18-43 | on top of the app's repository the use case never throws and never answers `Loading`, and it succeeds exactly when the API call did |
| FetchCycle.SummarizeSpec | data/src/main/java/com/data/usecases/GetAccountSummaryUseCaseImpl.kt:19-43 | end to end, a payload gives the server balance, the mapped list and its two totals; a failed call gives `Error(message or "Unknown error")`; never `Loading` |
| FetchCycle.IncomeIgnoresOtherTokens | data/src/main/java/com/data/usecases/CalculateTotalIncomeUseCaseImpl.kt:13 | appending a payload entry whose token is not "ingreso" in any case leaves the mapped income total unchanged |
| FetchCycle.StartupState | app/src/main/java/com/app/ui/viewmodel/MovementsViewModel.kt:22-41 | at start-up the screen shows `Loading` first, then a summary exactly when the call succeeded, else the call's error |
| FetchCycle.RepositoryThrowReachesScreen | data/src/main/java/com/data/usecases/GetAccountSummaryUseCaseImpl.kt:19-24 | a repository exception passes through the use case unchanged, whatever the calculators are, and the view model shows it as `Error(message or "Unknown error")` |
| FetchCycle.SamplePayload | data/src/test/java/com/data/repositories/AccountRepositoryImplTest.kt:84-100 | balance 2000 with one "ingreso" of 3000 maps to that detail, with an `Income` transaction, and a summary with income 3000 and expenses 0 |

## Left out

- Floating point: amounts are exact reals. NaN and Infinity propagation, rounding by summation order and delta comparisons are not modelled.
- JSON decoding and HTTP: `AccountApiService`, the Moshi/Retrofit deserialisation, the 404 and "Expected a double" failures, and the base URL are library behaviour. A call's outcome (a decoded payload or a thrown exception) is an input.
- A null category token: `TransactionDto.type` is a non-null `String` (data/src/main/java/com/data/dto/AccountDetailDto.kt:32), so there is no null token to decode.
- Throwables that are not `Exception`s: all three `catch` blocks name `Exception` (AccountRepositoryImpl.kt:19, GetAccountSummaryUseCaseImpl.kt:36, MovementsViewModel.kt:39). Anything else escapes all of them; the model's `Throw` is always an `Exception`.
- NaN amounts: the malformed-response test's NaN amount is written as 0 in `Repository.RepositoryExamples`.
- Dependency injection (`NetworkModule`, `UseCaseModule`, `RepositoryModule`) contains no logic. `FetchCycle` composes the layers the way it wires them.
- Coroutines: `suspend`, `viewModelScope.launch`, dispatchers, cancellation and concurrent invocations are not modelled. A load is one sequential step.
- Compose UI, `MainActivity` and the formatting helpers in `Extensions.kt` are not part of this model.
- Domain.From: lowercases only the ASCII letters A-Z. Kotlin's `lowercase()` applies full Unicode case mapping, which this model does not include.
- ViewModel.Conflate: models only a `StateFlow` skipping a write equal to the current value. A slow collector can also miss distinct intermediate writes; the model does not include that.
