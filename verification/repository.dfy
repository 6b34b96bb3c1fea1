/** `AccountRepositoryImpl.getAccountDetail`: call the API service, map the
    payload's record into the domain, and catch whatever goes wrong.

    The service call is a parameter: an `Outcome` that is either the decoded
    payload or the exception it threw (an HTTP error, a decoding failure, a
    timeout, ...). The mapping step is a parameter of the general form too,
    because the Kotlin catch also covers a `toDomain` that throws.
 */
module Repository {
  import opened Wrappers
  import opened Domain
  import opened Dto

  const UnknownError := "Unknown error"

  /** The repository with an arbitrary (possibly throwing) mapping step. */
  function GetAccountDetailWith(api: Outcome<TransactionResponseDto>, toDomain: RecordDto -> Outcome<AccountDetail>)
    : (r: Result<AccountDetail>)
    // Every `Exception` is caught, and nothing is still loading.
    ensures r.Success? || r.Error?
    ensures r.Success? <==> api.Ok? && toDomain(api.value.record).Ok?
    ensures r.Success? ==> r.data == toDomain(api.value.record).value
    ensures api.Throw? ==> r == Error(MessageOr(api.message, UnknownError))
    ensures api.Ok? && toDomain(api.value.record).Throw? ==>
              r == Error(MessageOr(toDomain(api.value.record).message, UnknownError))
  {
    match api
    case Throw(m) => Error(MessageOr(m, UnknownError))
    case Ok(response) =>
      match toDomain(response.record)
      case Throw(m) => Error(MessageOr(m, UnknownError))
      case Ok(detail) => Success(detail)
  }

  /** The repository as the app wires it, with `RecordDto.toDomain`. */
  function GetAccountDetail(api: Outcome<TransactionResponseDto>): (r: Result<AccountDetail>)
    ensures r.Success? <==> api.Ok?
    ensures api.Ok? ==> r == Success(RecordToDomain(api.value.record))
    ensures api.Throw? ==> r == Error(MessageOr(api.message, UnknownError))
    ensures !r.Loading?
  {
    GetAccountDetailWith(api, record => Ok(RecordToDomain(record)))
  }

  /** The cases the repository tests pin down: a message is passed on as it
      is, a missing one becomes "Unknown error", and a failing mapping is
      reported like a failing call; an empty record and a record with odd
      content (empty name, malformed date, "??" category) are still a
      `Success`. The NaN amount of the malformed entry is written 0 here. */
  lemma RepositoryExamples(response: TransactionResponseDto)
    ensures GetAccountDetail(Throw(Some("network error"))) == Error("network error")
    ensures GetAccountDetail(Throw(Some("timeout"))) == Error("timeout")
    ensures GetAccountDetail(Throw(None)) == Error("Unknown error")
    ensures GetAccountDetailWith(Ok(response), record => Throw(Some("Mapping failed")))
              == Error("Mapping failed")
    ensures GetAccountDetail(Ok(TransactionResponseDto(RecordDto(0.0, []))))
              == Success(AccountDetail(0.0, []))
    ensures GetAccountDetail(Ok(TransactionResponseDto(RecordDto(1234.56,
              [TransactionDto(1, "", 0.0, "invalid-date", "??")])))).Success?
  {
  }
}
