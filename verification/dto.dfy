/** The decoded server payload and its mapping into the domain.

    JSON decoding itself is library behaviour and is not modelled: a value of
    `TransactionResponseDto` stands for a payload that decoded successfully.
 */
module Dto {
  import opened Domain

  /** One transaction as it arrives (`type` is spelled `kind` here). */
  datatype TransactionDto = TransactionDto(
    id: int,
    name: string,
    amount: real,
    date: string,
    kind: string
  )

  datatype RecordDto = RecordDto(balance: real, transactions: seq<TransactionDto>)

  datatype TransactionResponseDto = TransactionResponseDto(record: RecordDto)

  /** `TransactionDto.toDomain`: fields pass through unchanged and the raw
      category is decoded; no input is rejected. */
  function TransactionToDomain(dto: TransactionDto): (t: Transaction)
    ensures t.id == dto.id && t.name == dto.name
    ensures t.amount == dto.amount && t.date == dto.date
    ensures t.kind != Unknown ==> RawValue(t.kind) == Lowercase(dto.kind)
    ensures t.kind == Unknown <==> Lowercase(dto.kind) != "ingreso" && Lowercase(dto.kind) != "egreso"
  {
    Transaction(dto.id, dto.name, dto.amount, dto.date, From(dto.kind))
  }

  /** Kotlin's `transactions.map { it.toDomain() }`. */
  function MapTransactions(dtos: seq<TransactionDto>): (ts: seq<Transaction>)
    ensures |ts| == |dtos|
    ensures forall i :: 0 <= i < |dtos| ==> ts[i] == TransactionToDomain(dtos[i])
  {
    if |dtos| == 0 then []
    else [TransactionToDomain(dtos[0])] + MapTransactions(dtos[1..])
  }

  /** `RecordDto.toDomain`: the balance is kept exactly and the transactions
      are mapped one by one, keeping length and order. */
  function RecordToDomain(record: RecordDto): (d: AccountDetail)
    ensures d.balance == record.balance
    ensures |d.transactions| == |record.transactions|
    ensures forall i :: 0 <= i < |record.transactions| ==>
              d.transactions[i] == TransactionToDomain(record.transactions[i])
  {
    AccountDetail(record.balance, MapTransactions(record.transactions))
  }

  /** Mapping distributes over concatenation, so it keeps relative order. */
  lemma MapTransactionsAppend(a: seq<TransactionDto>, b: seq<TransactionDto>)
    ensures MapTransactions(a + b) == MapTransactions(a) + MapTransactions(b)
  {
  }

  /** Two payload entries differing only in the case of their category map to
      the same domain transaction. */
  lemma TransactionToDomainIgnoresCase(dto: TransactionDto, kind: string)
    requires Lowercase(kind) == Lowercase(dto.kind)
    ensures TransactionToDomain(dto.(kind := kind)) == TransactionToDomain(dto)
  {
  }

  /** Mapping examples: the field pass-through of an "egreso" entry, the
      fallback of an unknown token, and a record of one income and one
      expense that keeps its balance, length, order and categories. */
  lemma MappingExamples()
    ensures TransactionToDomain(TransactionDto(10, "Pago de Luz", -150.75, "2024-07-10", "egreso"))
            == Transaction(10, "Pago de Luz", -150.75, "2024-07-10", Expense)
    ensures TransactionToDomain(TransactionDto(20, "Tipo", 500.0, "2024-07-11", "otro_tipo")).kind == Unknown
    ensures var d := RecordToDomain(RecordDto(999.99,
              [TransactionDto(1, "Ingreso A", 1000.0, "2024-07-01", "ingreso"),
               TransactionDto(2, "Gasto B", -200.0, "2024-07-02", "egreso")]));
            && d.balance == 999.99 && |d.transactions| == 2
            && d.transactions[0].name == "Ingreso A" && d.transactions[0].kind == Income
            && d.transactions[1].name == "Gasto B" && d.transactions[1].kind == Expense
  {
  }
}
