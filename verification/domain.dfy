/** The domain layer: the transaction category with its case-insensitive
    decoder, the immutable records the app passes around, and the three-way
    `Result` that every layer returns.
 */
module Domain {

  /** The category of a transaction. Every raw string decodes to one of these. */
  datatype TransactionType = Income | Expense | Unknown

  /** The token each category carries on the wire (the enum's `rawValue`).
      All three are non-empty and already lowercase. */
  function RawValue(t: TransactionType): (r: string)
    ensures |r| > 0 && IsLowercase(r)
    ensures Lowercase(r) == r
  {
    var token := (match t
                  case Income => "ingreso"
                  case Expense => "egreso"
                  case Unknown => "desconocido");
    LowercaseOfLowercase(token);
    token
  }

  predicate IsUpper(c: char)
  {
    'A' <= c <= 'Z'
  }

  function LowerChar(c: char): (r: char)
    ensures !IsUpper(r)
    ensures !IsUpper(c) ==> r == c
  {
    if IsUpper(c) then (c as int + 32) as char else c
  }

  /** Kotlin's `String.lowercase()`, restricted to the ASCII letters. */
  function Lowercase(s: string): (r: string)
    ensures |r| == |s|
    ensures forall i :: 0 <= i < |s| ==> r[i] == LowerChar(s[i])
  {
    seq(|s|, i requires 0 <= i < |s| => LowerChar(s[i]))
  }

  predicate IsLowercase(s: string)
  {
    forall i :: 0 <= i < |s| ==> !IsUpper(s[i])
  }

  lemma LowercaseOfLowercase(s: string)
    requires IsLowercase(s)
    ensures Lowercase(s) == s
  {
  }

  /** Lowercasing twice is lowercasing once. */
  lemma LowercaseIdempotent(s: string)
    ensures Lowercase(Lowercase(s)) == Lowercase(s)
  {
  }

  /** `TransactionType.from`: lowercase the input, then pick the category
      whose raw value it equals; anything else falls back to `Unknown`. */
  function From(s: string): (r: TransactionType)
    ensures r != Unknown ==> RawValue(r) == Lowercase(s)
    ensures forall t :: t != Unknown && RawValue(t) == Lowercase(s) ==> r == t
  {
    var key := Lowercase(s);
    if key == RawValue(Income) then Income
    else if key == RawValue(Expense) then Expense
    else Unknown
  }

  /** The three raw values are pairwise distinct, so decoding is unambiguous. */
  lemma RawValueInjective(t1: TransactionType, t2: TransactionType)
    ensures RawValue(t1) == RawValue(t2) ==> t1 == t2
  {
  }

  /** Decoding a category's own raw value gives that category back, for all
      three variants (`Unknown` included, through its "desconocido"). */
  lemma FromRawValue(t: TransactionType)
    ensures From(RawValue(t)) == t
  {
  }

  /** Decoding ignores case: two strings equal up to ASCII case decode alike,
      and in particular `From(s) == From(Lowercase(s))`. */
  lemma FromIgnoresCase(s1: string, s2: string)
    requires Lowercase(s1) == Lowercase(s2)
    ensures From(s1) == From(s2)
  {
  }

  lemma FromOfLowercase(s: string)
    ensures From(Lowercase(s)) == From(s)
  {
  }

  /** Strings whose lowercase is neither "ingreso" nor "egreso" decode to
      `Unknown`; those two decode to `Income` and `Expense`. */
  lemma FromExactly(s: string)
    ensures From(s) == Income <==> Lowercase(s) == "ingreso"
    ensures From(s) == Expense <==> Lowercase(s) == "egreso"
    ensures From(s) == Unknown <==> Lowercase(s) != "ingreso" && Lowercase(s) != "egreso"
  {
  }

  /** Decoding examples: upper-case input and the fallback for odd tokens. */
  lemma FromExamples()
    ensures From("INGRESO") == Income
    ensures From("Egreso") == Expense
    ensures From("otro_tipo") == Unknown
    ensures From("??") == Unknown
    ensures From("") == Unknown
  {
  }

  /** A transaction as the domain sees it (`type` is spelled `kind` here). */
  datatype Transaction = Transaction(
    id: int,
    name: string,
    amount: real,
    date: string,
    kind: TransactionType
  )

  /** What the repository returns: the server's balance and its transactions
      in server order. */
  datatype AccountDetail = AccountDetail(balance: real, transactions: seq<Transaction>)

  /** What the summary use case returns. */
  datatype AccountSummary = AccountSummary(
    balance: real,
    totalIncome: real,
    totalExpenses: real,
    transactions: seq<Transaction>
  )

  /** The three-way outcome returned by the repository and the use case. */
  datatype Result<+T> = Success(data: T) | Error(message: string) | Loading
}
