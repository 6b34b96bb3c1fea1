/** The two aggregation use cases: keep the transactions of one category,
    then add up their amounts in list order. Amounts are exact reals, so the
    rounding of Kotlin's doubles is not part of the model.
 */
module Calculators {
  import opened Domain

  /** Kotlin's `filter { it.type == t }`: the transactions of category `t`,
      in their original order. */
  function Filter(txs: seq<Transaction>, t: TransactionType): (r: seq<Transaction>)
    ensures |r| <= |txs|
    ensures forall i :: 0 <= i < |r| ==> r[i].kind == t
    ensures forall x :: x in r <==> x in txs && x.kind == t
  {
    if |txs| == 0 then []
    else if txs[0].kind == t then [txs[0]] + Filter(txs[1..], t)
    else Filter(txs[1..], t)
  }

  /** Reference definition of Kotlin's `sumOf { it.amount }`: the amounts
      added up as a right fold, `a0 + (a1 + (... + 0))`. Over reals this
      equals Kotlin's left-to-right sum, which `SumByKind` computes. */
  function SumOf(txs: seq<Transaction>): real
  {
    if |txs| == 0 then 0.0 else txs[0].amount + SumOf(txs[1..])
  }

  /** Reference definition of the amount total of category `t`, as the
      Kotlin source writes it: filter first, then sum. */
  function Total(txs: seq<Transaction>, t: TransactionType): real
  {
    SumOf(Filter(txs, t))
  }

  /** Reference definition of the income total; the method
      `CalculateTotalIncome` below models `invoke` and is proved equal to it. */
  function TotalIncome(txs: seq<Transaction>): real
  {
    Total(txs, Income)
  }

  /** Reference definition of the expense total; the method
      `CalculateTotalExpenses` below models `invoke` and is proved equal to it. */
  function TotalExpenses(txs: seq<Transaction>): real
  {
    Total(txs, Expense)
  }

  /** `Filter` keeps every occurrence of a transaction of category `t` and
      drops every other one: as multisets, the result is the input restricted
      to category `t`. */
  lemma {:induction false} FilterCount(txs: seq<Transaction>, t: TransactionType, x: Transaction)
    ensures multiset(Filter(txs, t))[x] == if x.kind == t then multiset(txs)[x] else 0
    decreases |txs|
  {
    if |txs| > 0 {
      assert txs == [txs[0]] + txs[1..];
      FilterCount(txs[1..], t, x);
    }
  }

  lemma {:induction false} FilterAppend(a: seq<Transaction>, b: seq<Transaction>, t: TransactionType)
    ensures Filter(a + b, t) == Filter(a, t) + Filter(b, t)
    decreases |a|
  {
    if |a| == 0 {
      assert a + b == b;
    } else {
      assert (a + b)[1..] == a[1..] + b;
      FilterAppend(a[1..], b, t);
    }
  }

  lemma {:induction false} SumOfAppend(a: seq<Transaction>, b: seq<Transaction>)
    ensures SumOf(a + b) == SumOf(a) + SumOf(b)
    decreases |a|
  {
    if |a| == 0 {
      assert a + b == b;
    } else {
      assert (a + b)[1..] == a[1..] + b;
      SumOfAppend(a[1..], b);
    }
  }

  /** The total of an empty list is zero. */
  lemma TotalEmpty(t: TransactionType)
    ensures Total([], t) == 0.0
  {
  }

  /** A single transaction contributes its amount, sign included, exactly
      when its category matches. */
  lemma TotalSingleton(x: Transaction, t: TransactionType)
    ensures Total([x], t) == if x.kind == t then x.amount else 0.0
  {
    assert [x][1..] == [];
    assert Filter([x], t) == if x.kind == t then [x] else [];
    assert SumOf([x]) == x.amount + SumOf([]);
  }

  /** Additivity: the total of a concatenation is the sum of the totals. */
  lemma TotalAppend(a: seq<Transaction>, b: seq<Transaction>, t: TransactionType)
    ensures Total(a + b, t) == Total(a, t) + Total(b, t)
  {
    FilterAppend(a, b, t);
    SumOfAppend(Filter(a, t), Filter(b, t));
  }

  /** A list with no transaction of category `t` totals zero. */
  lemma TotalWithoutMatches(txs: seq<Transaction>, t: TransactionType)
    requires forall i :: 0 <= i < |txs| ==> txs[i].kind != t
    ensures Total(txs, t) == 0.0
  {
  }

  /** Inserting transactions of other categories anywhere never changes the
      total of category `t` (and so removing them never does either). */
  lemma TotalIgnoresOtherKinds(a: seq<Transaction>, others: seq<Transaction>, b: seq<Transaction>, t: TransactionType)
    requires forall i :: 0 <= i < |others| ==> others[i].kind != t
    ensures Total(a + others + b, t) == Total(a + b, t)
  {
    TotalAppend(a + others, b, t);
    TotalAppend(a, others, t);
    TotalWithoutMatches(others, t);
    TotalAppend(a, b, t);
  }

  /** Every transaction is counted in exactly one of the three category
      totals: in particular no transaction adds to both income and expenses,
      and the `Unknown` ones are in neither. */
  lemma {:induction false} TotalsPartitionSum(txs: seq<Transaction>)
    ensures TotalIncome(txs) + TotalExpenses(txs) + Total(txs, Unknown) == SumOf(txs)
    decreases |txs|
  {
    if |txs| != 0 {
      TotalsPartitionSum(txs[1..]);
    }
  }

  /** The income subset and the expense subset share no transaction. */
  lemma IncomeExpenseDisjoint(txs: seq<Transaction>)
    ensures forall x :: x in Filter(txs, Income) ==> x !in Filter(txs, Expense)
  {
  }

  /** A single-pass equivalent of Kotlin's filter-then-sum: walk the list
      once, adding the amount of every transaction of category `t`. It
      computes `Total(txs, t)`. */
  method SumByKind(txs: seq<Transaction>, t: TransactionType) returns (total: real)
    ensures total == Total(txs, t)
  {
    total := 0.0;
    var i := 0;
    while i < |txs|
      invariant 0 <= i <= |txs|
      invariant total == Total(txs[..i], t)
    {
      assert txs[..i + 1] == txs[..i] + [txs[i]];
      TotalAppend(txs[..i], [txs[i]], t);
      TotalSingleton(txs[i], t);
      if txs[i].kind == t {
        total := total + txs[i].amount;
      }
      i := i + 1;
    }
    assert txs[..i] == txs;
  }

  /** `CalculateTotalIncomeUseCaseImpl.invoke`. */
  method CalculateTotalIncome(txs: seq<Transaction>) returns (income: real)
    ensures income == TotalIncome(txs)
    ensures |txs| == 0 ==> income == 0.0
  {
    income := SumByKind(txs, Income);
  }

  /** `CalculateTotalExpensesUseCaseImpl.invoke`. */
  method CalculateTotalExpenses(txs: seq<Transaction>) returns (expenses: real)
    ensures expenses == TotalExpenses(txs)
    ensures |txs| == 0 ==> expenses == 0.0
  {
    expenses := SumByKind(txs, Expense);
  }

  /** The income totals the unit tests pin down: a mixed list of 100
      income, 40 expense and 15 unknown; negative amounts summed as given;
      and one transaction of 10 per category. */
  lemma IncomeExamples()
    ensures TotalIncome([Transaction(1, "Ingreso", 100.0, "2024-01-01", Income),
                         Transaction(2, "Gasto", 40.0, "2024-01-02", Expense),
                         Transaction(3, "Otro", 15.0, "2024-01-03", Unknown)]) == 100.0
    ensures TotalIncome([Transaction(1, "Correccion", -30.0, "2024-01-01", Income),
                         Transaction(2, "Ingreso", 80.0, "2024-01-02", Income)]) == 50.0
    ensures TotalIncome([Transaction(0, "TINCOME", 10.0, "2024-01-01", Income),
                         Transaction(1, "TEXPENSE", 10.0, "2024-01-01", Expense),
                         Transaction(2, "TUNKNOWN", 10.0, "2024-01-01", Unknown)]) == 10.0
  {
  }

  /** The expense totals the unit tests pin down: the same mixed list gives
      40, and a refund of -20 against a purchase of 50 gives 30. */
  lemma ExpensesExamples()
    ensures TotalExpenses([Transaction(1, "Ingreso", 100.0, "2024-01-01", Income),
                           Transaction(2, "Compra", 40.0, "2024-01-02", Expense),
                           Transaction(3, "Otro", 15.0, "2024-01-03", Unknown)]) == 40.0
    ensures TotalExpenses([Transaction(1, "Reembolso", -20.0, "2024-01-01", Expense),
                           Transaction(2, "Compra", 50.0, "2024-01-02", Expense)]) == 30.0
  {
  }
}
