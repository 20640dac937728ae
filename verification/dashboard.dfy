/** The dashboard's summary figures: total income, total expenses, the
    balance, and the style the balance card takes. */
module Dashboard {
  import opened Types

  /** Sum of `xs` added from the left starting at 0, the order in which
      `reduce((acc, curr) => acc + curr.amount, 0)` adds. */
  function Sum(xs: seq<real>): real
  {
    if xs == [] then 0.0 else Sum(xs[..|xs| - 1]) + xs[|xs| - 1]
  }

  lemma SumAppendOne(xs: seq<real>, x: real)
    ensures Sum(xs + [x]) == Sum(xs) + x
  {
    assert (xs + [x])[..|xs|] == xs;
  }

  /** Summing is additive over concatenation, whatever the order of adding. */
  lemma {:induction false} SumConcat(xs: seq<real>, ys: seq<real>)
    ensures Sum(xs + ys) == Sum(xs) + Sum(ys)
    decreases |ys|
  {
    if ys == [] {
      assert xs + ys == xs;
    } else {
      var init, last := ys[..|ys| - 1], ys[|ys| - 1];
      assert ys == init + [last];
      assert xs + ys == (xs + init) + [last];
      SumConcat(xs, init);
      SumAppendOne(xs + init, last);
      SumAppendOne(init, last);
    }
  }

  /** Raising one element by `a` raises the sum by exactly `a`. */
  lemma {:induction false} SumUpdate(xs: seq<real>, j: nat, a: real)
    requires j < |xs|
    ensures Sum(xs[j := xs[j] + a]) == Sum(xs) + a
  {
    var ys := xs[j := xs[j] + a];
    assert xs == xs[..j] + [xs[j]] + xs[j + 1..];
    assert ys == xs[..j] + [xs[j] + a] + xs[j + 1..];
    SumConcat(xs[..j] + [xs[j]], xs[j + 1..]);
    SumConcat(xs[..j] + [xs[j] + a], xs[j + 1..]);
    SumAppendOne(xs[..j], xs[j]);
    SumAppendOne(xs[..j], xs[j] + a);
  }

  /** The amounts of a list of entries, in list order. */
  function Amounts<T>(xs: seq<T>, amountOf: T -> real): (r: seq<real>)
    ensures |r| == |xs|
    ensures forall i :: 0 <= i < |xs| ==> r[i] == amountOf(xs[i])
  {
    seq(|xs|, i requires 0 <= i < |xs| => amountOf(xs[i]))
  }

  function ExpenseAmount(e: Expense): real { e.amount }
  function IncomeAmount(i: Income): real { i.amount }

  /** Total of all income amounts; nothing received gives 0. */
  function TotalIncome(incomes: seq<Income>): (r: real)
    ensures incomes == [] ==> r == 0.0
  {
    Sum(Amounts(incomes, IncomeAmount))
  }

  /** Total of all expense amounts; nothing spent gives 0. */
  function TotalExpenses(expenses: seq<Expense>): (r: real)
    ensures expenses == [] ==> r == 0.0
  {
    Sum(Amounts(expenses, ExpenseAmount))
  }

  /** What came in minus what went out. */
  function Balance(incomes: seq<Income>, expenses: seq<Expense>): real
  {
    TotalIncome(incomes) - TotalExpenses(expenses)
  }

  /** The two looks of the balance figure. */
  datatype BalanceStyle = Neutral | Warning

  /** The balance is shown as a warning exactly when it is below zero;
      a zero balance is neutral. */
  function StyleOf(balance: real): (s: BalanceStyle)
    ensures s == Warning <==> balance < 0.0
  {
    if balance >= 0.0 then Neutral else Warning
  }

  /** The expense total of two lists joined is the sum of their totals. */
  lemma TotalExpensesConcat(a: seq<Expense>, b: seq<Expense>)
    ensures TotalExpenses(a + b) == TotalExpenses(a) + TotalExpenses(b)
  {
    assert Amounts(a + b, ExpenseAmount) == Amounts(a, ExpenseAmount) + Amounts(b, ExpenseAmount);
    SumConcat(Amounts(a, ExpenseAmount), Amounts(b, ExpenseAmount));
  }

  /** The income total of two lists joined is the sum of their totals. */
  lemma TotalIncomeConcat(a: seq<Income>, b: seq<Income>)
    ensures TotalIncome(a + b) == TotalIncome(a) + TotalIncome(b)
  {
    assert Amounts(a + b, IncomeAmount) == Amounts(a, IncomeAmount) + Amounts(b, IncomeAmount);
    SumConcat(Amounts(a, IncomeAmount), Amounts(b, IncomeAmount));
  }

  /** Prepending an expense raises total expenses by exactly its amount
      and lowers the balance by the same amount. */
  lemma PrependExpense(incomes: seq<Income>, e: Expense, expenses: seq<Expense>)
    ensures TotalExpenses([e] + expenses) == TotalExpenses(expenses) + e.amount
    ensures Balance(incomes, [e] + expenses) == Balance(incomes, expenses) - e.amount
  {
    TotalExpensesConcat([e], expenses);
    SumAppendOne([], e.amount);
    assert Amounts([e], ExpenseAmount) == [] + [e.amount];
  }

  /** Prepending an income raises total income by exactly its amount and
      raises the balance by the same amount. */
  lemma PrependIncome(i: Income, incomes: seq<Income>, expenses: seq<Expense>)
    ensures TotalIncome([i] + incomes) == TotalIncome(incomes) + i.amount
    ensures Balance([i] + incomes, expenses) == Balance(incomes, expenses) + i.amount
  {
    TotalIncomeConcat([i], incomes);
    SumAppendOne([], i.amount);
    assert Amounts([i], IncomeAmount) == [] + [i.amount];
  }

  /** Nothing keeps the balance from going negative: one expense and no
      income already give a warning. */
  lemma BalanceMayBeNegative(e: Expense)
    requires e.amount > 0.0
    ensures Balance([], [e]) == -e.amount
    ensures StyleOf(Balance([], [e])) == Warning
  {
    PrependExpense([], e, []);
  }
}
