/** The chart series: spending per category, grouped the way a JavaScript
    `Map` groups (one entry per category, in insertion order), and the
    two-bar income-versus-expense series. */
module Charts {
  import opened Types
  import opened Dashboard

  /** One slice of the category chart. */
  datatype CategoryEntry = CategoryEntry(name: Category, value: real)

  /** One bar of the income-versus-expense chart. */
  datatype SummaryEntry = SummaryEntry(name: string, valor: real)

  /** The distinct categories of `expenses`, each where it first occurs. */
  function CategoryOrder(expenses: seq<Expense>): (r: seq<Category>)
    ensures forall i, j :: 0 <= i < j < |r| ==> r[i] != r[j]
  {
    if expenses == [] then []
    else
      var order := CategoryOrder(expenses[..|expenses| - 1]);
      var c := expenses[|expenses| - 1].category;
      if c in order then order else order + [c]
  }

  /** The expenses of category `c`, in their original order. */
  function OfCategory(expenses: seq<Expense>, c: Category): seq<Expense>
  {
    if expenses == [] then []
    else
      var last := expenses[|expenses| - 1];
      OfCategory(expenses[..|expenses| - 1], c) + (if last.category == c then [last] else [])
  }

  /** What was spent in category `c`. */
  function CategoryTotal(expenses: seq<Expense>, c: Category): real
  {
    TotalExpenses(OfCategory(expenses, c))
  }

  /** The reference grouping: one entry per category that occurs, in
      first-occurrence order, valued at that category's total. */
  function ByCategory(expenses: seq<Expense>): seq<CategoryEntry>
  {
    var order := CategoryOrder(expenses);
    seq(|order|, k requires 0 <= k < |order| => CategoryEntry(order[k], CategoryTotal(expenses, order[k])))
  }

  function Values(entries: seq<CategoryEntry>): seq<real>
  {
    seq(|entries|, k requires 0 <= k < |entries| => entries[k].value)
  }

  /** The `Map` lookup: the position of `c` among the entries, or
      `|entries|` when it is not there. */
  method FindCategory(entries: seq<CategoryEntry>, c: Category) returns (j: nat)
    ensures j <= |entries|
    ensures j < |entries| ==> entries[j].name == c
    ensures forall k :: 0 <= k < j ==> entries[k].name != c
  {
    j := 0;
    while j < |entries| && entries[j].name != c
      invariant j <= |entries|
      invariant forall k :: 0 <= k < j ==> entries[k].name != c
    {
      j := j + 1;
    }
  }

  /** `categoryData`: walks the expenses once, keeping a list of
      (category, running total) pairs as the `Map` does: an existing
      category's total is raised in place, a new category is appended. */
  method CategoryData(expenses: seq<Expense>) returns (entries: seq<CategoryEntry>)
    ensures entries == ByCategory(expenses)
  {
    entries := [];
    var i := 0;
    while i < |expenses|
      invariant 0 <= i <= |expenses|
      invariant entries == ByCategory(expenses[..i])
    {
      var e := expenses[i];
      var j := FindCategory(entries, e.category);
      if j < |entries| {
        ByCategoryAddPresent(expenses[..i], e, j);
        entries := entries[j := CategoryEntry(e.category, entries[j].value + e.amount)];
      } else {
        ByCategoryAddAbsent(expenses[..i], e);
        entries := entries + [CategoryEntry(e.category, e.amount)];
      }
      assert expenses[..i + 1] == expenses[..i] + [e];
      i := i + 1;
    }
    assert expenses[..i] == expenses;
  }

  /** `summaryData`: always two bars, incomes ('Entradas') first and
      expenses ('Saídas') second, valued at the dashboard's totals. */
  function SummaryData(incomes: seq<Income>, expenses: seq<Expense>): (r: seq<SummaryEntry>)
    ensures |r| == 2
    ensures r[0] == SummaryEntry("Entradas", TotalIncome(incomes))
    ensures r[1] == SummaryEntry("Saídas", TotalExpenses(expenses))
  {
    [SummaryEntry("Entradas", TotalIncome(incomes)), SummaryEntry("Saídas", TotalExpenses(expenses))]
  }

  // ---------------------------------------------------------------------
  // How one more expense changes the grouping

  lemma CategoryOrderAppend(expenses: seq<Expense>, e: Expense)
    ensures CategoryOrder(expenses + [e]) ==
      if e.category in CategoryOrder(expenses) then CategoryOrder(expenses)
      else CategoryOrder(expenses) + [e.category]
  {
    assert (expenses + [e])[..|expenses|] == expenses;
  }

  lemma OfCategoryAppend(expenses: seq<Expense>, e: Expense, c: Category)
    ensures OfCategory(expenses + [e], c) == OfCategory(expenses, c) + (if e.category == c then [e] else [])
  {
    assert (expenses + [e])[..|expenses|] == expenses;
  }

  lemma CategoryTotalAppend(expenses: seq<Expense>, e: Expense, c: Category)
    ensures CategoryTotal(expenses + [e], c) == CategoryTotal(expenses, c) + (if e.category == c then e.amount else 0.0)
  {
    OfCategoryAppend(expenses, e, c);
    TotalExpensesConcat(OfCategory(expenses, c), if e.category == c then [e] else []);
    if e.category == c {
      PrependExpense([], e, []);
      assert [e] + [] == [e];
    }
  }

  /** A category that is not listed has no expenses and totals 0. */
  lemma {:induction false} CategoryTotalAbsent(expenses: seq<Expense>, c: Category)
    requires c !in CategoryOrder(expenses)
    ensures OfCategory(expenses, c) == []
    ensures CategoryTotal(expenses, c) == 0.0
    decreases |expenses|
  {
    if expenses != [] {
      var init, last := expenses[..|expenses| - 1], expenses[|expenses| - 1];
      assert expenses == init + [last];
      CategoryOrderAppend(init, last);
      CategoryTotalAbsent(init, c);
    }
  }

  /** Two entry lists that agree at every index are equal. */
  lemma EntriesEqual(a: seq<CategoryEntry>, b: seq<CategoryEntry>)
    requires |a| == |b|
    requires forall k :: 0 <= k < |a| ==> a[k] == b[k]
    ensures a == b
  {
  }

  /** When the key order is unchanged, entry `k` after one more expense is
      entry `k` before it, raised by the amount if the category matches. */
  lemma EntryAfterAdd(expenses: seq<Expense>, e: Expense, k: nat)
    requires k < |CategoryOrder(expenses)|
    requires CategoryOrder(expenses + [e]) == CategoryOrder(expenses)
    ensures ByCategory(expenses + [e])[k] ==
      CategoryEntry(ByCategory(expenses)[k].name,
        ByCategory(expenses)[k].value + (if ByCategory(expenses)[k].name == e.category then e.amount else 0.0))
  {
    CategoryTotalAppend(expenses, e, CategoryOrder(expenses)[k]);
  }

  /** An expense whose category is already listed raises that entry only. */
  lemma ByCategoryAddPresent(expenses: seq<Expense>, e: Expense, j: nat)
    requires j < |ByCategory(expenses)| && ByCategory(expenses)[j].name == e.category
    ensures ByCategory(expenses + [e]) ==
      ByCategory(expenses)[j := CategoryEntry(e.category, ByCategory(expenses)[j].value + e.amount)]
  {
    var g, g' := ByCategory(expenses), ByCategory(expenses + [e]);
    var order := CategoryOrder(expenses);
    CategoryOrderAppend(expenses, e);
    assert CategoryOrder(expenses + [e]) == order;
    var h := g[j := CategoryEntry(e.category, g[j].value + e.amount)];
    forall k | 0 <= k < |g|
      ensures g'[k] == h[k]
    {
      EntryAfterAdd(expenses, e, k);
      if k != j {
        assert order[k] != order[j];
      }
    }
    EntriesEqual(g', h);
  }

  /** An expense of a new category appends an entry holding its amount. */
  lemma ByCategoryAddAbsent(expenses: seq<Expense>, e: Expense)
    requires forall k :: 0 <= k < |ByCategory(expenses)| ==> ByCategory(expenses)[k].name != e.category
    ensures ByCategory(expenses + [e]) == ByCategory(expenses) + [CategoryEntry(e.category, e.amount)]
  {
    var g, g' := ByCategory(expenses), ByCategory(expenses + [e]);
    var order := CategoryOrder(expenses);
    assert forall k :: 0 <= k < |order| ==> order[k] == g[k].name;
    assert e.category !in order;
    CategoryOrderAppend(expenses, e);
    var order' := order + [e.category];
    forall k | 0 <= k < |g'|
      ensures g'[k] == (g + [CategoryEntry(e.category, e.amount)])[k]
    {
      CategoryTotalAppend(expenses, e, order'[k]);
      if k == |g| {
        CategoryTotalAbsent(expenses, e.category);
      } else {
        assert order'[k] == order[k] != e.category;
      }
    }
    EntriesEqual(g', g + [CategoryEntry(e.category, e.amount)]);
  }

  /** Raising one entry by `a` raises the sum of the values by `a`. */
  lemma SumValuesRaise(g: seq<CategoryEntry>, g': seq<CategoryEntry>, j: nat, a: real)
    requires j < |g| && g' == g[j := CategoryEntry(g[j].name, g[j].value + a)]
    ensures Sum(Values(g')) == Sum(Values(g)) + a
  {
    var vs := Values(g);
    assert Values(g') == vs[j := vs[j] + a];
    SumUpdate(vs, j, a);
  }

  /** Appending an entry adds its value to the sum of the values. */
  lemma SumValuesAppend(g: seq<CategoryEntry>, g': seq<CategoryEntry>, x: CategoryEntry)
    requires g' == g + [x]
    ensures Sum(Values(g')) == Sum(Values(g)) + x.value
  {
    assert Values(g') == Values(g) + [x.value];
    SumAppendOne(Values(g), x.value);
  }

  /** An expense of a listed category raises the grouped sum by its amount. */
  lemma GroupedSumAppendPresent(expenses: seq<Expense>, e: Expense, j: nat)
    requires j < |ByCategory(expenses)| && ByCategory(expenses)[j].name == e.category
    ensures Sum(Values(ByCategory(expenses + [e]))) == Sum(Values(ByCategory(expenses))) + e.amount
  {
    ByCategoryAddPresent(expenses, e, j);
    SumValuesRaise(ByCategory(expenses), ByCategory(expenses + [e]), j, e.amount);
  }

  /** An expense of a new category raises the grouped sum by its amount. */
  lemma GroupedSumAppendAbsent(expenses: seq<Expense>, e: Expense)
    requires forall k :: 0 <= k < |ByCategory(expenses)| ==> ByCategory(expenses)[k].name != e.category
    ensures Sum(Values(ByCategory(expenses + [e]))) == Sum(Values(ByCategory(expenses))) + e.amount
  {
    ByCategoryAddAbsent(expenses, e);
    SumValuesAppend(ByCategory(expenses), ByCategory(expenses + [e]), CategoryEntry(e.category, e.amount));
  }

  /** One more expense raises the sum of the grouped values by its amount. */
  lemma GroupedSumAppend(expenses: seq<Expense>, e: Expense)
    ensures Sum(Values(ByCategory(expenses + [e]))) == Sum(Values(ByCategory(expenses))) + e.amount
  {
    var g := ByCategory(expenses);
    if j :| 0 <= j < |g| && g[j].name == e.category {
      GroupedSumAppendPresent(expenses, e, j);
    } else {
      GroupedSumAppendAbsent(expenses, e);
    }
  }

  // ---------------------------------------------------------------------
  // Properties of the grouping

  /** A category is listed exactly when some expense has it. */
  lemma {:induction false} CategoryOrderMembers(expenses: seq<Expense>, c: Category)
    ensures c in CategoryOrder(expenses) <==> exists k :: 0 <= k < |expenses| && expenses[k].category == c
    decreases |expenses|
  {
    if expenses != [] {
      var init, last := expenses[..|expenses| - 1], expenses[|expenses| - 1];
      assert expenses == init + [last];
      CategoryOrderAppend(init, last);
      CategoryOrderMembers(init, c);
      if k :| 0 <= k < |expenses| && expenses[k].category == c {
        if k < |init| {
          assert init[k].category == c;
        }
      }
      if k :| 0 <= k < |init| && init[k].category == c {
        assert expenses[k].category == c;
      }
    }
  }

  /** No category is listed twice. */
  lemma ByCategoryDistinct(expenses: seq<Expense>)
    ensures forall i, j :: 0 <= i < j < |ByCategory(expenses)| ==>
      ByCategory(expenses)[i].name != ByCategory(expenses)[j].name
  {
  }

  /** A category is listed exactly when some expense has it; in particular
      no expenses give no entries. */
  lemma ByCategoryMembership(expenses: seq<Expense>, c: Category)
    ensures (exists k :: 0 <= k < |ByCategory(expenses)| && ByCategory(expenses)[k].name == c)
        <==> (exists k :: 0 <= k < |expenses| && expenses[k].category == c)
    ensures |ByCategory(expenses)| == 0 <==> expenses == []
  {
    var order := CategoryOrder(expenses);
    CategoryOrderMembers(expenses, c);
    if c in order {
      var k :| 0 <= k < |order| && order[k] == c;
      assert ByCategory(expenses)[k].name == c;
    }
    if expenses != [] {
      CategoryOrderMembers(expenses, expenses[0].category);
      assert expenses[0].category in order;
    }
  }

  /** `OfCategory` keeps exactly the expenses of category `c`. */
  lemma {:induction false} OfCategoryMembers(expenses: seq<Expense>, c: Category)
    ensures forall e :: e in OfCategory(expenses, c) <==> e in expenses && e.category == c
    decreases |expenses|
  {
    if expenses != [] {
      var init, last := expenses[..|expenses| - 1], expenses[|expenses| - 1];
      assert expenses == init + [last];
      OfCategoryMembers(init, c);
    }
  }

  /** `OfCategory` keeps each expense of category `c` as many times as it
      occurs, and no other expense. */
  lemma {:induction false} OfCategoryCounts(expenses: seq<Expense>, c: Category)
    ensures forall e ::
              multiset(OfCategory(expenses, c))[e] == (if e.category == c then multiset(expenses)[e] else 0)
    decreases |expenses|
  {
    if expenses != [] {
      var init, last := expenses[..|expenses| - 1], expenses[|expenses| - 1];
      assert expenses == init + [last];
      assert multiset(expenses) == multiset(init) + multiset{last};
      OfCategoryAppend(init, last, c);
      OfCategoryCounts(init, c);
    }
  }

  /** Each entry's value is the sum of the amounts of exactly the expenses
      of its category, taken in list order. */
  lemma ByCategoryValues(expenses: seq<Expense>, k: nat)
    requires k < |ByCategory(expenses)|
    ensures ByCategory(expenses)[k].value == TotalExpenses(OfCategory(expenses, ByCategory(expenses)[k].name))
    ensures forall e :: e in OfCategory(expenses, ByCategory(expenses)[k].name) <==>
      e in expenses && e.category == ByCategory(expenses)[k].name
  {
    OfCategoryMembers(expenses, ByCategory(expenses)[k].name);
  }

  /** A category's first occurrence: the first expense that has it. */
  predicate FirstOccurrence(expenses: seq<Expense>, c: Category, p: int)
  {
    && 0 <= p < |expenses|
    && expenses[p].category == c
    && forall q :: 0 <= q < p ==> expenses[q].category != c
  }

  /** Entries appear in the order in which their categories first occur. */
  lemma {:induction false} CategoryOrderIsFirstOccurrenceOrder(expenses: seq<Expense>, i: nat, j: nat, p: int, q: int)
    requires i < j < |CategoryOrder(expenses)|
    requires FirstOccurrence(expenses, CategoryOrder(expenses)[i], p)
    requires FirstOccurrence(expenses, CategoryOrder(expenses)[j], q)
    ensures p < q
    decreases |expenses|
  {
    var n := |expenses|;
    var init := expenses[..n - 1];
    var order, order0 := CategoryOrder(expenses), CategoryOrder(init);
    CategoryOrderAppend(init, expenses[n - 1]);
    assert init + [expenses[n - 1]] == expenses;
    // Every category of order0 occurs in init, so its first occurrence in
    // expenses lies in init and is its first occurrence there too.
    forall k, r | 0 <= k < |order0| && FirstOccurrence(expenses, order0[k], r)
      ensures r < n - 1 && FirstOccurrence(init, order0[k], r)
    {
      CategoryOrderMembers(init, order0[k]);
      var w :| 0 <= w < |init| && init[w].category == order0[k];
      assert expenses[w].category == order0[k];
    }
    if j < |order0| {
      CategoryOrderIsFirstOccurrenceOrder(init, i, j, p, q);
    } else {
      assert order[j] == expenses[n - 1].category && order[j] !in order0;
      CategoryOrderMembers(init, order[j]);
      assert q >= n - 1;
    }
  }

  /** The grouped values add up to total expenses. */
  lemma {:induction false} ByCategoryTotal(expenses: seq<Expense>)
    ensures Sum(Values(ByCategory(expenses))) == TotalExpenses(expenses)
    decreases |expenses|
  {
    if expenses != [] {
      var init, e := expenses[..|expenses| - 1], expenses[|expenses| - 1];
      assert expenses == init + [e];
      ByCategoryTotal(init);
      GroupedSumAppend(init, e);
      assert TotalExpenses(expenses) == TotalExpenses(init) + e.amount by {
        TotalExpensesConcat(init, [e]);
        PrependExpense([], e, []);
        assert [e] + [] == [e];
      }
    }
  }

  /** The worked example: two food expenses of 300 and 200 and one income
      of 1000 give totals 1000 and 500, balance 500 and one food slice of
      500. */
  lemma WorkedExample(i: Income, e1: Expense, e2: Expense)
    requires i.amount == 1000.0
    requires e1.amount == 300.0 && e1.category == Food
    requires e2.amount == 200.0 && e2.category == Food
    ensures TotalIncome([i]) == 1000.0
    ensures TotalExpenses([e1, e2]) == 500.0
    ensures Balance([i], [e1, e2]) == 500.0
    ensures ByCategory([e1, e2]) == [CategoryEntry(Food, 500.0)]
  {
    PrependIncome(i, [], []);
    assert [i] + [] == [i];
    PrependExpense([i], e2, []);
    assert [e2] + [] == [e2];
    PrependExpense([i], e1, [e2]);
    assert [e1] + [e2] == [e1, e2];
    ByCategoryAddAbsent([], e1);
    assert [] + [e1] == [e1];
    ByCategoryAddPresent([e1], e2, 0);
  }
}
