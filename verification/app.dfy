/** The application shell: the expense and income collections with their
    add and delete handlers, the user record and the three-screen gate
    (sign-in, subscription, main application) it drives. */
module App {
  import opened Types
  import opened Dashboard
  import Auth
  import ExpenseForm
  import IncomeForm

  /** The top-level screen shown. */
  datatype Screen = AuthScreen | SubscriptionScreen | MainScreen

  /** The gate: no user shows the sign-in screen, an unsubscribed user the
      subscription screen, a subscribed user the application. */
  function ScreenFor(user: Option<User>): (s: Screen)
    ensures s == AuthScreen <==> user == None
    ensures s == SubscriptionScreen <==> user.Some? && !user.value.isSubscribed
    ensures s == MainScreen <==> user.Some? && user.value.isSubscribed
  {
    if user == None then AuthScreen
    else if !user.value.isSubscribed then SubscriptionScreen
    else MainScreen
  }

  /** The gate looks at nothing but whether there is a user and whether
      that user is subscribed: id, email and name play no part. */
  lemma ScreenReadsOnlySubscription(u: User, v: User)
    requires u.isSubscribed == v.isSubscribed
    ensures ScreenFor(Some(u)) == ScreenFor(Some(v))
    ensures ScreenFor(Some(u)) != AuthScreen
  {
  }

  function ExpenseId(e: Expense): string { e.id }
  function IncomeId(i: Income): string { i.id }

  /** `filter(x => x.id !== id)`: the elements whose id differs from `id`,
      in their original order. */
  function WithoutId<T(==,!new)>(s: seq<T>, idOf: T -> string, id: string): (r: seq<T>)
    ensures |r| <= |s|
    ensures forall x :: x in r <==> x in s && idOf(x) != id
  {
    if s == [] then []
    else (if idOf(s[0]) == id then [] else [s[0]]) + WithoutId(s[1..], idOf, id)
  }

  /** Filtering distributes over concatenation, so the survivors keep their
      relative order. */
  lemma {:induction false} WithoutIdConcat<T(!new)>(a: seq<T>, b: seq<T>, idOf: T -> string, id: string)
    ensures WithoutId(a + b, idOf, id) == WithoutId(a, idOf, id) + WithoutId(b, idOf, id)
    decreases |a|
  {
    if a == [] {
      assert a + b == b;
    } else {
      assert (a + b)[0] == a[0] && (a + b)[1..] == a[1..] + b;
      WithoutIdConcat(a[1..], b, idOf, id);
    }
  }

  /** Deleting an id no element has changes nothing. */
  lemma {:induction false} WithoutAbsentId<T(!new)>(s: seq<T>, idOf: T -> string, id: string)
    requires forall x :: x in s ==> idOf(x) != id
    ensures WithoutId(s, idOf, id) == s
    decreases |s|
  {
    if s != [] {
      assert s == [s[0]] + s[1..];
      WithoutAbsentId(s[1..], idOf, id);
    }
  }

  /** Deleting the same id twice is deleting it once. */
  lemma WithoutIdIdempotent<T(!new)>(s: seq<T>, idOf: T -> string, id: string)
    ensures WithoutId(WithoutId(s, idOf, id), idOf, id) == WithoutId(s, idOf, id)
  {
    WithoutAbsentId(WithoutId(s, idOf, id), idOf, id);
  }

  /** The component's state. The persisted copies of these fields are not
      part of this model. */
  class AppState {
    var user: Option<User>
    var expenses: seq<Expense>
    var incomes: seq<Income>

    /** Before anything is loaded there is no user and no entry. */
    constructor ()
      ensures user == None && expenses == [] && incomes == []
    {
      user := None;
      expenses := [];
      incomes := [];
    }

    /** `financialData`: the current collections and a budget of 0. */
    function Data(): (d: FinancialData)
      reads this
      ensures d.expenses == expenses && d.incomes == incomes
      ensures d.monthlyBudget == 0.0
    {
      FinancialData(expenses, incomes, 0.0)
    }

    /** The new expense becomes the head; the old list is the tail. */
    method AddExpense(expense: Expense)
      modifies this`expenses
      ensures expenses == [expense] + old(expenses)
      ensures TotalExpenses(expenses) == TotalExpenses(old(expenses)) + expense.amount
    {
      PrependExpense(incomes, expense, expenses);
      expenses := [expense] + expenses;
    }

    /** The new income becomes the head; the old list is the tail. */
    method AddIncome(income: Income)
      modifies this`incomes
      ensures incomes == [income] + old(incomes)
      ensures TotalIncome(incomes) == TotalIncome(old(incomes)) + income.amount
    {
      PrependIncome(income, incomes, expenses);
      incomes := [income] + incomes;
    }

    /** Drops every expense with this id and keeps the rest in order. */
    method DeleteExpense(id: string)
      modifies this`expenses
      ensures expenses == WithoutId(old(expenses), ExpenseId, id)
      ensures forall e :: e in expenses ==> e.id != id
    {
      expenses := WithoutId(expenses, ExpenseId, id);
    }

    /** Drops every income with this id and keeps the rest in order. */
    method DeleteIncome(id: string)
      modifies this`incomes
      ensures incomes == WithoutId(old(incomes), IncomeId, id)
      ensures forall i :: i in incomes ==> i.id != id
    {
      incomes := WithoutId(incomes, IncomeId, id);
    }

    /** The user handed on by the sign-in screen becomes the current user. */
    method HandleAuthSuccess(u: User)
      modifies this`user
      ensures user == Some(u)
    {
      user := Some(u);
    }

    /** Marks the current user subscribed, keeping id, email and name; with
        no user it does nothing. */
    method HandlePaymentComplete()
      modifies this`user
      ensures old(user) == None ==> user == None
      ensures old(user).Some? ==>
        user == Some(User(old(user).value.id, old(user).value.email, old(user).value.name, true))
    {
      if user.Some? {
        user := Some(user.value.(isSubscribed := true));
      }
    }

    /** Clears the user; the collections stay as they are. */
    method Logout()
      modifies this`user
      ensures user == None
    {
      user := None;
    }

    /** The expense form wired to `AddExpense`: a rejected submit leaves
        the list and the form alone, an accepted one prepends exactly the
        expense built from the form and resets the form as its handler
        does. */
    method SubmitExpense(form: ExpenseForm.Form, id: string, date: string,
                         parseFloat: string -> real, parseInt: string -> int)
      modifies this`expenses, form
      ensures old(form.description) == "" || old(form.amount) == "" ==>
        && expenses == old(expenses)
        && form.description == old(form.description) && form.amount == old(form.amount)
        && form.category == old(form.category) && form.paymentType == old(form.paymentType)
        && form.installments == old(form.installments)
      ensures old(form.description) != "" && old(form.amount) != "" ==>
        && expenses == [ExpenseForm.NewExpense(id, date, old(form.description), old(form.amount),
                          old(form.category), old(form.paymentType), old(form.installments),
                          parseFloat, parseInt)] + old(expenses)
        && form.description == "" && form.amount == ""
        && form.installments == ExpenseForm.InitialInstallments && form.paymentType == Single
        && form.category == old(form.category)
    {
      var added := form.HandleSubmit(id, date, parseFloat, parseInt);
      if added.Some? {
        AddExpense(added.value);
      }
    }

    /** The income form wired to `AddIncome`: a rejected submit leaves the
        list and the form alone, an accepted one prepends exactly the income
        built from the form and clears the form. */
    method SubmitIncome(form: IncomeForm.Form, id: string, date: string, parseFloat: string -> real)
      modifies this`incomes, form
      ensures old(form.description) == "" || old(form.amount) == "" ==>
        && incomes == old(incomes)
        && form.description == old(form.description) && form.amount == old(form.amount)
        && form.isExtra == old(form.isExtra)
      ensures old(form.description) != "" && old(form.amount) != "" ==>
        && incomes == [IncomeForm.NewIncome(id, date, old(form.description), old(form.amount),
                         old(form.isExtra), parseFloat)] + old(incomes)
        && form.description == "" && form.amount == "" && !form.isExtra
    {
      var added := form.HandleSubmit(id, date, parseFloat);
      if added.Some? {
        AddIncome(added.value);
      }
    }
  }

  /** The gate from a fresh start: sign-in screen; after signing up,
      the subscription screen; after paying, the application; after
      logging out, the sign-in screen again, with the entries added in
      between still there. */
  method SessionWalkthrough(id: string, email: string, name: string, expense: Expense)
    returns (screens: seq<Screen>, kept: seq<Expense>)
    ensures screens == [AuthScreen, SubscriptionScreen, MainScreen, AuthScreen]
    ensures kept == [expense]
  {
    var app := new AppState();
    var s0 := ScreenFor(app.user);
    var form := new Auth.AuthForm();
    form.ToggleMode();
    form.email := email;
    form.name := name;
    var u := form.HandleSubmit(id);
    app.HandleAuthSuccess(u);
    var s1 := ScreenFor(app.user);
    app.HandlePaymentComplete();
    var s2 := ScreenFor(app.user);
    app.AddExpense(expense);
    app.Logout();
    var s3 := ScreenFor(app.user);
    screens := [s0, s1, s2, s3];
    kept := app.expenses;
  }

  /** Payment with no user signed in leaves the sign-in screen showing. */
  method PaymentWithoutUser() returns (screen: Screen)
    ensures screen == AuthScreen
  {
    var app := new AppState();
    app.HandlePaymentComplete();
    screen := ScreenFor(app.user);
  }
}
