/** The new-expense form. Parsing of the amount and installment texts is
    left to the caller-supplied `parseFloat` and `parseInt`; the id and
    the timestamp come in as parameters. */
module ExpenseForm {
  import opened Types

  /** The installments text the form starts from and resets to. */
  const InitialInstallments: string := "1"

  /** The expense built on a successful submit: the form's description,
      category and payment type copied, the amount parsed, and the two
      installment fields set only for an installment expense, with the
      current installment fixed at 1 and no minimum on the count. */
  function NewExpense(
    id: string, date: string,
    description: string, amount: string, category: Category,
    paymentType: ExpenseType, installments: string,
    parseFloat: string -> real, parseInt: string -> int): (e: Expense)
    ensures e.id == id && e.date == date
    ensures e.description == description && e.category == category && e.paymentType == paymentType
    ensures e.amount == parseFloat(amount)
    ensures paymentType == Installments ==>
      e.installments == Some(parseInt(installments)) && e.currentInstallment == Some(1)
    ensures paymentType != Installments ==>
      e.installments == None && e.currentInstallment == None
    ensures e.InstallmentFieldsAgree()
  {
    Expense(id, description, parseFloat(amount), category, paymentType,
      if paymentType == Installments then Some(parseInt(installments)) else None,
      if paymentType == Installments then Some(1) else None,
      date)
  }

  /** The form's state: every field is what the inputs show. */
  class Form {
    var description: string
    var amount: string
    var category: Category
    var paymentType: ExpenseType
    var installments: string

    constructor ()
      ensures description == "" && amount == ""
      ensures category == Food && paymentType == Single
      ensures installments == InitialInstallments
    {
      description := "";
      amount := "";
      category := Food;
      paymentType := Single;
      installments := InitialInstallments;
    }

    /** The submit handler. With an empty description or amount text it
        hands nothing on and changes nothing. Otherwise it hands on one
        expense built from the fields as they were, then clears the
        description and amount, resets installments and payment type, and
        keeps the category. No sign or range check is made on the amount. */
    method HandleSubmit(id: string, date: string, parseFloat: string -> real, parseInt: string -> int)
      returns (added: Option<Expense>)
      modifies this
      ensures old(description) == "" || old(amount) == "" ==>
        && added == None
        && description == old(description) && amount == old(amount)
        && category == old(category) && paymentType == old(paymentType)
        && installments == old(installments)
      ensures old(description) != "" && old(amount) != "" ==>
        && added == Some(NewExpense(id, date, old(description), old(amount), old(category),
                                    old(paymentType), old(installments), parseFloat, parseInt))
        && description == "" && amount == ""
        && installments == InitialInstallments && paymentType == Single
        && category == old(category)
    {
      if description == "" || amount == "" {
        return None;
      }
      var expense := NewExpense(id, date, description, amount, category,
                                paymentType, installments, parseFloat, parseInt);
      added := Some(expense);
      description := "";
      amount := "";
      installments := InitialInstallments;
      paymentType := Single;
    }
  }
}
