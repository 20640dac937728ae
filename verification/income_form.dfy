/** The new-income form. Parsing of the amount text is left to the
    caller-supplied `parseFloat`; the id and the timestamp come in as
    parameters. */
module IncomeForm {
  import opened Types

  /** The income built on a successful submit: the description and the
      one-off flag copied, the amount parsed. */
  function NewIncome(
    id: string, date: string, description: string, amount: string, isExtra: bool,
    parseFloat: string -> real): (i: Income)
    ensures i.id == id && i.date == date
    ensures i.description == description && i.isExtra == isExtra
    ensures i.amount == parseFloat(amount)
  {
    Income(id, description, parseFloat(amount), date, isExtra)
  }

  /** The form's state: every field is what the inputs show. */
  class Form {
    var description: string
    var amount: string
    var isExtra: bool

    constructor ()
      ensures description == "" && amount == "" && !isExtra
    {
      description := "";
      amount := "";
      isExtra := false;
    }

    /** The submit handler. With an empty description or amount text it
        hands nothing on and changes nothing. Otherwise it hands on one
        income built from the fields as they were, then clears every
        field. */
    method HandleSubmit(id: string, date: string, parseFloat: string -> real)
      returns (added: Option<Income>)
      modifies this
      ensures old(description) == "" || old(amount) == "" ==>
        && added == None
        && description == old(description) && amount == old(amount) && isExtra == old(isExtra)
      ensures old(description) != "" && old(amount) != "" ==>
        && added == Some(NewIncome(id, date, old(description), old(amount), old(isExtra), parseFloat))
        && description == "" && amount == "" && !isExtra
    {
      if description == "" || amount == "" {
        return None;
      }
      var income := NewIncome(id, date, description, amount, isExtra, parseFloat);
      added := Some(income);
      description := "";
      amount := "";
      isExtra := false;
    }
  }
}
