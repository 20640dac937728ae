/** The domain records of the finance tracker: expenses, incomes, the user
    and the aggregate handed to the dashboard, the charts and the advisor. */
module Types {

  /** An optional field (`field?: T` in the records below). */
  datatype Option<+T> = None | Some(value: T)

  /** How an expense is paid. */
  datatype ExpenseType = Single | Monthly | Installments {
    /** The string value the enum member carries. */
    function Label(): string {
      match this
      case Single => "Único"
      case Monthly => "Mensal"
      case Installments => "Parcelado"
    }

    /** Position in declaration order. */
    function Ordinal(): nat {
      match this
      case Single => 0
      case Monthly => 1
      case Installments => 2
    }
  }

  /** The eight spending categories. */
  datatype Category =
    | Food | Transport | Housing | Entertainment
    | Health | Education | Shopping | Others
  {
    /** The string value the enum member carries. */
    function Label(): string {
      match this
      case Food => "Alimentação"
      case Transport => "Transporte"
      case Housing => "Moradia"
      case Entertainment => "Lazer"
      case Health => "Saúde"
      case Education => "Educação"
      case Shopping => "Compras"
      case Others => "Outros"
    }

    /** Position in declaration order. */
    function Ordinal(): nat {
      match this
      case Food => 0
      case Transport => 1
      case Housing => 2
      case Entertainment => 3
      case Health => 4
      case Education => 5
      case Shopping => 6
      case Others => 7
    }
  }

  /** Every payment type, in declaration order: exactly three, pairwise
      distinct, with distinct labels, and each one at its own position. */
  function AllExpenseTypes(): (r: seq<ExpenseType>)
    ensures |r| == 3
    ensures forall t: ExpenseType :: t.Ordinal() < |r| && r[t.Ordinal()] == t
    ensures forall i, j :: 0 <= i < j < |r| ==> r[i] != r[j] && r[i].Label() != r[j].Label()
  {
    [Single, Monthly, Installments]
  }

  /** Every category, in declaration order: exactly eight, pairwise
      distinct, with distinct labels, and each one at its own position. */
  function AllCategories(): (r: seq<Category>)
    ensures |r| == 8
    ensures forall c: Category :: c.Ordinal() < |r| && r[c.Ordinal()] == c
    ensures forall i, j :: 0 <= i < j < |r| ==> r[i] != r[j] && r[i].Label() != r[j].Label()
  {
    [Food, Transport, Housing, Entertainment, Health, Education, Shopping, Others]
  }

  /** An expense. `installments` and `currentInstallment` are the only
      optional fields; the amount is an exact value rather than a float. */
  datatype Expense = Expense(
    id: string,
    description: string,
    amount: real,
    category: Category,
    paymentType: ExpenseType,
    installments: Option<int>,
    currentInstallment: Option<int>,
    date: string)
  {
    /** The two installment fields are present together, and exactly when
        the expense is paid in installments. The record type itself does
        not demand this; the expense form establishes it. */
    predicate InstallmentFieldsAgree() {
      && installments.Some? == currentInstallment.Some?
      && (installments.Some? <==> paymentType == Installments)
    }
  }

  /** An income entry; `isExtra` marks a one-off income. */
  datatype Income = Income(
    id: string,
    description: string,
    amount: real,
    date: string,
    isExtra: bool)

  /** The aggregate view over both collections. */
  datatype FinancialData = FinancialData(
    expenses: seq<Expense>,
    incomes: seq<Income>,
    monthlyBudget: real)

  /** The signed-in user. */
  datatype User = User(
    id: string,
    email: string,
    name: string,
    isSubscribed: bool)
}
