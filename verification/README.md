# FinanzaAI bookkeeping core in Dafny

FinanzaAI is a personal-finance web app. It keeps a list of expenses and a
list of incomes, shows their totals and the resulting balance, groups the
expenses by category for a pie chart, and puts everything behind a simulated
sign-in and a subscription gate. This project models that bookkeeping layer
and proves what it promises.

- `types.dfy` (module `Types`): the two enums (`ExpenseType`, `Category`)
  with their Portuguese labels, and the `Expense`, `Income`, `FinancialData`
  and `User` records.
- `dashboard.dfy` (module `Dashboard`): the totals as left folds (`reduce`),
  the balance, and the negative-balance warning style.
- `charts.dfy` (module `Charts`):
  - `CategoryData` is the `Map`-filling loop of the category chart. The map
    is a sequence of category/value pairs in insertion order.
  - The method is proved equal to the declarative `ByCategory`: categories in
    first-occurrence order, each with the total of its expenses.
  - `SummaryData` is the two-bar income/expense series.
- `app.dfy` (module `App`):
  - The `AppState` class holds the user and the two lists.
  - Its add and delete handlers work as in the app: an add prepends, a delete
    filters by id.
  - The payment and logout handlers and the three-screen gate are modelled
    too.
  - Two scenario methods walk the gate from a fresh start.
- `expense_form.dfy` and `income_form.dfy`: each form is a class whose fields
  are its inputs. `HandleSubmit` validates, builds the entry, hands it on and
  resets fields exactly as the component does. An accepted submit returns
  `Some(entry)`, which is the single `onAdd` call. A rejected submit returns
  `None`.
- `auth.dfy` (module `Auth`): the sign-in form with its mode toggle and the
  mock user it builds.

Amounts are exact `real`s. The id generator, the clock and the number
parsers are parameters: `id`, `date`, `parseFloat`, `parseInt`.

Some behaviour follows the code rather than the stated intent:
- The forms reject only an empty description or amount text. Nothing checks
  the amount's sign.
- The expense form enforces no minimum installment count. The `min="2"`
  attribute is browser-side only.
- A login submit does not always carry the default name `Usuário`. The name
  state survives mode toggles, so a name typed in sign-up mode is still sent
  after switching back to login (`Auth.NameSurvivesToggling`). On a fresh
  form the login name is the default (`Auth.LoginOnFreshForm`).

## Model

| member | source | states |
|---|---|---|
| Types.AllExpenseTypes | types.ts:2-6 | exactly three payment types: every value sits at its ordinal, and the values and the labels Único/Mensal/Parcelado are pairwise distinct |
| Types.AllCategories | types.ts:8-17 | exactly eight categories: every value sits at its ordinal, and the values and their labels are pairwise distinct |
| Dashboard.TotalIncome | components/Dashboard.tsx:14 | the income total of an empty list is 0 |
| Dashboard.TotalExpenses | components/Dashboard.tsx:15 | the expense total of an empty list is 0 |
| Dashboard.TotalIncomeConcat | components/Dashboard.tsx:14 | the income total of a concatenation is the sum of the two totals |
| Dashboard.TotalExpensesConcat | components/Dashboard.tsx:15 | the expense total of a concatenation is the sum of the two totals |
| Dashboard.PrependExpense | components/Dashboard.tsx:14-16 | prepending an expense of amount a raises total expenses by a and lowers the balance by a |
| Dashboard.PrependIncome | components/Dashboard.tsx:14-16 | prepending an income of amount a raises total income by a and raises the balance by a |
| Dashboard.BalanceMayBeNegative | components/Dashboard.tsx:16 | with no income, one positive expense gives balance minus its amount, shown in the warning style |
| Dashboard.StyleOf | components/Dashboard.tsx:33 | the balance is shown in the warning style exactly when it is below zero |
| Charts.CategoryOrder | components/Charts.tsx:14-18 | the map's key order never lists a category twice |
| Charts.FindCategory | components/Charts.tsx:16 | the map lookup: returns the index of the entry with this category, or the length when no entry has it |
| Charts.CategoryData | components/Charts.tsx:13-19 | the map-filling loop yields exactly `ByCategory`: first-occurrence order, one entry per category, each holding that category's total |
| Charts.SummaryData | components/Charts.tsx:21-28 | exactly two entries, Entradas holding total income and Saídas holding total expenses, whatever the lists |
| Charts.CategoryTotalAbsent | components/Charts.tsx:15-18 | a category missing from the key order has no expense, so its total is 0 |
| Charts.ByCategoryAddPresent | components/Charts.tsx:16 | an expense of a category already in the map raises that entry by its amount and changes no other entry |
| Charts.ByCategoryAddAbsent | components/Charts.tsx:16 | an expense of a new category appends one entry holding its amount |
| Charts.GroupedSumAppendPresent | components/Charts.tsx:16 | adding an expense of a listed category raises the sum of the grouped values by its amount |
| Charts.GroupedSumAppendAbsent | components/Charts.tsx:16 | adding an expense of a new category raises the sum of the grouped values by its amount |
| Charts.GroupedSumAppend | components/Charts.tsx:15-17 | one more expense raises the sum of the grouped values by its amount |
| Charts.CategoryOrderMembers | components/Charts.tsx:14-18 | a category is a key exactly when some expense has it |
| Charts.ByCategoryDistinct | components/Charts.tsx:14-18 | no category occurs in two entries |
| Charts.ByCategoryMembership | components/Charts.tsx:15-18 | a category has an entry exactly when some expense has it; the grouping is empty exactly when there are no expenses |
| Charts.OfCategoryMembers | components/Charts.tsx:15-17 | the expenses counted for a category are exactly the expenses with that category |
| Charts.OfCategoryCounts | components/Charts.tsx:15-17 | each expense of the category is counted as many times as it occurs in the list, and no expense of another category is counted |
| Charts.ByCategoryValues | components/Charts.tsx:15-17 | each entry's value is the total of exactly the expenses with its category |
| Charts.CategoryOrderIsFirstOccurrenceOrder | components/Charts.tsx:14-18 | of two entries, the earlier one's category first occurs earlier in the expense list |
| Charts.ByCategoryTotal | components/Charts.tsx:15-18 | the grouped values add up to total expenses |
| Charts.WorkedExample | components/Charts.tsx:13-28 | an income of 1000 and food expenses of 300 and 200 give totals 1000 and 500, balance 500, and one food entry of 500 |
| App.ScreenFor | App.tsx:94-101 | no user shows sign-in, an unsubscribed user the subscription screen, a subscribed user the app (each as an if-and-only-if) |
| App.ScreenReadsOnlySubscription | App.tsx:94-101 | two users with the same subscription flag get the same screen, and it is never sign-in |
| App.WithoutId | App.tsx:46-52 | the survivors of a delete are exactly the old elements whose id differs, and the list never grows |
| App.WithoutIdConcat | App.tsx:46-52 | deleting distributes over concatenation, so the survivors keep their relative order |
| App.WithoutAbsentId | App.tsx:46-52 | deleting an id no element has leaves the list unchanged |
| App.WithoutIdIdempotent | App.tsx:46-52 | deleting the same id twice equals deleting it once |
| App.AppState.constructor | App.tsx:15-17 | the app starts with no user and empty expense and income lists |
| App.AppState.Data | App.tsx:70-74 | the financial data carries the current lists and a monthly budget of 0 |
| App.AppState.AddExpense | App.tsx:38-40 | the new expense becomes the head, the old list the tail, and total expenses rise by its amount; nothing else changes |
| App.AppState.AddIncome | App.tsx:42-44 | the new income becomes the head, the old list the tail, and total income rises by its amount; nothing else changes |
| App.AppState.DeleteExpense | App.tsx:46-48 | the list becomes the filtered old list, no expense keeps the id, and nothing else changes |
| App.AppState.DeleteIncome | App.tsx:50-52 | the list becomes the filtered old list, no income keeps the id, and nothing else changes |
| App.AppState.HandleAuthSuccess | App.tsx:54-56 | the user handed on becomes the current user; the lists are untouched |
| App.AppState.HandlePaymentComplete | App.tsx:58-63 | a present user becomes subscribed with id, email and name kept; with no user nothing changes |
| App.AppState.Logout | App.tsx:65-68 | the user becomes none and the expense and income lists are untouched |
| App.AppState.SubmitExpense | App.tsx:167 | a rejected expense submit leaves the list and all five form fields unchanged; an accepted one prepends exactly the expense built from the pre-reset form fields, clears description and amount, resets installments to "1" and type to Único, and keeps the category |
| App.AppState.SubmitIncome | App.tsx:176 | a rejected income submit leaves the list and all three form fields unchanged; an accepted one prepends exactly the income built from the pre-reset form fields and clears description, amount and the extra flag |
| App.SessionWalkthrough | App.tsx:54-101 | from a fresh start: sign-in, then after sign-up the subscription screen, after payment the app, after logout sign-in again with the added expense kept |
| App.PaymentWithoutUser | App.tsx:58-63 | payment with no user signed in leaves the sign-in screen showing |
| ExpenseForm.NewExpense | components/ExpenseForm.tsx:20-29 | description, category and type are copied and the amount is the parsed text; installment fields are the parsed count and 1 exactly for Parcelado and otherwise absent, so they always agree with the type |
| ExpenseForm.Form.constructor | components/ExpenseForm.tsx:10-14 | empty description and amount, category Alimentação, type Único, installments "1" |
| ExpenseForm.Form.HandleSubmit | components/ExpenseForm.tsx:16-36 | an empty description or amount hands on nothing and changes nothing; otherwise it hands on the expense built from the old fields, clears description and amount, resets installments to "1" and type to Único, and keeps the category |
| IncomeForm.NewIncome | components/IncomeForm.tsx:18-24 | description and extra flag are copied and the amount is the parsed text |
| IncomeForm.Form.constructor | components/IncomeForm.tsx:10-12 | empty description and amount, extra flag false |
| IncomeForm.Form.HandleSubmit | components/IncomeForm.tsx:14-30 | an empty description or amount hands on nothing and changes nothing; otherwise it hands on the income built from the old fields and clears all three fields |
| Auth.MockUser | components/Auth.tsx:19-24 | id and email are copied, the user is not subscribed, the name is the typed one or Usuário when empty, and never empty |
| Auth.AuthForm.constructor | components/Auth.tsx:11-14 | the form opens in login mode with email, password and name empty |
| Auth.AuthForm.ToggleMode | components/Auth.tsx:126 | the mode flips and no other field changes |
| Auth.AuthForm.HandleSubmit | components/Auth.tsx:16-26 | every submit yields exactly the mock user of the typed email and name, whatever the password or mode; no field changes |
| Auth.LoginOnFreshForm | components/Auth.tsx:11-26 | a login on a fresh form yields an unsubscribed user named Usuário with the typed email, whatever the password |
| Auth.NameSurvivesToggling | components/Auth.tsx:80-91 | after a name is typed in sign-up mode and the mode is toggled back, the form is in login mode and a submit carries that name |

## Left out

- Loading and saving the user and the lists in `localStorage`, and the JSON encoding (App.tsx:21-36), are browser I/O. Logout also removes the stored user key (App.tsx:66). The model keeps only the in-memory effect.
- `crypto.randomUUID()` and `new Date().toISOString()` are nondeterministic. The id and the date are parameters.
- `parseFloat` and `parseInt` are JS string parsing. They are function parameters, and only the emptiness test on the raw text is modelled.
- ExpenseForm.NewExpense: an unparsable installment count is not modelled. `parseInt` is a total function to integers here, while JS gives NaN, for example for an empty installments text. That field carries no `required` attribute (components/ExpenseForm.tsx:105-111).
- JS floating-point rounding: amounts, sums and the balance are exact reals.
- The AI assistant and its language-model service (services/geminiService.ts, components/AIAssistant.tsx) are an external call. They are not part of this model.
- components/Subscription.tsx is a UI wizard. Its only logical effect is the unconditional call to the payment handler, modelled by `App.AppState.HandlePaymentComplete`.
- The floating action menu, tab switching and the `setTimeout` scrolling (App.tsx:76-91) are presentation only.
- Currency and date formatting, the chart library's rendering and the colour palette are presentation.
- Browser form validation is not modelled: `required` inputs and the `min` attribute on the installment field.
- The inputs' `onChange` setters are modelled as direct assignments to the form fields.
- The `onAdd` and `onAuthSuccess` callbacks are modelled as the handler's return value.
