/** One expense: an id, a date, the id of its category, an amount and a description. */
module ExpenseRecord {
  import opened Wrappers
  import opened Dates

  /** `amount` is in cents; `category` is the id of a category, never checked against the list. */
  datatype Expense = Expense(id: int, date: Timestamp, category: int, amount: int, description: string)

  /** What the constructor throws: an `ArgumentNullException` for a null or empty description. */
  datatype ExpenseError = DescriptionEmpty

  /** The validating constructor; `description` is `None` for a null reference.  It fails exactly
      when the description is null or empty, and otherwise stores every argument unchanged.  The
      category id plays no part in the outcome: no category lookup happens here. */
  function NewExpense(id: int, date: Timestamp, category: int, amount: int, description: Option<string>)
    : (r: Result<Expense, ExpenseError>)
    ensures r.Success? <==> description.Some? && description.value != []
    ensures r.Failure? ==> r.error == DescriptionEmpty
    ensures r.Success? ==>
      && r.value.id == id && r.value.date == date && r.value.category == category
      && r.value.amount == amount && r.value.description == description.value
      && r.value.description != []
  {
    if description.None? || description.value == [] then Failure(DescriptionEmpty)
    else Success(Expense(id, date, category, amount, description.value))
  }

  /** The copy constructor: an expense with the same five fields. */
  function CopyExpense(original: Expense): (e: Expense)
    ensures e.id == original.id && e.date == original.date && e.category == original.category
    ensures e.amount == original.amount && e.description == original.description
  {
    Expense(original.id, original.date, original.category, original.amount, original.description)
  }

  /** Whether construction succeeds does not depend on the category id: an id that no category
      has is accepted like any other. */
  lemma NewExpenseIgnoresCategory(id: int, date: Timestamp, c1: int, c2: int, amount: int, description: Option<string>)
    ensures NewExpense(id, date, c1, amount, description).Success?
        <==> NewExpense(id, date, c2, amount, description).Success?
  {
  }
}
