/** The expense schema: name, amount, description and date are required, the
    date defaults to the time of creation, and every expense has an owner. */
module ExpenseModel {
  import opened Common

  /** A stored expense. `id` is the document id the database assigns. */
  datatype Expense = Expense(
    id: EntryId,
    expenseName: string,
    amount: real,
    description: string,
    expenseDate: Timestamp,
    userId: UserId)

  /** The schema's `required` validators: a required string may not be empty
      (numbers, the date and the owner are always present in this type). */
  predicate ExpenseSchemaValid(e: Expense)
  {
    e.expenseName != "" && e.description != ""
  }
}
