/** The expense routes: POST creates an expense for the caller; GET lists the
    caller's expenses inside an optional date window, newest first, with their
    count and the sum of their amounts. */
module ExpenseRoute {
  import opened Common
  import opened Aggregate
  import opened DateRange
  import opened ExpenseModel

  /** The fields the create handler reads from the request body. */
  datatype ExpenseBody = ExpenseBody(
    expenseName: Field<string>,
    amount: Field<real>,
    description: Field<string>,
    expenseDate: Field<string>)

  /** The list response `{ total, totalAmount, expenses }`. */
  datatype ExpenseList = ExpenseList(total: nat, totalAmount: real, expenses: seq<Expense>)

  const MissingFieldsMessage: string := "Please provide all fields"
  const InvalidDateMessage: string := "Invalid date format"

  predicate MissingRequired(body: ExpenseBody)
  {
    !TruthyStr(body.expenseName) || !TruthyNum(body.amount) || !TruthyStr(body.description)
  }

  /** The expense the create handler builds for `caller`, or its 400 rejection. */
  function NewExpense(body: ExpenseBody, id: EntryId, caller: UserId, now: Timestamp, parse: DateParser): (r: Result<Expense>)
    ensures MissingRequired(body) ==> r == Fail(BadRequest(MissingFieldsMessage))
    ensures !MissingRequired(body) && InvalidDate(body.expenseDate, parse) ==> r == Fail(BadRequest(InvalidDateMessage))
    ensures r.Ok? <==> !MissingRequired(body) && !InvalidDate(body.expenseDate, parse)
    ensures r.Ok? ==>
      && ExpenseSchemaValid(r.value)
      && r.value.id == id
      && r.value.userId == caller
      && r.value.amount == body.amount.value && r.value.amount != 0.0
      && r.value.expenseName == body.expenseName.value
      && r.value.description == body.description.value
      && (TruthyStr(body.expenseDate) ==> Some(r.value.expenseDate) == parse(body.expenseDate.value))
      && (!TruthyStr(body.expenseDate) ==> r.value.expenseDate == now)
  {
    if MissingRequired(body) then Fail(BadRequest(MissingFieldsMessage))
    else if InvalidDate(body.expenseDate, parse) then Fail(BadRequest(InvalidDateMessage))
    else Ok(Expense(id, body.expenseName.value, body.amount.value, body.description.value,
                    DateOr(body.expenseDate, parse, now), caller))
  }

  function AmountOf(e: Expense): real { e.amount }
  function ExpenseDateOf(e: Expense): int { e.expenseDate }

  function KeepExpense(f: DateFilter): Expense -> bool
  {
    (e: Expense) => Matches(f, e.userId, e.expenseDate)
  }

  /** The list response for a built filter: `find(filter).sort({ expenseDate: -1 })`,
      `countDocuments(filter)` over the same filter, and the sum of the listed
      amounts. The count and the sum agree with the matching entries whatever
      order they are listed in. */
  function ExpenseListing(entries: seq<Expense>, f: DateFilter): (r: ExpenseList)
    ensures forall e :: e in r.expenses <==> e in entries && e.userId == f.userId && Matches(f, e.userId, e.expenseDate)
    ensures SortedDesc(r.expenses, ExpenseDateOf)
    ensures multiset(r.expenses) == multiset(Select(entries, KeepExpense(f)))
    ensures r.total == |r.expenses|
    ensures r.totalAmount == Sum(r.expenses, AmountOf) == Sum(Select(entries, KeepExpense(f)), AmountOf)
  {
    var found := Select(entries, KeepExpense(f));
    var expenses := SortDesc(found, ExpenseDateOf);
    var total := |found|;
    assert forall e :: e in expenses <==> e in found by {
      forall e ensures e in expenses <==> e in found {
        assert e in expenses <==> e in multiset(expenses);
        assert e in found <==> e in multiset(found);
      }
    }
    SumPermutation(expenses, found, AmountOf);
    ExpenseList(total, Sum(expenses, AmountOf), expenses)
  }

  /** A start date later than every stored expense gives the empty response
      `{ total: 0, totalAmount: 0, expenses: [] }`, not an error. */
  lemma LateStartIsEmpty(entries: seq<Expense>, caller: UserId, startDate: string, parse: DateParser)
    requires startDate != "" && parse(startDate).Some?
    requires forall i :: 0 <= i < |entries| ==> entries[i].expenseDate < parse(startDate).value
    ensures RangeFilter(caller, Val(startDate), Undefined, parse).Ok?
    ensures ExpenseListing(entries, RangeFilter(caller, Val(startDate), Undefined, parse).value) == ExpenseList(0, 0.0, [])
  {
    var f := RangeFilter(caller, Val(startDate), Undefined, parse).value;
    forall e | e in entries
      ensures !KeepExpense(f)(e)
    {
      var i :| 0 <= i < |entries| && entries[i] == e;
    }
    SelectNone(entries, KeepExpense(f));
  }

  /** A newly stored expense enters the listing exactly when it matches the
      filter, adding one to the count and its amount to the total. */
  lemma ListingAfterAdd(entries: seq<Expense>, f: DateFilter, e: Expense)
    ensures var before, after := ExpenseListing(entries, f), ExpenseListing(entries + [e], f);
      if Matches(f, e.userId, e.expenseDate) then
        after.total == before.total + 1 && after.totalAmount == before.totalAmount + e.amount
      else after == before
  {
    SelectSnoc(entries, e, KeepExpense(f));
    if Matches(f, e.userId, e.expenseDate) {
      SumSnoc(Select(entries, KeepExpense(f)), e, AmountOf);
    } else {
      assert Select(entries, KeepExpense(f)) + [] == Select(entries, KeepExpense(f));
    }
  }

  /** The expense collection. */
  class ExpenseLedger {
    var entries: seq<Expense>
    var nextId: EntryId

    ghost predicate Valid()
      reads this
    {
      forall i :: 0 <= i < |entries| ==> entries[i].id < nextId && ExpenseSchemaValid(entries[i])
    }

    constructor ()
      ensures Valid() && entries == []
    {
      entries := [];
      nextId := 0;
    }

    /** POST: validate, then save. Identical requests make distinct entries. */
    method Create(caller: UserId, body: ExpenseBody, now: Timestamp, parse: DateParser) returns (r: Result<Expense>)
      requires Valid()
      modifies this
      ensures Valid()
      ensures r == NewExpense(body, old(nextId), caller, now, parse)
      ensures r.Ok? ==> entries == old(entries) + [r.value]
      ensures r.Fail? ==> entries == old(entries)
      ensures nextId == if r.Ok? then old(nextId) + 1 else old(nextId)
    {
      if MissingRequired(body) {
        return Fail(BadRequest(MissingFieldsMessage));
      }
      if InvalidDate(body.expenseDate, parse) {
        return Fail(BadRequest(InvalidDateMessage));
      }
      var expense := Expense(nextId, body.expenseName.value, body.amount.value, body.description.value,
                             DateOr(body.expenseDate, parse, now), caller);
      entries := entries + [expense];
      nextId := nextId + 1;
      r := Ok(expense);
    }

    /** GET: build the filter, then list, count and total. */
    method List(caller: UserId, query: ListQuery, parse: DateParser) returns (r: Result<ExpenseList>)
      ensures var rf := RangeFilter(caller, query.startDate, query.endDate, parse);
        if rf.Fail? then r == Fail(rf.error) else r == Ok(ExpenseListing(entries, rf.value))
    {
      var filter := BuildFilter(caller, query.startDate, query.endDate, parse);
      if filter.Fail? {
        return Fail(filter.error);
      }
      var expenses := SortDesc(Select(entries, KeepExpense(filter.value)), ExpenseDateOf);
      var total := |Select(entries, KeepExpense(filter.value))|;
      var totalAmount := Sum(expenses, AmountOf);
      r := Ok(ExpenseList(total, totalAmount, expenses));
    }
  }
}
