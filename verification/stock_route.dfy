/** The stock routes: POST records a purchase (and possibly its sale) for the
    caller with a server-computed profit; GET lists the caller's entries, newest
    purchase first, with investment and profit totals; PATCH changes only the
    sell-side fields of one of the caller's entries; DELETE removes one of the
    caller's entries. An entry of another user is reported exactly like a
    missing one. */
module StockRoute {
  import opened Common
  import opened Aggregate
  import opened StockModel

  /** The fields the handlers read from a request body. */
  datatype StockBody = StockBody(
    stockName: Field<string>,
    buyPrice: Field<real>,
    sellPrice: Field<real>,
    quantity: Field<real>,
    buyDate: Field<string>,
    sellDate: Field<string>,
    profitLoss: Field<real>)

  /** The list response `{ total, totalInvestment, totalProfitLoss, stocks }`. */
  datatype StockList = StockList(total: nat, totalInvestment: real, totalProfitLoss: real, stocks: seq<Stock>)

  const MissingFieldsMessage: string := "Please provide required fields: stockName, buyPrice, quantity, buyDate"
  const InvalidBuyDateMessage: string := "Invalid buyDate format"
  const InvalidSellDateMessage: string := "Invalid sellDate format"
  const NotFoundMessage: string := "Stock not found"
  const DeletedMessage: string := "Stock entry deleted successfully"
  /** The message of the TypeError thrown by an assignment to a `const`. */
  const ConstAssignmentMessage: string := "Assignment to constant variable."

  /** What the database reports when an update holds an invalid date. */
  function CastError(path: string): Error { Error(None, "Cast to date failed for path " + path) }

  predicate MissingRequired(body: StockBody)
  {
    !TruthyStr(body.stockName) || !TruthyNum(body.buyPrice) || !TruthyNum(body.quantity) || !TruthyStr(body.buyDate)
  }

  /** Profit of a sale: what the sale brought in minus what the purchase cost;
      zero while there is no (truthy) sell price. */
  function ProfitLoss(sellPrice: Field<real>, buyPrice: real, quantity: real): (p: real)
    ensures TruthyNum(sellPrice) ==> p + buyPrice * quantity == sellPrice.value * quantity
    ensures !TruthyNum(sellPrice) ==> p == 0.0
  {
    if TruthyNum(sellPrice) then (sellPrice.value - buyPrice) * quantity else 0.0
  }

  /** The entry the create handler means to build for `caller`, or its 400
      rejection. The checks run in order: required fields, `buyDate`, `sellDate`.
      The profit is always computed here; the body's `profitLoss` is ignored. */
  function NewStock(body: StockBody, id: EntryId, caller: UserId, parse: DateParser): (r: Result<Stock>)
    ensures MissingRequired(body) ==> r == Fail(BadRequest(MissingFieldsMessage))
    ensures !MissingRequired(body) && InvalidDate(body.buyDate, parse) ==> r == Fail(BadRequest(InvalidBuyDateMessage))
    ensures !MissingRequired(body) && !InvalidDate(body.buyDate, parse) && InvalidDate(body.sellDate, parse) ==>
      r == Fail(BadRequest(InvalidSellDateMessage))
    ensures r.Ok? <==> !MissingRequired(body) && !InvalidDate(body.buyDate, parse) && !InvalidDate(body.sellDate, parse)
    ensures r.Ok? ==>
      && StockSchemaValid(r.value)
      && r.value.id == id
      && r.value.userId == caller
      && r.value.stockName == body.stockName.value
      && r.value.buyPrice == body.buyPrice.value
      && r.value.quantity == body.quantity.value
      && r.value.sellPrice == StoredNumber(body.sellPrice, DefaultSellPrice)
      && r.value.profitLoss == Some(ProfitLoss(body.sellPrice, body.buyPrice.value, body.quantity.value))
      && Some(r.value.buyDate) == parse(body.buyDate.value)
      && (r.value.sellDate.Some? <==> TruthyStr(body.sellDate))
      && (r.value.sellDate.Some? ==> r.value.sellDate == parse(body.sellDate.value))
  {
    if MissingRequired(body) then Fail(BadRequest(MissingFieldsMessage))
    else if InvalidDate(body.buyDate, parse) then Fail(BadRequest(InvalidBuyDateMessage))
    else if InvalidDate(body.sellDate, parse) then Fail(BadRequest(InvalidSellDateMessage))
    else
      var profitLoss := ProfitLoss(body.sellPrice, body.buyPrice.value, body.quantity.value);
      Ok(Stock(id, body.stockName.value, body.buyPrice.value, StoredNumber(body.sellPrice, DefaultSellPrice),
               body.quantity.value, parse(body.buyDate.value).value,
               if TruthyStr(body.sellDate) then parse(body.sellDate.value) else None,
               Some(profitLoss), caller))
  }

  /** A caller-supplied `profitLoss` has no effect on the created entry. */
  lemma SuppliedProfitIgnored(body: StockBody, supplied: Field<real>, id: EntryId, caller: UserId, parse: DateParser)
    ensures NewStock(body.(profitLoss := supplied), id, caller, parse) == NewStock(body, id, caller, parse)
  {
  }

  /** The create handler as written: line 39 assigns to `profitLoss`, which is a
      `const` binding, so every request that passes validation throws a
      TypeError before anything is saved. */
  function NewStockAsWritten(body: StockBody, id: EntryId, caller: UserId, parse: DateParser): (r: Result<Stock>)
    ensures r.Fail?
    ensures NewStock(body, id, caller, parse).Fail? ==> r == NewStock(body, id, caller, parse)
    ensures NewStock(body, id, caller, parse).Ok? ==> r == Fail(Error(None, ConstAssignmentMessage))
  {
    var checked := NewStock(body, id, caller, parse);
    if checked.Fail? then checked
    else Fail(Error(None, ConstAssignmentMessage))
  }

  /** Buying 10 at 100 and selling at 150: the intended handler records a profit
      of 500, the handler as written records nothing. */
  lemma ConstAssignmentBlocksCreate(parse: DateParser)
    requires parse("2024-01-01").Some?
    ensures var body := StockBody(Val("ACME"), Val(100.0), Val(150.0), Val(10.0), Val("2024-01-01"), Undefined, Undefined);
      && NewStockAsWritten(body, 0, 1, parse).Fail?
      && NewStock(body, 0, 1, parse).Ok?
      && NewStock(body, 0, 1, parse).value.profitLoss == Some(500.0)
  {
    var body := StockBody(Val("ACME"), Val(100.0), Val(150.0), Val(10.0), Val("2024-01-01"), Undefined, Undefined);
    assert ProfitLoss(body.sellPrice, 100.0, 10.0) == 500.0;
  }

  function Investment(s: Stock): real { s.buyPrice * s.quantity }

  /** `stock.profitLoss || 0`. */
  function ProfitOrZero(s: Stock): real
  {
    if s.profitLoss.Some? then s.profitLoss.value else 0.0
  }

  function BuyDateOf(s: Stock): int { s.buyDate }

  function Owned(caller: UserId): Stock -> bool
  {
    (s: Stock) => s.userId == caller
  }

  /** The list response: `find({ userId }).sort({ buyDate: -1 })`, the count of
      the same filter, and the two totals over the listed entries. */
  function StockListing(stocks: seq<Stock>, caller: UserId): (r: StockList)
    ensures forall s :: s in r.stocks <==> s in stocks && s.userId == caller
    ensures SortedDesc(r.stocks, BuyDateOf)
    ensures multiset(r.stocks) == multiset(Select(stocks, Owned(caller)))
    ensures r.total == |r.stocks|
    ensures r.totalInvestment == Sum(r.stocks, Investment) == Sum(Select(stocks, Owned(caller)), Investment)
    ensures r.totalProfitLoss == Sum(r.stocks, ProfitOrZero) == Sum(Select(stocks, Owned(caller)), ProfitOrZero)
  {
    var owned := Select(stocks, Owned(caller));
    var listed := SortDesc(owned, BuyDateOf);
    assert forall s :: s in listed <==> s in owned by {
      forall s ensures s in listed <==> s in owned {
        assert s in listed <==> s in multiset(listed);
        assert s in owned <==> s in multiset(owned);
      }
    }
    SumPermutation(listed, owned, Investment);
    SumPermutation(listed, owned, ProfitOrZero);
    StockList(|owned|, Sum(listed, Investment), Sum(listed, ProfitOrZero), listed)
  }

  /** A newly stored entry of the caller adds one to the count, its cost to the
      investment and its profit (or 0) to the profit total; another owner's
      entry changes nothing in the caller's response. */
  lemma ListingAfterAdd(stocks: seq<Stock>, caller: UserId, s: Stock)
    ensures var before, after := StockListing(stocks, caller), StockListing(stocks + [s], caller);
      if s.userId == caller then
        && after.total == before.total + 1
        && after.totalInvestment == before.totalInvestment + s.buyPrice * s.quantity
        && after.totalProfitLoss == before.totalProfitLoss + ProfitOrZero(s)
      else after == before
  {
    SelectSnoc(stocks, s, Owned(caller));
    if s.userId == caller {
      SumSnoc(Select(stocks, Owned(caller)), s, Investment);
      SumSnoc(Select(stocks, Owned(caller)), s, ProfitOrZero);
    } else {
      assert Select(stocks, Owned(caller)) + [] == Select(stocks, Owned(caller));
    }
  }

  /** The query `{ _id: id, userId: caller }`. */
  function OwnedWithId(id: EntryId, caller: UserId): Stock -> bool
  {
    (s: Stock) => s.id == id && s.userId == caller
  }

  /** `findOne({ _id: id, userId: caller })`: the position of the caller's entry
      with that id, or `None` whether the id is absent or another user's. */
  function FindOwned(stocks: seq<Stock>, id: EntryId, caller: UserId): (k: Option<nat>)
    ensures k.Some? ==> k.value < |stocks| && stocks[k.value].id == id && stocks[k.value].userId == caller
    ensures k.None? <==> forall i :: 0 <= i < |stocks| ==> !(stocks[i].id == id && stocks[i].userId == caller)
  {
    FirstWhere(stocks, OwnedWithId(id, caller))
  }

  /** The allow-list of fields a PATCH may change, in the order it is applied. */
  datatype PatchField = SellPriceField | SellDateField | ProfitLossField

  const AllowedUpdates: seq<PatchField> := [SellPriceField, SellDateField, ProfitLossField]

  /** A supplied value for a nullable number: `null` stays `null`. */
  function PatchedNumber(current: Option<real>, f: Field<real>): Option<real>
  {
    match f
    case Undefined => current
    case Null => None
    case Val(v) => Some(v)
  }

  /** `new Date(v)` for a supplied sell date: `null` is the epoch, a string is
      parsed, and `None` is an invalid date. */
  function SellDateValue(f: Field<string>, parse: DateParser): Option<Timestamp>
    requires !f.Undefined?
  {
    if f.Null? then Some(0) else parse(f.value)
  }

  predicate PatchDateInvalid(body: StockBody, parse: DateParser)
  {
    !body.sellDate.Undefined? && SellDateValue(body.sellDate, parse).None?
  }

  /** With nonnegative buy prices and quantities on the caller's entries, the
      listed investment total is nonnegative. */
  lemma InvestmentNonNegative(stocks: seq<Stock>, caller: UserId)
    requires forall s :: s in stocks && s.userId == caller ==> s.buyPrice >= 0.0 && s.quantity >= 0.0
    ensures StockListing(stocks, caller).totalInvestment >= 0.0
  {
    var listed := StockListing(stocks, caller).stocks;
    forall i | 0 <= i < |listed|
      ensures listed[i].buyPrice >= 0.0 && listed[i].quantity >= 0.0
    {
      assert listed[i] in listed;
    }
    InvestmentSumNonNegative(listed);
  }

  lemma InvestmentSumNonNegative(listed: seq<Stock>)
    requires forall i :: 0 <= i < |listed| ==> listed[i].buyPrice >= 0.0 && listed[i].quantity >= 0.0
    ensures Sum(listed, Investment) >= 0.0
  {
    forall i | 0 <= i < |listed|
      ensures Investment(listed[i]) >= 0.0
    {
      ProductNonNegative(listed[i].buyPrice, listed[i].quantity);
    }
    SumSign(listed, Investment);
  }

  lemma ProductNonNegative(a: real, b: real)
    requires a >= 0.0 && b >= 0.0
    ensures a * b >= 0.0
  {
  }

  /** The entry after a PATCH: each allowed field present in the body (not
      `undefined`) takes the body's value, nothing else changes; an invalid sell
      date makes the save fail and nothing is changed. */
  function ApplyPatch(s: Stock, body: StockBody, parse: DateParser): (r: Result<Stock>)
    ensures r.Fail? <==> PatchDateInvalid(body, parse)
    ensures r.Ok? ==> r.value.(sellPrice := s.sellPrice, sellDate := s.sellDate, profitLoss := s.profitLoss) == s
    ensures r.Ok? ==> (r.value.sellPrice != s.sellPrice ==> !body.sellPrice.Undefined?)
    ensures r.Ok? ==> (r.value.sellDate != s.sellDate ==> !body.sellDate.Undefined?)
    ensures r.Ok? ==> (r.value.profitLoss != s.profitLoss ==> !body.profitLoss.Undefined?)
    ensures r.Ok? && body.sellPrice.Val? ==> r.value.sellPrice == Some(body.sellPrice.value)
    ensures r.Ok? && body.profitLoss.Val? ==> r.value.profitLoss == Some(body.profitLoss.value)
    ensures r.Ok? && body.sellPrice.Null? ==> r.value.sellPrice.None?
    ensures r.Ok? && body.profitLoss.Null? ==> r.value.profitLoss.None?
    ensures r.Ok? && !body.sellDate.Undefined? ==> r.value.sellDate == SellDateValue(body.sellDate, parse)
  {
    if PatchDateInvalid(body, parse) then Fail(CastError("sellDate"))
    else Ok(s.(sellPrice := PatchedNumber(s.sellPrice, body.sellPrice),
               sellDate := if body.sellDate.Undefined? then s.sellDate else SellDateValue(body.sellDate, parse),
               profitLoss := PatchedNumber(s.profitLoss, body.profitLoss)))
  }

  /** After removing the entry at `k`, no entry with its id remains. */
  lemma RemovedIdGone(stocks: seq<Stock>, k: nat)
    requires k < |stocks| && IdsAscending(stocks, StockIdOf)
    ensures IdsAscending(RemoveAt(stocks, k), StockIdOf)
    ensures forall s :: s in RemoveAt(stocks, k) ==> s.id != stocks[k].id
  {
    var r := RemoveAt(stocks, k);
    forall s | s in r
      ensures s.id != stocks[k].id
    {
      var i :| 0 <= i < |r| && r[i] == s;
      if i < k {
        assert r[i] == stocks[i];
      } else {
        assert r[i] == stocks[i + 1];
      }
    }
  }

  /** The stock collection. */
  class StockLedger {
    var stocks: seq<Stock>
    var nextId: EntryId

    ghost predicate Valid()
      reads this
    {
      && IdsAscending(stocks, StockIdOf)
      && (forall i :: 0 <= i < |stocks| ==> stocks[i].id < nextId && StockSchemaValid(stocks[i]))
    }

    constructor ()
      ensures Valid() && stocks == []
    {
      stocks := [];
      nextId := 0;
    }

    /** POST, with the profit computed into a fresh binding as intended. */
    method Create(caller: UserId, body: StockBody, parse: DateParser) returns (r: Result<Stock>)
      requires Valid()
      modifies this
      ensures Valid()
      ensures r == NewStock(body, old(nextId), caller, parse)
      ensures r.Ok? ==> stocks == old(stocks) + [r.value]
      ensures r.Fail? ==> stocks == old(stocks)
      ensures nextId == if r.Ok? then old(nextId) + 1 else old(nextId)
    {
      if MissingRequired(body) {
        return Fail(BadRequest(MissingFieldsMessage));
      }
      if InvalidDate(body.buyDate, parse) {
        return Fail(BadRequest(InvalidBuyDateMessage));
      }
      if InvalidDate(body.sellDate, parse) {
        return Fail(BadRequest(InvalidSellDateMessage));
      }
      var profitLoss := ProfitLoss(body.sellPrice, body.buyPrice.value, body.quantity.value);
      var sellDate := if TruthyStr(body.sellDate) then parse(body.sellDate.value) else None;
      var stock := Stock(nextId, body.stockName.value, body.buyPrice.value, StoredNumber(body.sellPrice, DefaultSellPrice),
                         body.quantity.value, parse(body.buyDate.value).value, sellDate, Some(profitLoss), caller);
      stocks := stocks + [stock];
      nextId := nextId + 1;
      r := Ok(stock);
    }

    /** GET: the caller's entries with their totals. */
    method List(caller: UserId) returns (r: StockList)
      ensures r == StockListing(stocks, caller)
    {
      var owned := Select(stocks, Owned(caller));
      var listed := SortDesc(owned, BuyDateOf);
      var total := |owned|;
      var totalInvestment := Sum(listed, Investment);
      var totalProfitLoss := Sum(listed, ProfitOrZero);
      r := StockList(total, totalInvestment, totalProfitLoss, listed);
    }

    /** PATCH: load the caller's entry, copy each allowed field the body holds
      onto it, then save it back. */
    method Patch(caller: UserId, id: EntryId, body: StockBody, parse: DateParser) returns (r: Result<Stock>)
      requires Valid()
      modifies this
      ensures Valid()
      ensures nextId == old(nextId)
      ensures FindOwned(old(stocks), id, caller).None? ==> r == Fail(NotFound(NotFoundMessage)) && stocks == old(stocks)
      ensures FindOwned(old(stocks), id, caller).Some? ==>
        var k := FindOwned(old(stocks), id, caller).value;
        && r == ApplyPatch(old(stocks)[k], body, parse)
        && stocks == if r.Ok? then old(stocks)[k := r.value] else old(stocks)
    {
      var found := FindOwned(stocks, id, caller);
      if found.None? {
        return Fail(NotFound(NotFoundMessage));
      }
      var k := found.value;
      var stock := stocks[k];
      ghost var loaded := stock;
      var invalidDate := false;
      for i := 0 to |AllowedUpdates|
        invariant stock.(sellPrice := loaded.sellPrice, sellDate := loaded.sellDate, profitLoss := loaded.profitLoss) == loaded
        invariant stock.sellPrice == if i >= 1 then PatchedNumber(loaded.sellPrice, body.sellPrice) else loaded.sellPrice
        invariant invalidDate == (i >= 2 && PatchDateInvalid(body, parse))
        invariant stock.sellDate == if i >= 2 && !body.sellDate.Undefined? && !invalidDate
                                    then SellDateValue(body.sellDate, parse) else loaded.sellDate
        invariant stock.profitLoss == if i >= 3 then PatchedNumber(loaded.profitLoss, body.profitLoss) else loaded.profitLoss
      {
        match AllowedUpdates[i]
        case SellPriceField =>
          if !body.sellPrice.Undefined? {
            stock := stock.(sellPrice := PatchedNumber(stock.sellPrice, body.sellPrice));
          }
        case SellDateField =>
          if !body.sellDate.Undefined? {
            var date := SellDateValue(body.sellDate, parse);
            if date.None? {
              invalidDate := true;
            } else {
              stock := stock.(sellDate := date);
            }
          }
        case ProfitLossField =>
          if !body.profitLoss.Undefined? {
            stock := stock.(profitLoss := PatchedNumber(stock.profitLoss, body.profitLoss));
          }
      }
      if invalidDate {
        return Fail(CastError("sellDate"));
      }
      stocks := stocks[k := stock];
      r := Ok(stock);
    }

    /** DELETE: remove the caller's entry with that id, and nothing else. */
    method Delete(caller: UserId, id: EntryId) returns (r: Result<string>)
      requires Valid()
      modifies this
      ensures Valid()
      ensures nextId == old(nextId)
      ensures FindOwned(old(stocks), id, caller).None? ==> r == Fail(NotFound(NotFoundMessage)) && stocks == old(stocks)
      ensures FindOwned(old(stocks), id, caller).Some? ==>
        r == Ok(DeletedMessage) && stocks == RemoveAt(old(stocks), FindOwned(old(stocks), id, caller).value)
      ensures r.Ok? ==> forall s :: s in stocks ==> s.id != id
      ensures r.Ok? ==> FindOwned(stocks, id, caller).None?
    {
      var found := FindOwned(stocks, id, caller);
      if found.None? {
        return Fail(NotFound(NotFoundMessage));
      }
      RemovedIdGone(stocks, found.value);
      stocks := RemoveAt(stocks, found.value);
      r := Ok(DeletedMessage);
    }
  }
}
