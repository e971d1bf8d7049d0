/** The milk routes: POST creates an entry for the caller, pricing it from the
    body, the configured rate or the fallback rate; GET lists the caller's
    entries inside an optional date window with their count and price sum. */
module MilkRoute {
  import opened Common
  import opened Aggregate
  import opened DateRange
  import opened MilkModel

  /** The fields the create handler reads from the request body. */
  datatype MilkBody = MilkBody(quantity: Field<real>, pricePerLiter: Field<real>, milkInDate: Field<string>)

  /** The list response `{ totalPriceSum, totalDays, entries }`. */
  datatype MilkList = MilkList(totalPriceSum: real, totalDays: nat, entries: seq<Milk>)

  const MissingFieldsMessage: string := "Please provide all fields"
  const InvalidDateMessage: string := "Invalid date format"

  /** `pricePerLiter || parseFloat(MILK_PRICE_PER_LITER) || 45`. */
  function PriceToUse(pricePerLiter: Field<real>, configured: Option<real>): (price: real)
    ensures price != 0.0
    ensures TruthyNum(pricePerLiter) ==> price == pricePerLiter.value
    ensures !TruthyNum(pricePerLiter) ==> price == DefaultPricePerLiter(configured)
  {
    if TruthyNum(pricePerLiter) then pricePerLiter.value else DefaultPricePerLiter(configured)
  }

  /** The price of `quantity` at `price` per 1000 units. */
  function TotalPrice(quantity: real, price: real): (total: real)
    ensures total * 1000.0 == quantity * price
  {
    quantity * price / 1000.0
  }

  lemma TotalPriceExample()
    ensures TotalPrice(2000.0, 45.0) == 90.0
  {
  }

  /** The entry the create handler builds for `caller`, or its 400 rejection.
      The owner comes from authentication; nothing in the body can set it. */
  function NewMilk(body: MilkBody, id: EntryId, caller: UserId, now: Timestamp,
                   configured: Option<real>, parse: DateParser): (r: Result<Milk>)
    ensures !TruthyNum(body.quantity) ==> r == Fail(BadRequest(MissingFieldsMessage))
    ensures TruthyNum(body.quantity) && InvalidDate(body.milkInDate, parse) ==> r == Fail(BadRequest(InvalidDateMessage))
    ensures r.Ok? <==> TruthyNum(body.quantity) && !InvalidDate(body.milkInDate, parse)
    ensures r.Ok? ==>
      && r.value.id == id
      && r.value.userId == caller
      && r.value.quantity == body.quantity.value
      && r.value.pricePerLiter == PriceToUse(body.pricePerLiter, configured)
      && r.value.totalPrice * 1000.0 == r.value.quantity * r.value.pricePerLiter
      && (TruthyStr(body.milkInDate) ==> Some(r.value.milkInDate) == parse(body.milkInDate.value))
      && (!TruthyStr(body.milkInDate) ==> r.value.milkInDate == now)
  {
    if !TruthyNum(body.quantity) then Fail(BadRequest(MissingFieldsMessage))
    else if InvalidDate(body.milkInDate, parse) then Fail(BadRequest(InvalidDateMessage))
    else
      var price := PriceToUse(body.pricePerLiter, configured);
      Ok(Milk(id, body.quantity.value, price, TotalPrice(body.quantity.value, price),
              DateOr(body.milkInDate, parse, now), caller))
  }

  /** Create against the table: a validated entry is refused by the
      (owner-scoped) date index when its owner already has that date. */
  function AddMilk(entries: seq<Milk>, id: EntryId, caller: UserId, body: MilkBody, now: Timestamp,
                   configured: Option<real>, parse: DateParser): (r: Result<Milk>)
    ensures NewMilk(body, id, caller, now, configured, parse).Fail? ==> r == NewMilk(body, id, caller, now, configured, parse)
    ensures r.Ok? ==> r == NewMilk(body, id, caller, now, configured, parse)
    ensures r.Ok? <==> NewMilk(body, id, caller, now, configured, parse).Ok?
                       && !DateTakenByOwner(entries, caller, NewMilk(body, id, caller, now, configured, parse).value.milkInDate)
    ensures r.Fail? && NewMilk(body, id, caller, now, configured, parse).Ok? ==> r == Fail(DuplicateKey("milkInDate"))
    ensures r.Ok? && DatesUniquePerOwner(entries) ==> DatesUniquePerOwner(entries + [r.value])
  {
    var m := NewMilk(body, id, caller, now, configured, parse);
    if m.Fail? then m
    else if DateTakenByOwner(entries, caller, m.value.milkInDate) then Fail(DuplicateKey("milkInDate"))
    else
      assert forall i :: 0 <= i < |entries| ==> (entries + [m.value])[i] == entries[i];
      m
  }

  /** Another user may record a date the caller has already used. */
  lemma OtherOwnerMayShareDate(entries: seq<Milk>, id: EntryId, caller: UserId, body: MilkBody,
                               now: Timestamp, configured: Option<real>, parse: DateParser)
    requires NewMilk(body, id, caller, now, configured, parse).Ok?
    requires forall i :: 0 <= i < |entries| ==> entries[i].userId != caller
    ensures AddMilk(entries, id, caller, body, now, configured, parse).Ok?
  {
  }

  /** Create against the table as the schema declares it: the date index is
      global, so a date any user already has is refused. */
  function AddMilkAsWritten(entries: seq<Milk>, id: EntryId, caller: UserId, body: MilkBody, now: Timestamp,
                            configured: Option<real>, parse: DateParser): (r: Result<Milk>)
    ensures NewMilk(body, id, caller, now, configured, parse).Fail? ==> r == NewMilk(body, id, caller, now, configured, parse)
    ensures r.Ok? <==> NewMilk(body, id, caller, now, configured, parse).Ok?
                       && !DateTakenAnyOwner(entries, NewMilk(body, id, caller, now, configured, parse).value.milkInDate)
    ensures r.Ok? ==> AddMilk(entries, id, caller, body, now, configured, parse) == r
    ensures r.Fail? && NewMilk(body, id, caller, now, configured, parse).Ok? ==> r == Fail(DuplicateKey("milkInDate"))
  {
    var m := NewMilk(body, id, caller, now, configured, parse);
    if m.Fail? then m
    else if DateTakenAnyOwner(entries, m.value.milkInDate) then Fail(DuplicateKey("milkInDate"))
    else
      assert !DateTakenByOwner(entries, caller, m.value.milkInDate) by {
        OwnerScopeWeakerThanGlobal(entries, caller, m.value.milkInDate);
      }
      m
  }

  /** User 1 has milk recorded at an instant; user 2 records milk at the same
      instant. The global index refuses it, the per-owner index accepts it. */
  lemma SecondOwnerRefusedAsWritten(configured: Option<real>, parse: DateParser)
    ensures var entries := [Milk(0, 1000.0, 45.0, 45.0, 1700000000000, 1)];
      var body := MilkBody(Val(1000.0), Undefined, Undefined);
      && AddMilkAsWritten(entries, 1, 2, body, 1700000000000, configured, parse) == Fail(DuplicateKey("milkInDate"))
      && AddMilk(entries, 1, 2, body, 1700000000000, configured, parse).Ok?
  {
    var entries := [Milk(0, 1000.0, 45.0, 45.0, 1700000000000, 1)];
    assert entries[0].milkInDate == 1700000000000;
    assert entries[0].userId != 2;
  }

  function TotalPriceOf(m: Milk): real { m.totalPrice }

  function KeepMilk(f: DateFilter): Milk -> bool
  {
    (m: Milk) => Matches(f, m.userId, m.milkInDate)
  }

  /** The list response for a built filter: the matching entries in table
      order (the handler does not sort), their count and their price sum. */
  function MilkListing(entries: seq<Milk>, f: DateFilter): (r: MilkList)
    ensures forall m :: m in r.entries <==> m in entries && m.userId == f.userId && Matches(f, m.userId, m.milkInDate)
    ensures multiset(r.entries) == multiset(Select(entries, KeepMilk(f)))
    ensures r.totalDays == |r.entries|
    ensures r.totalPriceSum == Sum(r.entries, TotalPriceOf)
  {
    var found := Select(entries, KeepMilk(f));
    MilkList(Sum(found, TotalPriceOf), |found|, found)
  }

  /** A newly stored entry enters the listing exactly when it matches the
      filter, once, adding one day and its own total price; an entry of
      another owner, or outside the window, leaves the response unchanged.
      No position is promised: `find` without `sort` has no defined order. */
  lemma ListingAfterAdd(entries: seq<Milk>, f: DateFilter, m: Milk)
    ensures var before, after := MilkListing(entries, f), MilkListing(entries + [m], f);
      if Matches(f, m.userId, m.milkInDate) then
        after.totalDays == before.totalDays + 1 && after.totalPriceSum == before.totalPriceSum + m.totalPrice
        && multiset(after.entries) == multiset(before.entries) + multiset{m}
      else after == before
  {
    SelectSnoc(entries, m, KeepMilk(f));
    if Matches(f, m.userId, m.milkInDate) {
      SumSnoc(Select(entries, KeepMilk(f)), m, TotalPriceOf);
    } else {
      assert Select(entries, KeepMilk(f)) + [] == Select(entries, KeepMilk(f));
    }
  }

  /** The milk collection together with the configured default rate. */
  class MilkLedger {
    var entries: seq<Milk>
    var nextId: EntryId
    const configuredPrice: Option<real>

    ghost predicate Valid()
      reads this
    {
      && (forall i :: 0 <= i < |entries| ==> entries[i].id < nextId)
      && DatesUniquePerOwner(entries)
    }

    constructor (configuredPrice: Option<real>)
      ensures Valid() && entries == [] && this.configuredPrice == configuredPrice
    {
      entries := [];
      nextId := 0;
      this.configuredPrice := configuredPrice;
    }

    /** POST: validate, price, then save; a refused save stores nothing. */
    method Create(caller: UserId, body: MilkBody, now: Timestamp, parse: DateParser) returns (r: Result<Milk>)
      requires Valid()
      modifies this
      ensures Valid()
      ensures r == AddMilk(old(entries), old(nextId), caller, body, now, configuredPrice, parse)
      ensures r.Ok? ==> entries == old(entries) + [r.value]
      ensures r.Fail? ==> entries == old(entries)
      ensures nextId == if r.Ok? then old(nextId) + 1 else old(nextId)
    {
      if !TruthyNum(body.quantity) {
        return Fail(BadRequest(MissingFieldsMessage));
      }
      if InvalidDate(body.milkInDate, parse) {
        return Fail(BadRequest(InvalidDateMessage));
      }
      var price := PriceToUse(body.pricePerLiter, configuredPrice);
      var totalPrice := TotalPrice(body.quantity.value, price);
      var milk := Milk(nextId, body.quantity.value, price, totalPrice, DateOr(body.milkInDate, parse, now), caller);
      if DateTakenByOwner(entries, caller, milk.milkInDate) {
        return Fail(DuplicateKey("milkInDate"));
      }
      entries := entries + [milk];
      nextId := nextId + 1;
      r := Ok(milk);
    }

    /** GET: build the filter, find the matching entries and total them. */
    method List(caller: UserId, query: ListQuery, parse: DateParser) returns (r: Result<MilkList>)
      ensures var rf := RangeFilter(caller, query.startDate, query.endDate, parse);
        if rf.Fail? then r == Fail(rf.error) else r == Ok(MilkListing(entries, rf.value))
    {
      var filter := BuildFilter(caller, query.startDate, query.endDate, parse);
      if filter.Fail? {
        return Fail(filter.error);
      }
      var found := Select(entries, KeepMilk(filter.value));
      var sum := Sum(found, TotalPriceOf);
      r := Ok(MilkList(sum, |found|, found));
    }
  }
}
