/** The list filter shared by the milk and expense routes: the owner equality
    `{ userId: req.userId }` plus optional inclusive `$gte` / `$lte` bounds on
    the entry's date, built from the `startDate` and `endDate` query fields. */
module DateRange {
  import opened Common

  /** The date fields of a list request's query string. The `page` and `limit`
      fields are read by the handlers but never used. */
  datatype ListQuery = ListQuery(startDate: Field<string>, endDate: Field<string>)

  /** The query document `{ userId, <date>: { $gte, $lte } }`. */
  datatype DateFilter = DateFilter(userId: UserId, gte: Option<Timestamp>, lte: Option<Timestamp>)

  /** Whether an entry with this owner and date satisfies the query document. */
  predicate Matches(f: DateFilter, owner: UserId, date: Timestamp)
  {
    && owner == f.userId
    && (f.gte.Some? ==> f.gte.value <= date)
    && (f.lte.Some? ==> date <= f.lte.value)
  }

  /** The window the query string asks for: every supplied bound is inclusive,
      an absent bound leaves that side open. */
  predicate InWindow(startDate: Field<string>, endDate: Field<string>, parse: DateParser, date: Timestamp)
  {
    && (TruthyStr(startDate) && parse(startDate.value).Some? ==> parse(startDate.value).value <= date)
    && (TruthyStr(endDate) && parse(endDate.value).Some? ==> date <= parse(endDate.value).value)
  }

  /** The filter a list request yields, or the error it is rejected with.
      `startDate` is examined before `endDate`; no order between the two
      bounds is required. */
  function RangeFilter(caller: UserId, startDate: Field<string>, endDate: Field<string>, parse: DateParser): (r: Result<DateFilter>)
    ensures InvalidDate(startDate, parse) ==> r == Fail(BadRequest("Invalid startDate format"))
    ensures !InvalidDate(startDate, parse) && InvalidDate(endDate, parse) ==> r == Fail(BadRequest("Invalid endDate format"))
    ensures r.Ok? <==> !InvalidDate(startDate, parse) && !InvalidDate(endDate, parse)
    ensures r.Ok? ==> forall owner, date :: Matches(r.value, owner, date) <==> owner == caller && InWindow(startDate, endDate, parse, date)
  {
    if InvalidDate(startDate, parse) then Fail(BadRequest("Invalid startDate format"))
    else if InvalidDate(endDate, parse) then Fail(BadRequest("Invalid endDate format"))
    else Ok(DateFilter(caller,
                       if TruthyStr(startDate) then parse(startDate.value) else None,
                       if TruthyStr(endDate) then parse(endDate.value) else None))
  }

  /** The handler's construction: start from the owner constraint and add each
      bound in turn, returning at the first bound that does not parse. */
  method BuildFilter(caller: UserId, startDate: Field<string>, endDate: Field<string>, parse: DateParser)
    returns (r: Result<DateFilter>)
    ensures r == RangeFilter(caller, startDate, endDate, parse)
  {
    var filter := DateFilter(caller, None, None);
    if TruthyStr(startDate) {
      var start := parse(startDate.value);
      if start.None? {
        return Fail(BadRequest("Invalid startDate format"));
      }
      filter := filter.(gte := Some(start.value));
    }
    if TruthyStr(endDate) {
      var end := parse(endDate.value);
      if end.None? {
        return Fail(BadRequest("Invalid endDate format"));
      }
      filter := filter.(lte := Some(end.value));
    }
    return Ok(filter);
  }

  /** Without bounds the filter is the owner scope alone. */
  lemma NoBoundsIsOwnerScope(caller: UserId, parse: DateParser)
    ensures RangeFilter(caller, Undefined, Undefined, parse).Ok?
    ensures forall owner, date :: Matches(RangeFilter(caller, Undefined, Undefined, parse).value, owner, date) <==> owner == caller
  {
  }

  /** An inverted range is accepted and matches nothing. */
  lemma InvertedRangeMatchesNothing(caller: UserId, startDate: string, endDate: string, parse: DateParser)
    requires startDate != "" && endDate != ""
    requires parse(startDate).Some? && parse(endDate).Some?
    requires parse(startDate).value > parse(endDate).value
    ensures RangeFilter(caller, Val(startDate), Val(endDate), parse).Ok?
    ensures forall owner, date :: !Matches(RangeFilter(caller, Val(startDate), Val(endDate), parse).value, owner, date)
  {
  }
}
