/** The stock entry schema, under the field names the stock routes use: name,
    quantity, buy price and buy date are required, the sell side defaults to
    "not sold" (price 0, no date, profit 0), and every entry has an owner. */
module StockModel {
  import opened Common

  /** A stored stock entry. `sellPrice` and `profitLoss` are `None` when the
      document holds `null` for them; `sellDate` is `None` until a sale. */
  datatype Stock = Stock(
    id: EntryId,
    stockName: string,
    buyPrice: real,
    sellPrice: Option<real>,
    quantity: real,
    buyDate: Timestamp,
    sellDate: Option<Timestamp>,
    profitLoss: Option<real>,
    userId: UserId)

  function StockIdOf(s: Stock): int { s.id }

  const DefaultSellPrice: real := 0.0

  /** How a body value for a number field with a default is stored:
      `undefined` takes the default, `null` is kept as `null`. */
  function StoredNumber(f: Field<real>, default: real): (stored: Option<real>)
    ensures f.Undefined? ==> stored == Some(default)
    ensures f.Null? ==> stored.None?
    ensures f.Val? ==> stored == Some(f.value)
  {
    match f
    case Undefined => Some(default)
    case Null => None
    case Val(v) => Some(v)
  }

  /** The `required` validator on the name: a required string may not be empty. */
  predicate StockSchemaValid(s: Stock)
  {
    s.stockName != ""
  }
}
