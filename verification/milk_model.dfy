/** The milk entry schema: every field is required, the price per liter has a
    configured default, and the entry date is meant to be unique. */
module MilkModel {
  import opened Common

  /** A stored milk entry. `id` is the document id the database assigns. */
  datatype Milk = Milk(
    id: EntryId,
    quantity: real,
    pricePerLiter: real,
    totalPrice: real,
    milkInDate: Timestamp,
    userId: UserId)

  /** The rate used when no configured rate applies. */
  const FallbackPricePerLiter: real := 45.0

  /** `parseFloat(MILK_PRICE_PER_LITER) || 45`, where `configured` is the parsed
      setting and `None` stands for `NaN` (unset or not a number). */
  function DefaultPricePerLiter(configured: Option<real>): (price: real)
    ensures price != 0.0
    ensures configured.Some? && configured.value != 0.0 ==> price == configured.value
    ensures configured.None? || configured.value == 0.0 ==> price == FallbackPricePerLiter
  {
    if configured.Some? && configured.value != 0.0 then configured.value else FallbackPricePerLiter
  }

  /** The index as declared: one milk entry per date across ALL users. */
  predicate DateTakenAnyOwner(entries: seq<Milk>, date: Timestamp)
  {
    exists i :: 0 <= i < |entries| && entries[i].milkInDate == date
  }

  /** The intended constraint: one milk entry per date for each owner. */
  predicate DateTakenByOwner(entries: seq<Milk>, owner: UserId, date: Timestamp)
  {
    exists i :: 0 <= i < |entries| && entries[i].userId == owner && entries[i].milkInDate == date
  }

  /** No owner has two entries on the same date. */
  predicate DatesUniquePerOwner(entries: seq<Milk>)
  {
    forall i, j :: 0 <= i < j < |entries| ==>
      entries[i].userId != entries[j].userId || entries[i].milkInDate != entries[j].milkInDate
  }

  /** The owner-scoped check is the weaker of the two: whatever it refuses, the
      global index refuses too. */
  lemma OwnerScopeWeakerThanGlobal(entries: seq<Milk>, owner: UserId, date: Timestamp)
    ensures DateTakenByOwner(entries, owner, date) ==> DateTakenAnyOwner(entries, date)
  {
  }
}
