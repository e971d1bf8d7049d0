# ExpenseAPI ledger model

A Dafny model of the per-user ledger layer of ExpenseAPI, an Express/Mongoose
service. Users record milk deliveries, expenses and stock trades there. It covers:

- **Authentication** (`Auth`). The `auth` middleware recognises a header that
  starts with `Bearer` and takes the token as the second space-separated
  piece. It then either attaches the verified `id` claim to the request or
  forwards an error. In every case it calls `next` exactly once.
- **Owner scoping.**
  - Every create takes its owner from the authenticated id.
  - Every list, patch and delete of an entry is restricted to the caller's
    entries.
  - The user routes compare the path id with the authenticated id.
- **Date-range filter** (`DateRange`). The optional `startDate` and `endDate`
  query fields are validated in that order. They become inclusive bounds on
  the entry's date. A reversed range is not an error.
- **Aggregation.** Each list response carries a count and sums over exactly
  the listed entries:
  - milk: total price and number of days;
  - expenses: count and amount, newest first;
  - stocks: count, investment (buy price × quantity) and profit, newest
    purchase first.
  The model proves that the sums do not depend on the listing order
  (`Aggregate.SumPermutation`).
- **Price and profit rules.**
  - The milk price falls back from the body to the configured rate, then to 45.
  - A milk entry's total price is quantity × price / 1000.
  - A stock's profit is (sell − buy) × quantity, or 0 while unsold.
  - A stock PATCH may change only the sell-side fields.
- **Users** (`UserModel`, `UserRoute`): sign-up with a hashed password,
  login, and get, update and delete of one's own record. Emails are unique.

Each collection is a class holding a sequence of records and the next
document id. Its methods update the sequence in place and are proved equal to
pure functions of the old state. Those functions carry the properties:
validation order, owner scoping, the allow-list, and invariants such as unique
emails and per-owner unique milk dates.

Collaborators are parameters:

- `Date.parse` is a `DateParser` (`string -> Option<Timestamp>`, where `None`
  stands for `NaN`).
- bcrypt's `hashSync` and `compareSync`, `jwt.sign` and `jwt.verify` are
  function parameters.
- The current time, the salt and the configured milk rate
  (`MILK_PRICE_PER_LITER`) are plain parameters.

Request-body fields are `Field<T>`: `Undefined`, `Null` or a value. Truthiness
follows JavaScript for the values modelled: `0`, `""`, `null` and `undefined`
are falsy. An error forwarded with `next(error)` is an `Error` whose status
code is optional. `Common.HttpStatus` is the final handler's
`statusCode || 500`.

In these points the model follows the code:

- The milk and expense routers have only create and list routes; there is no
  update or delete for them.
- A token that the verifier rejects (bad signature, expired) ends in status
  500, not in an authentication error. The verifier's error carries no
  status code (`Auth.RejectionStatus`).
- The milk list is not sorted.

## Model

| member | source | states |
|---|---|---|
| Common.DateOr | src/milk/milk.route.js:27 | a supplied date is the parsed instant; an absent or empty date becomes the current time |
| Common.HttpStatus | server.js:43 | the response status is the error's status code when it has a nonzero one, and exactly 500 when it has none or 0 |
| Aggregate.FirstWhere | src/earning/stock/stock.route.js:90-93 | `findOne` yields the position of the first entry satisfying the query, or nothing iff no entry satisfies it |
| Aggregate.SumSnoc | src/milk/milk.route.js:76 | `reduce` with `+` from 0 is a left fold: each next element is added to the sum so far |
| Aggregate.SumSign | src/earning/stock/stock.route.js:69-74 | a `reduce` sum of nonnegative terms is nonnegative, and one of nonpositive terms is nonpositive |
| Aggregate.Select | src/milk/milk.route.js:66 | `find(filter)` keeps exactly the matching records, each as often as stored, and never more records than stored |
| Aggregate.SortDesc | src/expense/expense.route.js:56 | the listing is ordered by the date key descending and is a permutation of its input |
| Aggregate.SumPermutation | src/expense/expense.route.js:59 | a `reduce` sum is the same over any permutation of the records, so totals computed over a sorted listing equal those over the matches |
| Aggregate.RemoveAt | src/earning/stock/stock.route.js:121 | a delete removes exactly one occurrence of the deleted record and keeps the order of the rest |
| DateRange.RangeFilter | src/milk/milk.route.js:42-59 | an invalid `startDate` is reported before `endDate` is examined; the filter is built iff neither supplied bound is invalid; an entry matches iff its owner is the caller and its date lies inside every supplied bound, inclusive |
| DateRange.BuildFilter | src/expense/expense.route.js:38-54 | adding the owner constraint and then each bound in turn, returning at the first bad one, yields exactly `RangeFilter` |
| DateRange.NoBoundsIsOwnerScope | src/milk/milk.route.js:42 | with no bounds the filter matches all of the caller's entries and no one else's |
| DateRange.InvertedRangeMatchesNothing | src/milk/milk.route.js:44-59 | a start after the end is accepted, and the filter matches nothing |
| MilkModel.DefaultPricePerLiter | src/milk/milk.model.js:9-13 | the default rate is the configured rate when it is a nonzero number and 45 otherwise; never 0 |
| MilkModel.OwnerScopeWeakerThanGlobal | src/milk/milk.model.js:18-23 | a date taken by the owner is taken globally, so the per-owner check refuses no more than the global index |
| MilkRoute.PriceToUse | src/milk/milk.route.js:20 | the body's price when truthy, else the default rate; never 0 |
| MilkRoute.TotalPrice | src/milk/milk.route.js:21 | total × 1000 = quantity × price |
| MilkRoute.TotalPriceExample | src/milk/milk.route.js:21 | 2000 units at 45 cost 90 |
| MilkRoute.NewMilk | src/milk/milk.route.js:10-30 | a falsy quantity (including 0) is refused with 400 "Please provide all fields"; then a supplied unparseable date with 400 "Invalid date format"; otherwise the entry belongs to the caller, has the body quantity, the chosen price, total × 1000 = quantity × price, and the supplied date or now |
| MilkRoute.AddMilk | src/milk/milk.route.js:24-35 | a validated entry is stored iff its owner has no entry on its date; a validated entry that is refused gets the duplicate-key error on `milkInDate`; storing keeps dates unique per owner |
| MilkRoute.AddMilkAsWritten | src/milk/milk.model.js:18-23 | with the index as declared, a validated entry is stored iff no user at all has an entry on its date; whatever it accepts, the per-owner index accepts too |
| MilkRoute.SecondOwnerRefusedAsWritten | src/milk/milk.model.js:21 | user 2 recording milk at the instant user 1 already has: refused with the duplicate-key error as written, accepted per owner |
| MilkRoute.OtherOwnerMayShareDate | src/milk/milk.model.js:18-23 | under the per-owner index a valid entry is always accepted when its owner has no entries, whatever dates others use |
| MilkRoute.MilkListing | src/milk/milk.route.js:66-77 | the listing holds exactly the caller's entries inside the window, each as often as it is stored; `totalDays` is their number and `totalPriceSum` the sum of their total prices (0 when empty) |
| MilkRoute.ListingAfterAdd | src/milk/milk.route.js:66-77 | storing a matching entry adds it to the listing exactly once, adds one day and adds its total price; a non-matching entry changes nothing; no position in the listing is promised |
| MilkRoute.MilkLedger.Create | src/milk/milk.route.js:7-36 | the store gains exactly the entry `AddMilk` accepts and is unchanged otherwise; the next id advances only on success; dates stay unique per owner |
| MilkRoute.MilkLedger.List | src/milk/milk.route.js:40-81 | a bad bound gives its 400; otherwise the response is `MilkListing` for the caller's filter |
| ExpenseRoute.NewExpense | src/expense/expense.route.js:10-28 | a falsy name, amount or description is refused with 400; then a supplied unparseable date with 400; otherwise the expense belongs to the caller, carries the body's values, passes the schema's required checks, and is dated at the supplied date or now |
| ExpenseRoute.ExpenseListing | src/expense/expense.route.js:55-66 | the listing holds exactly the caller's expenses in the window, newest first, as a permutation of the matches; `total` is their count and `totalAmount` the sum of their amounts, equal to the sum over the unsorted matches |
| ExpenseRoute.LateStartIsEmpty | src/expense/expense.route.js:39-59 | a start date later than every stored expense gives `{ total: 0, totalAmount: 0, expenses: [] }`, not an error |
| ExpenseRoute.ListingAfterAdd | src/expense/expense.route.js:56-59 | storing a matching expense adds one to the count and its amount to the total; a non-matching one changes nothing |
| ExpenseRoute.ExpenseLedger.Create | src/expense/expense.route.js:9-34 | the store gains exactly the expense `NewExpense` builds, with a fresh id, and is unchanged on rejection; the next id advances only on success |
| ExpenseRoute.ExpenseLedger.List | src/expense/expense.route.js:36-70 | a bad bound gives its 400; otherwise the response is `ExpenseListing` for the caller's filter |
| StockRoute.ProfitLoss | src/earning/stock/stock.route.js:39 | with a truthy sell price, profit + buy × quantity = sell × quantity; otherwise the profit is 0 |
| StockModel.StoredNumber | src/earning/stock/stock.model.js:17-20 | an absent sell-side number takes the schema default, `null` is stored as `null`, and a supplied number as itself |
| StockRoute.NewStock | src/earning/stock/stock.route.js:9-51 | the checks run in order (required fields, `buyDate`, `sellDate`), each with its 400 message; an accepted entry belongs to the caller, carries the body's name, prices and quantity, the parsed buy date, a sell date only when one was supplied, and the computed profit |
| StockRoute.SuppliedProfitIgnored | src/earning/stock/stock.route.js:39 | the `profitLoss` a client sends has no effect on the created entry |
| StockRoute.NewStockAsWritten | src/earning/stock/stock.route.js:39 | as written, every create fails: with its validation error when validation fails, and otherwise with the TypeError "Assignment to constant variable." forwarded without a status |
| StockRoute.ConstAssignmentBlocksCreate | src/earning/stock/stock.route.js:39 | buying 10 at 100 and selling at 150: the handler as written stores nothing, the intended one stores a profit of 500 |
| StockRoute.StockListing | src/earning/stock/stock.route.js:61-81 | the listing holds exactly the caller's entries, newest purchase first, as a permutation of them; `total` is their count, `totalInvestment` Σ buy × quantity and `totalProfitLoss` Σ profit with a missing profit counted as 0 |
| StockRoute.InvestmentNonNegative | src/earning/stock/stock.route.js:69-70 | when the caller's entries have nonnegative buy prices and quantities, the listed `totalInvestment` is nonnegative |
| StockRoute.ListingAfterAdd | src/earning/stock/stock.route.js:63-74 | a new entry of the caller adds one to the count, buy × quantity to the investment and its profit to the profit total; another user's entry changes nothing |
| StockRoute.FindOwned | src/earning/stock/stock.route.js:90-93 | an entry is found iff one has both that id and the caller as owner; an id owned by someone else is not found, like an absent one |
| StockRoute.ApplyPatch | src/earning/stock/stock.route.js:101-109 | only the sell price, sell date and profit can change, each only when present in the body and then to the body's value, with `null` stored as `null` for the numbers and as the epoch for the date; an unparseable sell date fails the save |
| StockRoute.RemovedIdGone | src/earning/stock/stock.route.js:121-124 | after deleting an entry no entry with its id remains, and ids stay ascending |
| StockRoute.StockLedger.Create | src/earning/stock/stock.route.js:8-58 | the store gains exactly the entry `NewStock` builds and is unchanged on rejection; the next id advances only on success, so no id is issued twice |
| StockRoute.StockLedger.List | src/earning/stock/stock.route.js:61-85 | the response is `StockListing` for the caller |
| StockRoute.StockLedger.Patch | src/earning/stock/stock.route.js:88-116 | 404 "Stock not found" when the caller has no entry with that id; otherwise the allow-list loop leaves the entry as `ApplyPatch` gives it, and no other entry changes; the next id is unchanged |
| StockRoute.StockLedger.Delete | src/earning/stock/stock.route.js:119-136 | 404 when the caller has no entry with that id; otherwise exactly that entry is removed and no entry with the id remains; the next id is unchanged, so the deleted id is never issued again |
| UserModel.AddKeepsEmailsUnique | src/user/user.model.js:8-12 | adding a user whose email is free keeps emails unique |
| UserModel.ReplaceKeepsEmailsUnique | src/user/user.model.js:8-12 | changing one user's email to one no other user has keeps emails unique |
| UserRoute.OwnerGuard | src/user/user.route.js:14-18 | the request passes iff the path id is the caller's id; otherwise it is refused with status 403 |
| UserRoute.UserDelete | src/user/user.route.js:11-31 | 403 on an id mismatch, then 404 when the user does not exist, with the table unchanged; otherwise exactly that user is removed |
| UserRoute.UserUpdate | src/user/user.route.js:35-74 | 403 on an id mismatch, then 400 when a field is missing, then 404, then the duplicate-key error when another user has the email, each with the table unchanged; the update succeeds iff none of these applies, and then changes only the caller's record, setting name, email and the hash of the new password and keeping the avatar; emails stay unique |
| UserRoute.UserUpdateAsWritten | src/user/user.route.js:38-43 | as written, an id mismatch is answered with 403, yet the table is updated as if the path user had sent the request |
| UserRoute.GuardWithoutReturnOverwritesOtherUser | src/user/user.route.js:38-63 | user 1 sending PUT for user 2: the intended handler changes nothing, the handler as written replaces user 2's email and password |
| UserRoute.UserGet | src/user/user.route.js:79-90 | 403 iff the path id is not the caller's; otherwise always a success: the caller's record without its password, or `null` when there is none |
| UserRoute.UserLogin | src/user/user.route.js:94-130 | 400 when email or password is missing; otherwise 404 when no user has the email; otherwise, for the first user with it, 401 when the password does not match its hash, and else the reply with that user's id, name, email and a token signed over that id |
| UserRoute.LoginWithUniqueEmails | src/user/user.route.js:104-126 | with unique emails, login succeeds iff some user has the email and the password matches that user's hash, and the reply then names that user |
| UserRoute.UserCreate | src/user/user.route.js:135-158 | 400 when a field is missing, then the schema error for an empty hash, then the duplicate-key error for a taken email, each with the table unchanged; sign-up succeeds iff none of these applies, and the table then gains a user with the fresh id and the hash of the password; emails stay unique |
| UserRoute.UserCreateAsWritten | src/user/user.route.js:139-153 | as written, a body with a missing field is answered with 400, yet when name and email are present and the password is empty the user is still stored with the hash of the empty password; no other incomplete body changes the table; complete bodies behave as `UserCreate` |
| UserRoute.EmptyPasswordStoredAsWritten | src/user/user.route.js:139-153 | signing up "ann" with an empty password: the intended handler stores nothing, the handler as written answers 400 and stores "ann" |
| UserRoute.NoPlaintextStored | src/user/user.route.js:146-152 | with a hasher that never returns its input, neither sign-up nor update stores the plaintext password |
| UserRoute.UserTable.Delete | src/user/user.route.js:11-31 | the response and the table afterwards are those of `UserDelete`; ids stay unique and emails unique; the next id is unchanged, so the deleted user's id is never issued again |
| UserRoute.UserTable.Update | src/user/user.route.js:35-74 | the response and the table afterwards are those of `UserUpdate`; the next id is unchanged |
| UserRoute.UserTable.Get | src/user/user.route.js:79-90 | the response is `UserGet` |
| UserRoute.UserTable.Login | src/user/user.route.js:94-130 | the response is `UserLogin` |
| UserRoute.UserTable.Create | src/user/user.route.js:135-158 | the response and the table afterwards are those of `UserCreate`, with the next id, which advances only on success |
| Auth.IndexOfSpace | src/middleware/auth.js:5 | the position of the first space, or the length when there is none |
| Auth.IsBearer | src/middleware/auth.js:4 | the header is present and `Bearer` is a prefix of it, whatever follows |
| Auth.Split | src/middleware/auth.js:5 | `split(" ")` gives at least one piece, no piece holds a space, and there is exactly one piece iff the header holds no space |
| Auth.SplitJoin | src/middleware/auth.js:5 | joining the pieces of `split(" ")` with single spaces gives back the header |
| Auth.SecondPiece | src/middleware/auth.js:5 | when the header holds a space, there is a second piece, and it is the text after the first space up to the next space or the end |
| Auth.BearerToken | src/middleware/auth.js:5 | the token is absent iff the header holds no space; otherwise it is the space-free text after the first space, up to the next space or the end |
| Auth.Authenticate | src/middleware/auth.js:3-20 | a missing header, or one not starting with "Bearer", is refused with 401 "Not Authenticated"; otherwise the request proceeds iff the verifier accepts the token, as the claim's id, and the verifier's error is forwarded as it is |
| Auth.RejectionStatus | src/middleware/auth.js:12-19 | a missing or non-bearer header ends in 401; a token the verifier refuses ends in 500 |
| Auth.VerifierOnlyForBearer | src/middleware/auth.js:4 | for a header that is not a bearer header, the verifier is never consulted |
| Auth.MissingTokenRejected | src/middleware/auth.js:4-8 | a header starting with "Bearer" but holding no space yields no token; when the verifier refuses a missing token, as `jwt.verify` does, the request is rejected with the verifier's error and status 500 |
| Auth.Run | src/middleware/auth.js:3-20 | `next` is called exactly once: with no argument and `userId` set to the claim on success, with the error and `userId` unchanged otherwise |

## Left out

- HTTP plumbing is not modelled:
  - routing and the second mount of the user router at `/` (server.js:26);
  - response bodies beyond the fields the model returns ("User updated", "Login successful", the 201 status codes);
  - CORS, helmet, static files and the request logger.
- Pagination: the `page` and `limit` query fields are read and never used.
- JavaScript numbers are modelled as mathematical reals:
  - `NaN`, `Infinity` and floating-point rounding are not modelled;
  - nor is Mongoose's casting of strings to numbers or dates.
- Malformed ids and the cast errors they cause are not modelled; document ids are naturals.
- Database failures other than a unique-index violation are not modelled, nor are concurrent requests.
- The `createdAt`/`updatedAt` timestamps are not modelled.
- Logging the JWT secret at src/user/user.route.js:96 is not modelled.
- Token expiry and the signing secret are inside the `Signer` and `Verifier` parameters.
- The bcrypt salt is a parameter rather than a random draw.
- Deleting a user leaves that user's milk, expense and stock entries in place. The model keeps each collection separate, as the source does.
- The schema default for `pricePerLiter` never applies. The create handler always supplies a price.
- `findByIdAndUpdate` at src/user/user.route.js:55-63 receives its options as separate arguments, so only `{ new: true }` takes effect. The update is modelled as a plain `$set` with no validators and no upsert.
- `MilkRoute.MilkListing` lists the matches in table order, since `find` without `sort` (src/milk/milk.route.js:66) has no defined order. No statement about the listing depends on that order.
- The stock schema (src/earning/stock/stock.model.js) and the stock routes do not match:
  - The schema names its fields `pricePerUnitBuy`, `pricePerUnitSell`, `stockInDate`, `stockSaleDate` and `stckProfit`, and requires a `totalPrice` the route never supplies.
  - The model uses the route's field names and drops `totalPrice`.
  - With the schema as written, Mongoose's strict mode would drop the route's fields and the save would fail validation.
  - The stock router is not mounted in server.js.
  - The stock router imports the middleware from `../../../middleware/auth.js` (src/earning/stock/stock.route.js:3), which resolves outside `src/`.
- `StockRoute.StockLedger.Create` stores the entry the handler evidently intends. As written, the handler throws at line 39 (see Findings).
- `StockRoute.NewStockAsWritten` forwards the TypeError of line 39 as an error without a status, as Express 5 does for a rejected async handler. Under Express 4 the rejection is unhandled and no response is sent; the model does not distinguish the two.
- `UserRoute.UserUpdateAsWritten` models only the missing `return` after the owner guard (line 42), not the one after the field check (line 48).
  - As written, a body with a falsy name or email but a password is still written after the 400.
  - Mongoose drops `undefined` keys from the update.
  - The model treats that check as an early return.
- The missing `return` at src/user/user.route.js:100 (login) is modelled as an early return. After the 400 is sent, the rest of the handler changes nothing stored; its later attempt to send a second response is not modelled.
- The missing `return` at src/user/user.route.js:142 (sign-up) is modelled as an early return in `UserRoute.UserCreate`. `UserRoute.UserCreateAsWritten` models the code as written, which still stores a user whose password is empty (see Findings). The second response it then attempts is not modelled.
- `UserRoute.UserLogin` takes the first user with the email, as `findOne` does. Only with unique emails, which the index guarantees, is that the only candidate (`UserRoute.LoginWithUniqueEmails`).
- `UserRoute.UserCreate` rejects an empty password hash with a validation error. Any other schema failure is covered by the field check.

## Findings

| source | as written | input that shows it | evidently intended | confidence | as-written member | corrected member |
|---|---|---|---|---|---|---|
| src/earning/stock/stock.route.js:39 | `profitLoss` is destructured as a `const` and then reassigned, which throws a TypeError once validation passes, so no stock entry can be created | body `{ stockName: "ACME", buyPrice: 100, sellPrice: 150, quantity: 10, buyDate: "2024-01-01" }` | compute the profit into a new binding and store it (profit 500 here) | high, not executed | StockRoute.NewStockAsWritten | StockRoute.NewStock |
| src/user/user.route.js:42 | the owner guard calls `next(error)` without `return`, so after the 403 the handler still updates the user named in the path | user 1 sends PUT `/2` with `{ name: "bob", email: "eve@example.com", password: "secret" }` | end the request at the guard, as the DELETE and GET handlers do, leaving user 2 unchanged | high, not executed | UserRoute.UserUpdateAsWritten | UserRoute.UserUpdate |
| src/milk/milk.model.js:21 | `milkInDate` has a unique index over all users, so two users cannot record milk for the same instant | user 1 has an entry at 1700000000000; user 2 creates one with the same `milkInDate` | one entry per date for each owner | medium, not executed | MilkRoute.AddMilkAsWritten | MilkRoute.AddMilk |
| src/user/user.route.js:142 | the field check calls `next(error)` without `return`, so after the 400 the handler hashes the password and creates the user; an empty password passes `hashSync` and the schema sees only its non-empty hash | body `{ name: "ann", email: "ann@example.com", password: "" }` | end the request at the field check, storing nothing | high, not executed | UserRoute.UserCreateAsWritten | UserRoute.UserCreate |
