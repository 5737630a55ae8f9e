# Green Harbor order workflow and inventory, in Dafny

Green Harbor is the backend of a plant shop. This project models three parts of it. The order service prices an order, moves it through its fulfilment statuses, and debits the stock when the order is packed. The supply service keeps the inventory ledger. The role guard and two request DTOs hold the declarative entry rules.

Each concern is a separate module:

- `Common`: ids, `Option`, and `Result` with the three error classes the services raise: NotFound, BadRequest, and the uncaught TypeError the web layer reports as an internal error. `FirstIndex` models `Array.prototype.find` on a key known to be present.
- `RoleGuard`: `canActivate` as a pure decision over the required role and the request's user.
- `CreateSupplyRules` and `UpdateSupplierRules`: the class-validator decorators of the two supply DTOs, as predicates. The two regular expressions are written out character by character.
- `Supplies`: the supply records, as a map from id to record held by the class `SupplyService`. Each method of the class checks and updates that map as the TypeScript method does against its repository, for request bodies of the declared DTO shape (see "Left out"). Around the class sit pure functions:
  - the id lookup (`findByIds`, `findBy` with `In`);
  - batch saving;
  - merging a supplier-data update;
  - pricing a cart.
- `Orders`: the pricing of an order as pure functions (the `reduce` for the total, the `map` for the line items), the status history, the stock debit of packing, and the class `OrderService`. It holds the orders in a map, shares a `SupplyService`, and has one method per transition.

Every order the service stores satisfies `WellFormed`:

- its history is fixed by its current status;
- COMPLETED is never its current status;
- its completion stamp is empty.

Every method of `OrderService` preserves this, together with the supply ledger's "at most one supply of a plant in sale" rule (`OneInSalePerPlant`).

Quirks of the code the model keeps:

- Packing subtracts each ordered quantity from the stock left with no floor check, so counts can go negative (src/order/order.service.ts:178-183; `PackingTwiceOversells`).
- Payment sets the current status to PAID and appends two status rows, PAID then COMPLETED (src/order/order.service.ts:255-269).
- Nothing ever sets the nullable `completedAt` column of an order (src/order/entities/order.entity.ts:25-26).
- Creation saves the order and its CREATED row before it prices the line items (src/order/order.service.ts:50-67). A request naming a supply the lookup does not return therefore leaves an order without items stored, and then fails with an internal error when the price lookup at line 65 finds nothing.
- A supply named twice in one order is counted once in the total, at the first item's quantity, but gets a line item per request (src/order/order.service.ts:32-40, 59-67; `RepeatedSupplyBreaksTotal`).
- Cancelling an order that is no longer CREATED gives NotFound, because the lookup filters on the status (src/order/order.service.ts:88-97).
- The service has no admin cancel (see "Left out").

Fresh database keys are parameters with a freshness precondition. The plant lookup of `createSupply` is a parameter too: the set of existing plant ids.

## Model

| member | source | states |
|---|---|---|
| Common.FirstIndex | src/order/order.service.ts:36-38 | the position found holds the key, and no earlier position holds it |
| RoleGuard.CanActivate | src/core/guards/role.guard.ts:10-29 | no required role grants access; a required role with no user denies it; otherwise access is granted exactly when the user's role equals the required one |
| RoleGuard.DecisionDependsOnlyOnRole | src/core/guards/role.guard.ts:20-25 | two users with the same role always get the same decision |
| RoleGuard.GatesAreDisjoint | src/core/guards/role.guard.ts:16-28 | an admin route admits exactly authenticated admins, and no user passes both the admin and the buyer gate |
| CreateSupplyRules.CreatePhoneIsPlusTwelveDigits | src/supply/dto/create-supply.dto.ts:50-53 | the creation phone rule accepts exactly "+" followed by twelve digits |
| CreateSupplyRules.EmailHasOneAt | src/supply/dto/create-supply.dto.ts:71-74 | an address accepted by the e-mail pattern contains exactly one '@' |
| CreateSupplyRules.DocumentedSampleIsValid | src/supply/dto/create-supply.dto.ts:11-93 | the sample request documented on the DTO passes every field rule: count and price bounds, non-empty strings, phone and e-mail patterns |
| CreateSupplyRules.DottedDomainIsRejected | src/supply/dto/create-supply.dto.ts:73 | an address whose domain has two dots is rejected, since `\w` excludes '.' |
| CreateSupplyRules.IsCreatePhone | src/supply/dto/create-supply.dto.ts:52 | the creation phone pattern `^\+\d{12}$`: thirteen characters, a plus sign, then ASCII digits |
| CreateSupplyRules.IsEmail | src/supply/dto/create-supply.dto.ts:73 | the e-mail pattern `^\w+@\w+\.\w+$`: three non-empty runs of word characters separated by '@' and '.' |
| CreateSupplyRules.ValidCreateSupply | src/supply/dto/create-supply.dto.ts:11-93 | the whole creation request: count and price in [1, 10000], supplier strings and expiration date non-empty, phone and e-mail matching their patterns, no rule on the plant id |
| UpdateSupplierRules.EmptyUpdateIsValid | src/supply/dto/UpdateSupplier.dto.ts:11-44 | every field is optional, so an update that sets nothing is valid |
| UpdateSupplierRules.UpdatePhoneIsCreatePhone | src/supply/dto/UpdateSupplier.dto.ts:33 | every phone the update rule accepts, the creation rule accepts as well |
| UpdateSupplierRules.CreatePhoneNeedNotBeUpdatePhone | src/supply/dto/UpdateSupplier.dto.ts:33 | the inclusion is strict: a twelve-digit number outside +380 passes creation and fails update |
| UpdateSupplierRules.UpdateEmailIsUnchecked | src/supply/dto/UpdateSupplier.dto.ts:21-23 | a present e-mail never affects the update's validity, so an address the creation pattern rejects is accepted |
| UpdateSupplierRules.IsUpdatePhone | src/supply/dto/UpdateSupplier.dto.ts:33 | the update phone pattern `^\+380\d{9}$`: thirteen characters, "+380", then ASCII digits |
| UpdateSupplierRules.ValidUpdateSupplier | src/supply/dto/UpdateSupplier.dto.ts:11-44 | the whole update request: every field optional, only a present phone constrained |
| Supplies.ResolveIds | src/supply/supply.service.ts:33-35 | the lookup returns only existing requested ids, returns every existing requested id, and returns each id once |
| Supplies.ResolveDistinctPresent | src/supply/supply.service.ts:33-35 | when the requested ids are distinct and all exist, the lookup returns all of them, in order |
| Supplies.InSale | src/supply/supply.service.ts:281-284 | an id is in the in-sale view exactly when it exists and its record is in sale |
| Supplies.OneInSalePerPlant | src/supply/supply.service.ts:62-72 | the rule the on-sale check enforces: two in-sale supplies of the same plant are the same supply |
| Supplies.PutToStockKeepsOneInSale | src/supply/supply.service.ts:62-76 | enabling sale of a supply whose plant has none in sale keeps at most one in-sale supply per plant, and makes the target the plant's only one |
| Supplies.FromRequest | src/supply/supply.service.ts:45-49 | a new record starts with its stock left equal to the count received, is not in sale, and belongs to the requested plant |
| Supplies.Merge | src/supply/supply.service.ts:104 | present supplier fields overwrite, absent ones keep their value, and all other fields are unchanged |
| Supplies.MergeIsConservative | src/supply/supply.service.ts:104 | an empty update is the identity; no update touches stock, price, sale state, plant or expiry |
| Supplies.UpdateCanLeaveCreationRules | src/supply/dto/UpdateSupplier.dto.ts:21-23 | a supply valid at creation can be moved, by a valid update, to an e-mail the creation rule rejects |
| Supplies.Saved | src/supply/supply.service.ts:273 | `repository.save` of a list of rows: each row in turn overwrites its id, so a later row of the same id wins |
| Supplies.SavedKeys | src/supply/supply.service.ts:272-276 | saving a batch of existing records keeps the set of ids |
| Supplies.SavedHit | src/supply/supply.service.ts:272-276 | in a batch with distinct ids, each row is what the store holds for its id afterwards |
| Supplies.SavedMiss | src/supply/supply.service.ts:272-276 | a supply the batch does not name keeps its record, and saving creates no new ids besides those named |
| Supplies.EntryFor | src/supply/supply.service.ts:290-309 | a cart line carries the supply's id, plant and price, the count of the first cart item naming it, and subtotal equal to price times that count |
| Supplies.PricedCartFacts | src/supply/supply.service.ts:281-313 | priced lines name only existing in-sale supplies; every requested in-sale supply appears exactly once; each line carries its supply's stored price and the count of the first cart item naming it, and its subtotal is price times that count |
| Supplies.SupplyService.GetByIds | src/supply/supply.service.ts:33-35 | the rows are the records of the resolved ids, in the lookup's order, each under its own id |
| Supplies.SupplyService.CreateSupply | src/supply/supply.service.ts:37-52 | an unknown plant gives NotFound and no change; otherwise exactly the new record is added, under the fresh key |
| Supplies.SupplyService.PutToStock | src/supply/supply.service.ts:54-77 | a missing id gives NotFound, and a plant with any supply already in sale (the target included) gives BadRequest, both with no change; otherwise only the target's sale flag is set, and the target becomes the plant's only in-sale supply |
| Supplies.SupplyService.RemoveFromStock | src/supply/supply.service.ts:79-94 | a missing supply or one not in sale gives BadRequest and no change; otherwise only the sale flag is cleared |
| Supplies.SupplyService.RemoveFromStockTwice | src/supply/supply.service.ts:84-87 | a second consecutive removal always fails with BadRequest, whatever the first did |
| Supplies.SupplyService.UpdateSupplierData | src/supply/supply.service.ts:96-113 | a missing id gives BadRequest and no change; otherwise only the target is replaced, by the merge of the update |
| Supplies.SupplyService.UpdateCount | src/supply/supply.service.ts:115-132 | a missing id gives BadRequest and no change; otherwise only the stock left of the target changes, to any number |
| Supplies.SupplyService.UpdatePrice | src/supply/supply.service.ts:134-151 | a missing id gives BadRequest and no change; otherwise only the target's price changes |
| Supplies.SupplyService.UpdateExpiryDate | src/supply/supply.service.ts:153-170 | a missing id gives BadRequest and no change; otherwise only the target's expiry date changes |
| Supplies.SupplyService.Delete | src/supply/supply.service.ts:262-270 | an id that deletes nothing gives NotFound and no change; otherwise exactly that record is removed |
| Supplies.SupplyService.UpdateMany | src/supply/supply.service.ts:272-276 | the store afterwards is the old one with the rows of the batch saved in order |
| Supplies.SupplyService.GetCartData | src/supply/supply.service.ts:278-314 | the lines are the priced lines of the in-sale requested supplies (with the properties of PricedCartFacts), and the total is the sum of their subtotals |
| Orders.LineItems | src/order/order.service.ts:59-68 | the line items exist exactly when every requested supply exists (otherwise the price lookup throws), one per requested item |
| Orders.TotalPrice | src/order/order.service.ts:32-40 | the `reduce`: the sum over the looked-up supplies of price times the quantity of the first requested item naming each |
| Orders.OrderTotal | src/order/order.service.ts:28-40 | the total an order is created with: that sum over the ids the lookup returns for the request |
| Orders.LineItemAt | src/order/order.service.ts:59-67 | line i names the supply and quantity of requested item i, and its subtotal is that supply's price times the quantity |
| Orders.TotalMatchesSubtotals | src/order/order.service.ts:32-40 | when the requested ids are distinct and all exist, the order total equals the sum of the line subtotals |
| Orders.RepeatedSupplyBreaksTotal | src/order/order.service.ts:32-40 | a supply requested twice (quantities 3 and 2, price 10) is counted once in the total (30) but gets two lines, 30 and 20, summing to 50 |
| Orders.TwoSupplyOrderTotal | src/order/order.service.ts:32-67 | two supplies at 10 and 5, ordered 3 and 2 times, give lines 30 and 10 and total 40 |
| Orders.Placed | src/order/order.service.ts:42-57 | a new order is CREATED, its history is exactly [CREATED], it belongs to the caller with the computed total, and it is well-formed |
| Orders.Advanced | src/order/order.service.ts:99-109 | a single-row transition: the status becomes the new one and one history row with it is appended, nothing else changes |
| Orders.PaidOrder | src/order/order.service.ts:255-269 | payment: the status becomes PAID and the rows PAID then COMPLETED are appended, nothing else changes |
| Orders.StepKeepsWellFormed | src/order/order.service.ts:99-109 | every single-row transition from its own predecessor keeps an order well-formed |
| Orders.PaymentKeepsWellFormed | src/order/order.service.ts:255-278 | paying a delivered order keeps it well-formed |
| Orders.LastEntryIsStatusUnlessPaid | src/order/order.service.ts:255-278 | in a well-formed order the last history entry is the current status exactly when the order is not paid; a paid order's history ends PAID, COMPLETED |
| Orders.TransitionsAppendOnly | src/order/order.service.ts:138-148 | every transition keeps the old history as a prefix and changes nothing but the status and the history |
| Orders.FullLifecycle | src/order/order.service.ts:125-279 | a freshly created order run through every step ends PAID with the seven-row history, the same items and total, and no completion stamp |
| Orders.DebitRows | src/order/order.service.ts:178-183 | each looked-up record loses the quantity of the first line naming it, and keeps its id and position |
| Orders.PackBatchIsDebit | src/order/order.service.ts:174-185 | saving the debited records yields the stock debit of the order: every existing named supply loses its quantity once, and the rest are unchanged |
| Orders.DebitStock | src/order/order.service.ts:178-183 | the stock after packing: every existing supply the order names loses the quantity of the first line naming it, with no floor; the rest are unchanged |
| Orders.DebitTouchesOnlyNamedCounts | src/order/order.service.ts:178-183 | the debit keeps the set of supplies, changes no field but the stock left, and leaves unnamed supplies intact |
| Orders.DebitKeepsOneInSale | src/order/order.service.ts:178-185 | the debit keeps at most one in-sale supply per plant |
| Orders.PackingTwiceOversells | src/order/order.service.ts:178-183 | packing two orders naming the same supply subtracts both quantities, and the stock goes negative when they exceed it |
| Orders.OrderService.Create | src/order/order.service.ts:27-73 | the stored order is the new CREATED order with the computed total; with a line per requested item when all supplies exist, else with no items and an internal error |
| Orders.OrderService.Cancel | src/order/order.service.ts:87-110 | only the owner's CREATED order is cancelled, with CANCELED appended; a missing order, another user's, or one past CREATED gives NotFound and no change |
| Orders.OrderService.Advance | src/order/order.service.ts:125-149 | shared shape of the admin steps: an unknown id gives NotFound, a wrong current status gives BadRequest, both with no change; otherwise the status is the new one and one row is appended |
| Orders.OrderService.SetInProgress | src/order/order.service.ts:125-149 | CREATED to IN_PROGRESS with one row appended; NotFound or BadRequest with no change otherwise |
| Orders.OrderService.SetPacked | src/order/order.service.ts:151-188 | IN_PROGRESS to PACKED with one row appended, and the supplies debited; NotFound or BadRequest with no change to orders or supplies otherwise |
| Orders.OrderService.DebitInventory | src/order/order.service.ts:174-185 | the supply store afterwards is the stock debit of the items, and the one-in-sale rule is kept |
| Orders.OrderService.SetInDelivery | src/order/order.service.ts:190-214 | PACKED to IN_DELIVERY with one row appended; NotFound or BadRequest with no change otherwise |
| Orders.OrderService.SetDelivered | src/order/order.service.ts:216-240 | IN_DELIVERY to DELIVERED with one row appended; NotFound or BadRequest with no change otherwise |
| Orders.OrderService.SetPaid | src/order/order.service.ts:242-279 | the owner's DELIVERED order becomes PAID, with PAID then COMPLETED appended; another user's or a missing order gives NotFound, and a wrong status gives BadRequest, both with no change |

## Left out

- Authentication, token strategies and user records: password hashing and JWT signing are foreign calls. The guard receives the decoded payload as a parameter.
- Controllers, modules, bootstrap and configuration: HTTP routing and dependency wiring. The controllers are used only to learn which role gates which operation.
- cancelAsAdmin: the order controller calls it at src/order/order.controller.ts:89, but `OrderService` does not define it, so there is nothing to model.
- The plant catalogue: `createSupply` receives the set of existing plant ids, and a cart line carries the plant id instead of the trimmed plant record `getOne` loads.
- The query-builder reads of the supply service and the plain reads of the order service: statistics, the in-stock listings, `getAll`, `getOne`, `findAll`, `findAllByUserId`. They are database filters and URL rewriting, with no state change.
- Concurrency and atomicity: the source uses no transactions or locks, and each sequence of awaited saves is modelled as one sequential step.
- Supplies.ResolveIds, Supplies.SupplyService.GetByIds, Supplies.SupplyService.GetCartData: the database returns the rows of `findByIds` and `findBy(In)` in an unspecified order, and `Promise.all` keeps that order for the cart lines (src/supply/supply.service.ts:281-288). The model fixes the order of first request. The row order of `GetByIds`, the line order of `GetCartData`, and the "in order" of `ResolveDistinctPresent` are the model's own choice. The order-independent results are:
  - the set, distinctness and contents of the rows and lines (`PricedCartFacts`);
  - the sums (`TotalMatchesSubtotals`, the cart total as a sum of subtotals);
  - the stock debit (`DebitStock`, `PackBatchIsDebit`), since each id is saved once.
- Money: prices and totals are `real`. The rounding and the range of the `decimal(6,2)` columns, and JavaScript floating point, are not modelled.
- Counts and quantities are integers. The DTO's number rule would also admit a fractional count.
- Clocks and generated keys: `createdAt`, `deliveryDate` and uuids are left out or given as fresh-key parameters.
- Supplies.SupplyService.Delete: the database also deletes the order items of a deleted supply (`onDelete: 'CASCADE'`, src/order/entities/order-item.entity.ts:21-23). The model's `Delete` changes only the supply store and leaves stored orders unchanged.
- Orders.OrderService.Create: the `Ok` value carries the line items, while the response body the source returns holds only the order and its status row. The stored order is the same.
- Request validation: `main.ts` installs no validation pipe, so the services do not require the DTO predicates. The predicates are modelled as stated rules of their own.
- Request bodies: the controller passes the whole request body to `updateCount`, `updatePrice` and `updateExpiryDate`. The model takes the number or date those methods expect.
- Supplies.FromRequest, Supplies.Merge: request bodies are taken to have their declared DTO shape. With no validation pipe, a body is raw JSON, and both `...createSupplyDto` (src/supply/supply.service.ts:46) and `repository.merge` (src/supply/supply.service.ts:104) copy every entity column it carries. A creation body with `"inSale": true` would store a supply already in sale, and a supplier update carrying `price` or `currentCount` would rewrite them. So the `Valid()` preservation of `CreateSupply` and `UpdateSupplierData`, and `MergeIsConservative`, are promised only for bodies of the declared shape.
- Orders.OrderService.Create: ids are opaque strings. Supply ids are uuid columns, so a malformed id makes the lookup at src/order/order.service.ts:28 fail in the database before anything is saved, and no order is stored. The model's stored item-less order on failure holds only for well-formed ids that name no supply.
- Orders.OrderService.Create, Supplies.SupplyService.GetCartData: ids are taken in the database's canonical lower-case uuid spelling. The database matches an upper-case spelling of an existing uuid and returns the lower-case one. The JavaScript `===` of the `find` calls then fails to match it:
  - in `create`, the `find` at src/order/order.service.ts:36-38 returns undefined, and reading `.quantity` throws before anything is saved;
  - in `getCartData`, `cartItem` at src/supply/supply.service.ts:290 is undefined, and line 297 throws.
  The model compares ids as plain strings. It treats such an id as absent: `Create` stores an item-less order with `Err(Internal)`, and `GetCartData` returns no line for it.
- Orders.OrderService.Create: bodies are taken with a payment type from the `PaymentType` enum (src/order/entities/order.entity.ts:43). With another value, the save at src/order/order.service.ts:50 fails in the database, nothing is stored, and the request fails. The model stores the order whatever string `paymentType` holds.
- Orders.PackedQuantity, Orders.DebitStock: line items and status rows are loaded by relation with no ordering (src/order/order.service.ts:154), so the `find` at lines 179-181 takes whichever line naming a supply the database returns first. The model takes the first in insertion order, so for an order naming one supply twice it debits the first line's quantity.
- A cart that names the same supply twice is priced at its first item's count, as in `find`. An empty id list is treated as a lookup that returns nothing.
