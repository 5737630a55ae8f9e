/** The order workflow: pricing an order at creation, the status
    history, the fulfilment transitions, and the stock debit done when an
    order is packed. */
module Orders {
  import opened Common
  import opened Supplies

  datatype Status = Created | InProgress | Packed | InDelivery | Delivered | Paid | Completed | Canceled

  /** A stored line item; `subtotal` is frozen at creation. */
  datatype OrderItem = OrderItem(supply: SupplyId, quantity: int, subtotal: real)

  datatype OrderItemRequest = OrderItemRequest(productSupplyId: SupplyId, quantity: int)

  datatype CreateOrderDto = CreateOrderDto(deliveryAddress: string, paymentType: string, orderItems: seq<OrderItemRequest>)

  /** An order with its status rows (`history`, in insertion order) and
      its line items. `completedAt` is the nullable completion stamp. */
  datatype Order = Order(
    owner: UserId,
    deliveryAddress: string,
    paymentType: string,
    totalPrice: real,
    currentStatus: Status,
    history: seq<Status>,
    items: seq<OrderItem>,
    completedAt: Option<string>)

  // ---------------------------------------------------------------------
  // Pricing at creation

  function RequestIds(reqs: seq<OrderItemRequest>): (ids: seq<SupplyId>)
    ensures |ids| == |reqs| && forall i :: 0 <= i < |reqs| ==> ids[i] == reqs[i].productSupplyId
  {
    seq(|reqs|, i requires 0 <= i < |reqs| => reqs[i].productSupplyId)
  }

  /** The quantity of the first requested item naming supply `k`. */
  function RequestedQuantity(reqs: seq<OrderItemRequest>, k: SupplyId): int
    requires k in RequestIds(reqs)
  {
    reqs[FirstIndex(RequestIds(reqs), k)].quantity
  }

  /** The `reduce` over the resolved supplies: each resolved supply's
      price times the quantity of the first requested item naming it. */
  function TotalPrice(db: Store, found: seq<SupplyId>, reqs: seq<OrderItemRequest>): real
    requires forall i :: 0 <= i < |found| ==> found[i] in db && found[i] in RequestIds(reqs)
  {
    if found == [] then 0.0
    else
      var k := found[|found| - 1];
      TotalPrice(db, found[..|found| - 1], reqs) + db[k].price * (RequestedQuantity(reqs, k) as real)
  }

  /** The total an order is created with. */
  function OrderTotal(db: Store, reqs: seq<OrderItemRequest>): real
  {
    TotalPrice(db, ResolveIds(db.Keys, RequestIds(reqs)), reqs)
  }

  /** The line items, one per requested item, priced at the resolved
      supply's price; None when some requested supply does not resolve
      (the lookup of its price fails). */
  function LineItems(db: Store, reqs: seq<OrderItemRequest>): (r: Option<seq<OrderItem>>)
    ensures r.Some? <==> forall i :: 0 <= i < |reqs| ==> reqs[i].productSupplyId in db
    ensures r.Some? ==> |r.value| == |reqs|
  {
    if reqs == [] then Some([])
    else
      var q := reqs[|reqs| - 1];
      match LineItems(db, reqs[..|reqs| - 1])
      case None => None
      case Some(front) =>
        if q.productSupplyId in db
        then Some(front + [Line(db, q)])
        else None
  }

  function Line(db: Store, q: OrderItemRequest): OrderItem
    requires q.productSupplyId in db
  {
    OrderItem(q.productSupplyId, q.quantity, db[q.productSupplyId].price * (q.quantity as real))
  }

  /** Line `i` names the supply and quantity of requested item `i`, with
      subtotal the supply's price times that quantity. */
  lemma {:induction false} LineItemAt(db: Store, reqs: seq<OrderItemRequest>, i: nat)
    requires i < |reqs| && LineItems(db, reqs).Some?
    ensures reqs[i].productSupplyId in db
    ensures LineItems(db, reqs).value[i]
      == OrderItem(reqs[i].productSupplyId, reqs[i].quantity, db[reqs[i].productSupplyId].price * (reqs[i].quantity as real))
  {
    var n := |reqs|;
    var front := LineItems(db, reqs[..n - 1]).value;
    assert LineItems(db, reqs).value == front + [Line(db, reqs[n - 1])];
    if i < n - 1 {
      LineItemAt(db, reqs[..n - 1], i);
      assert reqs[..n - 1][i] == reqs[i];
    }
  }

  function SubtotalSum(lines: seq<OrderItem>): real
  {
    if lines == [] then 0.0 else SubtotalSum(lines[..|lines| - 1]) + lines[|lines| - 1].subtotal
  }

  lemma TotalPriceStep(db: Store, reqs: seq<OrderItemRequest>, n: nat)
    requires 0 < n <= |reqs|
    requires forall i :: 0 <= i < |reqs| ==> reqs[i].productSupplyId in db
    requires forall i, j :: 0 <= i < j < |reqs| ==> reqs[i].productSupplyId != reqs[j].productSupplyId
    ensures TotalPrice(db, RequestIds(reqs)[..n], reqs)
      == TotalPrice(db, RequestIds(reqs)[..n - 1], reqs) + Line(db, reqs[n - 1]).subtotal
  {
    var ids := RequestIds(reqs);
    FirstIndexOfDistinct(ids, n - 1);
    assert ids[..n][..n - 1] == ids[..n - 1];
  }

  lemma LineItemsStep(db: Store, reqs: seq<OrderItemRequest>, n: nat)
    requires 0 < n <= |reqs|
    requires forall i :: 0 <= i < |reqs| ==> reqs[i].productSupplyId in db
    ensures LineItems(db, reqs[..n]).Some? && LineItems(db, reqs[..n - 1]).Some?
    ensures SubtotalSum(LineItems(db, reqs[..n]).value)
      == SubtotalSum(LineItems(db, reqs[..n - 1]).value) + Line(db, reqs[n - 1]).subtotal
  {
    assert reqs[..n][..n - 1] == reqs[..n - 1];
    var front := LineItems(db, reqs[..n - 1]).value;
    var line := Line(db, reqs[n - 1]);
    assert LineItems(db, reqs[..n]).value == front + [line];
    assert (front + [line])[..|front|] == front;
  }

  lemma {:induction false} TotalMatchesSubtotalsPrefix(db: Store, reqs: seq<OrderItemRequest>, n: nat)
    requires n <= |reqs|
    requires forall i :: 0 <= i < |reqs| ==> reqs[i].productSupplyId in db
    requires forall i, j :: 0 <= i < j < |reqs| ==> reqs[i].productSupplyId != reqs[j].productSupplyId
    ensures LineItems(db, reqs[..n]).Some?
    ensures TotalPrice(db, RequestIds(reqs)[..n], reqs) == SubtotalSum(LineItems(db, reqs[..n]).value)
  {
    if n > 0 {
      TotalMatchesSubtotalsPrefix(db, reqs, n - 1);
      TotalPriceStep(db, reqs, n);
      LineItemsStep(db, reqs, n);
    } else {
      assert reqs[..0] == [];
    }
  }

  /** When the requested ids are distinct and all resolve, the total is
      the sum of the line subtotals. */
  lemma TotalMatchesSubtotals(db: Store, reqs: seq<OrderItemRequest>)
    requires forall i :: 0 <= i < |reqs| ==> reqs[i].productSupplyId in db
    requires forall i, j :: 0 <= i < j < |reqs| ==> reqs[i].productSupplyId != reqs[j].productSupplyId
    ensures LineItems(db, reqs).Some?
    ensures OrderTotal(db, reqs) == SubtotalSum(LineItems(db, reqs).value)
  {
    OrderTotalOfDistinct(db, reqs);
    TotalMatchesSubtotalsPrefix(db, reqs, |reqs|);
    assert reqs[..|reqs|] == reqs;
    assert RequestIds(reqs)[..|reqs|] == RequestIds(reqs);
  }

  /** With distinct, existing ids the lookup returns the requested ids
      themselves, so the total folds over them in request order. */
  lemma OrderTotalOfDistinct(db: Store, reqs: seq<OrderItemRequest>)
    requires forall i :: 0 <= i < |reqs| ==> reqs[i].productSupplyId in db
    requires forall i, j :: 0 <= i < j < |reqs| ==> reqs[i].productSupplyId != reqs[j].productSupplyId
    ensures OrderTotal(db, reqs) == TotalPrice(db, RequestIds(reqs), reqs)
  {
    var ids := RequestIds(reqs);
    ResolveDistinctPresent(db.Keys, ids);
    assert ResolveIds(db.Keys, ids) == ids;
  }

  /** A supply requested twice is counted once in the total, at the first
      item's quantity, but gets a line per item: total and lines disagree. */
  lemma RepeatedSupplyBreaksTotal(db: Store, a: SupplyId)
    requires a in db && db[a].price == 10.0
    ensures var reqs := [OrderItemRequest(a, 3), OrderItemRequest(a, 2)];
      && OrderTotal(db, reqs) == 30.0
      && LineItems(db, reqs) == Some([OrderItem(a, 3, 30.0), OrderItem(a, 2, 20.0)])
      && SubtotalSum(LineItems(db, reqs).value) == 50.0
  {
    var reqs := [OrderItemRequest(a, 3), OrderItemRequest(a, 2)];
    RepeatedSupplyTotal(db, a, reqs);
    TwoLines(db, reqs);
  }

  lemma RepeatedSupplyTotal(db: Store, a: SupplyId, reqs: seq<OrderItemRequest>)
    requires a in db && db[a].price == 10.0
    requires reqs == [OrderItemRequest(a, 3), OrderItemRequest(a, 2)]
    ensures OrderTotal(db, reqs) == 30.0
  {
    var ids := RequestIds(reqs);
    assert ids == [a, a];
    assert ids[..1] == [a] && [a][..0] == [];
    assert ResolveIds(db.Keys, [a]) == [a];
    assert ResolveIds(db.Keys, ids) == [a];
    assert FirstIndex(ids, a) == 0;
    assert RequestedQuantity(reqs, a) == 3;
    assert TotalPrice(db, [], reqs) == 0.0;
    assert TotalPrice(db, [a], reqs) == 30.0;
  }

  /** The lines of a two-item request whose supplies exist, and their sum. */
  lemma TwoLines(db: Store, reqs: seq<OrderItemRequest>)
    requires |reqs| == 2 && reqs[0].productSupplyId in db && reqs[1].productSupplyId in db
    ensures LineItems(db, reqs) == Some([Line(db, reqs[0]), Line(db, reqs[1])])
    ensures SubtotalSum(LineItems(db, reqs).value) == Line(db, reqs[0]).subtotal + Line(db, reqs[1]).subtotal
  {
    var first, second := Line(db, reqs[0]), Line(db, reqs[1]);
    var one := [reqs[0]];
    assert one[..0] == [];
    assert LineItems(db, one) == Some([] + [first]);
    assert [] + [first] == [first];
    assert reqs[..1] == one;
    assert LineItems(db, reqs) == Some([first] + [second]);
    assert [first] + [second] == [first, second];
    var lines := [Line(db, reqs[0]), Line(db, reqs[1])];
    assert lines[..1] == [Line(db, reqs[0])] && lines[..1][..0] == [];
    assert SubtotalSum(lines[..1]) == Line(db, reqs[0]).subtotal;
  }

  /** Two supplies at 10.00 and 5.00, ordered 3 and 2 times: total 40.00,
      lines 30.00 and 10.00. */
  lemma TwoSupplyOrderTotal(db: Store, a: SupplyId, b: SupplyId)
    requires a != b && a in db && b in db && db[a].price == 10.0 && db[b].price == 5.0
    ensures var reqs := [OrderItemRequest(a, 3), OrderItemRequest(b, 2)];
      && LineItems(db, reqs) == Some([OrderItem(a, 3, 30.0), OrderItem(b, 2, 10.0)])
      && OrderTotal(db, reqs) == 40.0
  {
    var reqs := [OrderItemRequest(a, 3), OrderItemRequest(b, 2)];
    TotalMatchesSubtotals(db, reqs);
    TwoLines(db, reqs);
  }

  // ---------------------------------------------------------------------
  // Status history

  /** The history an order has when its current status is `s`, for every
      status the workflow can leave it in. */
  function HistoryOf(s: Status): seq<Status>
  {
    match s
    case Created => [Created]
    case InProgress => [Created, InProgress]
    case Packed => [Created, InProgress, Packed]
    case InDelivery => [Created, InProgress, Packed, InDelivery]
    case Delivered => [Created, InProgress, Packed, InDelivery, Delivered]
    case Paid => [Created, InProgress, Packed, InDelivery, Delivered, Paid, Completed]
    case Completed => [Created, InProgress, Packed, InDelivery, Delivered, Paid, Completed]
    case Canceled => [Created, Canceled]
  }

  /** What holds of every order the workflow has produced: its history is
      fixed by its current status, COMPLETED is never the current status,
      and it has no completion stamp. */
  predicate WellFormed(o: Order) {
    o.currentStatus != Completed && o.history == HistoryOf(o.currentStatus) && o.completedAt.None?
  }

  /** The single-row transitions: cancel, and the four admin steps. */
  predicate IsStep(from: Status, to: Status) {
    || (from == Created && to == Canceled)
    || (from == Created && to == InProgress)
    || (from == InProgress && to == Packed)
    || (from == Packed && to == InDelivery)
    || (from == InDelivery && to == Delivered)
  }

  /** An order after a single-row transition to `s`. */
  function Advanced(o: Order, s: Status): Order {
    o.(currentStatus := s, history := o.history + [s])
  }

  /** An order after payment: status PAID, two rows PAID then COMPLETED. */
  function PaidOrder(o: Order): Order {
    o.(currentStatus := Paid, history := o.history + [Paid, Completed])
  }

  /** The order that creation stores before its line items are saved. */
  function Placed(dto: CreateOrderDto, owner: UserId, total: real): (o: Order)
    ensures o.currentStatus == Created && o.history == [Created] && o.totalPrice == total
    ensures o.owner == owner && o.items == [] && WellFormed(o)
  {
    Order(owner, dto.deliveryAddress, dto.paymentType, total, Created, [Created], [], None)
  }

  lemma StepKeepsWellFormed(o: Order, s: Status)
    requires WellFormed(o) && IsStep(o.currentStatus, s)
    ensures WellFormed(Advanced(o, s))
  {
  }

  lemma PaymentKeepsWellFormed(o: Order)
    requires WellFormed(o) && o.currentStatus == Delivered
    ensures WellFormed(PaidOrder(o))
  {
  }

  /** In a well-formed order the current status is the last history entry
      exactly when the order is not paid; a paid order's last entry is
      COMPLETED. */
  lemma LastEntryIsStatusUnlessPaid(o: Order)
    requires WellFormed(o)
    ensures o.history != []
    ensures o.history[|o.history| - 1] == o.currentStatus <==> o.currentStatus != Paid
    ensures o.currentStatus == Paid ==> o.history[|o.history| - 2..] == [Paid, Completed]
  {
  }

  /** Transitions only append: the old history is a prefix of the new one,
      and nothing but status and history changes. */
  lemma TransitionsAppendOnly(o: Order, s: Status)
    ensures Advanced(o, s).history[..|o.history|] == o.history
    ensures PaidOrder(o).history[..|o.history|] == o.history
    ensures Advanced(o, s).(currentStatus := o.currentStatus, history := o.history) == o
    ensures PaidOrder(o).(currentStatus := o.currentStatus, history := o.history) == o
  {
  }

  /** An order run through the whole workflow from creation ends PAID,
      with seven history rows, the last one COMPLETED, and still no
      completion stamp. */
  lemma FullLifecycle(o: Order)
    requires WellFormed(o) && o.currentStatus == Created
    ensures var done := PaidOrder(Advanced(Advanced(Advanced(Advanced(o, InProgress), Packed), InDelivery), Delivered));
      && done.currentStatus == Paid
      && done.history == [Created, InProgress, Packed, InDelivery, Delivered, Paid, Completed]
      && done.completedAt.None?
      && done.items == o.items && done.totalPrice == o.totalPrice
      && WellFormed(done)
  {
  }

  // ---------------------------------------------------------------------
  // Stock debit when packing

  function ItemSupplyIds(items: seq<OrderItem>): (ids: seq<SupplyId>)
    ensures |ids| == |items| && forall i :: 0 <= i < |items| ==> ids[i] == items[i].supply
  {
    seq(|items|, i requires 0 <= i < |items| => items[i].supply)
  }

  /** The quantity of the first line item naming supply `k`. */
  function PackedQuantity(items: seq<OrderItem>, k: SupplyId): int
    requires k in ItemSupplyIds(items)
  {
    items[FirstIndex(ItemSupplyIds(items), k)].quantity
  }

  /** The stock after packing: every existing supply the order names
      loses the quantity of the first line naming it; no floor. */
  function DebitStock(db: Store, items: seq<OrderItem>): Store {
    map k | k in db ::
      if k in ItemSupplyIds(items) then db[k].(currentCount := db[k].currentCount - PackedQuantity(items, k)) else db[k]
  }

  /** The `forEach` of the packing step: each looked-up record, whose id
      the order names, loses the quantity of the first line naming it. */
  method DebitRows(rows: seq<Row>, items: seq<OrderItem>) returns (batch: seq<Row>)
    requires forall j :: 0 <= j < |rows| ==> rows[j].0 in ItemSupplyIds(items)
    ensures |batch| == |rows|
    ensures forall j :: 0 <= j < |rows| ==>
      batch[j] == (rows[j].0, rows[j].1.(currentCount := rows[j].1.currentCount - PackedQuantity(items, rows[j].0)))
  {
    batch := rows;
    var i := 0;
    while i < |batch|
      invariant 0 <= i <= |batch| == |rows|
      invariant forall j :: 0 <= j < i ==>
        batch[j] == (rows[j].0, rows[j].1.(currentCount := rows[j].1.currentCount - PackedQuantity(items, rows[j].0)))
      invariant forall j :: i <= j < |batch| ==> batch[j] == rows[j]
    {
      var (k, s) := batch[i];
      batch := batch[i := (k, s.(currentCount := s.currentCount - PackedQuantity(items, k)))];
      i := i + 1;
    }
  }

  /** The rows the packing loop writes back, from the looked-up ones. */
  ghost predicate IsPackBatch(db: Store, items: seq<OrderItem>, batch: seq<Row>) {
    var found := ResolveIds(db.Keys, ItemSupplyIds(items));
    |batch| == |found| && forall j :: 0 <= j < |found| ==>
      batch[j] == (found[j], db[found[j]].(currentCount := db[found[j]].currentCount - PackedQuantity(items, found[j])))
  }

  lemma PackBatchAt(db: Store, items: seq<OrderItem>, batch: seq<Row>, k: SupplyId)
    requires IsPackBatch(db, items, batch) && k in db
    ensures k in Saved(db, batch) && Saved(db, batch)[k] == DebitStock(db, items)[k]
  {
    if k in ItemSupplyIds(items) {
      PackBatchHit(db, items, batch, k);
    } else {
      PackBatchMiss(db, items, batch, k);
    }
  }

  /** A named supply ends up with its debited record. */
  lemma PackBatchHit(db: Store, items: seq<OrderItem>, batch: seq<Row>, k: SupplyId)
    requires IsPackBatch(db, items, batch) && k in db && k in ItemSupplyIds(items)
    ensures k in Saved(db, batch) && Saved(db, batch)[k] == DebitStock(db, items)[k]
  {
    var found := ResolveIds(db.Keys, ItemSupplyIds(items));
    var j :| 0 <= j < |found| && found[j] == k;
    PackBatchRow(db, items, batch, j);
    PackBatchDistinct(db, items, batch);
    SavedHit(db, batch, j);
  }

  lemma PackBatchRow(db: Store, items: seq<OrderItem>, batch: seq<Row>, j: nat)
    requires IsPackBatch(db, items, batch) && j < |batch|
    ensures batch[j].0 in db && batch[j].1 == DebitStock(db, items)[batch[j].0]
  {
  }

  lemma PackBatchDistinct(db: Store, items: seq<OrderItem>, batch: seq<Row>)
    requires IsPackBatch(db, items, batch)
    ensures forall a, b :: 0 <= a < b < |batch| ==> batch[a].0 != batch[b].0
  {
    var found := ResolveIds(db.Keys, ItemSupplyIds(items));
    assert forall a :: 0 <= a < |batch| ==> batch[a].0 == found[a];
  }

  /** An unnamed supply keeps its record. */
  lemma PackBatchMiss(db: Store, items: seq<OrderItem>, batch: seq<Row>, k: SupplyId)
    requires IsPackBatch(db, items, batch) && k in db && k !in ItemSupplyIds(items)
    ensures k in Saved(db, batch) && Saved(db, batch)[k] == DebitStock(db, items)[k]
  {
    var found := ResolveIds(db.Keys, ItemSupplyIds(items));
    assert forall i :: 0 <= i < |batch| ==> batch[i].0 == found[i];
    SavedMiss(db, batch, k);
  }

  /** Saving the debited rows is the debit of the stock. */
  lemma PackBatchIsDebit(db: Store, items: seq<OrderItem>, batch: seq<Row>)
    requires IsPackBatch(db, items, batch)
    ensures Saved(db, batch) == DebitStock(db, items)
  {
    var found := ResolveIds(db.Keys, ItemSupplyIds(items));
    assert forall j :: 0 <= j < |batch| ==> batch[j].0 == found[j];
    SavedKeys(db, batch);
    forall k | k in db
      ensures Saved(db, batch)[k] == DebitStock(db, items)[k]
    {
      PackBatchAt(db, items, batch, k);
    }
  }

  /** Debiting never changes which supplies exist, nor any field but the
      stock left, and an unnamed supply keeps its stock. */
  lemma DebitTouchesOnlyNamedCounts(db: Store, items: seq<OrderItem>, k: SupplyId)
    requires k in db
    ensures DebitStock(db, items).Keys == db.Keys
    ensures DebitStock(db, items)[k].(currentCount := db[k].currentCount) == db[k]
    ensures k !in ItemSupplyIds(items) ==> DebitStock(db, items)[k] == db[k]
  {
  }

  /** Debiting keeps the one-in-sale-per-plant rule. */
  lemma DebitKeepsOneInSale(db: Store, items: seq<OrderItem>)
    requires OneInSalePerPlant(db)
    ensures OneInSalePerPlant(DebitStock(db, items))
  {
  }

  /** Packing two orders that name the same supply subtracts both
      quantities, whatever stock was left: nothing stops the count from
      going below zero. */
  lemma PackingTwiceOversells(db: Store, a: seq<OrderItem>, b: seq<OrderItem>, k: SupplyId)
    requires k in db && k in ItemSupplyIds(a) && k in ItemSupplyIds(b)
    ensures DebitStock(DebitStock(db, a), b)[k].currentCount
      == db[k].currentCount - PackedQuantity(a, k) - PackedQuantity(b, k)
    ensures db[k].currentCount < PackedQuantity(a, k) + PackedQuantity(b, k) ==>
      DebitStock(DebitStock(db, a), b)[k].currentCount < 0
  {
  }

  /** Every stored order is well-formed. */
  predicate AllWellFormed(orders: map<OrderId, Order>) {
    forall k :: k in orders ==> WellFormed(orders[k])
  }

  /** Storing a well-formed order keeps every stored order well-formed. */
  lemma StoreKeepsWellFormed(orders: map<OrderId, Order>, id: OrderId, o: Order)
    ensures AllWellFormed(orders) && WellFormed(o) ==> AllWellFormed(orders[id := o])
  {
  }

  // ---------------------------------------------------------------------
  // The service

  class OrderService {
    var orders: map<OrderId, Order>
    const supplyService: SupplyService

    ghost predicate Valid()
      reads this, supplyService
    {
      AllWellFormed(orders) && supplyService.Valid()
    }

    constructor (supplyService: SupplyService)
      ensures this.supplyService == supplyService && orders == map[]
      ensures supplyService.Valid() ==> Valid()
    {
      this.supplyService := supplyService;
      orders := map[];
    }

    /** `create`: the order and its CREATED row are saved before the line
        items are priced, so an unresolved supply leaves the order stored
        without items and the request failing. `newId` is the fresh key
        the database generates. */
    method Create(dto: CreateOrderDto, userId: UserId, newId: OrderId) returns (r: Result<Order>)
      requires newId !in orders
      modifies this
      ensures var db := supplyService.supplies;
        var placed := Placed(dto, userId, OrderTotal(db, dto.orderItems));
        match LineItems(db, dto.orderItems)
        case None => r == Err(Internal) && orders == old(orders)[newId := placed]
        case Some(lines) => r == Ok(placed.(items := lines)) && orders == old(orders)[newId := r.value]
      ensures old(Valid()) ==> Valid()
    {
      var db := supplyService.supplies;
      var total := OrderTotal(db, dto.orderItems);
      var placed := Placed(dto, userId, total);
      StoreKeepsWellFormed(orders, newId, placed);
      orders := orders[newId := placed];
      var lines := LineItems(db, dto.orderItems);
      if lines.None? {
        return Err(Internal);
      }
      var order := placed.(items := lines.value);
      assert WellFormed(order);
      StoreKeepsWellFormed(orders, newId, order);
      orders := orders[newId := order];
      r := Ok(order);
    }

    /** `cancel`: the lookup asks for id, owner and CREATED at once, so a
        missing order, another user's order and an order past CREATED all
        give NotFound. */
    method Cancel(id: OrderId, userId: UserId) returns (r: Result<Order>)
      modifies this
      ensures !(id in old(orders) && old(orders)[id].owner == userId && old(orders)[id].currentStatus == Created) ==>
        r == Err(NotFound) && orders == old(orders)
      ensures id in old(orders) && old(orders)[id].owner == userId && old(orders)[id].currentStatus == Created ==>
        r == Ok(Advanced(old(orders)[id], Canceled)) && orders == old(orders)[id := r.value]
      ensures old(Valid()) ==> Valid()
    {
      if id !in orders || orders[id].owner != userId || orders[id].currentStatus != Created {
        return Err(NotFound);
      }
      var order := orders[id];
      if WellFormed(order) {
        StepKeepsWellFormed(order, Canceled);
      }
      order := Advanced(order, Canceled);
      orders := orders[id := order];
      r := Ok(order);
    }

    /** The four admin transitions share this shape: look the order up by
        id alone, demand the exact predecessor status, append one row. */
    method Advance(id: OrderId, required: Status, next: Status) returns (r: Result<Order>)
      requires next != Canceled && IsStep(required, next)
      modifies this
      ensures id !in old(orders) ==> r == Err(NotFound) && orders == old(orders)
      ensures id in old(orders) && old(orders)[id].currentStatus != required ==> r == Err(BadRequest) && orders == old(orders)
      ensures id in old(orders) && old(orders)[id].currentStatus == required ==>
        r == Ok(Advanced(old(orders)[id], next)) && orders == old(orders)[id := r.value]
      ensures old(Valid()) ==> Valid()
    {
      if id !in orders {
        return Err(NotFound);
      }
      var order := orders[id];
      if order.currentStatus != required {
        return Err(BadRequest);
      }
      if WellFormed(order) {
        StepKeepsWellFormed(order, next);
      }
      order := Advanced(order, next);
      orders := orders[id := order];
      r := Ok(order);
    }

    /** `setInProgress`: CREATED to IN_PROGRESS. */
    method SetInProgress(id: OrderId) returns (r: Result<Order>)
      modifies this
      ensures id !in old(orders) ==> r == Err(NotFound) && orders == old(orders)
      ensures id in old(orders) && old(orders)[id].currentStatus != Created ==> r == Err(BadRequest) && orders == old(orders)
      ensures id in old(orders) && old(orders)[id].currentStatus == Created ==>
        r == Ok(Advanced(old(orders)[id], InProgress)) && orders == old(orders)[id := r.value]
      ensures old(Valid()) ==> Valid()
    {
      r := Advance(id, Created, InProgress);
    }

    /** `setPacked`: IN_PROGRESS to PACKED, then the stock of every
        existing supply the order names is lowered by the quantity of the
        first line naming it, and the records are saved back. */
    method SetPacked(id: OrderId) returns (r: Result<Order>)
      modifies this, supplyService
      ensures id !in old(orders) ==>
        r == Err(NotFound) && orders == old(orders) && supplyService.supplies == old(supplyService.supplies)
      ensures id in old(orders) && old(orders)[id].currentStatus != InProgress ==>
        r == Err(BadRequest) && orders == old(orders) && supplyService.supplies == old(supplyService.supplies)
      ensures id in old(orders) && old(orders)[id].currentStatus == InProgress ==>
        && r == Ok(Advanced(old(orders)[id], Packed)) && orders == old(orders)[id := r.value]
        && supplyService.supplies == DebitStock(old(supplyService.supplies), old(orders)[id].items)
      ensures old(Valid()) ==> Valid()
    {
      if id !in orders {
        return Err(NotFound);
      }
      var order := orders[id];
      if order.currentStatus != InProgress {
        return Err(BadRequest);
      }
      if WellFormed(order) {
        StepKeepsWellFormed(order, Packed);
      }
      var packed := Advanced(order, Packed);
      orders := orders[id := packed];

      DebitInventory(order.items);
      r := Ok(packed);
    }

    /** The stock half of `setPacked`: look up the supplies the items
        name, lower each one's stock left, save the records back. */
    method DebitInventory(items: seq<OrderItem>)
      modifies supplyService
      ensures supplyService.supplies == DebitStock(old(supplyService.supplies), items)
      ensures old(supplyService.Valid()) ==> supplyService.Valid()
    {
      var db := supplyService.supplies;
      var rows := supplyService.GetByIds(ItemSupplyIds(items));
      var batch := DebitRows(rows, items);
      assert IsPackBatch(db, items, batch);
      PackBatchIsDebit(db, items, batch);
      if OneInSalePerPlant(db) {
        DebitKeepsOneInSale(db, items);
      }
      supplyService.UpdateMany(batch);
    }

    /** `setInDelivery`: PACKED to IN_DELIVERY. */
    method SetInDelivery(id: OrderId) returns (r: Result<Order>)
      modifies this
      ensures id !in old(orders) ==> r == Err(NotFound) && orders == old(orders)
      ensures id in old(orders) && old(orders)[id].currentStatus != Packed ==> r == Err(BadRequest) && orders == old(orders)
      ensures id in old(orders) && old(orders)[id].currentStatus == Packed ==>
        r == Ok(Advanced(old(orders)[id], InDelivery)) && orders == old(orders)[id := r.value]
      ensures old(Valid()) ==> Valid()
    {
      r := Advance(id, Packed, InDelivery);
    }

    /** `setDelivered`: IN_DELIVERY to DELIVERED. */
    method SetDelivered(id: OrderId) returns (r: Result<Order>)
      modifies this
      ensures id !in old(orders) ==> r == Err(NotFound) && orders == old(orders)
      ensures id in old(orders) && old(orders)[id].currentStatus != InDelivery ==> r == Err(BadRequest) && orders == old(orders)
      ensures id in old(orders) && old(orders)[id].currentStatus == InDelivery ==>
        r == Ok(Advanced(old(orders)[id], Delivered)) && orders == old(orders)[id := r.value]
      ensures old(Valid()) ==> Valid()
    {
      r := Advance(id, InDelivery, Delivered);
    }

    /** `setPaid`: the owner's DELIVERED order becomes PAID and gets the
        rows PAID and COMPLETED; another user's order is NotFound. */
    method SetPaid(id: OrderId, userId: UserId) returns (r: Result<Order>)
      modifies this
      ensures !(id in old(orders) && old(orders)[id].owner == userId) ==> r == Err(NotFound) && orders == old(orders)
      ensures id in old(orders) && old(orders)[id].owner == userId && old(orders)[id].currentStatus != Delivered ==>
        r == Err(BadRequest) && orders == old(orders)
      ensures id in old(orders) && old(orders)[id].owner == userId && old(orders)[id].currentStatus == Delivered ==>
        r == Ok(PaidOrder(old(orders)[id])) && orders == old(orders)[id := r.value]
      ensures old(Valid()) ==> Valid()
    {
      if id !in orders || orders[id].owner != userId {
        return Err(NotFound);
      }
      var order := orders[id];
      if order.currentStatus != Delivered {
        return Err(BadRequest);
      }
      if WellFormed(order) {
        PaymentKeepsWellFormed(order);
      }
      order := PaidOrder(order);
      orders := orders[id := order];
      r := Ok(order);
    }
  }
}
