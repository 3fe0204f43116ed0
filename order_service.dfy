// The online and offline order life cycle: creation with pricing and the one
// up-front availability check, owner cancellation, administrative forced
// cancellation, delivery updates and receipt. Balances move through the
// unguarded helpers of PointWrites; stock through the moves of Stock.

module OrderService {
  import opened Common
  import opened Entities
  import opened Ledger
  import opened UserModel
  import opened Store
  import opened PointWrites
  import opened Stock

  /** An `OrderItemCreate`. */
  datatype LineRequest = LineRequest(itemId: Id, specId: Option<Id>, quantity: int, paymentMethod: PaymentMethod)

  /** An `OrderCreate`. */
  datatype OrderRequest = OrderRequest(
    salesOfficeId: Id,
    orderType: OrderType,
    items: seq<LineRequest>,
    deliveryType: Option<DeliveryType>,
    deliveryLocationId: Option<Id>,
    recipientName: Option<string>,
    recipientPhone: Option<string>,
    shippingAddress: Option<string>,
    deliveryNote: Option<string>)

  // ----- pricing -----

  /** A line's unit price: its spec's price, or 0 when no spec is given or none is found. */
  function UnitPrice(specs: map<Id, ClothingSpec>, l: LineRequest): int {
    if IdGiven(l.specId) && l.specId.value in specs then specs[l.specId.value].price else 0
  }

  function PricedLine(specs: map<Id, ClothingSpec>, l: LineRequest, id: Id): OrderLine {
    var price := UnitPrice(specs, l);
    OrderLine(id, l.itemId, l.specId, l.quantity, price, price * l.quantity, l.paymentMethod, false, None, None)
  }

  /** The stored lines of a request, numbered from `firstId`. */
  function PricedLines(specs: map<Id, ClothingSpec>, items: seq<LineRequest>, firstId: Id): (r: seq<OrderLine>)
    ensures |r| == |items|
  {
    seq(|items|, i requires 0 <= i < |items| => PricedLine(specs, items[i], firstId + i))
  }

  /** The sum of the line totals. */
  function SumTotal(lines: seq<OrderLine>): int
    decreases |lines|
  {
    if lines == [] then 0 else SumTotal(lines[..|lines| - 1]) + lines[|lines| - 1].totalPrice
  }

  /** The sum of the line totals paid by `pm`. */
  function SumBy(lines: seq<OrderLine>, pm: PaymentMethod): int
    decreases |lines|
  {
    if lines == [] then 0
    else SumBy(lines[..|lines| - 1], pm) + (if lines[|lines| - 1].paymentMethod == pm then lines[|lines| - 1].totalPrice else 0)
  }

  /** Every line is paid either by points or by voucher, so the two sums make up the total. */
  lemma {:induction false} SumSplit(lines: seq<OrderLine>)
    ensures SumTotal(lines) == SumBy(lines, PointPayment) + SumBy(lines, VoucherPayment)
    decreases |lines|
  {
    if lines != [] {
      SumSplit(lines[..|lines| - 1]);
    }
  }

  /**
   * The accumulation loop of `create_order` and `create_offline_sale`: the
   * grand total and its split between point-paid and voucher-paid lines.
   */
  method Tally(lines: seq<OrderLine>) returns (total: int, totalPoint: int, totalVoucher: int)
    ensures total == SumTotal(lines)
    ensures totalPoint == SumBy(lines, PointPayment) && totalVoucher == SumBy(lines, VoucherPayment)
    ensures total == totalPoint + totalVoucher
  {
    total, totalPoint, totalVoucher := 0, 0, 0;
    for i := 0 to |lines|
      invariant total == SumTotal(lines[..i])
      invariant totalPoint == SumBy(lines[..i], PointPayment) && totalVoucher == SumBy(lines[..i], VoucherPayment)
    {
      assert lines[..i + 1][..i] == lines[..i];
      total := total + lines[i].totalPrice;
      if lines[i].paymentMethod == PointPayment {
        totalPoint := totalPoint + lines[i].totalPrice;
      } else {
        totalVoucher := totalVoucher + lines[i].totalPrice;
      }
    }
    assert lines[..|lines|] == lines;
    SumSplit(lines);
  }

  // ----- creation -----

  /** The order `create_order` stores for priced lines. */
  function Placed(userId: Id, req: OrderRequest, lines: seq<OrderLine>): (o: Order)
    ensures o.userId == userId && o.lines == lines && o.totalAmount == SumTotal(lines)
    ensures req.orderType.Online? ==>
      o.status == Confirmed && o.reservedPoint == SumBy(lines, PointPayment) && o.usedPoint == 0 && o.usedVoucherAmount == 0
    ensures req.orderType.Offline? ==>
      o.status == Delivered && o.reservedPoint == 0 && o.usedPoint == SumBy(lines, PointPayment) &&
      o.usedPoint + o.usedVoucherAmount == o.totalAmount
  {
    SumSplit(lines);
    var point := SumBy(lines, PointPayment);
    if req.orderType.Online? then
      Order(userId, req.salesOfficeId, Online, Confirmed, SumTotal(lines), point, 0, 0, None, None, None, lines)
    else
      Order(userId, req.salesOfficeId, Offline, Delivered, SumTotal(lines), 0, point, SumBy(lines, VoucherPayment),
            None, None, None, lines)
  }

  /** The delivery created with an order when a delivery type is given; an offline one is delivered at once. */
  function PlacedDelivery(req: OrderRequest, now: Time): Delivery
    requires req.deliveryType.Some?
  {
    Delivery(req.deliveryType.value,
             if req.orderType.Online? then Preparing else DeliveredStatus,
             req.deliveryLocationId, req.recipientName, req.recipientPhone, req.shippingAddress,
             None, None, if req.orderType.Offline? then Some(now) else None, req.deliveryNote)
  }

  /** How an order's creation moves its user's points: online orders hold them, offline orders spend them. */
  function CreationEffect(t: OrderType): Effect {
    if t.Online? then Hold else Charge
  }

  function CreationKind(t: OrderType): TransactionType {
    if t.Online? then Reserve else Deduct
  }

  function CreationNote(t: OrderType): string {
    if t.Online? then "주문 포인트 예약" else "오프라인 구매 포인트 차감"
  }

  /**
   * `create_order`: fails for a missing user and when the point-paid total
   * exceeds the available balance, with no effect; otherwise stores the order,
   * moves the points by type, lowers stock for an offline order (without a
   * floor) and adds the delivery when one is requested.
   */
  method CreateOrder(db: Db, userId: Id, req: OrderRequest, now: Time) returns (r: Result<Id>)
    requires db.Valid()
    modifies db`users, db`transactions, db`orders, db`deliveries, db`inventory, db`inventoryHistory, db`nextId
    ensures db.Valid()
    ensures userId !in old(db.users) ==> r == Err(UserNotFound) && unchanged(db)
    ensures userId in old(db.users) ==>
      var lines := PricedLines(old(db.specs), req.items, old(db.nextId) + 1);
      var point := SumBy(lines, PointPayment);
      var available := AvailablePoint(old(db.users)[userId]);
      && (point > available ==> r == Err(InsufficientPoints(available)) && unchanged(db))
      && (point <= available ==>
           var id := old(db.nextId);
           var e := CreationEffect(req.orderType);
           && r == Ok(id)
           && id !in old(db.orders)
           && db.orders == old(db.orders)[id := Placed(userId, req, lines)]
           && db.users == Touched(old(db.users), userId, point, e)
           && db.transactions == TouchLog(old(db.users), old(db.transactions), userId, point, e,
                                          CreationKind(req.orderType), Some(id), None, CreationNote(req.orderType))
           && (req.orderType.Online? ==> db.inventory == old(db.inventory) && db.inventoryHistory == old(db.inventoryHistory))
           && (req.orderType.Offline? ==>
                 var moves := LineMoves(req.salesOfficeId, lines);
                 db.inventory == Moved(old(db.inventory), moves, false) &&
                 db.inventoryHistory == old(db.inventoryHistory) + MoveLog(old(db.inventory), moves, false, Decrease, "오프라인 판매", 1, Some(id)))
           && db.deliveries == if req.deliveryType.Some? then old(db.deliveries)[id := PlacedDelivery(req, now)] else old(db.deliveries))
    ensures old(db.LedgerWitnessed()) ==> db.LedgerWitnessed()
    ensures old(db.BalancesSound()) ==> db.BalancesSound()
  {
    if userId !in db.users {
      return Err(UserNotFound);
    }
    var lines := PricedLines(db.specs, req.items, db.nextId + 1);
    var total, totalPoint, totalVoucher := Tally(lines);
    var available := AvailablePoint(db.users[userId]);
    if totalPoint > available {
      return Err(InsufficientPoints(available));
    }
    var id := PlaceOrder(db, userId, req, lines, totalPoint, now);
    r := Ok(id);
  }

  /** The effects of a `create_order` that passed its checks. */
  method PlaceOrder(db: Db, userId: Id, req: OrderRequest, lines: seq<OrderLine>, point: int, now: Time) returns (id: Id)
    requires db.Valid() && userId in db.users
    requires point == SumBy(lines, PointPayment) && point <= AvailablePoint(db.users[userId])
    modifies db`users, db`transactions, db`orders, db`deliveries, db`inventory, db`inventoryHistory, db`nextId
    ensures db.Valid()
    ensures id == old(db.nextId) && id !in old(db.orders)
    ensures db.orders == old(db.orders)[id := Placed(userId, req, lines)]
    ensures db.users == Touched(old(db.users), userId, point, CreationEffect(req.orderType))
    ensures db.transactions == TouchLog(old(db.users), old(db.transactions), userId, point, CreationEffect(req.orderType),
                                        CreationKind(req.orderType), Some(id), None, CreationNote(req.orderType))
    ensures req.orderType.Online? ==> db.inventory == old(db.inventory) && db.inventoryHistory == old(db.inventoryHistory)
    ensures req.orderType.Offline? ==>
      var moves := LineMoves(req.salesOfficeId, lines);
      db.inventory == Moved(old(db.inventory), moves, false) &&
      db.inventoryHistory == old(db.inventoryHistory) + MoveLog(old(db.inventory), moves, false, Decrease, "오프라인 판매", 1, Some(id))
    ensures db.deliveries == if req.deliveryType.Some? then old(db.deliveries)[id := PlacedDelivery(req, now)] else old(db.deliveries)
    ensures old(db.LedgerWitnessed()) ==> db.LedgerWitnessed()
    ensures old(db.BalancesSound()) ==> db.BalancesSound()
  {
    id := Book(db, userId, req, lines, point);
    Dispatch(db, req, lines, id, now);
  }

  /** The writes of an order after its booking: the stock of an offline order's lines, and the requested delivery. */
  method Dispatch(db: Db, req: OrderRequest, lines: seq<OrderLine>, id: Id, now: Time)
    modifies db`inventory, db`inventoryHistory, db`deliveries
    ensures req.orderType.Online? ==> db.inventory == old(db.inventory) && db.inventoryHistory == old(db.inventoryHistory)
    ensures req.orderType.Offline? ==>
      var moves := LineMoves(req.salesOfficeId, lines);
      db.inventory == Moved(old(db.inventory), moves, false) &&
      db.inventoryHistory == old(db.inventoryHistory) + MoveLog(old(db.inventory), moves, false, Decrease, "오프라인 판매", 1, Some(id))
    ensures db.deliveries == if req.deliveryType.Some? then old(db.deliveries)[id := PlacedDelivery(req, now)] else old(db.deliveries)
  {
    ShipFromStock(db, req, lines, id);
    AttachDelivery(db, req, id, now);
  }

  /** Stores the order under a fresh id, reserving the id of every line after it, and applies its creation effect. */
  method Book(db: Db, userId: Id, req: OrderRequest, lines: seq<OrderLine>, point: int) returns (id: Id)
    requires db.Valid()
    modifies db`users, db`transactions, db`orders, db`nextId
    ensures db.Valid()
    ensures id == old(db.nextId) && id !in old(db.orders)
    ensures db.orders == old(db.orders)[id := Placed(userId, req, lines)]
    ensures db.users == Touched(old(db.users), userId, point, CreationEffect(req.orderType))
    ensures db.transactions == TouchLog(old(db.users), old(db.transactions), userId, point, CreationEffect(req.orderType),
                                        CreationKind(req.orderType), Some(id), None, CreationNote(req.orderType))
    ensures old(db.LedgerWitnessed()) ==> db.LedgerWitnessed()
    ensures old(db.BalancesSound()) && (Fires(old(db.users), userId, point) ==> Covered(CreationEffect(req.orderType), old(db.users)[userId], point)) ==>
      db.BalancesSound()
  {
    id := db.FreshId();
    db.nextId := db.nextId + |req.items|;
    db.orders := db.orders[id := Placed(userId, req, lines)];
    Touch(db, userId, point, CreationEffect(req.orderType), CreationKind(req.orderType), Some(id), None, CreationNote(req.orderType));
  }

  /** `_deduct_inventory`, for offline orders only: lowers each line's record with a DECREASE row by user 1. */
  method ShipFromStock(db: Db, req: OrderRequest, lines: seq<OrderLine>, id: Id)
    modifies db`inventory, db`inventoryHistory
    ensures req.orderType.Online? ==> db.inventory == old(db.inventory) && db.inventoryHistory == old(db.inventoryHistory)
    ensures req.orderType.Offline? ==>
      var moves := LineMoves(req.salesOfficeId, lines);
      db.inventory == Moved(old(db.inventory), moves, false) &&
      db.inventoryHistory == old(db.inventoryHistory) + MoveLog(old(db.inventory), moves, false, Decrease, "오프라인 판매", 1, Some(id))
  {
    if req.orderType.Offline? {
      ApplyMoves(db, LineMoves(req.salesOfficeId, lines), false, Decrease, "오프라인 판매", 1, Some(id));
    }
  }

  /** Stores the requested delivery, if any, under the order's id. */
  method AttachDelivery(db: Db, req: OrderRequest, id: Id, now: Time)
    modifies db`deliveries
    ensures db.deliveries == if req.deliveryType.Some? then old(db.deliveries)[id := PlacedDelivery(req, now)] else old(db.deliveries)
  {
    if req.deliveryType.Some? {
      db.deliveries := db.deliveries[id := PlacedDelivery(req, now)];
    }
  }

  // ----- cancellation -----

  /** An order marked cancelled at `now` by `by` for `reason`; nothing else on it changes. */
  function CancelledOrder(o: Order, now: Time, reason: string, actor: Id): (c: Order)
    ensures c.status == Cancelled && c.reservedPoint == o.reservedPoint && c.usedPoint == o.usedPoint && c.lines == o.lines
  {
    o.(status := Cancelled, cancelledAt := Some(now), cancelReason := Some(reason), cancelledBy := Some(actor))
  }

  /** Whether the owner may cancel: only a PENDING or CONFIRMED order. */
  predicate OwnerCancellable(s: OrderStatus) {
    s == Pending || s == Confirmed
  }

  /**
   * `cancel_order`: only the owner, only from PENDING or CONFIRMED; releases
   * the order's reservation and leaves every `current_point` as it was.
   */
  method CancelOrder(db: Db, orderId: Id, userId: Id, reason: string, now: Time) returns (r: Option<Order>)
    requires db.Valid()
    modifies db`users, db`transactions, db`orders
    ensures db.Valid()
    ensures r.None? <==>
      orderId !in old(db.orders) || old(db.orders)[orderId].userId != userId || !OwnerCancellable(old(db.orders)[orderId].status)
    ensures r.None? ==> unchanged(db)
    ensures r.Some? ==>
      var o := old(db.orders)[orderId];
      && r.value == CancelledOrder(o, now, reason, userId)
      && db.orders == old(db.orders)[orderId := r.value]
      && db.users == Touched(old(db.users), userId, o.reservedPoint, Unhold)
      && db.transactions == TouchLog(old(db.users), old(db.transactions), userId, o.reservedPoint, Unhold,
                                     Release, Some(orderId), None, "주문 취소 포인트 해제")
    ensures forall uid :: uid in db.users ==> db.users[uid].currentPoint == old(db.users)[uid].currentPoint
    ensures old(db.LedgerWitnessed()) ==> db.LedgerWitnessed()
    ensures (old(db.BalancesSound()) && orderId in old(db.orders) && userId in old(db.users) &&
             old(db.orders)[orderId].reservedPoint <= old(db.users)[userId].reservedPoint) ==> db.BalancesSound()
  {
    if orderId !in db.orders || db.orders[orderId].userId != userId {
      return None;
    }
    var o := db.orders[orderId];
    if !OwnerCancellable(o.status) {
      return None;
    }
    Touch(db, userId, o.reservedPoint, Unhold, Release, Some(orderId), None, "주문 취소 포인트 해제");
    var c := CancelledOrder(o, now, reason, userId);
    db.orders := db.orders[orderId := c];
    r := Some(c);
  }

  /**
   * `force_cancel_order`: any order not already CANCELLED. Releases the
   * order's reservation whatever the status, and for a delivered offline
   * order also refunds its point spend and restores the stock of every line.
   */
  method ForceCancelOrder(db: Db, orderId: Id, adminId: Id, reason: string, now: Time) returns (r: Option<Order>)
    requires db.Valid()
    modifies db`users, db`transactions, db`orders, db`inventory, db`inventoryHistory
    ensures db.Valid()
    ensures r.None? <==> orderId !in old(db.orders) || old(db.orders)[orderId].status == Cancelled
    ensures r.None? ==> unchanged(db)
    ensures r.Some? ==>
      var o := old(db.orders)[orderId];
      var released := Touched(old(db.users), o.userId, o.reservedPoint, Unhold);
      var releaseLog := TouchLog(old(db.users), old(db.transactions), o.userId, o.reservedPoint, Unhold,
                                 Release, Some(orderId), None, "주문 취소 포인트 해제");
      var sold := o.status == Delivered && o.orderType == Offline;
      var moves := LineMoves(o.salesOfficeId, o.lines);
      && r.value == CancelledOrder(o, now, reason, adminId)
      && db.orders == old(db.orders)[orderId := r.value]
      && (!sold ==> db.users == released && db.transactions == releaseLog &&
                    db.inventory == old(db.inventory) && db.inventoryHistory == old(db.inventoryHistory))
      && (sold ==> db.users == Touched(released, o.userId, o.usedPoint, Refill) &&
                   db.transactions == TouchLog(released, releaseLog, o.userId, o.usedPoint, Refill,
                                               Refund, Some(orderId), None, "주문 취소 포인트 환불") &&
                   db.inventory == Moved(old(db.inventory), moves, true) &&
                   db.inventoryHistory == old(db.inventoryHistory) +
                     MoveLog(old(db.inventory), moves, true, Return, "주문 취소 재고 복구", 1, Some(orderId)))
    ensures old(db.LedgerWitnessed()) ==> db.LedgerWitnessed()
    ensures old(db.BalancesSound()) &&
      (orderId in old(db.orders) && Fires(old(db.users), old(db.orders)[orderId].userId, old(db.orders)[orderId].reservedPoint) ==>
         Covered(Unhold, old(db.users)[old(db.orders)[orderId].userId], old(db.orders)[orderId].reservedPoint))
      ==> db.BalancesSound()
  {
    if orderId !in db.orders {
      return None;
    }
    var o := db.orders[orderId];
    if o.status == Cancelled {
      return None;
    }
    Undo(db, orderId, o);
    var c := CancelledOrder(o, now, reason, adminId);
    db.orders := db.orders[orderId := c];
    r := Some(c);
  }

  /** The writes of a force-cancellation: release the hold, and for a delivered offline sale refund and restock. */
  method Undo(db: Db, orderId: Id, o: Order)
    requires db.Valid()
    modifies db`users, db`transactions, db`inventory, db`inventoryHistory
    ensures db.Valid() && db.orders == old(db.orders)
    ensures
      var released := Touched(old(db.users), o.userId, o.reservedPoint, Unhold);
      var releaseLog := TouchLog(old(db.users), old(db.transactions), o.userId, o.reservedPoint, Unhold,
                                 Release, Some(orderId), None, "주문 취소 포인트 해제");
      var sold := o.status == Delivered && o.orderType == Offline;
      var moves := LineMoves(o.salesOfficeId, o.lines);
      && (!sold ==> db.users == released && db.transactions == releaseLog &&
                    db.inventory == old(db.inventory) && db.inventoryHistory == old(db.inventoryHistory))
      && (sold ==> db.users == Touched(released, o.userId, o.usedPoint, Refill) &&
                   db.transactions == TouchLog(released, releaseLog, o.userId, o.usedPoint, Refill,
                                               Refund, Some(orderId), None, "주문 취소 포인트 환불") &&
                   db.inventory == Moved(old(db.inventory), moves, true) &&
                   db.inventoryHistory == old(db.inventoryHistory) +
                     MoveLog(old(db.inventory), moves, true, Return, "주문 취소 재고 복구", 1, Some(orderId)))
    ensures old(db.LedgerWitnessed()) ==> db.LedgerWitnessed()
    ensures old(db.BalancesSound()) &&
      (Fires(old(db.users), o.userId, o.reservedPoint) ==> Covered(Unhold, old(db.users)[o.userId], o.reservedPoint))
      ==> db.BalancesSound()
  {
    Touch(db, o.userId, o.reservedPoint, Unhold, Release, Some(orderId), None, "주문 취소 포인트 해제");
    if o.status == Delivered && o.orderType == Offline {
      RefundSale(db, orderId, o);
    }
  }

  /** `_refund_points` and `_restore_inventory` for a force-cancelled offline sale. */
  method RefundSale(db: Db, orderId: Id, o: Order)
    requires db.Valid()
    modifies db`users, db`transactions, db`inventory, db`inventoryHistory
    ensures db.Valid() && db.orders == old(db.orders)
    ensures db.users == Touched(old(db.users), o.userId, o.usedPoint, Refill)
    ensures db.transactions == TouchLog(old(db.users), old(db.transactions), o.userId, o.usedPoint, Refill,
                                        Refund, Some(orderId), None, "주문 취소 포인트 환불")
    ensures db.inventory == Moved(old(db.inventory), LineMoves(o.salesOfficeId, o.lines), true)
    ensures db.inventoryHistory == old(db.inventoryHistory) +
      MoveLog(old(db.inventory), LineMoves(o.salesOfficeId, o.lines), true, Return, "주문 취소 재고 복구", 1, Some(orderId))
    ensures old(db.LedgerWitnessed()) ==> db.LedgerWitnessed()
    ensures old(db.BalancesSound()) ==> db.BalancesSound()
  {
    Touch(db, o.userId, o.usedPoint, Refill, Refund, Some(orderId), None, "주문 취소 포인트 환불");
    ApplyMoves(db, LineMoves(o.salesOfficeId, o.lines), true, Return, "주문 취소 재고 복구", 1, Some(orderId));
  }

  /**
   * Force-cancelling a delivered offline order gives back exactly what its
   * creation took: the stock of its lines and the points it charged.
   */
  lemma OfflineCreateThenForceCancel(inv: map<InventoryKey, Inventory>, office: Id, lines: seq<OrderLine>, u: User, point: int)
    ensures Moved(Moved(inv, LineMoves(office, lines), false), LineMoves(office, lines), true) == inv
    ensures Apply(Refill, Apply(Charge, u, point), point) == u
  {
    MovedRoundTrip(inv, LineMoves(office, lines));
    ChargeThenRefill(u, point);
  }

  // ----- delivery and receipt -----

  /** A `DeliveryUpdate`: every field optional. */
  datatype DeliveryUpdate = DeliveryUpdate(status: Option<DeliveryStatus>, trackingNumber: Option<string>, note: Option<string>)

  /** The delivery after an update: the new status (stamping ship or arrival time), the tracking number and note when given. */
  function UpdatedDelivery(d: Delivery, data: DeliveryUpdate, now: Time): (r: Delivery)
    ensures data.status.Some? ==> r.status == data.status.value
    ensures data.status.None? ==> r.status == d.status
    ensures r.shippedAt == if data.status == Some(InTransit) then Some(now) else d.shippedAt
    ensures r.deliveredAt == if data.status == Some(DeliveredStatus) then Some(now) else d.deliveredAt
    ensures r.trackingNumber == if Truthy(data.trackingNumber) then data.trackingNumber else d.trackingNumber
    ensures r.deliveryType == d.deliveryType && r.locationId == d.locationId
  {
    var d1 := if data.status.Some? then d.(status := data.status.value) else d;
    var d2 := if data.status == Some(InTransit) then d1.(shippedAt := Some(now))
              else if data.status == Some(DeliveredStatus) then d1.(deliveredAt := Some(now))
              else d1;
    var d3 := if Truthy(data.trackingNumber) then d2.(trackingNumber := data.trackingNumber) else d2;
    if Truthy(data.note) then d3.(note := data.note) else d3
  }

  /** The order status after a delivery update: IN_TRANSIT ships, DELIVERED delivers, from whatever status. */
  function StatusAfterDelivery(s: OrderStatus, data: DeliveryUpdate): (r: OrderStatus)
    ensures data.status == Some(InTransit) ==> r == Shipped
    ensures data.status == Some(DeliveredStatus) ==> r == Delivered
    ensures data.status != Some(InTransit) && data.status != Some(DeliveredStatus) ==> r == s
  {
    if data.status == Some(InTransit) then Shipped
    else if data.status == Some(DeliveredStatus) then Delivered
    else s
  }

  /**
   * `update_delivery`: needs an order with a delivery; applies the update and
   * moves the order's status with no check of the status it had. Points and
   * stock are out of its frame.
   */
  method UpdateDelivery(db: Db, orderId: Id, data: DeliveryUpdate, now: Time) returns (r: Option<Order>)
    requires db.Valid()
    modifies db`orders, db`deliveries
    ensures db.Valid()
    ensures r.None? <==> orderId !in old(db.orders) || orderId !in old(db.deliveries)
    ensures r.None? ==> unchanged(db)
    ensures r.Some? ==>
      var o := old(db.orders)[orderId];
      && r.value == o.(status := StatusAfterDelivery(o.status, data))
      && db.orders == old(db.orders)[orderId := r.value]
      && db.deliveries == old(db.deliveries)[orderId := UpdatedDelivery(old(db.deliveries)[orderId], data, now)]
  {
    if orderId !in db.orders || orderId !in db.deliveries {
      return None;
    }
    var o := db.orders[orderId];
    db.deliveries := db.deliveries[orderId := UpdatedDelivery(db.deliveries[orderId], data, now)];
    var o2 := o.(status := StatusAfterDelivery(o.status, data));
    db.orders := db.orders[orderId := o2];
    r := Some(o2);
  }

  /**
   * `receive_order`: only the owner, only from DELIVERED. Settles the order's
   * reservation (a USE row) and marks it RECEIVED; the order keeps its
   * `reserved_point`, which a later forced cancellation releases again.
   */
  method ReceiveOrder(db: Db, orderId: Id, userId: Id) returns (r: Option<Order>)
    requires db.Valid()
    modifies db`users, db`transactions, db`orders
    ensures db.Valid()
    ensures r.None? <==>
      orderId !in old(db.orders) || old(db.orders)[orderId].userId != userId || old(db.orders)[orderId].status != Delivered
    ensures r.None? ==> unchanged(db)
    ensures r.Some? ==>
      var o := old(db.orders)[orderId];
      && r.value == o.(status := Received)
      && r.value.reservedPoint == o.reservedPoint
      && db.orders == old(db.orders)[orderId := r.value]
      && db.users == Touched(old(db.users), userId, o.reservedPoint, Settle)
      && db.transactions == TouchLog(old(db.users), old(db.transactions), userId, o.reservedPoint, Settle,
                                     Use, Some(orderId), None, "배송 완료 포인트 확정 차감")
    ensures old(db.LedgerWitnessed()) ==> db.LedgerWitnessed()
    ensures (old(db.BalancesSound()) && orderId in old(db.orders) && userId in old(db.users) &&
             old(db.orders)[orderId].reservedPoint <= old(db.users)[userId].reservedPoint) ==> db.BalancesSound()
  {
    if orderId !in db.orders || db.orders[orderId].userId != userId {
      return None;
    }
    var o := db.orders[orderId];
    if o.status != Delivered {
      return None;
    }
    Touch(db, userId, o.reservedPoint, Settle, Use, Some(orderId), None, "배송 완료 포인트 확정 차감");
    var o2 := o.(status := Received);
    db.orders := db.orders[orderId := o2];
    r := Some(o2);
  }
}
