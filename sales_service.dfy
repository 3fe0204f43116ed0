// Offline sales at a sales office and refunds of delivered or shipped
// orders. Neither checks the user's balance: a sale charges points that may
// not be available, and a refund credits points whatever the order's
// payment history.

module SalesService {
  import opened Common
  import opened Entities
  import opened Ledger
  import opened UserModel
  import opened Store
  import opened PointWrites
  import opened Stock
  import opened OrderService

  // ----- offline sale -----

  /** An `OfflineSaleItem`: the staff member supplies the unit price. */
  datatype SaleItem = SaleItem(itemId: Id, specId: Option<Id>, quantity: int, unitPrice: int, paymentMethod: PaymentMethod)

  /** An `OfflineSaleCreate`. */
  datatype SaleRequest = SaleRequest(userId: Id, salesOfficeId: Id, items: seq<SaleItem>)

  /** The stored lines of a sale, numbered from `firstId`. */
  function SaleLines(items: seq<SaleItem>, firstId: Id): (r: seq<OrderLine>)
    ensures |r| == |items|
    ensures forall i :: 0 <= i < |items| ==>
      r[i].quantity == items[i].quantity && r[i].unitPrice == items[i].unitPrice &&
      r[i].totalPrice == items[i].unitPrice * items[i].quantity && !r[i].isReturned
  {
    seq(|items|, i requires 0 <= i < |items| =>
      OrderLine(firstId + i, items[i].itemId, items[i].specId, items[i].quantity, items[i].unitPrice,
                items[i].unitPrice * items[i].quantity, items[i].paymentMethod, false, None, None))
  }

  /** The order a sale stores: OFFLINE, DELIVERED, nothing reserved, total = point spend + voucher spend. */
  function SaleOrder(sale: SaleRequest, lines: seq<OrderLine>): (o: Order)
    ensures o.orderType == Offline && o.status == Delivered && o.reservedPoint == 0
    ensures o.usedPoint == SumBy(lines, PointPayment) && o.usedVoucherAmount == SumBy(lines, VoucherPayment)
    ensures o.totalAmount == o.usedPoint + o.usedVoucherAmount
  {
    SumSplit(lines);
    Order(sale.userId, sale.salesOfficeId, Offline, Delivered, SumTotal(lines), 0,
          SumBy(lines, PointPayment), SumBy(lines, VoucherPayment), None, None, None, lines)
  }

  /**
   * `create_offline_sale`: always stores the order. It charges the point
   * spend to the user when that user exists and the spend is positive, with
   * no availability check, and lowers the stock of each line (no floor),
   * logged as the staff member's DECREASE.
   */
  method CreateOfflineSale(db: Db, staffId: Id, sale: SaleRequest) returns (id: Id)
    requires db.Valid()
    modifies db`users, db`transactions, db`orders, db`inventory, db`inventoryHistory, db`nextId
    ensures db.Valid()
    ensures id == old(db.nextId) && id !in old(db.orders)
    ensures var lines := SaleLines(sale.items, id + 1);
      var point := SumBy(lines, PointPayment);
      var moves := LineMoves(sale.salesOfficeId, lines);
      && db.orders == old(db.orders)[id := SaleOrder(sale, lines)]
      && db.users == Touched(old(db.users), sale.userId, point, Charge)
      && db.transactions == TouchLog(old(db.users), old(db.transactions), sale.userId, point, Charge,
                                     Deduct, Some(id), None, "오프라인 판매 포인트 차감")
      && db.inventory == Moved(old(db.inventory), moves, false)
      && db.inventoryHistory == old(db.inventoryHistory) + MoveLog(old(db.inventory), moves, false, Decrease, "오프라인 판매", staffId, Some(id))
    ensures old(db.LedgerWitnessed()) ==> db.LedgerWitnessed()
    ensures (old(db.BalancesSound()) &&
             (sale.userId in old(db.users) ==>
                SumBy(SaleLines(sale.items, id + 1), PointPayment) <= AvailablePoint(old(db.users)[sale.userId]))) ==>
            db.BalancesSound()
  {
    id := Open(db, sale);
    Settle(db, staffId, sale, SaleLines(sale.items, id + 1), id);
  }

  /** Stores the sale's order under a fresh id, reserving the id of every line after it. */
  method Open(db: Db, sale: SaleRequest) returns (id: Id)
    requires db.Valid()
    modifies db`orders, db`nextId
    ensures db.Valid()
    ensures id == old(db.nextId) && id !in old(db.orders)
    ensures db.orders == old(db.orders)[id := SaleOrder(sale, SaleLines(sale.items, id + 1))]
  {
    id := db.FreshId();
    db.nextId := db.nextId + |sale.items|;
    db.orders := db.orders[id := SaleOrder(sale, SaleLines(sale.items, id + 1))];
  }

  /** The writes of an offline sale after its order is stored: charge the points and take the lines' stock. */
  method Settle(db: Db, staffId: Id, sale: SaleRequest, lines: seq<OrderLine>, id: Id)
    requires db.Valid()
    modifies db`users, db`transactions, db`inventory, db`inventoryHistory
    ensures db.Valid()
    ensures var point := SumBy(lines, PointPayment);
      var moves := LineMoves(sale.salesOfficeId, lines);
      && db.users == Touched(old(db.users), sale.userId, point, Charge)
      && db.transactions == TouchLog(old(db.users), old(db.transactions), sale.userId, point, Charge,
                                     Deduct, Some(id), None, "오프라인 판매 포인트 차감")
      && db.inventory == Moved(old(db.inventory), moves, false)
      && db.inventoryHistory == old(db.inventoryHistory) + MoveLog(old(db.inventory), moves, false, Decrease, "오프라인 판매", staffId, Some(id))
    ensures old(db.LedgerWitnessed()) ==> db.LedgerWitnessed()
    ensures (old(db.BalancesSound()) &&
             (sale.userId in old(db.users) ==> SumBy(lines, PointPayment) <= AvailablePoint(old(db.users)[sale.userId]))) ==>
            db.BalancesSound()
  {
    var total, point, totalVoucher := Tally(lines);
    Touch(db, sale.userId, point, Charge, Deduct, Some(id), None, "오프라인 판매 포인트 차감");
    ApplyMoves(db, LineMoves(sale.salesOfficeId, lines), false, Decrease, "오프라인 판매", staffId, Some(id));
  }

  // ----- refund -----

  /** A `RefundItem`. */
  datatype RefundItem = RefundItem(orderItemId: Id, quantity: int, reason: Option<string>)

  /** The index of the first line with the given id. */
  function FindLine(lines: seq<OrderLine>, id: Id): (r: Option<nat>)
    ensures r.Some? ==> r.value < |lines| && lines[r.value].id == id
    ensures r.None? ==> forall k :: 0 <= k < |lines| ==> lines[k].id != id
  {
    if lines == [] then None
    else if lines[0].id == id then Some(0)
    else match FindLine(lines[1..], id)
      case None => None
      case Some(k) => Some(k + 1)
  }

  /**
   * Which line a refund item takes back and how many units: a line of the
   * order that is not yet returned, min(requested, line quantity) units, and
   * only when that is positive.
   */
  function Accepted(lines: seq<OrderLine>, it: RefundItem): (r: Option<(nat, int)>)
    ensures r.Some? ==> r.value.0 < |lines| && !lines[r.value.0].isReturned && lines[r.value.0].id == it.orderItemId
    ensures r.Some? ==> 0 < r.value.1 <= lines[r.value.0].quantity && r.value.1 <= it.quantity
    ensures r.None? ==> FindLine(lines, it.orderItemId).None? || lines[FindLine(lines, it.orderItemId).value].isReturned ||
                        it.quantity <= 0 || lines[FindLine(lines, it.orderItemId).value].quantity <= 0
  {
    match FindLine(lines, it.orderItemId)
    case None => None
    case Some(k) =>
      if lines[k].isReturned then None
      else
        var q := if it.quantity < lines[k].quantity then it.quantity else lines[k].quantity;
        if q <= 0 then None else Some((k, q))
  }

  /** The running state of the refund loop: the order's lines, the point total so far, and the stock returned. */
  datatype Refunding = Refunding(lines: seq<OrderLine>, point: int, moves: seq<Move>)

  /** The point value of taking back `q` units of a line: its price times `q` for a point-paid line, else 0. */
  function RefundValue(l: OrderLine, q: int): int {
    if l.paymentMethod == PointPayment then l.unitPrice * q else 0
  }

  /** One refund item: a skipped item changes nothing; an accepted one marks the line returned. */
  function RefundStep(st: Refunding, office: Id, it: RefundItem, now: Time): (r: Refunding)
    ensures |r.lines| == |st.lines|
  {
    match Accepted(st.lines, it)
    case None => st
    case Some((k, q)) =>
      var l := st.lines[k];
      Refunding(st.lines[k := l.(isReturned := true, returnedAt := Some(now), returnReason := it.reason)],
                st.point + RefundValue(l, q),
                st.moves + [Move(InventoryKey(office, l.itemId, l.specId), q)])
  }

  /** The refund loop over the request's items, in order. */
  function Refunds(office: Id, lines: seq<OrderLine>, items: seq<RefundItem>, now: Time): (r: Refunding)
    ensures |r.lines| == |lines|
    decreases |items|
  {
    if items == [] then Refunding(lines, 0, [])
    else RefundStep(Refunds(office, lines, items[..|items| - 1], now), office, items[|items| - 1], now)
  }

  /** The point value still refundable: price times quantity over the point-paid lines not yet returned. */
  function Outstanding(lines: seq<OrderLine>): int
    decreases |lines|
  {
    if lines == [] then 0
    else Outstanding(lines[..|lines| - 1]) +
         (if lines[|lines| - 1].isReturned then 0 else RefundValue(lines[|lines| - 1], lines[|lines| - 1].quantity))
  }

  predicate PricesNonNegative(lines: seq<OrderLine>) {
    forall k :: 0 <= k < |lines| ==> lines[k].unitPrice >= 0
  }

  /** Replacing one line changes the outstanding value by the difference of that line's contributions. */
  lemma {:induction false} OutstandingUpdate(lines: seq<OrderLine>, k: nat, l: OrderLine)
    requires k < |lines|
    ensures Outstanding(lines[k := l]) ==
      Outstanding(lines) - (if lines[k].isReturned then 0 else RefundValue(lines[k], lines[k].quantity))
                         + (if l.isReturned then 0 else RefundValue(l, l.quantity))
    decreases |lines|
  {
    var n := |lines| - 1;
    if k < n {
      assert lines[k := l][..n] == lines[..n][k := l];
      OutstandingUpdate(lines[..n], k, l);
    } else {
      assert lines[k := l][..n] == lines[..n];
    }
  }

  /** Taking back `q` of a line's units is worth at most taking back all of them. */
  lemma RefundValueBound(l: OrderLine, q: int)
    requires l.unitPrice >= 0 && 0 < q <= l.quantity
    ensures RefundValue(l, q) <= RefundValue(l, l.quantity)
  {
    if l.paymentMethod == PointPayment {
      MulLeftMonotone(l.unitPrice, q, l.quantity);
    }
  }

  lemma MulLeftMonotone(a: int, b: int, c: int)
    requires a >= 0 && b <= c
    ensures a * b <= a * c
  {
  }

  /**
   * Each line is refunded at most once: whatever the refund items (repeated
   * ids included), the points credited plus the value still outstanding never
   * exceed the value outstanding before, and the returned lines, prices and
   * quantities are kept.
   */
  lemma {:induction false} RefundsBounded(office: Id, lines: seq<OrderLine>, items: seq<RefundItem>, now: Time)
    requires PricesNonNegative(lines)
    ensures var r := Refunds(office, lines, items, now);
      && PricesNonNegative(r.lines)
      && r.point + Outstanding(r.lines) <= Outstanding(lines)
      && (forall k :: 0 <= k < |lines| && lines[k].isReturned ==> r.lines[k] == lines[k])
      && (forall k :: 0 <= k < |lines| ==> r.lines[k].unitPrice == lines[k].unitPrice && r.lines[k].quantity == lines[k].quantity &&
                                           r.lines[k].id == lines[k].id && r.lines[k].paymentMethod == lines[k].paymentMethod)
    decreases |items|
  {
    if items != [] {
      var st := Refunds(office, lines, items[..|items| - 1], now);
      RefundsBounded(office, lines, items[..|items| - 1], now);
      var it := items[|items| - 1];
      match Accepted(st.lines, it)
      case None =>
      case Some((k, q)) =>
        var l := st.lines[k];
        var l' := l.(isReturned := true, returnedAt := Some(now), returnReason := it.reason);
        OutstandingUpdate(st.lines, k, l');
        RefundValueBound(l, q);
    }
  }

  /** A refund of an order whose lines are all returned already credits nothing and moves no stock. */
  lemma {:induction false} RefundOfReturnedIsEmpty(office: Id, lines: seq<OrderLine>, items: seq<RefundItem>, now: Time)
    requires forall k :: 0 <= k < |lines| ==> lines[k].isReturned
    ensures Refunds(office, lines, items, now) == Refunding(lines, 0, [])
    decreases |items|
  {
    if items != [] {
      RefundOfReturnedIsEmpty(office, lines, items[..|items| - 1], now);
    }
  }

  predicate AllReturned(lines: seq<OrderLine>) {
    forall k :: 0 <= k < |lines| ==> lines[k].isReturned
  }

  /** Whether a refund may start: only a DELIVERED or SHIPPED order. */
  predicate Refundable(s: OrderStatus) {
    s == Delivered || s == Shipped
  }

  /** One pass of the refund loop: takes back an accepted item's units and restores their stock. */
  method RefundOne(db: Db, orderId: Id, staffId: Id, office: Id, st: Refunding, it: RefundItem, now: Time,
                   ghost inv0: map<InventoryKey, Inventory>, ghost hist0: seq<InventoryHistory>)
    returns (next: Refunding)
    requires db.Valid()
    requires db.inventory == Moved(inv0, st.moves, true)
    requires db.inventoryHistory == hist0 + MoveLog(inv0, st.moves, true, Return, "반품 재고 복구", staffId, Some(orderId))
    modifies db`inventory, db`inventoryHistory
    ensures db.Valid()
    ensures next == RefundStep(st, office, it, now)
    ensures db.inventory == Moved(inv0, next.moves, true)
    ensures db.inventoryHistory == hist0 + MoveLog(inv0, next.moves, true, Return, "반품 재고 복구", staffId, Some(orderId))
  {
    next := RefundStep(st, office, it, now);
    var accepted := Accepted(st.lines, it);
    if accepted.Some? {
      var l := st.lines[accepted.value.0];
      var mv := Move(InventoryKey(office, l.itemId, l.specId), accepted.value.1);
      assert next.moves == st.moves + [mv];
      ghost var done := MoveLog(inv0, st.moves, true, Return, "반품 재고 복구", staffId, Some(orderId));
      ghost var step := MoveLog(Moved(inv0, st.moves, true), [mv], true, Return, "반품 재고 복구", staffId, Some(orderId));
      MovesSnoc(inv0, st.moves, mv, true, Return, "반품 재고 복구", staffId, Some(orderId));
      ApplyMoves(db, [mv], true, Return, "반품 재고 복구", staffId, Some(orderId));
      assert db.inventoryHistory == (hist0 + done) + step;
      assert (hist0 + done) + step == hist0 + (done + step);
    }
  }

  /** The refund loop of `process_refund`, restoring stock as it goes. */
  method RefundLines(db: Db, orderId: Id, staffId: Id, office: Id, lines0: seq<OrderLine>, items: seq<RefundItem>, now: Time)
    returns (lines: seq<OrderLine>, point: int)
    requires db.Valid()
    modifies db`inventory, db`inventoryHistory
    ensures db.Valid()
    ensures var r := Refunds(office, lines0, items, now);
      && lines == r.lines && point == r.point
      && db.inventory == Moved(old(db.inventory), r.moves, true)
      && db.inventoryHistory == old(db.inventoryHistory) + MoveLog(old(db.inventory), r.moves, true, Return, "반품 재고 복구", staffId, Some(orderId))
  {
    ghost var inv0 := db.inventory;
    ghost var hist0 := db.inventoryHistory;
    var st := Refunding(lines0, 0, []);
    for i := 0 to |items|
      invariant db.Valid()
      invariant st == Refunds(office, lines0, items[..i], now)
      invariant db.inventory == Moved(inv0, st.moves, true)
      invariant db.inventoryHistory == hist0 + MoveLog(inv0, st.moves, true, Return, "반품 재고 복구", staffId, Some(orderId))
    {
      assert items[..i + 1][..i] == items[..i];
      st := RefundOne(db, orderId, staffId, office, st, items[i], now, inv0, hist0);
    }
    assert items[..|items|] == items;
    lines, point := st.lines, st.point;
  }

  /** The writes of a refund before the order itself: restock the accepted lines and credit their point value. */
  method TakeBack(db: Db, staffId: Id, orderId: Id, o: Order, items: seq<RefundItem>, now: Time)
    returns (lines: seq<OrderLine>, point: int)
    requires db.Valid()
    modifies db`users, db`transactions, db`inventory, db`inventoryHistory
    ensures db.Valid()
    ensures var res := Refunds(o.salesOfficeId, o.lines, items, now);
      && lines == res.lines && point == res.point
      && db.users == Touched(old(db.users), o.userId, res.point, Refill)
      && db.transactions == TouchLog(old(db.users), old(db.transactions), o.userId, res.point, Refill,
                                     Refund, Some(orderId), None, "반품 포인트 환불")
      && db.inventory == Moved(old(db.inventory), res.moves, true)
      && db.inventoryHistory == old(db.inventoryHistory) + MoveLog(old(db.inventory), res.moves, true, Return, "반품 재고 복구", staffId, Some(orderId))
    ensures old(db.LedgerWitnessed()) ==> db.LedgerWitnessed()
    ensures old(db.BalancesSound()) ==> db.BalancesSound()
  {
    lines, point := RefundLines(db, orderId, staffId, o.salesOfficeId, o.lines, items, now);
    Touch(db, o.userId, point, Refill, Refund, Some(orderId), None, "반품 포인트 환불");
  }

  /**
   * `process_refund`: only a DELIVERED or SHIPPED order. Takes back the
   * accepted lines, restores their stock, credits the point-paid value in one
   * REFUND row when positive (without asking whether the points were ever
   * charged), and marks the order REFUNDED exactly when every line is returned.
   */
  method ProcessRefund(db: Db, staffId: Id, orderId: Id, items: seq<RefundItem>, now: Time) returns (r: Option<Order>)
    requires db.Valid()
    modifies db`users, db`transactions, db`orders, db`inventory, db`inventoryHistory
    ensures db.Valid()
    ensures r.None? <==> orderId !in old(db.orders) || !Refundable(old(db.orders)[orderId].status)
    ensures r.None? ==> unchanged(db)
    ensures r.Some? ==>
      var o := old(db.orders)[orderId];
      var res := Refunds(o.salesOfficeId, o.lines, items, now);
      && r.value == o.(lines := res.lines, status := if AllReturned(res.lines) then Refunded else o.status)
      && db.orders == old(db.orders)[orderId := r.value]
      && db.users == Touched(old(db.users), o.userId, res.point, Refill)
      && db.transactions == TouchLog(old(db.users), old(db.transactions), o.userId, res.point, Refill,
                                     Refund, Some(orderId), None, "반품 포인트 환불")
      && db.inventory == Moved(old(db.inventory), res.moves, true)
      && db.inventoryHistory == old(db.inventoryHistory) + MoveLog(old(db.inventory), res.moves, true, Return, "반품 재고 복구", staffId, Some(orderId))
    ensures old(db.LedgerWitnessed()) ==> db.LedgerWitnessed()
    ensures old(db.BalancesSound()) ==> db.BalancesSound()
  {
    if orderId !in db.orders {
      return None;
    }
    var o := db.orders[orderId];
    if !Refundable(o.status) {
      return None;
    }
    var lines, point := TakeBack(db, staffId, orderId, o, items, now);
    var o2 := o.(lines := lines, status := if AllReturned(lines) then Refunded else o.status);
    db.orders := db.orders[orderId := o2];
    r := Some(o2);
  }
}
