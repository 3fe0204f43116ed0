// Concrete runs of the services on a fresh database, each ending in the
// balances the run leaves. They exhibit, on the imperative model itself, the
// write paths that leave the points ledger unsound or stop it witnessing the
// balances, and the life cycles that leave it intact.

module Scenarios {
  import opened Common
  import opened Calendar
  import opened Entities
  import opened Ledger
  import opened Store
  import opened PointWrites
  import opened Stock
  import OrderService
  import SalesService
  import UserService
  import SalesRouter
  import TailorService

  /** The member every scenario starts from: user 1, with `current` points granted and none held. */
  function Member(current: int, rankId: Option<Id>): User {
    User("member", "member", "24-000001", General, rankId, None, None, true, None, None, current, 0)
  }

  /** The ledger row of the member's opening grant. */
  function OpeningGrant(current: int): PointTransaction {
    PointTransaction(1, Grant, current, current, 0, None, None, None, None)
  }

  /** A database holding user 1 with an opening grant of `current` points, and nothing else; ids from 2 on are free. */
  method Setup(current: int, rankId: Option<Id>) returns (db: Db)
    ensures fresh(db) && db.Valid() && db.nextId == 2
    ensures db.users == map[1 := Member(current, rankId)] && db.transactions == [OpeningGrant(current)]
    ensures db.ranks == map[] && db.orders == map[] && db.deliveries == map[] && db.specs == map[]
    ensures db.vouchers == map[] && db.inventory == map[] && db.inventoryHistory == []
  {
    db := new Db();
    db.users := map[1 := Member(current, rankId)];
    db.transactions := [OpeningGrant(current)];
    db.nextId := 2;
  }

  /**
   * An offline sale of 150 points to a member holding 100: the sale checks
   * nothing, so the balance goes negative.
   */
  method OfflineSaleOverdraws() returns (before: User, after: User)
    ensures Sound(before) && !Sound(after)
    ensures after.currentPoint == before.currentPoint - 150 == -50
  {
    var db := Setup(100, None);
    before := db.users[1];
    var items := [SalesService.SaleItem(5, None, 1, 150, PointPayment)];
    var id := SalesService.CreateOfflineSale(db, 9, SalesService.SaleRequest(1, 7, items));
    assert SalesService.SaleLines(items, id + 1)[..0] == [];
    after := db.users[1];
  }

  /**
   * A promotion to a rank with 100 fewer annual points, for a member with 250
   * of 300 points held: the balance falls below what open orders hold.
   */
  method NegativePromotionBreaks() returns (before: User, after: User)
    ensures Sound(before) && !Sound(after)
    ensures after.currentPoint == 200 && after.reservedPoint == 250
  {
    var db := Setup(300, Some(2));
    db.users := map[1 := Member(300, Some(2)).(reservedPoint := 250)];
    db.ranks := map[2 := Rank("captain", 500, 0), 3 := Rank("lieutenant", 400, 0)];
    db.nextId := 4;
    before := db.users[1];
    var r := UserService.Promote(db, 1, 3, Date(2024, 3, 1));
    after := db.users[1];
  }

  // ----- the online order life cycle -----

  /** A one-line online order for spec 2 (30 points) of item 5 at office 7, paid by points, with a parcel delivery. */
  function OnlineRequest(): OrderService.OrderRequest {
    OrderService.OrderRequest(7, Online, [OrderService.LineRequest(5, Some(2), 1, PointPayment)],
                              Some(Parcel), None, None, None, None, None)
  }

  /** The member's shop: user 1 with `current` points, spec 2 priced at 30; the next id is 3. */
  method SetupShop(current: int) returns (db: Db)
    ensures fresh(db) && db.Valid() && db.nextId == 3
    ensures db.users == map[1 := Member(current, None)] && db.transactions == [OpeningGrant(current)]
    ensures db.specs == map[2 := ClothingSpec(5, "M-95", "95", 30, true)]
    ensures db.orders == map[] && db.deliveries == map[] && db.vouchers == map[] && db.inventory == map[]
    ensures db.LedgerWitnessed()
  {
    db := Setup(current, None);
    db.specs := map[2 := ClothingSpec(5, "M-95", "95", 30, true)];
    db.nextId := 3;
    assert LastEntry(db.transactions, 1) == Some(OpeningGrant(current));
  }

  /**
   * Places the online order: it becomes order 3, holds its 30 points, and its
   * single line is line 4.
   */
  method PlaceOnline(db: Db, current: int) returns (id: Id)
    requires db.Valid() && db.nextId == 3 && current >= 30
    requires db.users == map[1 := Member(current, None)] && db.specs == map[2 := ClothingSpec(5, "M-95", "95", 30, true)]
    requires db.orders == map[] && db.deliveries == map[]
    modifies db`users, db`transactions, db`orders, db`deliveries, db`inventory, db`inventoryHistory, db`nextId
    ensures db.Valid() && id == 3 && id in db.orders && id in db.deliveries
    ensures db.users == map[1 := Member(current, None).(reservedPoint := 30)]
    ensures db.orders[id].status == Confirmed && db.orders[id].orderType == Online
    ensures db.orders[id].userId == 1 && db.orders[id].reservedPoint == 30
    ensures db.orders[id].salesOfficeId == 7 && |db.orders[id].lines| == 1 && db.orders[id].lines[0].id == 4
    ensures db.orders[id].lines[0].unitPrice == 30 && db.orders[id].lines[0].quantity == 1
    ensures db.orders[id].lines[0].paymentMethod == PointPayment && !db.orders[id].lines[0].isReturned
    ensures old(db.LedgerWitnessed()) ==> db.LedgerWitnessed()
  {
    var lines := OrderService.PricedLines(db.specs, OnlineRequest().items, 4);
    assert lines[..0] == [];
    assert OrderService.SumBy(lines, PointPayment) == 30;
    var r := OrderService.CreateOrder(db, 1, OnlineRequest(), 0);
    id := r.value;
  }

  /** Moves the order's delivery to `ds`; the order's status follows and nothing else of it changes. */
  method Ship(db: Db, id: Id, ds: DeliveryStatus)
    requires db.Valid() && id in db.orders && id in db.deliveries
    modifies db`orders, db`deliveries
    ensures db.Valid() && id in db.orders
    ensures db.orders[id] == old(db.orders[id]).(status := OrderService.StatusAfterDelivery(old(db.orders[id].status),
                                                            OrderService.DeliveryUpdate(Some(ds), None, None)))
  {
    var r := OrderService.UpdateDelivery(db, id, OrderService.DeliveryUpdate(Some(ds), None, None), 1);
  }

  /** The owner receives the delivered order holding 30 points: they are settled and the order is RECEIVED. */
  method Receive(db: Db, id: Id, current: int)
    requires db.Valid() && id in db.orders && db.users == map[1 := Member(current, None).(reservedPoint := 30)]
    requires db.orders[id].userId == 1 && db.orders[id].status == Delivered && db.orders[id].reservedPoint == 30
    modifies db`users, db`transactions, db`orders
    ensures db.Valid() && id in db.orders
    ensures db.users == map[1 := Member(current - 30, None)]
    ensures db.orders[id] == old(db.orders[id]).(status := Received)
    ensures old(db.LedgerWitnessed()) ==> db.LedgerWitnessed()
  {
    var r := OrderService.ReceiveOrder(db, id, 1);
    assert db.users == Touched(map[1 := Member(current, None).(reservedPoint := 30)], 1, 30, Settle);
  }

  /**
   * The online life cycle the points service intends: reserve at creation,
   * settle on receipt. The member ends 30 points poorer with nothing held,
   * the balances stay sound and the ledger still witnesses them.
   */
  method ReserveThenReceive() returns (before: User, after: User, witnessed: bool)
    ensures Sound(before) && Sound(after) && witnessed
    ensures after.currentPoint == before.currentPoint - 30 && after.reservedPoint == before.reservedPoint
  {
    var db := SetupShop(100);
    before := db.users[1];
    var id := PlaceOnline(db, 100);
    Ship(db, id, DeliveredStatus);
    Receive(db, id, 100);
    after := db.users[1];
    witnessed := Witnesses(db.transactions, 1, after);
    assert db.LedgerWitnessed();
  }

  /**
   * An administrator force-cancels the order after its owner received it:
   * receipt kept the order's hold, so the cancellation releases the 30 points
   * a second time and the member's reservation goes negative.
   */
  method ForceCancelAfterReceive() returns (before: User, after: User)
    ensures Sound(before) && !Sound(after)
    ensures after.currentPoint == before.currentPoint - 30 && after.reservedPoint == -30
  {
    var db := SetupShop(100);
    before := db.users[1];
    var id := PlaceOnline(db, 100);
    Ship(db, id, DeliveredStatus);
    Receive(db, id, 100);
    after := ForceCancelReceived(db, id);
  }

  /** Force-cancels the received online order that still holds 30 points, returning the member's balances after it. */
  method ForceCancelReceived(db: Db, id: Id) returns (after: User)
    requires db.Valid() && id in db.orders && db.users == map[1 := Member(70, None)]
    requires db.orders[id].userId == 1 && db.orders[id].status == Received && db.orders[id].orderType == Online
    requires db.orders[id].reservedPoint == 30
    modifies db`users, db`transactions, db`orders, db`inventory, db`inventoryHistory
    ensures after == Member(70, None).(reservedPoint := -30)
  {
    var cancelled := OrderService.ForceCancelOrder(db, id, 99, "admin", 2);
    assert db.users == Touched(map[1 := Member(70, None)], 1, 30, Unhold);
    after := db.users[1];
  }

  /**
   * A refund of the order while it is only SHIPPED: its points are still held,
   * never charged, yet the refund credits them, so the member ends 30 points
   * richer than before ordering, with the 30 still held.
   */
  method ShippedRefundCreditsUncharged() returns (before: User, after: User)
    ensures Sound(before) && Sound(after)
    ensures after.currentPoint == before.currentPoint + 30 && after.reservedPoint == 30
  {
    var db := SetupShop(100);
    before := db.users[1];
    var id := PlaceOnline(db, 100);
    Ship(db, id, InTransit);
    after := RefundShipped(db, id);
  }

  /** Refunds the one unit of line 4 of the shipped order, returning the member's balances after it. */
  method RefundShipped(db: Db, id: Id) returns (after: User)
    requires db.Valid() && id in db.orders && db.users == map[1 := Member(100, None).(reservedPoint := 30)]
    requires db.orders[id].userId == 1 && db.orders[id].status == Shipped
    requires |db.orders[id].lines| == 1 && db.orders[id].lines[0].id == 4 && !db.orders[id].lines[0].isReturned
    requires db.orders[id].lines[0].quantity == 1 && db.orders[id].lines[0].unitPrice == 30
    requires db.orders[id].lines[0].paymentMethod == PointPayment
    modifies db`users, db`transactions, db`orders, db`inventory, db`inventoryHistory
    ensures after == Member(130, None).(reservedPoint := 30)
  {
    var items := [SalesService.RefundItem(4, 1, None)];
    SingleLineRefund(db.orders[id].salesOfficeId, db.orders[id].lines, items, 2);
    var refunded := SalesService.ProcessRefund(db, 9, id, items, 2);
    assert db.users == Touched(map[1 := Member(100, None).(reservedPoint := 30)], 1, 30, Refill);
    after := db.users[1];
  }

  /** Refunding the one unit of a single point-paid line credits its unit price. */
  lemma SingleLineRefund(office: Id, lines: seq<OrderLine>, items: seq<SalesService.RefundItem>, now: Time)
    requires |lines| == 1 && lines[0].id == 4 && !lines[0].isReturned && lines[0].quantity == 1
    requires lines[0].paymentMethod == PointPayment && items == [SalesService.RefundItem(4, 1, None)]
    ensures SalesService.Refunds(office, lines, items, now).point == lines[0].unitPrice
  {
    assert items[..0] == [];
    assert SalesService.FindLine(lines, 4) == Some(0);
  }

  // ----- a partial refund followed by a forced cancellation -----

  /** The stock record of item 5, without a spec, at office 7. */
  function ShopKey(): InventoryKey { InventoryKey(7, 5, None) }

  /** Two units of item 5 sold as two separate point-paid lines of 30 points each. */
  function TwoLineSale(): SalesService.SaleRequest {
    SalesService.SaleRequest(1, 7, [SalesService.SaleItem(5, None, 1, 30, PointPayment), SalesService.SaleItem(5, None, 1, 30, PointPayment)])
  }

  /**
   * An offline sale of two lines, a refund of its first line, then a forced
   * cancellation: the refund leaves the order DELIVERED because its second line
   * is unreturned, so the cancellation refunds the whole used_point and restocks
   * every line again. The member ends 30 points richer than before the sale and
   * the shelf one unit fuller.
   */
  method RefundThenForceCancel() returns (before: User, after: User, stockBefore: int, stockAfter: int)
    ensures Sound(before) && Sound(after)
    ensures after.currentPoint == before.currentPoint + 30 && after.reservedPoint == 0
    ensures stockAfter == stockBefore + 1
  {
    var db := Setup(100, None);
    db.inventory := map[ShopKey() := Inventory(10, 0)];
    before := db.users[1];
    stockBefore := db.inventory[ShopKey()].quantity;
    var id := SellTwo(db);
    RefundFirstLine(db, id);
    after := ForceCancelSold(db, id);
    stockAfter := db.inventory[ShopKey()].quantity;
  }

  /** The stored lines of the sale: lines id + 1 and id + 2, one unit of item 5 at 30 points each. */
  function SoldLines(id: Id): seq<OrderLine> {
    [OrderLine(id + 1, 5, None, 1, 30, 30, PointPayment, false, None, None),
     OrderLine(id + 2, 5, None, 1, 30, 30, PointPayment, false, None, None)]
  }

  /** The moves of a two-line order: one per line, in line order. */
  lemma TwoMoves(office: Id, lines: seq<OrderLine>)
    requires |lines| == 2
    ensures LineMoves(office, lines) ==
      [Move(InventoryKey(office, lines[0].itemId, lines[0].specId), lines[0].quantity),
       Move(InventoryKey(office, lines[1].itemId, lines[1].specId), lines[1].quantity)]
  {
    assert lines[..1][..0] == [] && lines[..|lines| - 1] == lines[..1];
  }

  /** Two one-unit moves shift the shop's record by two. */
  lemma MovedTwice(q: int, raise: bool)
    ensures Moved(map[ShopKey() := Inventory(q, 0)], [Move(ShopKey(), 1), Move(ShopKey(), 1)], raise)
         == map[ShopKey() := Inventory(if raise then q + 2 else q - 2, 0)]
  {
    assert [Move(ShopKey(), 1), Move(ShopKey(), 1)][..1] == [Move(ShopKey(), 1)];
    assert [Move(ShopKey(), 1)][..0] == [];
  }

  /** Sells the two lines to the member holding 100 points, with 10 units on the shelf. */
  method SellTwo(db: Db) returns (id: Id)
    requires db.Valid() && db.users == map[1 := Member(100, None)] && db.inventory == map[ShopKey() := Inventory(10, 0)]
    modifies db`users, db`transactions, db`orders, db`inventory, db`inventoryHistory, db`nextId
    ensures db.Valid() && id in db.orders && db.orders[id] == SalesService.SaleOrder(TwoLineSale(), SoldLines(id))
    ensures db.users == map[1 := Member(40, None)] && db.inventory == map[ShopKey() := Inventory(8, 0)]
  {
    id := SalesService.CreateOfflineSale(db, 9, TwoLineSale());
    var lines := SalesService.SaleLines(TwoLineSale().items, id + 1);
    assert lines == SoldLines(id);
    assert lines[..1][..0] == [] && lines[..|lines| - 1] == lines[..1];
    assert OrderService.SumBy(lines[..1], PointPayment) == 30;
    assert OrderService.SumBy(lines, PointPayment) == 60;
    TwoMoves(7, lines);
    MovedTwice(10, false);
  }

  /** Refunds the first line of the sale: its 30 points come back and one unit returns to the shelf. */
  method RefundFirstLine(db: Db, id: Id)
    requires db.Valid() && id in db.orders && db.orders[id] == SalesService.SaleOrder(TwoLineSale(), SoldLines(id))
    requires db.users == map[1 := Member(40, None)] && db.inventory == map[ShopKey() := Inventory(8, 0)]
    modifies db`users, db`transactions, db`orders, db`inventory, db`inventoryHistory
    ensures db.Valid() && id in db.orders
    ensures db.orders[id].status == Delivered && db.orders[id].orderType == Offline
    ensures db.orders[id].userId == 1 && db.orders[id].reservedPoint == 0 && db.orders[id].usedPoint == 60
    ensures db.orders[id].salesOfficeId == 7
    ensures db.orders[id].lines == SoldLines(id)[0 := SoldLines(id)[0].(isReturned := true, returnedAt := Some(2))]
    ensures db.users == map[1 := Member(70, None)] && db.inventory == map[ShopKey() := Inventory(9, 0)]
  {
    var lines := SoldLines(id);
    assert lines[..1][..0] == [] && lines[..|lines| - 1] == lines[..1];
    assert OrderService.SumBy(lines[..1], PointPayment) == 30;
    assert OrderService.SumBy(lines, PointPayment) == 60;
    var items := [SalesService.RefundItem(id + 1, 1, None)];
    assert items[..|items| - 1] == [];
    assert SalesService.FindLine(lines, id + 1) == Some(0);
    assert SalesService.Accepted(lines, items[0]) == Some((0, 1));
    var res := SalesService.Refunds(7, lines, items, 2);
    assert SalesService.Refunds(7, lines, items[..|items| - 1], 2) == SalesService.Refunding(lines, 0, []);
    assert res == SalesService.RefundStep(SalesService.Refunding(lines, 0, []), 7, items[0], 2);
    assert res.point == 30 && res.moves == [Move(ShopKey(), 1)];
    assert res.lines == lines[0 := lines[0].(isReturned := true, returnedAt := Some(2))];
    assert !SalesService.AllReturned(res.lines) by {
      assert !res.lines[1].isReturned;
    }
    assert Moved(map[ShopKey() := Inventory(8, 0)], [Move(ShopKey(), 1)], true) == map[ShopKey() := Inventory(9, 0)] by {
      assert [Move(ShopKey(), 1)][..0] == [];
    }
    var r := SalesService.ProcessRefund(db, 9, id, items, 2);
  }

  /** Force-cancels the partly refunded sale, returning the member's balances after it. */
  method ForceCancelSold(db: Db, id: Id) returns (after: User)
    requires db.Valid() && id in db.orders
    requires db.orders[id].status == Delivered && db.orders[id].orderType == Offline
    requires db.orders[id].userId == 1 && db.orders[id].reservedPoint == 0 && db.orders[id].usedPoint == 60
    requires db.orders[id].salesOfficeId == 7
    requires db.orders[id].lines == SoldLines(id)[0 := SoldLines(id)[0].(isReturned := true, returnedAt := Some(2))]
    requires db.users == map[1 := Member(70, None)] && db.inventory == map[ShopKey() := Inventory(9, 0)]
    modifies db`users, db`transactions, db`orders, db`inventory, db`inventoryHistory
    ensures after == Member(130, None) && db.inventory == map[ShopKey() := Inventory(11, 0)]
  {
    TwoMoves(7, db.orders[id].lines);
    MovedTwice(9, true);
    var cancelled := OrderService.ForceCancelOrder(db, id, 99, "admin", 2);
    assert db.users == Touched(map[1 := Member(70, None)], 1, 60, Refill);
    after := db.users[1];
  }

  /**
   * The sales router marks the order delivered: it settles the 30 held points
   * itself, with no ledger row, and the owner's later receipt deducts nothing
   * more. The points leave once, but the ledger no longer witnesses the balance.
   */
  method RouterDeliveredThenReceive() returns (before: User, after: User, witnessed: bool)
    ensures Sound(before) && Sound(after) && !witnessed
    ensures after.currentPoint == before.currentPoint - 30 && after.reservedPoint == 0
  {
    var db := SetupShop(100);
    before := db.users[1];
    var id := PlaceOnline(db, 100);
    RouteDelivered(db, id);
    var received := OrderService.ReceiveOrder(db, id, 1);
    after := db.users[1];
    witnessed := Witnesses(db.transactions, 1, after);
    assert LastEntry(db.transactions, 1).Some?;
  }

  /** The router marks the confirmed order holding 30 points delivered, settling them without a ledger row. */
  method RouteDelivered(db: Db, id: Id)
    requires db.Valid() && id in db.orders && db.users == map[1 := Member(100, None).(reservedPoint := 30)]
    requires db.orders[id].userId == 1 && db.orders[id].status == Confirmed && db.orders[id].reservedPoint == 30
    requires db.orders[id].salesOfficeId == 7 && db.orders[id].orderType == Online
    modifies db`orders, db`deliveries, db`users
    ensures db.Valid() && id in db.orders && db.users == map[1 := Member(70, None)]
    ensures db.orders[id].userId == 1 && db.orders[id].status == Delivered && db.orders[id].reservedPoint == 0
  {
    var routed := SalesRouter.UpdateOrderStatus(db, Admin, 1, id, Some("delivered"), None, 1);
  }

  // ----- vouchers -----

  /**
   * A 50-point voucher cancelled by its owner is refunded at once; the staff
   * approval that follows finds it cancelled and refunds nothing more.
   */
  method VoucherRefundedOnce() returns (before: User, after: User, requested: bool, approved: bool)
    ensures Sound(before) && Sound(after)
    ensures requested && !approved
    ensures after.currentPoint == before.currentPoint + 50 && after.reservedPoint == before.reservedPoint
  {
    var db := Setup(100, None);
    before := db.users[1];
    var vid := TailorService.CreateVoucher(db, TailorService.VoucherRequest(1, 0, 0, 5, 50, None, None));
    requested := OwnerCancels(db, vid);
    var second := TailorService.ApproveCancelVoucher(db, 9, vid, true, 2);
    approved := second.Some?;
    after := db.users[1];
  }

  /** The owner cancels their ISSUED 50-point voucher: it is cancelled and the 50 points come back at once. */
  method OwnerCancels(db: Db, vid: Id) returns (requested: bool)
    requires db.Valid() && vid in db.vouchers && db.users == map[1 := Member(100, None)]
    requires db.vouchers[vid].userId == 1 && db.vouchers[vid].status == Issued && db.vouchers[vid].amount == 50
    modifies db`vouchers, db`users, db`transactions
    ensures db.Valid() && requested && vid in db.vouchers && db.vouchers[vid].status == VoucherCancelled
    ensures db.users == map[1 := Member(150, None)]
  {
    var r := TailorService.RequestCancelVoucher(db, 1, vid, "size changed", 1);
    assert db.users == Touched(map[1 := Member(100, None)], 1, 50, Refill);
    requested := r.Some?;
  }
}
