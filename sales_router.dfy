// The sales-office order endpoints: which orders a caller may see, and the
// status update, which moves the order, its delivery and, on delivery, the
// owner's balances, without going through the points service.

module SalesRouter {
  import opened Common
  import opened Entities
  import opened Ledger
  import opened Store
  import opened PointWrites
  import InventoryRouter

  /**
   * `_get_sales_office_id`: an administrator sees every office (no scope);
   * sales-office staff with an office see that office; everyone else is refused.
   */
  function SalesOfficeScope(role: Role, caller: Option<User>): (r: Result<Option<Id>>)
    ensures r.Err? ==> r.error == Forbidden
    ensures role.Admin? <==> r == Ok(None)
    ensures role.SalesOfficeStaff? && caller.Some? && IdGiven(caller.value.salesOfficeId) <==>
      r.Ok? && r.value.Some?
    ensures r.Ok? && r.value.Some? ==> r.value == caller.value.salesOfficeId
  {
    match role
    case Admin => Ok(None)
    case SalesOfficeStaff =>
      if caller.Some? && IdGiven(caller.value.salesOfficeId) then Ok(caller.value.salesOfficeId) else Err(Forbidden)
    case _ => Err(Forbidden)
  }

  /** An order is visible under a scope when the scope is empty or names the order's office. */
  predicate InScope(o: Order, scope: Option<Id>) {
    !IdGiven(scope) || o.salesOfficeId == scope.value
  }

  /** The value text of an order status, as `OrderStatus.value` gives it. */
  function StatusName(s: OrderStatus): string {
    match s
    case Pending => "pending"
    case Confirmed => "confirmed"
    case Processing => "processing"
    case Shipped => "shipped"
    case Delivered => "delivered"
    case Received => "received"
    case Cancelled => "cancelled"
    case Returned => "returned"
    case Refunded => "refunded"
  }

  /** `OrderStatus(text)`: the status whose value is `text`, or none (Python's ValueError). */
  function ParseStatus(text: string): (r: Option<OrderStatus>)
    ensures r.Some? ==> StatusName(r.value) == text
  {
    if text == "pending" then Some(Pending)
    else if text == "confirmed" then Some(Confirmed)
    else if text == "processing" then Some(Processing)
    else if text == "shipped" then Some(Shipped)
    else if text == "delivered" then Some(Delivered)
    else if text == "received" then Some(Received)
    else if text == "cancelled" then Some(Cancelled)
    else if text == "returned" then Some(Returned)
    else if text == "refunded" then Some(Refunded)
    else None
  }

  /** Every status parses back from its own text, so parsing accepts exactly the nine status values. */
  lemma ParseStatusName(s: OrderStatus)
    ensures ParseStatus(StatusName(s)) == Some(s)
  {
  }

  /** The status the order takes: any parsed value, with no transition check. */
  function NewStatus(o: Order, newStatus: Option<string>): OrderStatus {
    if Truthy(newStatus) && ParseStatus(newStatus.value).Some? then ParseStatus(newStatus.value).value else o.status
  }

  /** The status text says "delivered". */
  predicate DeliveredRequested(newStatus: Option<string>) {
    newStatus == Some("delivered")
  }

  /**
   * The delivery after the update: a tracking number is stored when given,
   * "shipped" with a tracking number starts transit, and "delivered" marks it
   * delivered.
   */
  function RoutedDelivery(d: Delivery, newStatus: Option<string>, trackingNumber: Option<string>, now: Time): (r: Delivery)
    ensures Truthy(trackingNumber) ==> r.trackingNumber == trackingNumber
    ensures !Truthy(trackingNumber) ==> r.trackingNumber == d.trackingNumber
    ensures DeliveredRequested(newStatus) ==> r.status == DeliveredStatus && r.deliveredAt == Some(now)
    ensures newStatus == Some("shipped") && Truthy(trackingNumber) ==> r.status == InTransit && r.shippedAt == Some(now)
    ensures !(newStatus == Some("shipped") && Truthy(trackingNumber)) ==> r.shippedAt == d.shippedAt
    ensures !DeliveredRequested(newStatus) ==> r.deliveredAt == d.deliveredAt
    ensures !DeliveredRequested(newStatus) && !(newStatus == Some("shipped") && Truthy(trackingNumber)) ==> r.status == d.status
    ensures r == d.(trackingNumber := r.trackingNumber, status := r.status, shippedAt := r.shippedAt, deliveredAt := r.deliveredAt)
  {
    var d1 :=
      if Truthy(trackingNumber) then
        if newStatus == Some("shipped") then d.(trackingNumber := trackingNumber, shippedAt := Some(now), status := InTransit)
        else d.(trackingNumber := trackingNumber)
      else d;
    if DeliveredRequested(newStatus) then d1.(deliveredAt := Some(now), status := DeliveredStatus) else d1
  }

  /** The order delivery settles: a positive hold becomes the used amount and the hold drops to 0. */
  predicate Settles(o: Order, newStatus: Option<string>) {
    DeliveredRequested(newStatus) && o.reservedPoint > 0
  }

  /** The order after the update. */
  function RoutedOrder(o: Order, newStatus: Option<string>): (r: Order)
    ensures r.status == NewStatus(o, newStatus)
    ensures Settles(o, newStatus) ==> r.reservedPoint == 0 && r.usedPoint == o.reservedPoint
    ensures !Settles(o, newStatus) ==> r.reservedPoint == o.reservedPoint && r.usedPoint == o.usedPoint
    ensures DeliveredRequested(newStatus) && o.reservedPoint >= 0 ==> r.reservedPoint == 0
    ensures r == o.(status := r.status, reservedPoint := r.reservedPoint, usedPoint := r.usedPoint)
  {
    var o1 := o.(status := NewStatus(o, newStatus));
    if Settles(o, newStatus) then o1.(usedPoint := o.reservedPoint, reservedPoint := 0) else o1
  }

  /**
   * `update_order_status`. Refusals and a bad status value change nothing
   * (the request is not committed); so does a settling update of an order
   * whose owner is gone, which fails on the missing user. Otherwise the order,
   * its delivery and, when it settles, the owner's balances are written, and
   * no ledger row is.
   */
  method UpdateOrderStatus(db: Db, role: Role, callerId: Id, orderId: Id, newStatus: Option<string>,
                           trackingNumber: Option<string>, now: Time) returns (r: Result<Order>)
    requires db.Valid()
    modifies db`orders, db`deliveries, db`users
    ensures db.Valid()
    ensures var scope := SalesOfficeScope(role, InventoryRouter.Caller(old(db.users), callerId));
      && (scope.Err? ==> r == Err(Forbidden))
      && (scope.Ok? && (orderId !in old(db.orders) || !InScope(old(db.orders)[orderId], scope.value)) ==> r == Err(NotFound))
      && (scope.Ok? && orderId in old(db.orders) && InScope(old(db.orders)[orderId], scope.value) ==>
            var o := old(db.orders)[orderId];
            && (Truthy(newStatus) && ParseStatus(newStatus.value).None? ==> r == Err(BadRequest))
            && (!(Truthy(newStatus) && ParseStatus(newStatus.value).None?) && Settles(o, newStatus) && o.userId !in old(db.users) ==>
                  r == Err(Unexpected))
            && (!(Truthy(newStatus) && ParseStatus(newStatus.value).None?) && !(Settles(o, newStatus) && o.userId !in old(db.users)) ==>
                  r.Ok?))
    ensures r.Err? ==> unchanged(db)
    ensures r.Ok? ==>
      var o := old(db.orders)[orderId];
      && orderId in old(db.orders)
      && r.value == RoutedOrder(o, newStatus)
      && db.orders == old(db.orders)[orderId := r.value]
      && db.deliveries == (if orderId in old(db.deliveries)
                           then old(db.deliveries)[orderId := RoutedDelivery(old(db.deliveries)[orderId], newStatus, trackingNumber, now)]
                           else old(db.deliveries))
      && db.users == (if Settles(o, newStatus)
                      then old(db.users)[o.userId := Apply(Settle, old(db.users)[o.userId], o.reservedPoint)]
                      else old(db.users))
    ensures old(db.BalancesSound()) &&
      (orderId in old(db.orders) && Settles(old(db.orders)[orderId], newStatus) && old(db.orders)[orderId].userId in old(db.users) ==>
         Covered(Settle, old(db.users)[old(db.orders)[orderId].userId], old(db.orders)[orderId].reservedPoint))
      ==> db.BalancesSound()
    ensures old(db.LedgerWitnessed()) && (r.Ok? ==> !Settles(old(db.orders)[orderId], newStatus)) ==> db.LedgerWitnessed()
  {
    var scope := SalesOfficeScope(role, InventoryRouter.Caller(db.users, callerId));
    if scope.Err? {
      return Err(Forbidden);
    }
    if orderId !in db.orders || !InScope(db.orders[orderId], scope.value) {
      return Err(NotFound);
    }
    var o := db.orders[orderId];
    if Truthy(newStatus) && ParseStatus(newStatus.value).None? {
      return Err(BadRequest);
    }
    if Settles(o, newStatus) && o.userId !in db.users {
      return Err(Unexpected);
    }
    WriteRouted(db, orderId, newStatus, trackingNumber, now);
    r := Ok(RoutedOrder(o, newStatus));
  }

  /** The writes of an accepted status update: the delivery, the owner's balances when it settles, and the order. */
  method WriteRouted(db: Db, orderId: Id, newStatus: Option<string>, trackingNumber: Option<string>, now: Time)
    requires db.Valid() && orderId in db.orders
    requires Settles(db.orders[orderId], newStatus) ==> db.orders[orderId].userId in db.users
    modifies db`orders, db`deliveries, db`users
    ensures db.Valid()
    ensures var o := old(db.orders)[orderId];
      && db.orders == old(db.orders)[orderId := RoutedOrder(o, newStatus)]
      && db.deliveries == (if orderId in old(db.deliveries)
                           then old(db.deliveries)[orderId := RoutedDelivery(old(db.deliveries)[orderId], newStatus, trackingNumber, now)]
                           else old(db.deliveries))
      && db.users == (if Settles(o, newStatus)
                      then old(db.users)[o.userId := Apply(Settle, old(db.users)[o.userId], o.reservedPoint)]
                      else old(db.users))
    ensures old(db.BalancesSound()) &&
      (Settles(old(db.orders)[orderId], newStatus) ==>
         Covered(Settle, old(db.users)[old(db.orders)[orderId].userId], old(db.orders)[orderId].reservedPoint))
      ==> db.BalancesSound()
  {
    var o := db.orders[orderId];
    if orderId in db.deliveries {
      db.deliveries := db.deliveries[orderId := RoutedDelivery(db.deliveries[orderId], newStatus, trackingNumber, now)];
    }
    if Settles(o, newStatus) {
      db.users := db.users[o.userId := Apply(Settle, db.users[o.userId], o.reservedPoint)];
    }
    db.orders := db.orders[orderId := RoutedOrder(o, newStatus)];
  }

  /**
   * Changing a user's balance with no ledger row leaves the ledger no longer
   * witnessing it: the settling status update breaks the ledger the points
   * service keeps.
   */
  lemma SilentChangeBreaksWitness(users: map<Id, User>, log: seq<PointTransaction>, userId: Id, after: User)
    requires WitnessedBy(users, log) && userId in users
    requires after.currentPoint != users[userId].currentPoint
    ensures !WitnessedBy(users[userId := after], log)
  {
    assert Witnesses(log, userId, users[userId]);
    assert !Witnesses(log, userId, after) by {
      match LastEntry(log, userId)
      case None =>
      case Some(t) =>
    }
    var users' := users[userId := after];
    assert users'[userId] == after;
  }

  /**
   * After a settling status update, the order holds nothing, so a later
   * receipt by its owner deducts nothing more: points leave the balance once.
   */
  lemma SettledThenReceivedDeductsOnce(users: map<Id, User>, o: Order, newStatus: Option<string>)
    requires Settles(o, newStatus) && o.userId in users
    ensures var users' := users[o.userId := Apply(Settle, users[o.userId], o.reservedPoint)];
      && RoutedOrder(o, newStatus).reservedPoint == 0
      && Touched(users', o.userId, RoutedOrder(o, newStatus).reservedPoint, Settle) == users'
      && users'[o.userId].currentPoint == users[o.userId].currentPoint - o.reservedPoint
  {
  }
}
