// The role check of the inventory endpoints and how receipt, adjustment and
// the summary use it. The check decides which office a caller may read; the
// two writing endpoints call it only to reject the caller.

module InventoryRouter {
  import opened Common
  import opened Entities
  import opened Store
  import opened InventoryService

  /**
   * `get_sales_office_filter`: an administrator gets the office asked for
   * (possibly none); sales-office staff with an office always get their own;
   * staff without one and every other role are refused.
   */
  function SalesOfficeFilter(role: Role, caller: Option<User>, requested: Option<Id>): (r: Result<Option<Id>>)
    ensures role.Admin? ==> r == Ok(requested)
    ensures role.SalesOfficeStaff? ==>
      (r.Ok? <==> caller.Some? && IdGiven(caller.value.salesOfficeId)) &&
      (r.Ok? ==> r.value == caller.value.salesOfficeId)
    ensures r.Err? ==> r.error == Forbidden
    ensures role.TailorCompanyStaff? || role.General? ==> r.Err?
  {
    match role
    case Admin => Ok(requested)
    case SalesOfficeStaff =>
      if caller.Some? && IdGiven(caller.value.salesOfficeId) then Ok(caller.value.salesOfficeId) else Err(Forbidden)
    case _ => Err(Forbidden)
  }

  /** Staff get the same office whatever they ask for. */
  lemma StaffFilterIgnoresRequest(caller: Option<User>, a: Option<Id>, b: Option<Id>)
    ensures SalesOfficeFilter(SalesOfficeStaff, caller, a) == SalesOfficeFilter(SalesOfficeStaff, caller, b)
  {
  }

  function Caller(users: map<Id, User>, callerId: Id): Option<User> {
    if callerId in users then Some(users[callerId]) else None
  }

  /** The summary endpoint: counts the records of the office the filter allows. */
  function SummaryRoute(inv: map<InventoryKey, Inventory>, users: map<Id, User>, role: Role, callerId: Id,
                        requested: Option<Id>): (r: Result<Summary>)
    ensures r.Err? <==> SalesOfficeFilter(role, Caller(users, callerId), requested).Err?
    ensures r.Ok? ==> r.value == InventorySummary(inv, SalesOfficeFilter(role, Caller(users, callerId), requested).value)
  {
    match SalesOfficeFilter(role, Caller(users, callerId), requested)
    case Err(e) => Err(e)
    case Ok(office) => Ok(InventorySummary(inv, office))
  }

  /**
   * The receive endpoint: refuses a caller the filter refuses, and otherwise
   * receives into the office named in the request, not the filter's office,
   * so staff can stock any office.
   */
  method ReceiveRoute(db: Db, role: Role, callerId: Id, req: ReceiveRequest) returns (r: Result<Inventory>)
    modifies db`inventory, db`inventoryHistory
    ensures SalesOfficeFilter(role, Caller(old(db.users), callerId), Some(req.salesOfficeId)).Err? ==>
      r == Err(Forbidden) && unchanged(db)
    ensures SalesOfficeFilter(role, Caller(old(db.users), callerId), Some(req.salesOfficeId)).Ok? ==>
      var key := InventoryKey(req.salesOfficeId, req.itemId, req.specId);
      var base := ReceiptBase(old(db.inventory), key);
      && r.Ok?
      && db.inventory == old(db.inventory)[key := r.value]
      && r.value == Inventory(base.quantity + req.quantity, base.reservedQuantity)
      && db.inventoryHistory == old(db.inventoryHistory) +
           [InventoryHistory(key, Increase, req.quantity, base.quantity, r.value.quantity, Some("입고"), callerId, None)]
  {
    var filter := SalesOfficeFilter(role, Caller(db.users, callerId), Some(req.salesOfficeId));
    if filter.Err? {
      return Err(Forbidden);
    }
    var rec := ReceiveInventory(db, callerId, req);
    r := Ok(rec);
  }

  /** The adjust endpoint: refuses as the filter does, then adjusts the request's office; a missing record is 404. */
  method AdjustRoute(db: Db, role: Role, callerId: Id, req: AdjustRequest) returns (r: Result<Inventory>)
    modifies db`inventory, db`inventoryHistory
    ensures SalesOfficeFilter(role, Caller(old(db.users), callerId), Some(req.salesOfficeId)).Err? ==>
      r == Err(Forbidden) && unchanged(db)
    ensures SalesOfficeFilter(role, Caller(old(db.users), callerId), Some(req.salesOfficeId)).Ok? ==>
      var key := InventoryKey(req.salesOfficeId, req.itemId, req.specId);
      && (key !in old(db.inventory) ==> r == Err(NotFound) && unchanged(db))
      && (key in old(db.inventory) ==>
            var before := old(db.inventory)[key];
            var after := Adjusted(before.quantity, req.kind, req.quantity);
            && r == Ok(Inventory(after, before.reservedQuantity))
            && db.inventory == old(db.inventory)[key := r.value]
            && db.inventoryHistory == old(db.inventoryHistory) +
                 [InventoryHistory(key, req.kind, req.quantity, before.quantity, after, req.reason, callerId, None)])
  {
    var filter := SalesOfficeFilter(role, Caller(db.users, callerId), Some(req.salesOfficeId));
    if filter.Err? {
      return Err(Forbidden);
    }
    var rec := AdjustInventory(db, callerId, req);
    if rec.None? {
      return Err(NotFound);
    }
    r := Ok(rec.value);
  }
}
