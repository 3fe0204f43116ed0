// Stock receipt, manual adjustment and the stock summary of a sales office.

module InventoryService {
  import opened Common
  import opened Entities
  import opened Store

  /** An `InventoryReceive`. */
  datatype ReceiveRequest = ReceiveRequest(salesOfficeId: Id, itemId: Id, specId: Option<Id>, quantity: int)

  /** An `InventoryAdjust`. */
  datatype AdjustRequest = AdjustRequest(
    salesOfficeId: Id, itemId: Id, specId: Option<Id>, kind: AdjustmentType, quantity: int, reason: Option<string>)

  /** The record a receipt starts from: the existing one, or an empty record. */
  function ReceiptBase(inv: map<InventoryKey, Inventory>, key: InventoryKey): Inventory {
    if key in inv then inv[key] else Inventory(0, 0)
  }

  /**
   * `receive_inventory`: creates the record with quantity 0 and reservation 0
   * when none exists, raises the quantity by the received amount and logs an
   * INCREASE row with the quantity before and after.
   */
  method ReceiveInventory(db: Db, staffId: Id, req: ReceiveRequest) returns (rec: Inventory)
    modifies db`inventory, db`inventoryHistory
    ensures var key := InventoryKey(req.salesOfficeId, req.itemId, req.specId);
      var base := ReceiptBase(old(db.inventory), key);
      && rec.quantity == base.quantity + req.quantity
      && rec.reservedQuantity == base.reservedQuantity
      && (key !in old(db.inventory) ==> rec == Inventory(req.quantity, 0))
      && db.inventory == old(db.inventory)[key := rec]
      && db.inventoryHistory == old(db.inventoryHistory) +
           [InventoryHistory(key, Increase, req.quantity, base.quantity, rec.quantity, Some("입고"), staffId, None)]
  {
    var key := InventoryKey(req.salesOfficeId, req.itemId, req.specId);
    if key !in db.inventory {
      db.inventory := db.inventory[key := Inventory(0, 0)];
    }
    var before := db.inventory[key].quantity;
    rec := db.inventory[key].(quantity := before + req.quantity);
    db.inventory := db.inventory[key := rec];
    db.inventoryHistory := db.inventoryHistory +
      [InventoryHistory(key, Increase, req.quantity, before, rec.quantity, Some("입고"), staffId, None)];
  }

  /** The quantity after an adjustment: INCREASE adds, DECREASE subtracts (no floor), CORRECTION sets; others keep it. */
  function Adjusted(q: int, kind: AdjustmentType, n: int): (r: int)
    ensures kind.Increase? ==> r == q + n
    ensures kind.Decrease? ==> r == q - n
    ensures kind.Correction? ==> r == n
    ensures kind.Restock? || kind.Return? ==> r == q
  {
    match kind
    case Increase => q + n
    case Decrease => q - n
    case Correction => n
    case Restock => q
    case Return => q
  }

  /** An increase undone by a decrease of the same amount restores the quantity; a correction is idempotent. */
  lemma AdjustedInverses(q: int, n: int)
    ensures Adjusted(Adjusted(q, Increase, n), Decrease, n) == q
    ensures Adjusted(Adjusted(q, Correction, n), Correction, n) == Adjusted(q, Correction, n)
  {
  }

  /**
   * `adjust_inventory`: nothing happens when the record does not exist;
   * otherwise the quantity is adjusted by kind, the reservation is kept, and a
   * history row of that kind is written even when the quantity is unchanged.
   */
  method AdjustInventory(db: Db, staffId: Id, req: AdjustRequest) returns (r: Option<Inventory>)
    modifies db`inventory, db`inventoryHistory
    ensures var key := InventoryKey(req.salesOfficeId, req.itemId, req.specId);
      && (key !in old(db.inventory) ==> r.None? && unchanged(db))
      && (key in old(db.inventory) ==>
            var old_ := old(db.inventory)[key];
            var after := Adjusted(old_.quantity, req.kind, req.quantity);
            && r == Some(Inventory(after, old_.reservedQuantity))
            && db.inventory == old(db.inventory)[key := r.value]
            && db.inventoryHistory == old(db.inventoryHistory) +
                 [InventoryHistory(key, req.kind, req.quantity, old_.quantity, after, req.reason, staffId, None)])
  {
    var key := InventoryKey(req.salesOfficeId, req.itemId, req.specId);
    if key !in db.inventory {
      return None;
    }
    var before := db.inventory[key].quantity;
    var rec := db.inventory[key].(quantity := Adjusted(before, req.kind, req.quantity));
    db.inventory := db.inventory[key := rec];
    db.inventoryHistory := db.inventoryHistory +
      [InventoryHistory(key, req.kind, req.quantity, before, rec.quantity, req.reason, staffId, None)];
    r := Some(rec);
  }

  // ----- summary -----

  datatype Summary = Summary(totalItems: nat, lowStock: nat, outOfStock: nat)

  /** The records a summary covers: those of the office when one is given, else all. */
  predicate InScope(key: InventoryKey, office: Option<Id>) {
    IdGiven(office) ==> key.salesOfficeId == office.value
  }

  predicate LowStock(r: Inventory) {
    0 < r.quantity <= 10
  }

  predicate OutOfStock(r: Inventory) {
    r.quantity == 0
  }

  /**
   * `get_inventory_summary`: the number of records in scope, of those with
   * 1..10 units and of those with none. Low and out of stock never overlap,
   * so together they count at most every record.
   */
  function InventorySummary(inv: map<InventoryKey, Inventory>, office: Option<Id>): (s: Summary)
    ensures s.totalItems == |set k | k in inv && InScope(k, office)|
    ensures s.lowStock == |set k | k in inv && InScope(k, office) && LowStock(inv[k])|
    ensures s.outOfStock == |set k | k in inv && InScope(k, office) && OutOfStock(inv[k])|
    ensures s.lowStock + s.outOfStock <= s.totalItems
    ensures s.totalItems - s.lowStock - s.outOfStock ==
      |set k | k in inv && InScope(k, office) && !LowStock(inv[k]) && !OutOfStock(inv[k])|
  {
    var all := set k | k in inv && InScope(k, office);
    var low := set k | k in inv && InScope(k, office) && LowStock(inv[k]);
    var out := set k | k in inv && InScope(k, office) && OutOfStock(inv[k]);
    var rest := set k | k in inv && InScope(k, office) && !LowStock(inv[k]) && !OutOfStock(inv[k]);
    StockClasses(inv, all, low, out, rest);
    Summary(|all|, |low|, |out|)
  }

  /** The low, out-of-stock and remaining records of a scope are disjoint and make up the scope, so their sizes add up. */
  lemma StockClasses(inv: map<InventoryKey, Inventory>, all: set<InventoryKey>, low: set<InventoryKey>,
                     out: set<InventoryKey>, rest: set<InventoryKey>)
    requires forall k :: k in all ==> k in inv
    requires forall k :: k in low <==> k in all && LowStock(inv[k])
    requires forall k :: k in out <==> k in all && OutOfStock(inv[k])
    requires forall k :: k in rest <==> k in all && !LowStock(inv[k]) && !OutOfStock(inv[k])
    ensures |all| == |low| + |out| + |rest|
  {
    assert low * out == {};
    assert (low + out) * rest == {};
    assert all == low + out + rest;
    PartitionSize(all, low, out, rest);
  }

  /** Three disjoint parts of a set add up to its size. */
  lemma PartitionSize<T>(all: set<T>, a: set<T>, b: set<T>, c: set<T>)
    requires a * b == {} && (a + b) * c == {} && all == a + b + c
    ensures |all| == |a| + |b| + |c|
  {
    DisjointUnionSize(a, b);
    DisjointUnionSize(a + b, c);
  }

  lemma DisjointUnionSize<T>(a: set<T>, b: set<T>)
    requires a * b == {}
    ensures |a + b| == |a| + |b|
  {
    assert |a * b| == 0;
  }
}
