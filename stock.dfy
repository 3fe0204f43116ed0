// Stock movements: the inventory loops of the order and sales services.
// Each move names an inventory record by (sales office, item, spec); a move
// whose record does not exist is skipped, and every applied move adds one
// history row with the quantity before and after.

module Stock {
  import opened Common
  import opened Entities
  import opened Store

  datatype Move = Move(key: InventoryKey, quantity: int)

  /** A quantity raised or lowered by `n`. */
  function Shifted(q: int, raise: bool, n: int): int {
    if raise then q + n else q - n
  }

  /** The moves of an order's lines at its sales office. */
  function LineMoves(office: Id, lines: seq<OrderLine>): (r: seq<Move>)
    ensures |r| == |lines|
    decreases |lines|
  {
    if lines == [] then []
    else
      var l := lines[|lines| - 1];
      LineMoves(office, lines[..|lines| - 1]) + [Move(InventoryKey(office, l.itemId, l.specId), l.quantity)]
  }

  /** The inventory after applying `moves` in order; records are neither created nor removed. */
  function Moved(inv: map<InventoryKey, Inventory>, moves: seq<Move>, raise: bool): (r: map<InventoryKey, Inventory>)
    ensures r.Keys == inv.Keys
    decreases |moves|
  {
    if moves == [] then inv
    else
      var m := Moved(inv, moves[..|moves| - 1], raise);
      var mv := moves[|moves| - 1];
      if mv.key in m then m[mv.key := m[mv.key].(quantity := Shifted(m[mv.key].quantity, raise, mv.quantity))] else m
  }

  /** The history rows the moves add: one per move whose record exists, each with before and after. */
  function MoveLog(inv: map<InventoryKey, Inventory>, moves: seq<Move>, raise: bool, kind: AdjustmentType,
                   reason: string, adjustedBy: Id, orderId: Option<Id>): (r: seq<InventoryHistory>)
    ensures |r| <= |moves|
    decreases |moves|
  {
    if moves == [] then []
    else
      var p := moves[..|moves| - 1];
      var mv := moves[|moves| - 1];
      var m := Moved(inv, p, raise);
      MoveLog(inv, p, raise, kind, reason, adjustedBy, orderId) +
      (if mv.key in m then
         [InventoryHistory(mv.key, kind, mv.quantity, m[mv.key].quantity, Shifted(m[mv.key].quantity, raise, mv.quantity),
                           Some(reason), adjustedBy, orderId)]
       else [])
  }

  /** Every history row names an existing record, carries the kind and order given, and moves `before` to `after`. */
  lemma {:induction false} MoveLogRows(inv: map<InventoryKey, Inventory>, moves: seq<Move>, raise: bool, kind: AdjustmentType,
                                       reason: string, adjustedBy: Id, orderId: Option<Id>, i: nat)
    requires i < |MoveLog(inv, moves, raise, kind, reason, adjustedBy, orderId)|
    ensures var h := MoveLog(inv, moves, raise, kind, reason, adjustedBy, orderId)[i];
      h.key in inv && h.kind == kind && h.orderId == orderId && h.reason == Some(reason) &&
      h.afterQuantity == Shifted(h.beforeQuantity, raise, h.quantity)
    decreases |moves|
  {
    var p := moves[..|moves| - 1];
    var prior := MoveLog(inv, p, raise, kind, reason, adjustedBy, orderId);
    if i < |prior| {
      MoveLogRows(inv, p, raise, kind, reason, adjustedBy, orderId, i);
    }
  }

  /** The total quantity the moves carry for one record. */
  function TotalFor(moves: seq<Move>, key: InventoryKey): int
    decreases |moves|
  {
    if moves == [] then 0
    else TotalFor(moves[..|moves| - 1], key) + (if moves[|moves| - 1].key == key then moves[|moves| - 1].quantity else 0)
  }

  /** Each record moves by exactly the total of its moves, with no floor, and its reservation is untouched. */
  lemma {:induction false} MovedAt(inv: map<InventoryKey, Inventory>, moves: seq<Move>, raise: bool, key: InventoryKey)
    requires key in inv
    ensures Moved(inv, moves, raise)[key] == inv[key].(quantity := Shifted(inv[key].quantity, raise, TotalFor(moves, key)))
    decreases |moves|
  {
    if moves != [] {
      MovedAt(inv, moves[..|moves| - 1], raise, key);
    }
  }

  /** Lowering by a list of moves and then raising by the same list restores the inventory exactly. */
  lemma MovedRoundTrip(inv: map<InventoryKey, Inventory>, moves: seq<Move>)
    ensures Moved(Moved(inv, moves, false), moves, true) == inv
  {
    var lowered := Moved(inv, moves, false);
    var back := Moved(lowered, moves, true);
    forall key | key in inv ensures back[key] == inv[key] {
      MovedAt(inv, moves, false, key);
      MovedAt(lowered, moves, true, key);
    }
  }

  /** Applying one more move after a list is applying the extended list. */
  lemma MovesSnoc(inv: map<InventoryKey, Inventory>, moves: seq<Move>, mv: Move, raise: bool, kind: AdjustmentType,
                  reason: string, adjustedBy: Id, orderId: Option<Id>)
    ensures Moved(Moved(inv, moves, raise), [mv], raise) == Moved(inv, moves + [mv], raise)
    ensures MoveLog(inv, moves, raise, kind, reason, adjustedBy, orderId) +
            MoveLog(Moved(inv, moves, raise), [mv], raise, kind, reason, adjustedBy, orderId) ==
            MoveLog(inv, moves + [mv], raise, kind, reason, adjustedBy, orderId)
  {
    assert (moves + [mv])[..|moves|] == moves;
    assert [mv][..0] == [];
  }

  /** The inventory loops: applies the moves in order, logging each applied one. */
  method ApplyMoves(db: Db, moves: seq<Move>, raise: bool, kind: AdjustmentType, reason: string,
                    adjustedBy: Id, orderId: Option<Id>)
    modifies db`inventory, db`inventoryHistory
    ensures db.inventory == Moved(old(db.inventory), moves, raise)
    ensures db.inventoryHistory == old(db.inventoryHistory) + MoveLog(old(db.inventory), moves, raise, kind, reason, adjustedBy, orderId)
  {
    ghost var inv0 := db.inventory;
    ghost var hist0 := db.inventoryHistory;
    for i := 0 to |moves|
      invariant db.inventory == Moved(inv0, moves[..i], raise)
      invariant db.inventoryHistory == hist0 + MoveLog(inv0, moves[..i], raise, kind, reason, adjustedBy, orderId)
    {
      MoveNext(db, inv0, hist0, moves, i, raise, kind, reason, adjustedBy, orderId);
    }
    assert moves[..|moves|] == moves;
  }

  /** One pass of the inventory loops: shifts the i-th move's record, when it exists, and logs it with before and after. */
  method MoveNext(db: Db, ghost inv0: map<InventoryKey, Inventory>, ghost hist0: seq<InventoryHistory>, moves: seq<Move>, i: nat,
                  raise: bool, kind: AdjustmentType, reason: string, adjustedBy: Id, orderId: Option<Id>)
    requires i < |moves|
    requires db.inventory == Moved(inv0, moves[..i], raise)
    requires db.inventoryHistory == hist0 + MoveLog(inv0, moves[..i], raise, kind, reason, adjustedBy, orderId)
    modifies db`inventory, db`inventoryHistory
    ensures db.inventory == Moved(inv0, moves[..i + 1], raise)
    ensures db.inventoryHistory == hist0 + MoveLog(inv0, moves[..i + 1], raise, kind, reason, adjustedBy, orderId)
  {
    ghost var p := moves[..i + 1];
    assert p[..i] == moves[..i] && p[i] == moves[i];
    var mv := moves[i];
    if mv.key in db.inventory {
      var before := db.inventory[mv.key].quantity;
      db.inventory := db.inventory[mv.key := db.inventory[mv.key].(quantity := Shifted(before, raise, mv.quantity))];
      db.inventoryHistory := db.inventoryHistory +
        [InventoryHistory(mv.key, kind, mv.quantity, before, Shifted(before, raise, mv.quantity), Some(reason), adjustedBy, orderId)];
    }
  }
}
