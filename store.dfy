// The database session: one mutable object whose fields are the tables.
// Services receive it as `db` and assign its fields, the way the source
// mutates ORM rows and adds new ones before a commit.

module Store {
  import opened Common
  import opened Entities
  import opened Ledger

  class Db {
    var users: map<Id, User>
    var ranks: map<Id, Rank>
    var rankHistories: seq<RankHistory>
    var grants: seq<PointGrant>
    var transactions: seq<PointTransaction>
    var orders: map<Id, Order>
    /** The delivery of an order, keyed by the order's id (at most one per order). */
    var deliveries: map<Id, Delivery>
    var inventory: map<InventoryKey, Inventory>
    var inventoryHistory: seq<InventoryHistory>
    var vouchers: map<Id, Voucher>
    var categories: map<Id, Category>
    var items: map<Id, ClothingItem>
    var specs: map<Id, ClothingSpec>
    var menus: map<Id, Menu>
    /** The next autoincrement value; every id handed out so far is below it. */
    var nextId: Id

    /** Ids are positive (so an id is truthy exactly when present) and below `nextId`. */
    ghost predicate Valid()
      reads this`users, this`ranks, this`orders, this`vouchers, this`categories, this`items, this`specs, this`menus, this`nextId
    {
      && nextId > 0
      && (forall k :: (k in users || k in ranks || k in orders || k in vouchers ||
                       k in categories || k in items || k in specs || k in menus) ==> 0 < k < nextId)
    }

    constructor ()
      ensures Valid() && nextId == 1
      ensures users == map[] && ranks == map[] && rankHistories == [] && grants == []
      ensures transactions == [] && orders == map[] && deliveries == map[]
      ensures inventory == map[] && inventoryHistory == [] && vouchers == map[]
      ensures categories == map[] && items == map[] && specs == map[] && menus == map[]
    {
      users, ranks, rankHistories, grants := map[], map[], [], [];
      transactions, orders, deliveries := [], map[], map[];
      inventory, inventoryHistory, vouchers := map[], [], map[];
      categories, items, specs, menus := map[], map[], map[], map[];
      nextId := 1;
    }

    /** Hands out a new row id, as the database does on insert. */
    method FreshId() returns (id: Id)
      requires Valid()
      modifies this`nextId
      ensures id == old(nextId) && nextId == id + 1 && id > 0
      ensures id !in users && id !in ranks && id !in orders && id !in vouchers
      ensures id !in categories && id !in items && id !in specs && id !in menus
      ensures Valid()
    {
      id := nextId;
      nextId := nextId + 1;
    }

    /** Every user satisfies 0 <= reserved_point <= current_point. */
    ghost predicate BalancesSound()
      reads this`users
    {
      forall uid :: uid in users ==> Sound(users[uid])
    }

    /**
     * Every ledger row names an existing user, and the latest row of each user
     * carries that user's current balances.
     */
    ghost predicate LedgerWitnessed()
      reads this`users, this`transactions
    {
      WitnessedBy(users, transactions)
    }

    /**
     * Stores the new balances of an existing user together with the ledger row
     * stamped with them: the one write path that keeps the ledger a witness.
     */
    method Record(userId: Id, after: User, t: PointTransaction)
      requires Valid() && userId in users
      requires t.userId == userId && t.balanceAfter == after.currentPoint && t.reservedAfter == after.reservedPoint
      modifies this`users, this`transactions
      ensures users == old(users)[userId := after] && transactions == old(transactions) + [t]
      ensures Valid()
      ensures old(LedgerWitnessed()) ==> LedgerWitnessed()
      ensures old(BalancesSound()) && Sound(after) ==> BalancesSound()
    {
      if LedgerWitnessed() {
        StepKeepsWitnessed(users, transactions, userId, after, t);
      }
      users := users[userId := after];
      transactions := transactions + [t];
    }
  }

  /** `r` lists, in ascending order, the part of `s` below everything still in `rest`. */
  ghost predicate SortedPrefix(s: set<Id>, r: seq<Id>, rest: set<Id>) {
    && rest <= s
    && (forall x :: x in s <==> x in r || x in rest)
    && (forall i, j :: 0 <= i < j < |r| ==> r[i] < r[j])
    && (forall i, y :: 0 <= i < |r| && y in rest ==> r[i] < y)
    && |r| + |rest| == |s|
  }

  lemma SortedPrefixStep(s: set<Id>, r: seq<Id>, rest: set<Id>, m: Id)
    requires SortedPrefix(s, r, rest) && m in rest && forall y :: y in rest ==> m <= y
    ensures SortedPrefix(s, r + [m], rest - {m})
  {
    var r' := r + [m];
    assert forall x :: x in r' <==> x in r || x == m;
    assert forall i :: 0 <= i < |r| ==> r'[i] == r[i] && r[i] < m;
  }

  /** The rows of a query without ORDER BY come back in ascending id order, which this lists. */
  method AscendingIds(s: set<Id>) returns (r: seq<Id>)
    ensures forall i, j :: 0 <= i < j < |r| ==> r[i] < r[j]
    ensures forall x :: x in s <==> x in r
    ensures |r| == |s|
  {
    r := [];
    var rest := s;
    while rest != {}
      invariant SortedPrefix(s, r, rest)
      decreases |rest|
    {
      var x :| x in rest;
      var m := 0;
      while m !in rest
        invariant m <= x
        invariant forall y :: y in rest ==> m <= y
        decreases x - m
      {
        m := m + 1;
      }
      SortedPrefixStep(s, r, rest, m);
      r := r + [m];
      rest := rest - {m};
    }
  }
}
