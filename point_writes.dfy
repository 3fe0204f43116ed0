// The private point helpers of the order, sales and voucher services. Each
// one looks the user up and, when the user exists and the amount is
// positive, writes the balances directly and adds a ledger row; it checks
// no balance, unlike the points service.

module PointWrites {
  import opened Common
  import opened Entities
  import opened Ledger
  import opened Store

  /** Whether a helper call writes anything: the user exists and the amount is positive. */
  predicate Fires(users: map<Id, User>, userId: Id, amount: int) {
    userId in users && amount > 0
  }

  /** The user table after a helper call. */
  function Touched(users: map<Id, User>, userId: Id, amount: int, e: Effect): (r: map<Id, User>)
    ensures r.Keys == users.Keys
  {
    if Fires(users, userId, amount) then users[userId := Apply(e, users[userId], amount)] else users
  }

  /** The ledger after a helper call: one row stamped with the new balances when it fires. */
  function TouchLog(users: map<Id, User>, log: seq<PointTransaction>, userId: Id, amount: int, e: Effect,
                    kind: TransactionType, orderId: Option<Id>, voucherId: Option<Id>, description: string): seq<PointTransaction>
  {
    if Fires(users, userId, amount) then
      log + [EntryAfter(userId, kind, amount, Apply(e, users[userId], amount), orderId, voucherId, Some(description))]
    else log
  }

  /**
   * `_reserve_points`, `_deduct_points`, `_release_points`, `_refund_points`,
   * `_confirm_points`, `_deduct_user_points`, `_refund_user_points` and
   * `_refund_voucher_amount`: the same lookup-then-write shape, differing only
   * in the effect, the row type and the description.
   */
  method Touch(db: Db, userId: Id, amount: int, e: Effect, kind: TransactionType,
               orderId: Option<Id>, voucherId: Option<Id>, description: string)
    requires db.Valid()
    modifies db`users, db`transactions
    ensures db.Valid()
    ensures db.users == Touched(old(db.users), userId, amount, e)
    ensures db.transactions == TouchLog(old(db.users), old(db.transactions), userId, amount, e, kind, orderId, voucherId, description)
    ensures old(db.LedgerWitnessed()) ==> db.LedgerWitnessed()
    ensures old(db.BalancesSound()) && (Fires(old(db.users), userId, amount) ==> Covered(e, old(db.users)[userId], amount)) ==>
      db.BalancesSound()
  {
    if userId in db.users && amount > 0 {
      var u := db.users[userId];
      var after := Apply(e, u, amount);
      assert db.BalancesSound() && Covered(e, u, amount) ==> Sound(after);
      db.Record(userId, after, EntryAfter(userId, kind, amount, after, orderId, voucherId, Some(description)));
    }
  }
}
