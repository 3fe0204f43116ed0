// The points ledger on a single user record: the soundness invariant, the
// guarded balance operations of the points service, the shape of a ledger
// entry, and what it means for the ledger to witness a user's balances.

module Ledger {
  import opened Common
  import opened Entities
  import opened UserModel

  /** The balance invariant: 0 <= reserved_point <= current_point. */
  predicate Sound(u: User) {
    0 <= u.reservedPoint <= u.currentPoint
  }

  /** A ledger row recording `kind` of `amount` for `userId`, stamped with the balances of `after`. */
  function EntryAfter(
    userId: Id, kind: TransactionType, amount: int, after: User,
    orderId: Option<Id>, voucherId: Option<Id>, description: Option<string>): (t: PointTransaction)
    ensures t.userId == userId && t.kind == kind && t.amount == amount
    ensures t.balanceAfter == after.currentPoint && t.reservedAfter == after.reservedPoint
  {
    PointTransaction(userId, kind, amount, after.currentPoint, after.reservedPoint,
                     orderId, voucherId, None, description)
  }

  // ----- the guarded operations of the points service -----

  /** `use_point`: spend from the available balance. */
  function Use(u: User, amount: int): (r: Result<User>)
    ensures r.Ok? <==> amount <= AvailablePoint(u)
    ensures r.Err? ==> r.error == InsufficientPoints(AvailablePoint(u))
    ensures r.Ok? ==> r.value.currentPoint == u.currentPoint - amount
    ensures r.Ok? ==> r.value == u.(currentPoint := r.value.currentPoint)
    ensures Sound(u) && amount >= 0 && r.Ok? ==> Sound(r.value)
  {
    if AvailablePoint(u) < amount then Err(InsufficientPoints(AvailablePoint(u)))
    else Ok(u.(currentPoint := u.currentPoint - amount))
  }

  /** `reserve_point`: hold points for an order. */
  function Reserve(u: User, amount: int): (r: Result<User>)
    ensures r.Ok? <==> amount <= AvailablePoint(u)
    ensures r.Err? ==> r.error == InsufficientPoints(AvailablePoint(u))
    ensures r.Ok? ==> r.value.reservedPoint == u.reservedPoint + amount
    ensures r.Ok? ==> r.value == u.(reservedPoint := r.value.reservedPoint)
    ensures Sound(u) && amount >= 0 && r.Ok? ==> Sound(r.value)
  {
    if AvailablePoint(u) < amount then Err(InsufficientPoints(AvailablePoint(u)))
    else Ok(u.(reservedPoint := u.reservedPoint + amount))
  }

  /** `release_point`: give back held points. */
  function Release(u: User, amount: int): (r: Result<User>)
    ensures r.Ok? <==> amount <= u.reservedPoint
    ensures r.Err? ==> r.error == InsufficientReserved(u.reservedPoint)
    ensures r.Ok? ==> r.value.reservedPoint == u.reservedPoint - amount
    ensures r.Ok? ==> r.value == u.(reservedPoint := r.value.reservedPoint)
    ensures Sound(u) && amount >= 0 && r.Ok? ==> Sound(r.value)
  {
    if u.reservedPoint < amount then Err(InsufficientReserved(u.reservedPoint))
    else Ok(u.(reservedPoint := u.reservedPoint - amount))
  }

  /** `deduct_reserved`: settle held points, taking them from the balance. */
  function DeductReserved(u: User, amount: int): (r: Result<User>)
    ensures r.Ok? <==> amount <= u.reservedPoint
    ensures r.Err? ==> r.error == InsufficientReserved(u.reservedPoint)
    ensures r.Ok? ==> r.value.currentPoint == u.currentPoint - amount
    ensures r.Ok? ==> r.value.reservedPoint == u.reservedPoint - amount
    ensures r.Ok? ==> AvailablePoint(r.value) == AvailablePoint(u)
    ensures Sound(u) && amount >= 0 && r.Ok? ==> Sound(r.value)
  {
    if u.reservedPoint < amount then Err(InsufficientReserved(u.reservedPoint))
    else Ok(u.(currentPoint := u.currentPoint - amount, reservedPoint := u.reservedPoint - amount))
  }

  /** `refund_point` and every grant: credit the balance, unconditionally. */
  function Credit(u: User, amount: int): (r: User)
    ensures r.currentPoint == u.currentPoint + amount
    ensures r == u.(currentPoint := r.currentPoint)
    ensures Sound(u) && amount >= 0 ==> Sound(r)
  {
    u.(currentPoint := u.currentPoint + amount)
  }

  /** With no negative reservation, reserving and then releasing the same amount restores the record exactly. */
  lemma ReserveReleaseRoundTrip(u: User, amount: int)
    requires u.reservedPoint >= 0 && Reserve(u, amount).Ok?
    ensures Release(Reserve(u, amount).value, amount) == Ok(u)
  {
  }

  /** Reserving and then settling the reservation is the same as spending directly. */
  lemma ReserveThenDeductIsUse(u: User, amount: int)
    requires u.reservedPoint >= 0 && Reserve(u, amount).Ok?
    ensures DeductReserved(Reserve(u, amount).value, amount) == Use(u, amount)
  {
  }

  // ----- the unguarded balance writes outside the points service -----

  /**
   * What the private point helpers of the order, sales and voucher services
   * (and the sales router) do to a user record. None of them checks a balance.
   */
  datatype Effect =
    | Hold     // reserved_point += amount
    | Charge   // current_point -= amount
    | Unhold   // reserved_point -= amount
    | Settle   // both fields -= amount
    | Refill   // current_point += amount

  /** The check the points service would have made before the same write. */
  predicate Covered(e: Effect, u: User, amount: int) {
    match e
    case Hold => amount <= AvailablePoint(u)
    case Charge => amount <= AvailablePoint(u)
    case Unhold => amount <= u.reservedPoint
    case Settle => amount <= u.reservedPoint
    case Refill => true
  }

  /**
   * The unguarded write. Whenever the points service's check would pass, it is
   * exactly the guarded operation, so only an uncovered write can break soundness.
   */
  function Apply(e: Effect, u: User, amount: int): (r: User)
    ensures r == u.(currentPoint := r.currentPoint, reservedPoint := r.reservedPoint)
    ensures Sound(u) && amount >= 0 && Covered(e, u, amount) ==> Sound(r)
  {
    match e
    case Hold => u.(reservedPoint := u.reservedPoint + amount)
    case Charge => u.(currentPoint := u.currentPoint - amount)
    case Unhold => u.(reservedPoint := u.reservedPoint - amount)
    case Settle => u.(currentPoint := u.currentPoint - amount, reservedPoint := u.reservedPoint - amount)
    case Refill => u.(currentPoint := u.currentPoint + amount)
  }

  /** A covered unguarded write is exactly the points service's operation with the same amount. */
  lemma ApplyIsGuarded(e: Effect, u: User, amount: int)
    requires Covered(e, u, amount)
    ensures e.Hold? ==> Reserve(u, amount) == Ok(Apply(e, u, amount))
    ensures e.Charge? ==> Use(u, amount) == Ok(Apply(e, u, amount))
    ensures e.Unhold? ==> Release(u, amount) == Ok(Apply(e, u, amount))
    ensures e.Settle? ==> DeductReserved(u, amount) == Ok(Apply(e, u, amount))
    ensures e.Refill? ==> Apply(e, u, amount) == Credit(u, amount)
  {
  }

  /** An uncovered write of a positive amount always leaves the record unsound. */
  lemma UncoveredBreaks(e: Effect, u: User, amount: int)
    requires Sound(u) && amount > 0 && !Covered(e, u, amount)
    ensures !Sound(Apply(e, u, amount))
  {
  }

  /** Holding and then settling the same amount spends it and restores the reservation (the online order life cycle). */
  lemma HoldThenSettle(u: User, amount: int)
    ensures Apply(Settle, Apply(Hold, u, amount), amount) == Apply(Charge, u, amount)
    ensures Apply(Settle, Apply(Hold, u, amount), amount).reservedPoint == u.reservedPoint
  {
  }

  /** Charging and then refilling the same amount restores the record (an offline order cancelled by force). */
  lemma ChargeThenRefill(u: User, amount: int)
    ensures Apply(Refill, Apply(Charge, u, amount), amount) == u
  {
  }

  /** Releasing a reservation that was already settled takes it off a second time. */
  lemma SettleThenUnhold(u: User, amount: int)
    requires Sound(u) && amount > 0
    ensures Apply(Unhold, Apply(Settle, Apply(Hold, u, amount), amount), amount).reservedPoint == u.reservedPoint - amount
    ensures u.reservedPoint < amount ==> !Sound(Apply(Unhold, Apply(Settle, Apply(Hold, u, amount), amount), amount))
  {
  }

  // ----- the ledger as witness of the balances -----

  /** The latest ledger row for `userId`, if any. */
  function LastEntry(log: seq<PointTransaction>, userId: Id): (r: Option<PointTransaction>)
    ensures r.Some? ==> r.value in log && r.value.userId == userId
  {
    if log == [] then None
    else if log[|log| - 1].userId == userId then Some(log[|log| - 1])
    else LastEntry(log[..|log| - 1], userId)
  }

  /** The row found is the user's last one, and nothing is found exactly when the user has no row at all. */
  lemma {:induction false} LastEntryIsLast(log: seq<PointTransaction>, userId: Id)
    ensures LastEntry(log, userId).None? <==> forall i :: 0 <= i < |log| ==> log[i].userId != userId
    ensures LastEntry(log, userId).Some? ==>
      exists i :: 0 <= i < |log| && log[i] == LastEntry(log, userId).value &&
        forall j :: i < j < |log| ==> log[j].userId != userId
    decreases |log|
  {
    if log != [] {
      var n := |log| - 1;
      if log[n].userId == userId {
        assert log[n] == LastEntry(log, userId).value;
      } else {
        var prefix := log[..n];
        LastEntryIsLast(prefix, userId);
        assert forall i :: 0 <= i < n ==> log[i] == prefix[i];
        if LastEntry(log, userId).Some? {
          var i :| 0 <= i < |prefix| && prefix[i] == LastEntry(prefix, userId).value &&
            forall j :: i < j < |prefix| ==> prefix[j].userId != userId;
          assert log[i] == LastEntry(log, userId).value;
        }
      }
    }
  }

  /**
   * The ledger witnesses `u`: its latest row for the user carries exactly the
   * user's balances, or, with no row at all, both balances are still 0.
   */
  predicate Witnesses(log: seq<PointTransaction>, userId: Id, u: User) {
    match LastEntry(log, userId)
    case None => u.currentPoint == 0 && u.reservedPoint == 0
    case Some(t) => t.balanceAfter == u.currentPoint && t.reservedAfter == u.reservedPoint
  }

  /** Appending a row changes the latest row of its own user only. */
  lemma LastEntryAppend(log: seq<PointTransaction>, t: PointTransaction, userId: Id)
    ensures LastEntry(log + [t], userId) == if t.userId == userId then Some(t) else LastEntry(log, userId)
  {
    assert (log + [t])[..|log|] == log;
  }

  /** A user whose balances changed is witnessed again once the row stamped with them is appended. */
  lemma AppendWitnesses(log: seq<PointTransaction>, t: PointTransaction, userId: Id, u: User)
    requires t.userId == userId && t.balanceAfter == u.currentPoint && t.reservedAfter == u.reservedPoint
    ensures Witnesses(log + [t], userId, u)
  {
    LastEntryAppend(log, t, userId);
  }

  /** Other users stay witnessed when a row for someone else is appended. */
  lemma AppendKeepsOthers(log: seq<PointTransaction>, t: PointTransaction, userId: Id, u: User)
    requires t.userId != userId && Witnesses(log, userId, u)
    ensures Witnesses(log + [t], userId, u)
  {
    LastEntryAppend(log, t, userId);
  }

  /**
   * Every row names a user of `users`, and each user's latest row carries that
   * user's balances.
   */
  ghost predicate WitnessedBy(users: map<Id, User>, log: seq<PointTransaction>) {
    && (forall i :: 0 <= i < |log| ==> log[i].userId in users)
    && (forall uid :: uid in users ==> Witnesses(log, uid, users[uid]))
  }

  /** Changing one user's balances and appending the row stamped with them keeps the ledger a witness. */
  lemma StepKeepsWitnessed(users: map<Id, User>, log: seq<PointTransaction>, userId: Id, after: User, t: PointTransaction)
    requires WitnessedBy(users, log) && userId in users
    requires t.userId == userId && t.balanceAfter == after.currentPoint && t.reservedAfter == after.reservedPoint
    ensures WitnessedBy(users[userId := after], log + [t])
  {
    var users' := users[userId := after];
    forall uid | uid in users' ensures Witnesses(log + [t], uid, users'[uid]) {
      if uid == userId {
        AppendWitnesses(log, t, uid, after);
      } else {
        AppendKeepsOthers(log, t, uid, users[uid]);
      }
    }
  }

  /** A new user with zero balances is witnessed by the empty history it has. */
  lemma NewUserKeepsWitnessed(users: map<Id, User>, log: seq<PointTransaction>, userId: Id, u: User)
    requires WitnessedBy(users, log) && userId !in users
    requires u.currentPoint == 0 && u.reservedPoint == 0
    ensures WitnessedBy(users[userId := u], log)
  {
    assert LastEntry(log, userId).None?;
  }

  /** Changing a user's other fields while keeping both balances needs no ledger row. */
  lemma SameBalancesKeepsWitnessed(users: map<Id, User>, log: seq<PointTransaction>, userId: Id, after: User)
    requires WitnessedBy(users, log) && userId in users
    requires after.currentPoint == users[userId].currentPoint && after.reservedPoint == users[userId].reservedPoint
    ensures WitnessedBy(users[userId := after], log)
  {
  }
}
