// The user service: account creation (single and bulk), promotion with its
// point adjustment, the yearly point calculation, and the listing's paging.

module UserService {
  import opened Common
  import opened Calendar
  import opened Entities
  import opened UserModel
  import opened Ledger
  import opened Store
  import Paging

  // ----- listing -----

  /** The paging block of `get_list`: page count and row offset for a page of at least one row. */
  function ListPage(total: nat, page: int, pageSize: int): (r: (nat, int))
    requires page >= 1 && 1 <= pageSize <= 100
    ensures r.0 * pageSize >= total && (r.0 > 0 ==> (r.0 - 1) * pageSize < total)
    ensures r.1 < total <==> page <= r.0
  {
    Paging.PageNonEmptyIffWithinCount(total, page, pageSize);
    (Paging.TotalPages(total, pageSize), Paging.Offset(page, pageSize))
  }

  // ----- yearly points -----

  datatype YearlyPoint = YearlyPoint(baseAmount: int, serviceYearBonus: int, dailyCalcAmount: int, totalAmount: int)

  /** Python's `int(a / b)` for a positive divisor: the true quotient truncated toward zero. */
  function TruncDiv(n: int, d: int): int
    requires d > 0
  {
    if n >= 0 then n / d else -((-n) / d)
  }

  /** The year length used for pro-rating: 366 exactly when the year is divisible by 4. */
  function ProrateYearLength(year: int): int {
    if year % 4 != 0 then 365 else 366
  }

  predicate RetiresIn(u: User, year: int) {
    u.retirementDate.Some? && u.retirementDate.value.year == year
  }

  /** The rank object reached through `user.rank`: present only when the id names a stored rank. */
  function RankOf(u: User, ranks: map<Id, Rank>): Option<Rank> {
    if u.rankId.Some? && u.rankId.value in ranks then Some(ranks[u.rankId.value]) else None
  }

  /**
   * `calculate_yearly_point`: the rank's annual points plus the per-year
   * bonus; in the retirement year only the amount pro-rated by the days served.
   */
  function CalculateYearlyPoint(u: User, ranks: map<Id, Rank>, year: int, today: Date): (p: YearlyPoint)
    ensures RankOf(u, ranks).None? ==> p == YearlyPoint(0, 0, 0, 0)
    ensures RankOf(u, ranks).Some? ==>
      p.baseAmount == RankOf(u, ranks).value.annualPoint &&
      p.serviceYearBonus == RankOf(u, ranks).value.serviceYearBonus * ServiceYears(u, today)
    ensures RankOf(u, ranks).Some? && !RetiresIn(u, year) ==>
      p.dailyCalcAmount == 0 && p.totalAmount == p.baseAmount + p.serviceYearBonus
    ensures RankOf(u, ranks).Some? && RetiresIn(u, year) ==> p.totalAmount == p.dailyCalcAmount
    ensures RankOf(u, ranks).Some? && RetiresIn(u, year) ==>
      p.dailyCalcAmount == TruncDiv((p.baseAmount + p.serviceYearBonus) * DayOfYear(u.retirementDate.value),
                                    if year % 4 == 0 then 366 else 365)
    ensures RankOf(u, ranks).Some? && RetiresIn(u, year) && p.baseAmount + p.serviceYearBonus >= 0 ==>
      0 <= p.dailyCalcAmount <= p.baseAmount + p.serviceYearBonus
  {
    match RankOf(u, ranks)
    case None => YearlyPoint(0, 0, 0, 0)
    case Some(rank) =>
      var base := rank.annualPoint;
      var bonus := rank.serviceYearBonus * ServiceYears(u, today);
      if RetiresIn(u, year) then
        var daysServed := DayOfYear(u.retirementDate.value);
        var daily := TruncDiv((base + bonus) * daysServed, ProrateYearLength(year));
        ProratedWithinYear(u.retirementDate.value, base + bonus);
        YearlyPoint(base, bonus, daily, daily)
      else
        YearlyPoint(base, bonus, 0, base + bonus)
  }

  /** Days served never exceed the pro-rating year length, so the pro-rated amount never exceeds a full year's. */
  lemma ProratedWithinYear(retirement: CalendarDate, full: int)
    ensures full >= 0 ==> 0 <= TruncDiv(full * DayOfYear(retirement), ProrateYearLength(retirement.year)) <= full
  {
    if full < 0 {
      return;
    }
    var days := DayOfYear(retirement);
    var len := ProrateYearLength(retirement.year);
    DayOfYearInYear(retirement);
    assert days <= len;
    Paging.MulMonotone(days, len, full);
    assert full * days <= full * len;
    DivAtMost(full * days, full, len);
  }

  lemma DivAtMost(n: int, full: int, len: int)
    requires len > 0 && 0 <= n <= full * len
    ensures 0 <= n / len <= full
  {
  }

  // ----- promotion -----

  /** The description of a promotion's ledger row: "(old rank → new rank)" after a fixed prefix. */
  function PromotionNote(oldRank: Option<Rank>, newRank: Rank): string {
    "진급에 따른 포인트 조정 (" + (if oldRank.Some? then oldRank.value.name else "없음") + " → " + newRank.name + ")"
  }

  /** The point adjustment of a promotion: the new annual points less the old ones (0 without an old rank). */
  function PromotionDiff(oldRank: Option<Rank>, newRank: Rank): int {
    newRank.annualPoint - (if oldRank.Some? then oldRank.value.annualPoint else 0)
  }

  /**
   * `promote`: moves the user to the new rank, records the history row
   * unconditionally, and credits the (possibly negative) difference, with a
   * GRANT row only when it is non-zero.
   */
  method Promote(db: Db, userId: Id, newRankId: Id, promotionDate: CalendarDate) returns (r: Result<User>)
    requires db.Valid()
    modifies db`users, db`rankHistories, db`transactions
    ensures db.Valid()
    ensures userId !in old(db.users) ==> r == Err(UserNotFound) && unchanged(db)
    ensures userId in old(db.users) && newRankId !in db.ranks ==> r == Err(RankNotFound) && unchanged(db)
    ensures userId in old(db.users) && newRankId in db.ranks ==>
      var u := old(db.users)[userId];
      var oldRank := RankOf(u, db.ranks);
      var diff := PromotionDiff(oldRank, db.ranks[newRankId]);
      var after := Credit(u, diff).(rankId := Some(newRankId));
      && r == Ok(after)
      && db.users == old(db.users)[userId := after]
      && db.rankHistories == old(db.rankHistories) + [RankHistory(userId, u.rankId, newRankId, promotionDate, diff)]
      && db.transactions == old(db.transactions) +
           (if diff != 0 then [EntryAfter(userId, Grant, diff, after, None, None, Some(PromotionNote(oldRank, db.ranks[newRankId])))] else [])
    ensures old(db.LedgerWitnessed()) ==> db.LedgerWitnessed()
    ensures old(db.BalancesSound()) &&
      (userId in old(db.users) && newRankId in db.ranks ==> PromotionDiff(RankOf(old(db.users)[userId], db.ranks), db.ranks[newRankId]) >= 0)
      ==> db.BalancesSound()
  {
    if userId !in db.users {
      return Err(UserNotFound);
    }
    if newRankId !in db.ranks {
      return Err(RankNotFound);
    }
    var u := db.users[userId];
    var oldRank := RankOf(u, db.ranks);
    var newRank := db.ranks[newRankId];
    var diff := PromotionDiff(oldRank, newRank);
    db.rankHistories := db.rankHistories + [RankHistory(userId, u.rankId, newRankId, promotionDate, diff)];
    var after := Credit(u, diff).(rankId := Some(newRankId));
    Repoint(db, userId, after, diff, PromotionNote(oldRank, newRank));
    r := Ok(after);
  }

  /** Stores a user whose balance moved by `diff`, with a GRANT row only when `diff` is non-zero. */
  method Repoint(db: Db, userId: Id, after: User, diff: int, note: string)
    requires db.Valid() && userId in db.users
    requires after.currentPoint == db.users[userId].currentPoint + diff && after.reservedPoint == db.users[userId].reservedPoint
    modifies db`users, db`transactions
    ensures db.Valid()
    ensures db.users == old(db.users)[userId := after]
    ensures db.transactions == old(db.transactions) + (if diff != 0 then [EntryAfter(userId, Grant, diff, after, None, None, Some(note))] else [])
    ensures old(db.LedgerWitnessed()) ==> db.LedgerWitnessed()
    ensures old(db.BalancesSound()) && diff >= 0 ==> db.BalancesSound()
  {
    if diff != 0 {
      db.Record(userId, after, EntryAfter(userId, Grant, diff, after, None, None, Some(note)));
    } else {
      if db.LedgerWitnessed() {
        SameBalancesKeepsWitnessed(db.users, db.transactions, userId, after);
      }
      db.users := db.users[userId := after];
    }
  }

  // ----- creation -----

  /** The fields of a `UserCreate` request that the service reads. */
  datatype NewUser = NewUser(
    username: string,
    name: string,
    serviceNumber: string,
    role: Role,
    rankId: Option<Id>,
    retirementDate: Option<CalendarDate>,
    salesOfficeId: Option<Id>,
    tailorCompanyId: Option<Id>)

  predicate UsernameTaken(users: map<Id, User>, username: string) {
    exists uid :: uid in users && users[uid].username == username
  }

  predicate ServiceNumberTaken(users: map<Id, User>, serviceNumber: string) {
    exists uid :: uid in users && users[uid].serviceNumber == serviceNumber
  }

  /** The two uniqueness checks of `create`, in order; an empty service number skips the second. */
  function CreateCheck(users: map<Id, User>, data: NewUser): (r: Option<Error>)
    ensures r == Some(DuplicateUsername) <==> UsernameTaken(users, data.username)
    ensures r == Some(DuplicateServiceNumber) <==>
      !UsernameTaken(users, data.username) && data.serviceNumber != "" && ServiceNumberTaken(users, data.serviceNumber)
    ensures r.None? || r == Some(DuplicateUsername) || r == Some(DuplicateServiceNumber)
  {
    if UsernameTaken(users, data.username) then Some(DuplicateUsername)
    else if data.serviceNumber != "" && ServiceNumberTaken(users, data.serviceNumber) then Some(DuplicateServiceNumber)
    else None
  }

  /**
   * `create` as written: once both checks pass it reads `service_years` from
   * the request, which the request type does not declare, so it never creates
   * a user.
   */
  function CreateAsWritten(users: map<Id, User>, data: NewUser): (r: Result<Id>)
    ensures r.Err?
    ensures r.error == MissingAttribute <==> CreateCheck(users, data).None?
  {
    match CreateCheck(users, data)
    case Some(e) => Err(e)
    case None => Err(MissingAttribute)
  }

  /** The row `create` builds once the undeclared attribute is dropped: active, no enlistment date, zero balances. */
  function NewUserRecord(data: NewUser): (u: User)
    ensures u.currentPoint == 0 && u.reservedPoint == 0 && Sound(u)
    ensures u.username == data.username && u.serviceNumber == data.serviceNumber && u.isActive
  {
    User(data.username, data.name, data.serviceNumber, data.role, data.rankId, None, data.retirementDate,
         true, data.salesOfficeId, data.tailorCompanyId, 0, 0)
  }

  /**
   * Whether `create` gets past the commit: its two checks, then the unique
   * constraint on `service_number`, which also rejects an empty number that
   * is already stored although the check skipped it.
   */
  function CreateOutcome(users: map<Id, User>, data: NewUser): (r: Option<Error>)
    ensures r.None? <==> !UsernameTaken(users, data.username) && !ServiceNumberTaken(users, data.serviceNumber)
    ensures r == Some(UniqueViolation) <==>
      !UsernameTaken(users, data.username) && data.serviceNumber == "" && ServiceNumberTaken(users, "")
    ensures r != Some(UniqueViolation) ==> r == CreateCheck(users, data)
  {
    match CreateCheck(users, data)
    case Some(e) => Some(e)
    case None => if ServiceNumberTaken(users, data.serviceNumber) then Some(UniqueViolation) else None
  }

  /** The users table's two unique columns. */
  ghost predicate UniqueAccounts(users: map<Id, User>) {
    forall a, b :: a in users && b in users && a != b ==>
      users[a].username != users[b].username && users[a].serviceNumber != users[b].serviceNumber
  }

  /** A creation that gets past the commit keeps both columns unique. */
  lemma CreateKeepsUnique(users: map<Id, User>, id: Id, data: NewUser)
    requires UniqueAccounts(users) && id !in users && CreateOutcome(users, data).None?
    ensures UniqueAccounts(users[id := NewUserRecord(data)])
  {
    var m := users[id := NewUserRecord(data)];
    forall a, b | a in m && b in m && a != b
      ensures m[a].username != m[b].username && m[a].serviceNumber != m[b].serviceNumber
    {
      if a == id {
        assert b in users;
      } else if b == id {
        assert a in users;
      }
    }
  }

  /** `create` with the evidently intended constructor call. */
  method Create(db: Db, data: NewUser) returns (r: Result<Id>)
    requires db.Valid()
    modifies db`users, db`nextId
    ensures db.Valid()
    ensures CreateOutcome(old(db.users), data).Some? ==> r == Err(CreateOutcome(old(db.users), data).value) && unchanged(db)
    ensures CreateOutcome(old(db.users), data).None? ==>
      r == Ok(old(db.nextId)) && db.nextId == old(db.nextId) + 1 &&
      db.users == old(db.users)[r.value := NewUserRecord(data)]
    ensures UniqueAccounts(old(db.users)) ==> UniqueAccounts(db.users)
    ensures old(db.BalancesSound()) ==> db.BalancesSound()
    ensures old(db.LedgerWitnessed()) ==> db.LedgerWitnessed()
  {
    var check := CreateOutcome(db.users, data);
    if check.Some? {
      return Err(check.value);
    }
    var id := db.FreshId();
    if db.LedgerWitnessed() {
      NewUserKeepsWitnessed(db.users, db.transactions, id, NewUserRecord(data));
    }
    if UniqueAccounts(db.users) {
      CreateKeepsUnique(db.users, id, data);
    }
    db.users := db.users[id := NewUserRecord(data)];
    r := Ok(id);
  }

  /** One failed row of a bulk creation, numbered from 1. */
  datatype RowError = RowError(row: nat, error: Error)

  /** What a bulk creation leaves: the table, the id counter, the count, the ValueErrors and the error that escaped, if any. */
  datatype BulkState = BulkState(users: map<Id, User>, nextId: nat, created: nat, errors: seq<RowError>, raised: Option<RowError>)

  /**
   * `bulk_create` over the given rows: each row is created against the users
   * the earlier rows left; a ValueError is recorded under the row's number;
   * an IntegrityError is not a ValueError, so it ends the loop with the
   * earlier rows already committed.
   */
  function BulkOutcome(users: map<Id, User>, next: nat, rows: seq<NewUser>): (r: BulkState)
    ensures r.raised.None? ==> r.created + |r.errors| == |rows|
    ensures r.raised.Some? ==>
      r.created + |r.errors| + 1 == r.raised.value.row <= |rows| && r.raised.value.error == UniqueViolation
    ensures forall k :: 0 <= k < |r.errors| ==> 1 <= r.errors[k].row <= |rows|
    ensures forall k, l :: 0 <= k < l < |r.errors| ==> r.errors[k].row < r.errors[l].row
    ensures forall k :: 0 <= k < |r.errors| ==>
      r.errors[k].error == DuplicateUsername || r.errors[k].error == DuplicateServiceNumber
    decreases |rows|
  {
    if rows == [] then BulkState(users, next, 0, [], None)
    else
      var p := BulkOutcome(users, next, rows[..|rows| - 1]);
      var row := rows[|rows| - 1];
      if p.raised.Some? then p
      else
        match CreateOutcome(p.users, row)
        case None => p.(users := p.users[p.nextId := NewUserRecord(row)], nextId := p.nextId + 1, created := p.created + 1)
        case Some(e) =>
          if e == UniqueViolation then p.(raised := Some(RowError(|rows|, e)))
          else p.(errors := p.errors + [RowError(|rows|, e)])
  }

  /** Rows after an escaped error change nothing. */
  lemma {:induction false} BulkRaisedStays(users: map<Id, User>, next: nat, rows: seq<NewUser>, i: nat)
    requires i <= |rows| && BulkOutcome(users, next, rows[..i]).raised.Some?
    ensures BulkOutcome(users, next, rows) == BulkOutcome(users, next, rows[..i])
    decreases |rows| - i
  {
    if i < |rows| {
      assert rows[..i + 1][..i] == rows[..i];
      BulkRaisedStays(users, next, rows, i + 1);
    } else {
      assert rows[..i] == rows;
    }
  }

  /**
   * A bulk creation only adds users: existing rows keep their values, the
   * table grows by the created count, and both unique columns stay unique.
   */
  lemma {:induction false} BulkOutcomeKeeps(users: map<Id, User>, next: nat, rows: seq<NewUser>)
    requires forall k :: k in users ==> k < next
    ensures var r := BulkOutcome(users, next, rows);
      && (forall k :: k in users ==> k in r.users && r.users[k] == users[k])
      && (forall k :: k in r.users ==> k < r.nextId)
      && |r.users| == |users| + r.created
      && (UniqueAccounts(users) ==> UniqueAccounts(r.users))
    decreases |rows|
  {
    if rows != [] {
      var p := BulkOutcome(users, next, rows[..|rows| - 1]);
      BulkOutcomeKeeps(users, next, rows[..|rows| - 1]);
      var row := rows[|rows| - 1];
      if p.raised.None? && CreateOutcome(p.users, row).None? {
        assert p.nextId !in p.users;
        if UniqueAccounts(users) {
          CreateKeepsUnique(p.users, p.nextId, row);
        }
      }
    }
  }

  /**
   * `bulk_create`: creates each row in turn, counting successes and
   * collecting each ValueError with its row number; the IntegrityError of a
   * stored empty service number escapes, reported here as `raised`.
   */
  method BulkCreate(db: Db, rows: seq<NewUser>) returns (created: nat, errors: seq<RowError>, raised: Option<RowError>)
    requires db.Valid()
    modifies db`users, db`nextId
    ensures db.Valid()
    ensures BulkOutcome(old(db.users), old(db.nextId), rows) == BulkState(db.users, db.nextId, created, errors, raised)
    ensures forall uid :: uid in old(db.users) ==> uid in db.users && db.users[uid] == old(db.users)[uid]
    ensures |db.users| == |old(db.users)| + created
    ensures UniqueAccounts(old(db.users)) ==> UniqueAccounts(db.users)
    ensures old(db.BalancesSound()) ==> db.BalancesSound()
    ensures old(db.LedgerWitnessed()) ==> db.LedgerWitnessed()
  {
    created, errors, raised := 0, [], None;
    var i := 0;
    while i < |rows| && raised.None?
      invariant i <= |rows|
      invariant db.Valid()
      invariant BulkOutcome(old(db.users), old(db.nextId), rows[..i]) == BulkState(db.users, db.nextId, created, errors, raised)
      invariant old(db.BalancesSound()) ==> db.BalancesSound()
      invariant old(db.LedgerWitnessed()) ==> db.LedgerWitnessed()
      decreases |rows| - i
    {
      created, errors, raised := CreateRow(db, old(db.users), old(db.nextId), rows, i, created, errors);
      i := i + 1;
    }
    if raised.Some? {
      BulkRaisedStays(old(db.users), old(db.nextId), rows, i);
    } else {
      assert rows[..i] == rows;
    }
    BulkOutcomeKeeps(old(db.users), old(db.nextId), rows);
  }

  /**
   * One pass of `bulk_create`'s loop: `create` on row i + 1, counted as a
   * success, recorded as a ValueError, or escaping as an IntegrityError.
   */
  method CreateRow(db: Db, ghost users0: map<Id, User>, ghost next0: nat, rows: seq<NewUser>, i: nat,
                   created: nat, errors: seq<RowError>)
    returns (created': nat, errors': seq<RowError>, raised': Option<RowError>)
    requires db.Valid() && i < |rows|
    requires BulkOutcome(users0, next0, rows[..i]) == BulkState(db.users, db.nextId, created, errors, None)
    modifies db`users, db`nextId
    ensures db.Valid()
    ensures BulkOutcome(users0, next0, rows[..i + 1]) == BulkState(db.users, db.nextId, created', errors', raised')
    ensures old(db.BalancesSound()) ==> db.BalancesSound()
    ensures old(db.LedgerWitnessed()) ==> db.LedgerWitnessed()
  {
    assert rows[..i + 1][..i] == rows[..i];
    var r := Create(db, rows[i]);
    created', errors', raised' := created, errors, None;
    if r.Ok? {
      created' := created + 1;
    } else if r.error == UniqueViolation {
      raised' := Some(RowError(i + 1, r.error));
    } else {
      errors' := errors + [RowError(i + 1, r.error)];
    }
  }
}
