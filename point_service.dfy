// The points service: grants (regular, yearly, single and bulk), the guarded
// ledger operations use / reserve / release / deduct-reserved / refund, and
// the reason shown in the grant history.

module PointService {
  import opened Common
  import opened Calendar
  import opened Entities
  import opened UserModel
  import opened Ledger
  import opened Store
  import UserService

  // ----- the reason column of the grant history -----

  /** The index of the first occurrence of `c` in `s`. */
  function IndexOf(s: string, c: char): (r: Option<nat>)
    ensures r.Some? ==> r.value < |s| && s[r.value] == c && c !in s[..r.value]
    ensures r.None? ==> c !in s
  {
    if s == [] then None
    else if s[0] == c then Some(0)
    else match IndexOf(s[1..], c)
      case None => None
      case Some(i) => assert s[1..][..i] == s[1..i + 1]; Some(i + 1)
  }

  /** `s.split(c)[0]`: the text before the first `c`, or all of `s`. */
  function TakeUntil(s: string, c: char): (r: string)
    ensures c !in r
    ensures r == s || (|r| < |s| && s[|r|] == c)
    ensures r <= s
  {
    match IndexOf(s, c)
    case None => s
    case Some(i) => s[..i]
  }

  /** `s.rstrip(c)`: `s` without its trailing run of `c`. */
  function RStrip(s: string, c: char): (r: string)
    ensures r <= s && (r == [] || r[|r| - 1] != c)
    ensures forall i :: |r| <= i < |s| ==> s[i] == c
  {
    if s != [] && s[|s| - 1] == c then RStrip(s[..|s| - 1], c) else s
  }

  /**
   * The reason shown for a grant: the text after the first "(" up to the next
   * "(", without trailing ")", or "기타" when the description is empty or has no "(".
   */
  function GrantReason(description: Option<string>): (r: string)
    ensures !Truthy(description) || '(' !in description.value ==> r == "기타"
    ensures Truthy(description) && '(' in description.value ==>
      '(' !in r && (r == [] || r[|r| - 1] != ')') &&
      var i := IndexOf(description.value, '(').value;
      r <= description.value[i + 1..]
  {
    if Truthy(description) && '(' in description.value then
      var d := description.value;
      var i := IndexOf(d, '(').value;
      RStrip(TakeUntil(d[i + 1..], '('), ')')
    else "기타"
  }

  /** Stripping a trailing run of `c` from text that ends in one `c` after a text not ending in it. */
  lemma RStripOne(s: string, c: char)
    requires s == [] || s[|s| - 1] != c
    ensures RStrip(s + [c], c) == s
  {
    assert (s + [c])[..|s|] == s;
  }

  lemma TakeUntilAll(s: string, c: char)
    requires c !in s
    ensures TakeUntil(s, c) == s
  {
  }

  /** The first `c` in `prefix + rest` is the head of `rest` when `prefix` has none. */
  lemma {:induction false} IndexOfAfter(prefix: string, rest: string, c: char)
    requires c !in prefix && rest != [] && rest[0] == c
    ensures IndexOf(prefix + rest, c) == Some(|prefix|)
  {
    if prefix != [] {
      assert (prefix + rest)[1..] == prefix[1..] + rest;
      IndexOfAfter(prefix[1..], rest, c);
    }
  }

  /**
   * Round trip of the descriptions the service writes: a reason wrapped as
   * `prefix + "(" + reason + ")"` is read back as exactly that reason, when
   * the prefix has no "(" and the reason neither contains "(" nor ends in ")".
   */
  lemma {:induction false} GrantReasonRoundTrip(prefix: string, reason: string)
    requires '(' !in prefix && '(' !in reason && (reason == [] || reason[|reason| - 1] != ')')
    ensures GrantReason(Some(prefix + "(" + reason + ")")) == reason
  {
    var d := prefix + "(" + reason + ")";
    assert d == prefix + ("(" + reason + ")");
    IndexOfAfter(prefix, "(" + reason + ")", '(');
    var i := IndexOf(d, '(').value;
    assert d[i + 1..] == reason + ")";
    assert '(' !in reason + ")";
    TakeUntilAll(reason + ")", '(');
    RStripOne(reason, ')');
  }

  /** The history shows a single grant's reason as it was given. */
  lemma SingleGrantReason(reason: string)
    requires '(' !in reason && (reason == [] || reason[|reason| - 1] != ')')
    ensures GrantReason(Some(SingleGrantNote(reason))) == reason
  {
    assert SingleGrantNote(reason) == "포인트 지급 " + "(" + reason + ")";
    GrantReasonRoundTrip("포인트 지급 ", reason);
  }

  /** The history shows a bulk grant's reason as it was given. */
  lemma BulkGrantReason(reason: string)
    requires '(' !in reason && (reason == [] || reason[|reason| - 1] != ')')
    ensures GrantReason(Some(BulkGrantNote(reason))) == reason
  {
    assert BulkGrantNote(reason) == "일괄 포인트 지급 " + "(" + reason + ")";
    GrantReasonRoundTrip("일괄 포인트 지급 ", reason);
  }

  /** The history shows a promotion row's reason as "old rank → new rank". */
  lemma PromotionReason(oldRank: Option<Rank>, newRank: Rank)
    requires oldRank.Some? ==> '(' !in oldRank.value.name
    requires '(' !in newRank.name && newRank.name != [] && newRank.name[|newRank.name| - 1] != ')'
    ensures GrantReason(Some(UserService.PromotionNote(oldRank, newRank))) ==
      (if oldRank.Some? then oldRank.value.name else "없음") + " → " + newRank.name
  {
    var oldName := if oldRank.Some? then oldRank.value.name else "없음";
    var reason := oldName + " → " + newRank.name;
    assert reason[|reason| - 1] == newRank.name[|newRank.name| - 1];
    assert '(' !in reason by {
      assert forall k :: 0 <= k < |reason| ==> reason[k] != '(' by {
        forall k | 0 <= k < |reason| ensures reason[k] != '(' {
          if k < |oldName| {
            assert reason[k] == oldName[k];
          } else if k < |oldName| + 3 {
            assert reason[k] == " → "[k - |oldName|];
          } else {
            assert reason[k] == newRank.name[k - |oldName| - 3];
          }
        }
      }
    }
    assert UserService.PromotionNote(oldRank, newRank) == "진급에 따른 포인트 조정 " + "(" + reason + ")";
    GrantReasonRoundTrip("진급에 따른 포인트 조정 ", reason);
  }

  // ----- regular grants -----

  /** A `PointGrantCreate` request. */
  datatype GrantRequest = GrantRequest(
    userId: Id,
    year: int,
    pointType: PointType,
    baseAmount: int,
    serviceYearBonus: int,
    dailyCalcAmount: int,
    description: Option<string>)

  predicate AlreadyGranted(grants: seq<PointGrant>, userId: Id, year: int, pointType: PointType) {
    exists i :: 0 <= i < |grants| && grants[i].userId == userId && grants[i].year == year && grants[i].pointType == pointType
  }

  /** The grant row: its total is always base + bonus + daily. */
  function GrantRecord(data: GrantRequest, today: CalendarDate, grantedBy: Option<Id>): (g: PointGrant)
    ensures g.totalAmount == data.baseAmount + data.serviceYearBonus + data.dailyCalcAmount
    ensures g.userId == data.userId && g.year == data.year && g.pointType == data.pointType
  {
    PointGrant(data.userId, data.year, data.pointType, data.baseAmount, data.serviceYearBonus,
               data.dailyCalcAmount, data.baseAmount + data.serviceYearBonus + data.dailyCalcAmount,
               today, data.description, grantedBy)
  }

  function DefaultGrantNote(year: int, pointType: PointType): string {
    IntToString(year) + "년 " + PointTypeName(pointType) + " 포인트 지급"
  }

  /**
   * `grant_point`: rejects a missing user and a second grant for the same
   * (user, year, type); otherwise records the grant and credits its total.
   * The grant row has no id before the commit, so the ledger row carries no
   * grant link.
   */
  method GrantPoint(db: Db, data: GrantRequest, grantedBy: Option<Id>, today: CalendarDate) returns (r: Result<PointGrant>)
    requires db.Valid()
    modifies db`users, db`grants, db`transactions
    ensures db.Valid()
    ensures data.userId !in old(db.users) ==> r == Err(UserNotFound) && unchanged(db)
    ensures data.userId in old(db.users) && AlreadyGranted(old(db.grants), data.userId, data.year, data.pointType) ==>
      r == Err(DuplicateGrant) && unchanged(db)
    ensures r.Err? ==> unchanged(db)
    ensures data.userId in old(db.users) && !AlreadyGranted(old(db.grants), data.userId, data.year, data.pointType) ==>
      var g := GrantRecord(data, today, grantedBy);
      var after := Credit(old(db.users)[data.userId], g.totalAmount);
      && r == Ok(g)
      && db.grants == old(db.grants) + [g]
      && db.users == old(db.users)[data.userId := after]
      && db.transactions == old(db.transactions) +
           [EntryAfter(data.userId, Grant, g.totalAmount, after, None, None,
                       Some(OrElse(data.description, DefaultGrantNote(data.year, data.pointType))))]
    ensures old(db.grants) <= db.grants
    ensures AlreadyGranted(db.grants, data.userId, data.year, data.pointType) <==> data.userId in old(db.users) || AlreadyGranted(old(db.grants), data.userId, data.year, data.pointType)
    ensures forall uid :: uid in old(db.users) ==> uid in db.users && db.users[uid].reservedPoint == old(db.users)[uid].reservedPoint
    ensures old(db.LedgerWitnessed()) ==> db.LedgerWitnessed()
    ensures old(db.BalancesSound()) && GrantRecord(data, today, grantedBy).totalAmount >= 0 ==> db.BalancesSound()
  {
    if data.userId !in db.users {
      return Err(UserNotFound);
    }
    if AlreadyGranted(db.grants, data.userId, data.year, data.pointType) {
      return Err(DuplicateGrant);
    }
    var g := GrantRecord(data, today, grantedBy);
    db.grants := db.grants + [g];
    assert db.grants[|db.grants| - 1] == g;
    var after := Credit(db.users[data.userId], g.totalAmount);
    db.Record(data.userId, after,
      EntryAfter(data.userId, Grant, g.totalAmount, after, None, None,
                 Some(OrElse(data.description, DefaultGrantNote(data.year, data.pointType)))));
    r := Ok(g);
  }

  // ----- yearly grants -----

  /** Who `grant_yearly` grants to: the listed ids that exist, in order (repeats kept), or else every active user with a rank. */
  predicate YearlyDefaultTarget(u: User) {
    u.isActive && u.rankId.Some?
  }

  /** `[get_by_id(uid) for uid in ids]` without the misses: the listed ids that name a user, in order. */
  function Present(ids: seq<Id>, users: map<Id, User>): (r: seq<Id>)
    ensures forall x :: x in r <==> x in ids && x in users
    ensures |r| <= |ids|
  {
    if ids == [] then []
    else if ids[0] in users then [ids[0]] + Present(ids[1..], users)
    else Present(ids[1..], users)
  }

  lemma GrantedStaysGranted(before: seq<PointGrant>, after: seq<PointGrant>, userId: Id, year: int, pointType: PointType)
    requires before <= after && AlreadyGranted(before, userId, year, pointType)
    ensures AlreadyGranted(after, userId, year, pointType)
  {
    var i :| 0 <= i < |before| && before[i].userId == userId && before[i].year == year && before[i].pointType == pointType;
    assert after[i] == before[i];
  }

  /** One failed user of a yearly grant: the user's name and service number with the error. */
  datatype YearlyError = YearlyError(name: string, serviceNumber: string, error: Error)

  /**
   * The grant request `grant_yearly` builds from the calculation, as written:
   * all three amounts are passed on, and `grant_point` adds them up.
   */
  function YearlyGrantRequestAsWritten(userId: Id, year: int, pointType: PointType, yearly: UserService.YearlyPoint): (d: GrantRequest)
    ensures d.baseAmount == yearly.baseAmount && d.serviceYearBonus == yearly.serviceYearBonus
    ensures d.dailyCalcAmount == yearly.dailyCalcAmount
  {
    GrantRequest(userId, year, pointType, yearly.baseAmount, yearly.serviceYearBonus, yearly.dailyCalcAmount,
                 Some(YearlyNote(year)))
  }

  /**
   * The corrected grant request: in the retirement year only the pro-rated
   * amount is passed on, so that the grant totals what the calculation totals.
   */
  function YearlyGrantRequest(userId: Id, year: int, pointType: PointType, yearly: UserService.YearlyPoint, retires: bool): (d: GrantRequest)
    ensures d.dailyCalcAmount == yearly.dailyCalcAmount
    ensures !retires ==> d == YearlyGrantRequestAsWritten(userId, year, pointType, yearly)
    ensures retires ==> d.baseAmount == 0 && d.serviceYearBonus == 0
  {
    if retires then GrantRequest(userId, year, pointType, 0, 0, yearly.dailyCalcAmount, Some(YearlyNote(year)))
    else YearlyGrantRequestAsWritten(userId, year, pointType, yearly)
  }

  /** With the corrected request, every yearly grant totals exactly the calculation's total. */
  lemma YearlyGrantMatchesCalculation(u: User, ranks: map<Id, Rank>, userId: Id, year: int, pointType: PointType,
                                      today: Date, grantDate: CalendarDate, grantedBy: Option<Id>)
    ensures var yearly := UserService.CalculateYearlyPoint(u, ranks, year, today);
      GrantRecord(YearlyGrantRequest(userId, year, pointType, yearly, UserService.RetiresIn(u, year)), grantDate, grantedBy).totalAmount ==
      yearly.totalAmount
  {
  }

  /** The description `grant_yearly` gives each grant. */
  function YearlyNote(year: int): string {
    IntToString(year) + "년 연간 포인트 지급"
  }

  /** The grant `grant_yearly` records for a user: the calculation turned into a grant request. */
  function YearlyGrant(u: User, ranks: map<Id, Rank>, userId: Id, year: int, pointType: PointType,
                       today: CalendarDate, grantedBy: Option<Id>): PointGrant
  {
    GrantRecord(YearlyGrantRequest(userId, year, pointType, UserService.CalculateYearlyPoint(u, ranks, year, today),
                                   UserService.RetiresIn(u, year)), today, grantedBy)
  }

  /**
   * In the retirement year the calculation's total is the pro-rated amount
   * alone, but the grant built from it totals base + bonus + daily, so the
   * user is credited the full year's points on top of the pro-rated part.
   */
  lemma RetirementYearGrantExceedsCalculation(u: User, ranks: map<Id, Rank>, userId: Id, year: int, pointType: PointType,
                                              today: Date, grantDate: CalendarDate, grantedBy: Option<Id>)
    requires UserService.RankOf(u, ranks).Some? && UserService.RetiresIn(u, year)
    ensures var yearly := UserService.CalculateYearlyPoint(u, ranks, year, today);
      GrantRecord(YearlyGrantRequestAsWritten(userId, year, pointType, yearly), grantDate, grantedBy).totalAmount ==
      yearly.totalAmount + yearly.baseAmount + yearly.serviceYearBonus
  {
  }

  /** One day out of a 365-day year pro-rates 365 points to 1. */
  lemma OneDayOfYear(d: CalendarDate)
    requires d == Date(2023, 1, 1)
    ensures UserService.TruncDiv(365 * DayOfYear(d), 365) == 1
  {
    assert DayOfYear(d) == 1;
  }

  /**
   * A member with a 365-point rank, no enlistment date, who retires on
   * 1 January 2023: the calculation pro-rates one day to 1 point, yet the
   * grant as written credits 366; the corrected request credits 1.
   */
  lemma RetirementYearGrantExample(u: User, ranks: map<Id, Rank>, grantDate: CalendarDate, grantedBy: Option<Id>)
    requires u.rankId == Some(1) && u.enlistmentDate.None? && u.retirementDate.Some? && u.retirementDate.value == Date(2023, 1, 1)
    requires 1 in ranks && ranks[1].annualPoint == 365 && ranks[1].serviceYearBonus == 10
    ensures var yearly := UserService.CalculateYearlyPoint(u, ranks, 2023, Date(2023, 3, 1));
      && yearly.totalAmount == 1
      && GrantRecord(YearlyGrantRequestAsWritten(1, 2023, Annual, yearly), grantDate, grantedBy).totalAmount == 366
      && GrantRecord(YearlyGrantRequest(1, 2023, Annual, yearly, UserService.RetiresIn(u, 2023)), grantDate, grantedBy).totalAmount == 1
  {
    var yearly := UserService.CalculateYearlyPoint(u, ranks, 2023, Date(2023, 3, 1));
    assert ServiceYears(u, Date(2023, 3, 1)) == 0;
    assert yearly.baseAmount + yearly.serviceYearBonus == 365;
    OneDayOfYear(u.retirementDate.value);
    assert UserService.RetiresIn(u, 2023);
  }

  ghost predicate RanksNonNegative(ranks: map<Id, Rank>) {
    forall k :: k in ranks ==> ranks[k].annualPoint >= 0 && ranks[k].serviceYearBonus >= 0
  }

  lemma YearlyTotalNonNegative(u: User, ranks: map<Id, Rank>, year: int, today: Date, userId: Id, pointType: PointType,
                               grantDate: CalendarDate, grantedBy: Option<Id>)
    requires RanksNonNegative(ranks)
    ensures GrantRecord(YearlyGrantRequest(userId, year, pointType, UserService.CalculateYearlyPoint(u, ranks, year, today),
                                           UserService.RetiresIn(u, year)), grantDate, grantedBy).totalAmount >= 0
  {
    var yearly := UserService.CalculateYearlyPoint(u, ranks, year, today);
    if UserService.RankOf(u, ranks).Some? {
      var rank := UserService.RankOf(u, ranks).value;
      assert rank.serviceYearBonus * ServiceYears(u, today) >= 0;
    }
  }

  /** One step of `grant_yearly`: calculates the user's yearly points and grants them. */
  method GrantYearlyTo(db: Db, userId: Id, year: int, pointType: PointType, today: CalendarDate, grantedBy: Option<Id>)
    returns (r: Result<PointGrant>)
    requires db.Valid() && userId in db.users
    modifies db`users, db`grants, db`transactions
    ensures db.Valid()
    ensures r.Err? ==> r.error == DuplicateGrant && unchanged(db)
    ensures r.Ok? <==> !AlreadyGranted(old(db.grants), userId, year, pointType)
    ensures r.Ok? ==>
      var after := Credit(old(db.users)[userId], r.value.totalAmount);
      && r.value == YearlyGrant(old(db.users)[userId], db.ranks, userId, year, pointType, today, grantedBy)
      && r.value.totalAmount == UserService.CalculateYearlyPoint(old(db.users)[userId], db.ranks, year, today).totalAmount
      && db.grants == old(db.grants) + [r.value]
      && db.users == old(db.users)[userId := after]
      && db.transactions == old(db.transactions) + [EntryAfter(userId, Grant, r.value.totalAmount, after, None, None, Some(YearlyNote(year)))]
    ensures old(db.LedgerWitnessed()) ==> db.LedgerWitnessed()
    ensures old(db.BalancesSound()) && RanksNonNegative(db.ranks) ==> db.BalancesSound()
  {
    var u := db.users[userId];
    var yearly := UserService.CalculateYearlyPoint(u, db.ranks, year, today);
    var data := YearlyGrantRequest(userId, year, pointType, yearly, UserService.RetiresIn(u, year));
    if RanksNonNegative(db.ranks) {
      YearlyTotalNonNegative(u, db.ranks, year, today, userId, pointType, today, grantedBy);
    }
    assert OrElse(data.description, DefaultGrantNote(year, pointType)) == YearlyNote(year);
    YearlyGrantMatchesCalculation(u, db.ranks, userId, year, pointType, today, today, grantedBy);
    r := GrantPoint(db, data, grantedBy, today);
  }

  /** The users and grants a run of yearly grants leaves. */
  datatype YearlyState = YearlyState(users: map<Id, User>, grants: seq<PointGrant>)

  /**
   * `grant_yearly`'s loop over the targets: each target not yet granted for
   * the year and type is granted its calculated points; the others are left
   * as they are.
   */
  function YearlyOutcome(users: map<Id, User>, grants: seq<PointGrant>, ranks: map<Id, Rank>, targets: seq<Id>,
                         year: int, pointType: PointType, today: CalendarDate, grantedBy: Option<Id>): (r: YearlyState)
    requires forall k :: 0 <= k < |targets| ==> targets[k] in users
    ensures r.users.Keys == users.Keys && grants <= r.grants
    decreases |targets|
  {
    if targets == [] then YearlyState(users, grants)
    else
      var p := YearlyOutcome(users, grants, ranks, targets[..|targets| - 1], year, pointType, today, grantedBy);
      var t := targets[|targets| - 1];
      if AlreadyGranted(p.grants, t, year, pointType) then p
      else
        var g := YearlyGrant(p.users[t], ranks, t, year, pointType, today, grantedBy);
        YearlyState(p.users[t := Credit(p.users[t], g.totalAmount)], p.grants + [g])
  }

  lemma AlreadyGrantedSnoc(grants: seq<PointGrant>, g: PointGrant, userId: Id, year: int, pointType: PointType)
    ensures AlreadyGranted(grants + [g], userId, year, pointType) <==>
      AlreadyGranted(grants, userId, year, pointType) || (g.userId == userId && g.year == year && g.pointType == pointType)
  {
    var s := grants + [g];
    if AlreadyGranted(grants, userId, year, pointType) {
      var i :| 0 <= i < |grants| && grants[i].userId == userId && grants[i].year == year && grants[i].pointType == pointType;
      assert s[i] == grants[i];
    }
    if g.userId == userId && g.year == year && g.pointType == pointType {
      assert s[|grants|] == g;
    }
    if AlreadyGranted(s, userId, year, pointType) {
      var i :| 0 <= i < |s| && s[i].userId == userId && s[i].year == year && s[i].pointType == pointType;
      if i < |grants| {
        assert s[i] == grants[i];
      }
    }
  }

  /** After the loop a user is granted exactly when they were granted before or are listed. */
  lemma {:induction false} YearlyGrantedAt(users: map<Id, User>, grants: seq<PointGrant>, ranks: map<Id, Rank>, targets: seq<Id>,
                                           year: int, pointType: PointType, today: CalendarDate, grantedBy: Option<Id>, uid: Id)
    requires forall k :: 0 <= k < |targets| ==> targets[k] in users
    ensures AlreadyGranted(YearlyOutcome(users, grants, ranks, targets, year, pointType, today, grantedBy).grants, uid, year, pointType) <==>
      AlreadyGranted(grants, uid, year, pointType) || uid in targets
    decreases |targets|
  {
    if targets != [] {
      var q := targets[..|targets| - 1];
      var t := targets[|targets| - 1];
      assert targets == q + [t];
      YearlyGrantedAt(users, grants, ranks, q, year, pointType, today, grantedBy, uid);
      var p := YearlyOutcome(users, grants, ranks, q, year, pointType, today, grantedBy);
      var r := YearlyOutcome(users, grants, ranks, targets, year, pointType, today, grantedBy);
      if AlreadyGranted(p.grants, t, year, pointType) {
        assert r == p;
      } else {
        var g := YearlyGrant(p.users[t], ranks, t, year, pointType, today, grantedBy);
        assert g.userId == t && g.year == year && g.pointType == pointType;
        assert r.grants == p.grants + [g];
        AlreadyGrantedSnoc(p.grants, g, uid, year, pointType);
      }
      assert uid in targets <==> uid in q || uid == t;
    }
  }

  /**
   * A listed user not granted before is credited exactly once, with the
   * points calculated from their record; a repeated id is refused as a
   * duplicate, and everyone else is left as they were.
   */
  lemma {:induction false} YearlyOutcomeAt(users: map<Id, User>, grants: seq<PointGrant>, ranks: map<Id, Rank>, targets: seq<Id>,
                                           year: int, pointType: PointType, today: CalendarDate, grantedBy: Option<Id>, uid: Id)
    requires forall k :: 0 <= k < |targets| ==> targets[k] in users
    requires uid in users
    ensures YearlyOutcome(users, grants, ranks, targets, year, pointType, today, grantedBy).users[uid] ==
      if uid in targets && !AlreadyGranted(grants, uid, year, pointType)
      then Credit(users[uid], YearlyGrant(users[uid], ranks, uid, year, pointType, today, grantedBy).totalAmount)
      else users[uid]
    decreases |targets|
  {
    if targets != [] {
      var q := targets[..|targets| - 1];
      var t := targets[|targets| - 1];
      assert targets == q + [t];
      YearlyOutcomeAt(users, grants, ranks, q, year, pointType, today, grantedBy, uid);
      var p := YearlyOutcome(users, grants, ranks, q, year, pointType, today, grantedBy);
      var r := YearlyOutcome(users, grants, ranks, targets, year, pointType, today, grantedBy);
      if t == uid {
        YearlyGrantedAt(users, grants, ranks, q, year, pointType, today, grantedBy, uid);
      }
      if AlreadyGranted(p.grants, t, year, pointType) {
        assert r == p;
      } else {
        var g := YearlyGrant(p.users[t], ranks, t, year, pointType, today, grantedBy);
        assert r.users == p.users[t := Credit(p.users[t], g.totalAmount)];
      }
      assert uid in targets <==> uid in q || uid == t;
    }
  }

  /** The loop's outcome user by user, for targets that are exactly the users `grant_yearly` selects. */
  lemma YearlyPerUser(users: map<Id, User>, grants: seq<PointGrant>, ranks: map<Id, Rank>, targets: seq<Id>, userIds: seq<Id>,
                      year: int, pointType: PointType, today: CalendarDate, grantedBy: Option<Id>)
    requires forall k :: 0 <= k < |targets| ==> targets[k] in users
    requires forall uid :: uid in users ==> (uid in targets <==> YearlyTargeted(users, userIds, uid))
    ensures var r := YearlyOutcome(users, grants, ranks, targets, year, pointType, today, grantedBy);
      forall uid :: uid in users ==>
        && (AlreadyGranted(r.grants, uid, year, pointType) <==> AlreadyGranted(grants, uid, year, pointType) || YearlyTargeted(users, userIds, uid))
        && r.users[uid] == if YearlyTargeted(users, userIds, uid) && !AlreadyGranted(grants, uid, year, pointType)
                           then Credit(users[uid], YearlyGrant(users[uid], ranks, uid, year, pointType, today, grantedBy).totalAmount)
                           else users[uid]
  {
    var r := YearlyOutcome(users, grants, ranks, targets, year, pointType, today, grantedBy);
    forall uid | uid in users
      ensures AlreadyGranted(r.grants, uid, year, pointType) <==> AlreadyGranted(grants, uid, year, pointType) || uid in targets
      ensures r.users[uid] == if uid in targets && !AlreadyGranted(grants, uid, year, pointType)
                              then Credit(users[uid], YearlyGrant(users[uid], ranks, uid, year, pointType, today, grantedBy).totalAmount)
                              else users[uid]
    {
      YearlyGrantedAt(users, grants, ranks, targets, year, pointType, today, grantedBy, uid);
      YearlyOutcomeAt(users, grants, ranks, targets, year, pointType, today, grantedBy, uid);
    }
  }

  /** The loop of `grant_yearly`: grants each listed user in turn, counting successes and collecting one error per duplicate. */
  method GrantEach(db: Db, targets: seq<Id>, year: int, pointType: PointType, today: CalendarDate, grantedBy: Option<Id>)
    returns (count: nat, errors: seq<YearlyError>)
    requires db.Valid() && forall k :: 0 <= k < |targets| ==> targets[k] in db.users
    modifies db`users, db`grants, db`transactions
    ensures db.Valid()
    ensures YearlyOutcome(old(db.users), old(db.grants), db.ranks, targets, year, pointType, today, grantedBy) == YearlyState(db.users, db.grants)
    ensures count + |errors| == |targets|
    ensures forall k :: 0 <= k < |errors| ==> errors[k].error == DuplicateGrant
    ensures |db.grants| == |old(db.grants)| + count
    ensures old(db.LedgerWitnessed()) ==> db.LedgerWitnessed()
    ensures old(db.BalancesSound()) && RanksNonNegative(db.ranks) ==> db.BalancesSound()
  {
    count, errors := 0, [];
    ghost var witnessed := db.LedgerWitnessed();
    ghost var sound := db.BalancesSound() && RanksNonNegative(db.ranks);
    for i := 0 to |targets|
      invariant db.Valid()
      invariant YearlyOutcome(old(db.users), old(db.grants), db.ranks, targets[..i], year, pointType, today, grantedBy) ==
        YearlyState(db.users, db.grants)
      invariant count + |errors| == i
      invariant forall k :: 0 <= k < |errors| ==> errors[k].error == DuplicateGrant
      invariant |db.grants| == |old(db.grants)| + count
      invariant witnessed ==> db.LedgerWitnessed()
      invariant sound ==> db.BalancesSound()
    {
      var e := GrantNext(db, old(db.users), old(db.grants), targets, i, year, pointType, today, grantedBy);
      if e.None? {
        count := count + 1;
      } else {
        errors := errors + [e.value];
      }
    }
    assert targets[..|targets|] == targets;
  }

  /** One pass of `grant_yearly`'s loop: grants the i-th target, or reports the duplicate. */
  method GrantNext(db: Db, ghost users0: map<Id, User>, ghost grants0: seq<PointGrant>, targets: seq<Id>, i: nat,
                   year: int, pointType: PointType, today: CalendarDate, grantedBy: Option<Id>)
    returns (e: Option<YearlyError>)
    requires db.Valid() && i < |targets| && forall k :: 0 <= k < |targets| ==> targets[k] in users0
    requires YearlyOutcome(users0, grants0, db.ranks, targets[..i], year, pointType, today, grantedBy) == YearlyState(db.users, db.grants)
    modifies db`users, db`grants, db`transactions
    ensures db.Valid()
    ensures YearlyOutcome(users0, grants0, db.ranks, targets[..i + 1], year, pointType, today, grantedBy) == YearlyState(db.users, db.grants)
    ensures e.Some? ==> e.value.error == DuplicateGrant
    ensures |db.grants| == |old(db.grants)| + (if e.None? then 1 else 0)
    ensures old(db.LedgerWitnessed()) ==> db.LedgerWitnessed()
    ensures old(db.BalancesSound()) && RanksNonNegative(db.ranks) ==> db.BalancesSound()
  {
    assert targets[..i + 1][..i] == targets[..i];
    var u := db.users[targets[i]];
    var r := GrantYearlyTo(db, targets[i], year, pointType, today, grantedBy);
    e := if r.Ok? then None else Some(YearlyError(u.name, u.serviceNumber, r.error));
  }

  /** Whom `grant_yearly` targets: the listed ids when a list is given, otherwise every active user with a rank. */
  predicate YearlyTargeted(users: map<Id, User>, userIds: seq<Id>, uid: Id)
    requires uid in users
  {
    if userIds != [] then uid in userIds else YearlyDefaultTarget(users[uid])
  }

  /**
   * `grant_yearly`: calculates and grants each target's yearly points,
   * counting successes and collecting one error per target already granted.
   */
  method GrantYearly(db: Db, year: int, pointType: PointType, userIds: seq<Id>, today: CalendarDate, grantedBy: Option<Id>)
    returns (count: nat, errors: seq<YearlyError>)
    requires db.Valid()
    modifies db`users, db`grants, db`transactions
    ensures db.Valid()
    ensures db.users.Keys == old(db.users).Keys
    ensures userIds != [] ==> count + |errors| == |Present(userIds, old(db.users))|
    ensures userIds == [] ==> count + |errors| == |set uid | uid in old(db.users) && YearlyDefaultTarget(old(db.users)[uid])|
    ensures forall k :: 0 <= k < |errors| ==> errors[k].error == DuplicateGrant
    ensures |db.grants| == |old(db.grants)| + count && old(db.grants) <= db.grants
    ensures forall uid :: uid in old(db.users) ==>
      && (AlreadyGranted(db.grants, uid, year, pointType) <==>
            AlreadyGranted(old(db.grants), uid, year, pointType) || YearlyTargeted(old(db.users), userIds, uid))
      && db.users[uid] == if YearlyTargeted(old(db.users), userIds, uid) && !AlreadyGranted(old(db.grants), uid, year, pointType)
                          then Credit(old(db.users)[uid], YearlyGrant(old(db.users)[uid], db.ranks, uid, year, pointType, today, grantedBy).totalAmount)
                          else old(db.users)[uid]
    ensures old(db.LedgerWitnessed()) ==> db.LedgerWitnessed()
    ensures old(db.BalancesSound()) && RanksNonNegative(db.ranks) ==> db.BalancesSound()
  {
    var targets: seq<Id>;
    if userIds != [] {
      targets := Present(userIds, db.users);
    } else {
      var s := set uid | uid in db.users && YearlyDefaultTarget(db.users[uid]);
      targets := AscendingIds(s);
      assert s == set uid | uid in old(db.users) && YearlyDefaultTarget(old(db.users)[uid]);
    }
    assert forall uid :: uid in db.users ==> (uid in targets <==> YearlyTargeted(db.users, userIds, uid));
    forall k | 0 <= k < |targets| ensures targets[k] in db.users {
      assert targets[k] in targets;
    }
    ghost var users0, grants0 := db.users, db.grants;
    count, errors := GrantEach(db, targets, year, pointType, today, grantedBy);
    YearlyPerUser(users0, grants0, db.ranks, targets, userIds, year, pointType, today, grantedBy);
  }

  // ----- single and bulk grants -----

  function SingleGrantNote(reason: string): string {
    "포인트 지급 (" + reason + ")"
  }

  function BulkGrantNote(reason: string): string {
    "일괄 포인트 지급 (" + reason + ")"
  }

  /** What `grant_single` reports back. */
  datatype GrantReceipt = GrantReceipt(userId: Id, userName: string, amount: int, balanceAfter: int)

  /** `grant_single`: credits an existing user with a GRANT row and no grant record. */
  method GrantSingle(db: Db, userId: Id, amount: int, reason: string, note: Option<string>) returns (r: Result<GrantReceipt>)
    requires db.Valid()
    modifies db`users, db`transactions
    ensures db.Valid()
    ensures userId !in old(db.users) ==> r == Err(UserNotFound) && unchanged(db)
    ensures userId in old(db.users) ==>
      var after := Credit(old(db.users)[userId], amount);
      && r == Ok(GrantReceipt(userId, after.name, amount, after.currentPoint))
      && db.users == old(db.users)[userId := after]
      && db.transactions == old(db.transactions) +
           [EntryAfter(userId, Grant, amount, after, None, None, Some(OrElse(note, SingleGrantNote(reason))))]
    ensures old(db.LedgerWitnessed()) ==> db.LedgerWitnessed()
    ensures old(db.BalancesSound()) && amount >= 0 ==> db.BalancesSound()
  {
    if userId !in db.users {
      return Err(UserNotFound);
    }
    var after := Credit(db.users[userId], amount);
    db.Record(userId, after, EntryAfter(userId, Grant, amount, after, None, None, Some(OrElse(note, SingleGrantNote(reason)))));
    r := Ok(GrantReceipt(userId, after.name, amount, after.currentPoint));
  }

  /** Who `grant_bulk` credits: active users, of one rank when the target is "rank" and a rank id is given. */
  predicate BulkTarget(u: User, target: string, rankId: Option<Id>) {
    u.isActive && (target == "rank" && IdGiven(rankId) ==> u.rankId == rankId)
  }

  /** The balances after a bulk grant: every target credited once, everyone else untouched. */
  function BulkCredited(users: map<Id, User>, target: string, rankId: Option<Id>, amount: int): (r: map<Id, User>)
    ensures r.Keys == users.Keys
    ensures forall uid :: uid in users && !BulkTarget(users[uid], target, rankId) ==> r[uid] == users[uid]
    ensures forall uid :: uid in users && BulkTarget(users[uid], target, rankId) ==>
      r[uid].currentPoint == users[uid].currentPoint + amount && r[uid].reservedPoint == users[uid].reservedPoint
  {
    map uid | uid in users :: if BulkTarget(users[uid], target, rankId) then Credit(users[uid], amount) else users[uid]
  }

  /**
   * `grant_bulk`: credits every target the same amount with one GRANT row
   * each, in id order; no step can fail, so the error list stays empty.
   */
  method GrantBulk(db: Db, target: string, rankId: Option<Id>, amount: int, reason: string, note: Option<string>)
    returns (count: nat, errors: seq<string>)
    requires db.Valid()
    modifies db`users, db`transactions
    ensures db.Valid()
    ensures count == |set uid | uid in old(db.users) && BulkTarget(old(db.users)[uid], target, rankId)|
    ensures errors == []
    ensures db.users == BulkCredited(old(db.users), target, rankId, amount)
    ensures |db.transactions| == |old(db.transactions)| + count
    ensures forall i :: |old(db.transactions)| <= i < |db.transactions| ==>
      var t := db.transactions[i];
      && t.userId in old(db.users) && BulkTarget(old(db.users)[t.userId], target, rankId)
      && t == EntryAfter(t.userId, Grant, amount, db.users[t.userId], None, None, Some(OrElse(note, BulkGrantNote(reason))))
    ensures forall i, j :: |old(db.transactions)| <= i < j < |db.transactions| ==> db.transactions[i].userId < db.transactions[j].userId
    ensures old(db.transactions) <= db.transactions
    ensures old(db.LedgerWitnessed()) ==> db.LedgerWitnessed()
    ensures old(db.BalancesSound()) && amount >= 0 ==> db.BalancesSound()
  {
    ghost var users0 := db.users;
    var targetSet := set uid | uid in db.users && BulkTarget(db.users[uid], target, rankId);
    assert targetSet == set uid | uid in old(db.users) && BulkTarget(old(db.users)[uid], target, rankId);
    var targets := AscendingIds(targetSet);
    forall k | 0 <= k < |targets| ensures targets[k] in users0 && BulkTarget(users0[targets[k]], target, rankId) {
      assert targets[k] in targets;
    }
    count, errors := |targets|, [];
    assert db.transactions == old(db.transactions);
    CreditAll(db, targets, amount, OrElse(note, BulkGrantNote(reason)));
    BulkRows(old(db.transactions), db.transactions, targets, users0, db.users, target, rankId, amount, OrElse(note, BulkGrantNote(reason)));
    CreditTargetsIsBulk(users0, targets, target, rankId, amount);
  }

  /** The rows a bulk grant appends, one per target in id order, each stamped with that target's new balances. */
  lemma BulkRows(log0: seq<PointTransaction>, log: seq<PointTransaction>, targets: seq<Id>, users0: map<Id, User>,
                 users: map<Id, User>, target: string, rankId: Option<Id>, amount: int, description: string)
    requires |log| == |log0| + |targets|
    requires forall i, j :: 0 <= i < j < |targets| ==> targets[i] < targets[j]
    requires forall k :: 0 <= k < |targets| ==> targets[k] in users0 && BulkTarget(users0[targets[k]], target, rankId)
    requires forall k :: 0 <= k < |targets| ==>
      targets[k] in users && log[|log0| + k] == EntryAfter(targets[k], Grant, amount, users[targets[k]], None, None, Some(description))
    ensures forall i :: |log0| <= i < |log| ==>
      && log[i].userId in users0 && BulkTarget(users0[log[i].userId], target, rankId) && log[i].userId in users
      && log[i] == EntryAfter(log[i].userId, Grant, amount, users[log[i].userId], None, None, Some(description))
    ensures forall i, j :: |log0| <= i < j < |log| ==> log[i].userId < log[j].userId
  {
    forall i | |log0| <= i < |log| ensures log[i].userId == targets[i - |log0|] {
      assert log[|log0| + (i - |log0|)] == log[i];
    }
  }

  /** Crediting the targets one by one in ascending id order gives the bulk-credited table. */
  lemma CreditTargetsIsBulk(users: map<Id, User>, targets: seq<Id>, target: string, rankId: Option<Id>, amount: int)
    requires forall i, j :: 0 <= i < j < |targets| ==> targets[i] < targets[j]
    requires forall x :: x in targets <==> x in users && BulkTarget(users[x], target, rankId)
    ensures CreditEach(users, targets, amount) == BulkCredited(users, target, rankId, amount)
  {
    forall uid | uid in users ensures CreditEach(users, targets, amount)[uid] == BulkCredited(users, target, rankId, amount)[uid] {
      CreditEachAt(users, targets, amount, uid);
    }
  }

  /** The loop of `grant_bulk`: credits each listed user in turn with one GRANT row stamped with the new balances. */
  method CreditAll(db: Db, targets: seq<Id>, amount: int, description: string)
    requires db.Valid() && forall k :: 0 <= k < |targets| ==> targets[k] in db.users
    requires forall i, j :: 0 <= i < j < |targets| ==> targets[i] < targets[j]
    modifies db`users, db`transactions
    ensures db.Valid()
    ensures db.users == CreditEach(old(db.users), targets, amount)
    ensures |db.transactions| == |old(db.transactions)| + |targets| && old(db.transactions) <= db.transactions
    ensures forall k :: 0 <= k < |targets| ==>
      targets[k] in db.users && db.transactions[|old(db.transactions)| + k] == EntryAfter(targets[k], Grant, amount, db.users[targets[k]], None, None, Some(description))
    ensures old(db.LedgerWitnessed()) ==> db.LedgerWitnessed()
    ensures old(db.BalancesSound()) && amount >= 0 ==> db.BalancesSound()
  {
    for i := 0 to |targets|
      invariant db.Valid()
      invariant db.users.Keys == old(db.users).Keys
      invariant db.users == CreditEach(old(db.users), targets[..i], amount)
      invariant |db.transactions| == |old(db.transactions)| + i && old(db.transactions) <= db.transactions
      invariant forall k :: 0 <= k < i ==>
        db.transactions[|old(db.transactions)| + k] == EntryAfter(targets[k], Grant, amount, db.users[targets[k]], None, None, Some(description))
      invariant old(db.LedgerWitnessed()) ==> db.LedgerWitnessed()
      invariant old(db.BalancesSound()) && amount >= 0 ==> db.BalancesSound()
    {
      var uid := targets[i];
      assert targets[..i + 1][..i] == targets[..i];
      var after := Credit(db.users[uid], amount);
      db.Record(uid, after, EntryAfter(uid, Grant, amount, after, None, None, Some(description)));
    }
    assert targets[..|targets|] == targets;
  }

  /** Credits each listed id in turn, skipping ids that name no user. */
  function CreditEach(users: map<Id, User>, ids: seq<Id>, amount: int): (r: map<Id, User>)
    ensures r.Keys == users.Keys
    decreases |ids|
  {
    if ids == [] then users
    else
      var m := CreditEach(users, ids[..|ids| - 1], amount);
      var x := ids[|ids| - 1];
      if x in m then m[x := Credit(m[x], amount)] else m
  }

  /** Crediting a strictly ascending list of ids credits each listed user exactly once. */
  lemma {:induction false} CreditEachAt(users: map<Id, User>, ids: seq<Id>, amount: int, uid: Id)
    requires forall i, j :: 0 <= i < j < |ids| ==> ids[i] < ids[j]
    requires uid in users
    ensures CreditEach(users, ids, amount)[uid] == if uid in ids then Credit(users[uid], amount) else users[uid]
    decreases |ids|
  {
    if ids != [] {
      var p := ids[..|ids| - 1];
      var x := ids[|ids| - 1];
      CreditEachAt(users, p, amount, uid);
      assert ids == p + [x];
      if uid == x {
        assert uid !in p by {
          forall k | 0 <= k < |p| ensures p[k] != x {
            assert p[k] == ids[k];
          }
        }
      }
    }
  }

  // ----- the guarded ledger operations -----

  /** The balances after a successful guarded step, and the ledger row stamped with them. */
  function Posted(userId: Id, kind: TransactionType, amount: int, after: User,
                  orderId: Option<Id>, voucherId: Option<Id>, description: Option<string>, fallback: string): PointTransaction
  {
    EntryAfter(userId, kind, amount, after, orderId, voucherId, Some(OrElse(description, fallback)))
  }

  /** Applies a guarded step's outcome: on success stores the balances and appends the row; on failure changes nothing. */
  method ApplyGuarded(db: Db, userId: Id, outcome: Result<User>, t: PointTransaction) returns (r: Result<PointTransaction>)
    requires db.Valid() && userId in db.users
    requires outcome.Ok? ==> t.userId == userId && t.balanceAfter == outcome.value.currentPoint && t.reservedAfter == outcome.value.reservedPoint
    modifies db`users, db`transactions
    ensures db.Valid()
    ensures outcome.Err? ==> r == Err(outcome.error) && unchanged(db)
    ensures outcome.Ok? ==> r == Ok(t) && db.users == old(db.users)[userId := outcome.value] && db.transactions == old(db.transactions) + [t]
    ensures old(db.LedgerWitnessed()) ==> db.LedgerWitnessed()
    ensures old(db.BalancesSound()) && (outcome.Ok? ==> Sound(outcome.value)) ==> db.BalancesSound()
  {
    if outcome.Err? {
      return Err(outcome.error);
    }
    db.Record(userId, outcome.value, t);
    r := Ok(t);
  }

  /** `use_point`: fails when the available balance is below the amount; otherwise spends it with a USE row. */
  method UsePoint(db: Db, userId: Id, amount: int, orderId: Option<Id>, voucherId: Option<Id>, description: Option<string>)
    returns (r: Result<PointTransaction>)
    requires db.Valid()
    modifies db`users, db`transactions
    ensures db.Valid()
    ensures userId !in old(db.users) ==> r == Err(UserNotFound) && unchanged(db)
    ensures userId in old(db.users) ==> match Ledger.Use(old(db.users)[userId], amount)
      case Err(e) => r == Err(e) && unchanged(db)
      case Ok(after) =>
        var t := Posted(userId, Use, amount, after, orderId, voucherId, description, "포인트 사용");
        r == Ok(t) && db.users == old(db.users)[userId := after] && db.transactions == old(db.transactions) + [t]
    ensures old(db.LedgerWitnessed()) ==> db.LedgerWitnessed()
    ensures old(db.BalancesSound()) && amount >= 0 ==> db.BalancesSound()
  {
    if userId !in db.users {
      return Err(UserNotFound);
    }
    var outcome := Ledger.Use(db.users[userId], amount);
    var t := if outcome.Ok? then Posted(userId, Use, amount, outcome.value, orderId, voucherId, description, "포인트 사용")
             else Posted(userId, Use, amount, db.users[userId], orderId, voucherId, description, "포인트 사용");
    r := ApplyGuarded(db, userId, outcome, t);
  }

  /** `reserve_point`: fails when the available balance is below the amount; otherwise holds it with a RESERVE row. */
  method ReservePoint(db: Db, userId: Id, amount: int, orderId: Option<Id>, description: Option<string>)
    returns (r: Result<PointTransaction>)
    requires db.Valid()
    modifies db`users, db`transactions
    ensures db.Valid()
    ensures userId !in old(db.users) ==> r == Err(UserNotFound) && unchanged(db)
    ensures userId in old(db.users) ==> match Ledger.Reserve(old(db.users)[userId], amount)
      case Err(e) => r == Err(e) && unchanged(db)
      case Ok(after) =>
        var t := Posted(userId, Reserve, amount, after, orderId, None, description, "포인트 예약");
        r == Ok(t) && db.users == old(db.users)[userId := after] && db.transactions == old(db.transactions) + [t]
    ensures old(db.LedgerWitnessed()) ==> db.LedgerWitnessed()
    ensures old(db.BalancesSound()) && amount >= 0 ==> db.BalancesSound()
  {
    if userId !in db.users {
      return Err(UserNotFound);
    }
    var outcome := Ledger.Reserve(db.users[userId], amount);
    var t := if outcome.Ok? then Posted(userId, Reserve, amount, outcome.value, orderId, None, description, "포인트 예약")
             else Posted(userId, Reserve, amount, db.users[userId], orderId, None, description, "포인트 예약");
    r := ApplyGuarded(db, userId, outcome, t);
  }

  /** `release_point`: fails when the reservation is below the amount; otherwise releases it with a RELEASE row. */
  method ReleasePoint(db: Db, userId: Id, amount: int, orderId: Option<Id>, description: Option<string>)
    returns (r: Result<PointTransaction>)
    requires db.Valid()
    modifies db`users, db`transactions
    ensures db.Valid()
    ensures userId !in old(db.users) ==> r == Err(UserNotFound) && unchanged(db)
    ensures userId in old(db.users) ==> match Ledger.Release(old(db.users)[userId], amount)
      case Err(e) => r == Err(e) && unchanged(db)
      case Ok(after) =>
        var t := Posted(userId, Release, amount, after, orderId, None, description, "포인트 예약 해제");
        r == Ok(t) && db.users == old(db.users)[userId := after] && db.transactions == old(db.transactions) + [t]
    ensures old(db.LedgerWitnessed()) ==> db.LedgerWitnessed()
    ensures old(db.BalancesSound()) && amount >= 0 ==> db.BalancesSound()
  {
    if userId !in db.users {
      return Err(UserNotFound);
    }
    var outcome := Ledger.Release(db.users[userId], amount);
    var t := if outcome.Ok? then Posted(userId, Release, amount, outcome.value, orderId, None, description, "포인트 예약 해제")
             else Posted(userId, Release, amount, db.users[userId], orderId, None, description, "포인트 예약 해제");
    r := ApplyGuarded(db, userId, outcome, t);
  }

  /** `deduct_reserved`: fails when the reservation is below the amount; otherwise settles it with a DEDUCT row. */
  method DeductReservedPoint(db: Db, userId: Id, amount: int, orderId: Option<Id>, voucherId: Option<Id>, description: Option<string>)
    returns (r: Result<PointTransaction>)
    requires db.Valid()
    modifies db`users, db`transactions
    ensures db.Valid()
    ensures userId !in old(db.users) ==> r == Err(UserNotFound) && unchanged(db)
    ensures userId in old(db.users) ==> match Ledger.DeductReserved(old(db.users)[userId], amount)
      case Err(e) => r == Err(e) && unchanged(db)
      case Ok(after) =>
        var t := Posted(userId, Deduct, amount, after, orderId, voucherId, description, "예약 포인트 차감");
        r == Ok(t) && db.users == old(db.users)[userId := after] && db.transactions == old(db.transactions) + [t]
    ensures old(db.LedgerWitnessed()) ==> db.LedgerWitnessed()
    ensures old(db.BalancesSound()) && amount >= 0 ==> db.BalancesSound()
  {
    if userId !in db.users {
      return Err(UserNotFound);
    }
    var outcome := Ledger.DeductReserved(db.users[userId], amount);
    var t := if outcome.Ok? then Posted(userId, Deduct, amount, outcome.value, orderId, voucherId, description, "예약 포인트 차감")
             else Posted(userId, Deduct, amount, db.users[userId], orderId, voucherId, description, "예약 포인트 차감");
    r := ApplyGuarded(db, userId, outcome, t);
  }

  /** `refund_point`: credits an existing user unconditionally with a REFUND row. */
  method RefundPoint(db: Db, userId: Id, amount: int, orderId: Option<Id>, voucherId: Option<Id>, description: Option<string>)
    returns (r: Result<PointTransaction>)
    requires db.Valid()
    modifies db`users, db`transactions
    ensures db.Valid()
    ensures userId !in old(db.users) ==> r == Err(UserNotFound) && unchanged(db)
    ensures userId in old(db.users) ==>
      var after := Credit(old(db.users)[userId], amount);
      var t := Posted(userId, Refund, amount, after, orderId, voucherId, description, "포인트 환불");
      r == Ok(t) && db.users == old(db.users)[userId := after] && db.transactions == old(db.transactions) + [t]
    ensures old(db.LedgerWitnessed()) ==> db.LedgerWitnessed()
    ensures old(db.BalancesSound()) && amount >= 0 ==> db.BalancesSound()
  {
    if userId !in db.users {
      return Err(UserNotFound);
    }
    var after := Credit(db.users[userId], amount);
    r := ApplyGuarded(db, userId, Ok(after), Posted(userId, Refund, amount, after, orderId, voucherId, description, "포인트 환불"));
  }
}
