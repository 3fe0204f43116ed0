// Tailor vouchers: issue, registration at a tailor company, and the two
// cancellation paths, each of which refunds the voucher's amount once.

module TailorService {
  import opened Common
  import opened Calendar
  import opened Entities
  import opened Ledger
  import opened Store
  import opened PointWrites

  /** A `VoucherCreate`. */
  datatype VoucherRequest = VoucherRequest(
    userId: Id, orderId: Id, orderLineId: Id, itemId: Id, amount: int,
    expiresAt: Option<CalendarDate>, notes: Option<string>)

  /** The voucher `create_voucher` stores: issued, unregistered, for the requested amount. */
  function IssuedVoucher(req: VoucherRequest): (v: Voucher)
    ensures v.status == Issued && v.amount == req.amount && v.userId == req.userId
    ensures v.orderId == Some(req.orderId) && v.orderLineId == Some(req.orderLineId) && v.itemId == req.itemId
    ensures v.tailorCompanyId.None? && v.registeredAt.None? && v.cancelledAt.None?
  {
    Voucher(req.userId, None, Some(req.orderId), Some(req.orderLineId), req.itemId, req.amount, Issued,
            req.expiresAt, req.notes, None, None, None, None, None)
  }

  /** `create_voucher`: a new ISSUED voucher; no balance moves. */
  method CreateVoucher(db: Db, req: VoucherRequest) returns (id: Id)
    requires db.Valid()
    modifies db`vouchers, db`nextId
    ensures db.Valid()
    ensures id !in old(db.vouchers) && db.vouchers == old(db.vouchers)[id := IssuedVoucher(req)]
  {
    id := db.FreshId();
    db.vouchers := db.vouchers[id := IssuedVoucher(req)];
  }

  /** The registration `register_voucher` writes. */
  function RegisteredVoucher(v: Voucher, tailorCompanyId: Id, staffId: Id, now: Time): (r: Voucher)
    ensures r.status == Registered && r.tailorCompanyId == Some(tailorCompanyId) && r.registeredBy == Some(staffId)
    ensures r.amount == v.amount && r.userId == v.userId
  {
    v.(tailorCompanyId := Some(tailorCompanyId), status := Registered, registeredAt := Some(now), registeredBy := Some(staffId))
  }

  /** `register_voucher`: only an ISSUED voucher can be registered. */
  method RegisterVoucher(db: Db, staffId: Id, voucherId: Id, tailorCompanyId: Id, now: Time) returns (r: Option<Voucher>)
    modifies db`vouchers
    ensures r.None? <==> voucherId !in old(db.vouchers) || old(db.vouchers)[voucherId].status != Issued
    ensures r.None? ==> unchanged(db)
    ensures r.Some? ==>
      && r.value == RegisteredVoucher(old(db.vouchers)[voucherId], tailorCompanyId, staffId, now)
      && db.vouchers == old(db.vouchers)[voucherId := r.value]
  {
    if voucherId !in db.vouchers || db.vouchers[voucherId].status != Issued {
      return None;
    }
    var v := RegisteredVoucher(db.vouchers[voucherId], tailorCompanyId, staffId, now);
    db.vouchers := db.vouchers[voucherId := v];
    r := Some(v);
  }

  /** `_refund_voucher_amount`: credits the amount to the owner, with a REFUND row naming the voucher. */
  method RefundVoucherAmount(db: Db, voucherId: Id, v: Voucher)
    requires db.Valid()
    modifies db`users, db`transactions
    ensures db.Valid()
    ensures db.users == Touched(old(db.users), v.userId, v.amount, Refill)
    ensures db.transactions ==
      TouchLog(old(db.users), old(db.transactions), v.userId, v.amount, Refill, Refund, None, Some(voucherId), "체척권 취소 포인트 환불")
    ensures old(db.LedgerWitnessed()) ==> db.LedgerWitnessed()
    ensures old(db.BalancesSound()) ==> db.BalancesSound()
  {
    Touch(db, v.userId, v.amount, Refill, Refund, None, Some(voucherId), "체척권 취소 포인트 환불");
  }

  /** The owner's request is accepted only for their own voucher while it is ISSUED. */
  predicate RequestAccepts(v: Voucher, userId: Id) {
    v.userId == userId && v.status == Issued
  }

  /** Staff approval is accepted for any voucher not yet CANCELLED. */
  predicate ApprovalAccepts(v: Voucher) {
    v.status != VoucherCancelled
  }

  /** The cancellation written by either path; the amount is never changed. */
  function CancelledVoucher(v: Voucher, reason: Option<string>, actor: Id, now: Time): (r: Voucher)
    ensures r.status == VoucherCancelled && r.amount == v.amount && r.userId == v.userId
    ensures !RequestAccepts(r, r.userId) && !ApprovalAccepts(r)
    ensures r.cancelledBy == Some(actor) && r.cancelReason == reason
  {
    v.(cancelReason := reason, cancelledAt := Some(now), cancelledBy := Some(actor), status := VoucherCancelled)
  }

  /**
   * `request_cancel_voucher`: the owner cancels an ISSUED voucher outright
   * (there is no intermediate CANCEL_REQUESTED state) and gets its amount back.
   */
  method RequestCancelVoucher(db: Db, userId: Id, voucherId: Id, reason: string, now: Time) returns (r: Option<Voucher>)
    requires db.Valid()
    modifies db`vouchers, db`users, db`transactions
    ensures db.Valid()
    ensures r.None? <==> voucherId !in old(db.vouchers) || !RequestAccepts(old(db.vouchers)[voucherId], userId)
    ensures r.None? ==> unchanged(db)
    ensures r.Some? ==>
      var v := old(db.vouchers)[voucherId];
      && r.value == CancelledVoucher(v, Some(reason), userId, now)
      && db.vouchers == old(db.vouchers)[voucherId := r.value]
      && db.users == Touched(old(db.users), v.userId, v.amount, Refill)
      && db.transactions ==
           TouchLog(old(db.users), old(db.transactions), v.userId, v.amount, Refill, Refund, None, Some(voucherId), "체척권 취소 포인트 환불")
    ensures old(db.LedgerWitnessed()) ==> db.LedgerWitnessed()
    ensures old(db.BalancesSound()) ==> db.BalancesSound()
  {
    if voucherId !in db.vouchers || !RequestAccepts(db.vouchers[voucherId], userId) {
      return None;
    }
    var v := CancelledVoucher(db.vouchers[voucherId], Some(reason), userId, now);
    db.vouchers := db.vouchers[voucherId := v];
    RefundVoucherAmount(db, voucherId, v);
    r := Some(v);
  }

  /**
   * `approve_cancel_voucher`: refuses a missing or CANCELLED voucher; an
   * approval cancels and refunds from any other status, including REGISTERED
   * and USED; a rejection changes nothing and returns the voucher.
   */
  method ApproveCancelVoucher(db: Db, staffId: Id, voucherId: Id, approved: bool, now: Time) returns (r: Option<Voucher>)
    requires db.Valid()
    modifies db`vouchers, db`users, db`transactions
    ensures db.Valid()
    ensures r.None? <==> voucherId !in old(db.vouchers) || !ApprovalAccepts(old(db.vouchers)[voucherId])
    ensures r.None? || !approved ==> unchanged(db)
    ensures r.Some? && !approved ==> r.value == old(db.vouchers)[voucherId]
    ensures r.Some? && approved ==>
      var v := old(db.vouchers)[voucherId];
      && r.value == CancelledVoucher(v, v.cancelReason, staffId, now)
      && db.vouchers == old(db.vouchers)[voucherId := r.value]
      && db.users == Touched(old(db.users), v.userId, v.amount, Refill)
      && db.transactions ==
           TouchLog(old(db.users), old(db.transactions), v.userId, v.amount, Refill, Refund, None, Some(voucherId), "체척권 취소 포인트 환불")
    ensures old(db.LedgerWitnessed()) ==> db.LedgerWitnessed()
    ensures old(db.BalancesSound()) ==> db.BalancesSound()
  {
    if voucherId !in db.vouchers || !ApprovalAccepts(db.vouchers[voucherId]) {
      return None;
    }
    var v := db.vouchers[voucherId];
    if !approved {
      return Some(v);
    }
    var v2 := CancelledVoucher(v, v.cancelReason, staffId, now);
    db.vouchers := db.vouchers[voucherId := v2];
    RefundVoucherAmount(db, voucherId, v2);
    r := Some(v2);
  }

  /**
   * The refund credits exactly the voucher's amount to its owner when the
   * amount is positive and the owner exists, and nothing otherwise.
   */
  lemma RefundCreditsAmount(users: map<Id, User>, v: Voucher)
    ensures var after := Touched(users, v.userId, v.amount, Refill);
      && (v.userId in users && v.amount > 0 ==> after == users[v.userId := Credit(users[v.userId], v.amount)])
      && (v.userId !in users || v.amount <= 0 ==> after == users)
  {
  }
}
