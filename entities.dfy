// The persisted records of the uniform-supply system and their enumerations.
// Every table row is an immutable value here; the store keeps them in maps
// keyed by id, and an in-place field update becomes a map update.

module Entities {
  import opened Common
  import opened Calendar

  type Id = nat

  /** A wall-clock instant (`datetime.utcnow()`), supplied by the caller. */
  type Time = nat

  datatype Role = Admin | SalesOfficeStaff | TailorCompanyStaff | General

  /** The stored text of a role, as `UserRole.value` gives it. */
  function RoleName(r: Role): string {
    match r
    case Admin => "admin"
    case SalesOfficeStaff => "sales_office"
    case TailorCompanyStaff => "tailor_company"
    case General => "general"
  }

  datatype Rank = Rank(name: string, annualPoint: int, serviceYearBonus: int)

  datatype User = User(
    username: string,
    name: string,
    serviceNumber: string,
    role: Role,
    rankId: Option<Id>,
    enlistmentDate: Option<CalendarDate>,
    retirementDate: Option<CalendarDate>,
    isActive: bool,
    salesOfficeId: Option<Id>,
    tailorCompanyId: Option<Id>,
    currentPoint: int,
    reservedPoint: int)

  datatype RankHistory = RankHistory(
    userId: Id, oldRankId: Option<Id>, newRankId: Id, promotionDate: CalendarDate, pointAdjustment: int)

  // ----- points -----

  datatype PointType = Annual | Promotion | Retirement | RefundGrant | CancelGrant | Adjustment

  function PointTypeName(t: PointType): string {
    match t
    case Annual => "annual"
    case Promotion => "promotion"
    case Retirement => "retirement"
    case RefundGrant => "refund"
    case CancelGrant => "cancel"
    case Adjustment => "adjustment"
  }

  datatype TransactionType = Grant | Use | Reserve | Release | Refund | Deduct

  datatype PointGrant = PointGrant(
    userId: Id,
    year: int,
    pointType: PointType,
    baseAmount: int,
    serviceYearBonus: int,
    dailyCalcAmount: int,
    totalAmount: int,
    grantDate: CalendarDate,
    description: Option<string>,
    grantedBy: Option<Id>)

  /** One row of the append-only points ledger. */
  datatype PointTransaction = PointTransaction(
    userId: Id,
    kind: TransactionType,
    amount: int,
    balanceAfter: int,
    reservedAfter: int,
    orderId: Option<Id>,
    voucherId: Option<Id>,
    grantId: Option<Id>,
    description: Option<string>)

  // ----- orders -----

  datatype OrderStatus =
    Pending | Confirmed | Processing | Shipped | Delivered | Received | Cancelled | Returned | Refunded

  datatype OrderType = Online | Offline

  datatype DeliveryType = Parcel | Direct

  datatype DeliveryStatus = Preparing | InTransit | DeliveredStatus | Failed

  datatype PaymentMethod = PointPayment | VoucherPayment

  datatype OrderLine = OrderLine(
    id: Id,
    itemId: Id,
    specId: Option<Id>,
    quantity: int,
    unitPrice: int,
    totalPrice: int,
    paymentMethod: PaymentMethod,
    isReturned: bool,
    returnedAt: Option<Time>,
    returnReason: Option<string>)

  datatype Order = Order(
    userId: Id,
    salesOfficeId: Id,
    orderType: OrderType,
    status: OrderStatus,
    totalAmount: int,
    reservedPoint: int,
    usedPoint: int,
    usedVoucherAmount: int,
    cancelledAt: Option<Time>,
    cancelReason: Option<string>,
    cancelledBy: Option<Id>,
    lines: seq<OrderLine>)

  datatype Delivery = Delivery(
    deliveryType: DeliveryType,
    status: DeliveryStatus,
    locationId: Option<Id>,
    recipientName: Option<string>,
    recipientPhone: Option<string>,
    shippingAddress: Option<string>,
    trackingNumber: Option<string>,
    shippedAt: Option<Time>,
    deliveredAt: Option<Time>,
    note: Option<string>)

  // ----- inventory -----

  datatype AdjustmentType = Increase | Decrease | Restock | Correction | Return

  /** An inventory record is unique per (sales office, item, spec). */
  datatype InventoryKey = InventoryKey(salesOfficeId: Id, itemId: Id, specId: Option<Id>)

  datatype Inventory = Inventory(quantity: int, reservedQuantity: int)

  datatype InventoryHistory = InventoryHistory(
    key: InventoryKey,
    kind: AdjustmentType,
    quantity: int,
    beforeQuantity: int,
    afterQuantity: int,
    reason: Option<string>,
    adjustedBy: Id,
    orderId: Option<Id>)

  // ----- tailor vouchers -----

  datatype VoucherStatus = Issued | Registered | Used | CancelRequested | VoucherCancelled | Expired

  datatype Voucher = Voucher(
    userId: Id,
    tailorCompanyId: Option<Id>,
    orderId: Option<Id>,
    orderLineId: Option<Id>,
    itemId: Id,
    amount: int,
    status: VoucherStatus,
    expiresAt: Option<CalendarDate>,
    notes: Option<string>,
    registeredAt: Option<Time>,
    registeredBy: Option<Id>,
    cancelledAt: Option<Time>,
    cancelledBy: Option<Id>,
    cancelReason: Option<string>)

  // ----- catalogue and menus -----

  datatype CategoryLevel = Large | Medium | Small

  datatype Category = Category(name: string, level: CategoryLevel, parentId: Option<Id>, isActive: bool, sortOrder: int)

  datatype ClothingType = ReadyMade | Custom

  datatype ClothingItem = ClothingItem(name: string, categoryId: Id, clothingType: ClothingType, isActive: bool)

  datatype ClothingSpec = ClothingSpec(itemId: Id, specCode: string, size: string, price: int, isActive: bool)

  datatype Menu = Menu(
    name: string,
    path: Option<string>,
    parentId: Option<Id>,
    sortOrder: int,
    isCategory: bool,
    isActive: bool,
    allowedRoles: seq<string>)

  /** Python truthiness of an optional id: None and 0 are both falsy. */
  predicate IdGiven(id: Option<Id>) {
    id.Some? && id.value != 0
  }
}
