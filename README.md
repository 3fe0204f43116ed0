# Uniform-supply points ledger and order state machines, in Dafny

This project models the core of a military uniform-supply back end. Service members receive yearly **points** and spend them on uniform items:
- online orders reserve points, and the points are deducted when the member receives the goods;
- offline sales at a sales office deduct at once;
- tailor vouchers are issued against an order and refunded when cancelled.

Each user holds two balances, `current_point` and `reserved_point`. Every balance change is meant to append one row to an append-only points ledger, recording the balances after the change.

The database is one class, `Store.Db`. Each table is a field:
- `map`s keyed by id, or by (sales office, item, spec) for inventory;
- `seq` logs for the ledger, inventory history, grants and rank history.

A counter `nextId` stands in for the database's autoincrement. Every service operation is a method on a `Db`. It names the fields it may change in `modifies`, and its `ensures` give the whole new state in terms of pure functions of the old state.

Two invariants are carried through every operation:
- `Db.BalancesSound`: every user has `0 <= reserved_point <= current_point`.
- `Db.LedgerWitnessed`: each user's balances equal those of their last ledger row, or are zero when the user has no row.

Each method states which of the two it preserves, and under which condition.

Only the guarded operations of the points service (`Ledger.Use`, `Reserve`, `Release`, `DeductReserved` and `Credit`) check balances. The order, sale, voucher and router code writes balances through unguarded helpers. `PointWrites.Touch` models those helpers. The `Ledger.Effect` values say which guarded operation each helper imitates, and `Ledger.Covered` says when the helper behaves like that operation.

The `Scenarios` module runs the real methods on a fresh database. Its runs exhibit three write paths that leave balances unsound:
- an offline sale beyond the balance;
- a promotion to a rank with fewer annual points;
- force-cancelling an order that was already received.

Its other runs show:
- a refund of an order that is still only shipped credits points that were never charged;
- force-cancelling an offline sale after one of its lines was refunded refunds and restocks that line a second time;
- the sales router settles an order without writing a ledger row;
- the intended reserve-then-receive cycle keeps both invariants.

The smaller pure parts are functions with lemmas: the role-scoped office filters, the role-filtered menu tree, category trees and their descendant closure, yearly-point arithmetic, `service_years` and `available_point`, and paging.

Rows without an `ORDER BY` come back in ascending id order (`Store.AscendingIds`). `ORDER BY sort_order` is a stable sort (`Ordering.SortBy`). Recursion over the menu and category trees takes the number of rows as fuel.

Clocks (`datetime.utcnow()`, `date.today()`) become `Time` and `Date` parameters.

## Model

| member | source | states |
|---|---|---|
| UserModel.AvailablePoint | backend/app/models/user.py:142-145 | available plus reserved equals current |
| UserModel.ServiceYears | backend/app/models/user.py:116-130 | 0 without an enlistment date; otherwise the whole years elapsed, one fewer before the anniversary, never negative |
| Ledger.EntryAfter | backend/app/services/point_service.py:375-384 | the ledger row carries the user, kind, amount and the balances after the change |
| Ledger.Use | backend/app/services/point_service.py:366-389 | succeeds iff amount <= available, else InsufficientPoints with the available amount; lowers current only; keeps soundness for amount >= 0 |
| Ledger.Reserve | backend/app/services/point_service.py:411-434 | succeeds iff amount <= available; raises reserved only; keeps soundness |
| Ledger.Release | backend/app/services/point_service.py:456-478 | succeeds iff amount <= reserved; lowers reserved only; keeps soundness |
| Ledger.DeductReserved | backend/app/services/point_service.py:503-527 | succeeds iff amount <= reserved; lowers both balances by amount, so available is unchanged; keeps soundness |
| Ledger.Credit | backend/app/services/point_service.py:551-571 | unconditional; raises current only; keeps soundness for amount >= 0 |
| Ledger.ReserveReleaseRoundTrip | backend/app/services/point_service.py:415-419 | reserving n and then releasing n restores the user exactly |
| Ledger.ReserveThenDeductIsUse | backend/app/services/point_service.py:415-419 | reserving n and then deducting n reserved equals using n |
| Ledger.Apply | backend/app/services/order_service.py:111-142 | an unguarded helper changes only the two balances, and keeps soundness for a non-negative covered amount |
| Ledger.ApplyIsGuarded | backend/app/services/order_service.py:111-142 | a covered hold, charge, unhold, settle or refill equals the succeeding reserve, use, release, deduct-reserved or credit |
| Ledger.UncoveredBreaks | backend/app/services/sales_service.py:71-85 | an uncovered unguarded write on a sound user leaves it unsound |
| Ledger.HoldThenSettle | backend/app/services/order_service.py:79-83 | holding then settling n equals charging n, and reserved returns to its start |
| Ledger.ChargeThenRefill | backend/app/services/order_service.py:253-267 | charging n and then refilling n restores the user |
| Ledger.SettleThenUnhold | backend/app/services/order_service.py:216-224 | release after receipt lowers reserved by n a second time, and is unsound when reserved was below n |
| Ledger.LastEntry | backend/app/services/point_service.py:375-384 | a row found is in the log and belongs to the user |
| Ledger.LastEntryIsLast | backend/app/services/point_service.py:375-384 | nothing is found iff the user has no row; a row found is the user's last one, with no later row of theirs |
| Ledger.LastEntryAppend | backend/app/services/point_service.py:375-384 | appending a row makes it the user's last row, and leaves other users' last rows unchanged |
| Ledger.AppendWitnesses | backend/app/services/point_service.py:375-384 | a row recording the new balances witnesses them |
| Ledger.AppendKeepsOthers | backend/app/services/point_service.py:375-384 | a row for another user keeps this user witnessed |
| Ledger.StepKeepsWitnessed | backend/app/services/point_service.py:370-384 | a balance change logged with a matching row keeps the whole table witnessed |
| Ledger.NewUserKeepsWitnessed | backend/app/services/user_service.py:80-90 | adding a user with zero balances and no row keeps the table witnessed |
| Ledger.SameBalancesKeepsWitnessed | backend/app/services/user_service.py:147-150 | changing a user without changing balances keeps the table witnessed |
| Store.Db.Record | backend/app/services/point_service.py:370-384 | the single ledger write path: new balances and one appended row; keeps both invariants when the row matches |
| Store.AscendingIds | backend/app/services/point_service.py:234 | the ids of a set, strictly ascending, each exactly once |
| Paging.TotalPages | backend/app/services/user_service.py:52 | the ceiling of total divided by page size |
| Paging.PageNonEmptyIffWithinCount | backend/app/services/clothing_service.py:142-143 | a page's offset is below the total iff the page number is at most total_pages |
| Ordering.SortBy | backend/app/services/menu_service.py:25 | an ordered permutation of the input (stable insertion sort) |
| Ordering.InsertBy | backend/app/services/menu_service.py:25 | inserting keeps the order and adds exactly one element |
| Ordering.WhereMember | backend/app/services/menu_service.py:38-43 | an element is kept by a filter iff it is in the input and satisfies the filter |
| Ordering.WhereMembers | backend/app/services/menu_service.py:38-43 | the same, for all elements at once |
| Ordering.WhereOrdered | backend/app/services/menu_service.py:38-43 | filtering an ordered sequence keeps it ordered |
| PointWrites.Touched | backend/app/services/order_service.py:111-142 | an unguarded helper keeps the set of users |
| PointWrites.Touch | backend/app/services/order_service.py:111-142 | fires iff the user exists and amount > 0; writes the balances and one matching ledger row; keeps the ledger witnessed; keeps soundness when covered (the same unguarded helpers recur in the sales and tailor services) |
| Stock.LineMoves | backend/app/services/order_service.py:145-166 | one inventory move per order line |
| Stock.Moved | backend/app/services/order_service.py:145-166 | moving stock keeps the inventory keys; unmatched keys are untouched |
| Stock.MoveLog | backend/app/services/sales_service.py:88-108 | at most one history row per move |
| Stock.MovedAt | backend/app/services/order_service.py:145-166 | each key's quantity shifts by the total of its moves; nothing else changes |
| Stock.MovedRoundTrip | backend/app/services/order_service.py:270-290 | removing stock and then restoring the same moves gives back the inventory |
| Stock.MoveLogRows | backend/app/services/sales_service.py:93-107 | every history row names an existing record, carries the given kind, reason and order, and moves its before quantity to its after quantity |
| Stock.MovesSnoc | backend/app/services/sales_service.py:88-108 | moving one line after the others equals moving all of them |
| Stock.MoveNext | backend/app/services/sales_service.py:88-108 | one move extends the inventory and history as Moved and MoveLog do for one more move |
| Stock.ApplyMoves | backend/app/services/sales_service.py:173-192 | the loop leaves the inventory and history as Moved and MoveLog describe |
| PointService.IndexOf | backend/app/services/point_service.py:142 | the first position of a character, or none when absent |
| PointService.TakeUntil | backend/app/services/point_service.py:142 | the longest prefix without the character |
| PointService.RStrip | backend/app/services/point_service.py:142 | the prefix left after stripping trailing copies of a character |
| PointService.GrantReason | backend/app/services/point_service.py:142 | "기타" without "(", otherwise the text after the first "(" up to the next "(" with trailing ")" stripped |
| PointService.RStripOne | backend/app/services/point_service.py:142 | stripping ")" from s + ")" gives s when s does not end in ")" |
| PointService.TakeUntilAll | backend/app/services/point_service.py:142 | a string without the character is its own prefix |
| PointService.IndexOfAfter | backend/app/services/point_service.py:142 | the first "(" is found after a prefix without one |
| PointService.GrantReasonRoundTrip | backend/app/services/point_service.py:142 | the reason written as prefix + "(" + reason + ")" is parsed back |
| PointService.SingleGrantReason | backend/app/services/point_service.py:274-299 | a single grant's description parses back to its reason |
| PointService.BulkGrantReason | backend/app/services/point_service.py:313-342 | a bulk grant's description parses back to its reason |
| PointService.PromotionReason | backend/app/services/user_service.py:150-157 | a promotion's description parses back to the rank change |
| PointService.GrantRecord | backend/app/services/point_service.py:171-200 | the grant's total is base + bonus + daily, for the requested user, year and type |
| PointService.GrantPoint | backend/app/services/point_service.py:167-216 | missing user or a repeated (user, year, type) fails with no change; otherwise adds the total to current, keeps reserved, records the grant and one GRANT row; keeps both invariants |
| PointService.Present | backend/app/services/point_service.py:230-232 | the requested ids that exist |
| PointService.GrantedStaysGranted | backend/app/services/point_service.py:171-182 | a recorded grant stays recorded as the log grows |
| PointService.YearlyGrantRequestAsWritten | backend/app/services/point_service.py:244-252 | as written, the yearly grant request passes on the calculation's base, bonus and daily amounts unchanged |
| PointService.YearlyGrantRequest | backend/app/services/point_service.py:244-252 | corrected: in the retirement year base and bonus are passed as 0 and only the pro-rated daily amount is kept; in any other year it is the request as written |
| PointService.YearlyGrantMatchesCalculation | backend/app/services/user_service.py:181-185 | with the corrected request every yearly grant totals exactly the calculation's total_amount |
| PointService.RetirementYearGrantExceedsCalculation | backend/app/services/point_service.py:244-252 | as written, in the retirement year the granted total is base + bonus + daily, the calculated total plus base + bonus |
| PointService.RetirementYearGrantExample | backend/app/services/user_service.py:176-185 | a 365-point member retiring on 1 January 2023 is calculated 1 point, granted 366 as written and 1 with the corrected request |
| PointService.YearlyTotalNonNegative | backend/app/services/user_service.py:170-185 | with non-negative ranks the yearly grant total is non-negative |
| PointService.GrantYearlyTo | backend/app/services/point_service.py:239-258 | fails iff (user, year, type) was already granted, with no change; otherwise records the grant built from the calculation, credits its total to current, and appends one GRANT row with the yearly note and the new balances; keeps both invariants |
| PointService.GrantYearly | backend/app/services/point_service.py:230-260 | each targeted user (requested existing ids, or active members with a rank) not granted before is credited exactly the calculation's total (base + bonus outside the retirement year, the pro-rated amount in it), once; every other user is unchanged; a user ends granted iff granted before or targeted; successes plus errors equal the targets, and all errors are duplicates |
| PointService.YearlyOutcome | backend/app/services/point_service.py:239-258 | the loop keeps the set of users and only appends grants |
| PointService.YearlyGrantedAt | backend/app/services/point_service.py:239-258 | after the loop a user is granted iff granted before or listed |
| PointService.YearlyOutcomeAt | backend/app/services/point_service.py:239-258 | a listed user not granted before is credited once with their calculated total; every other user is unchanged |
| PointService.YearlyPerUser | backend/app/services/point_service.py:230-258 | the same per user, for the targets that grant_yearly selects |
| PointService.GrantEach | backend/app/services/point_service.py:239-258 | the loop leaves users and grants as YearlyOutcome states; successes plus errors equal the targets; all errors are duplicates; keeps both invariants |
| PointService.GrantNext | backend/app/services/point_service.py:240-256 | one pass of the loop advances the state exactly as YearlyOutcome does for one more target |
| PointService.GrantSingle | backend/app/services/point_service.py:274-299 | missing user fails; otherwise credits the amount with one GRANT row |
| PointService.BulkCredited | backend/app/services/point_service.py:313-342 | exactly the matching users are credited by the amount |
| PointService.GrantBulk | backend/app/services/point_service.py:313-342 | the count is the number of matching users and there are no errors; users become the bulk-credited table; each new GRANT row names a matching user, in strictly ascending id order, with the amount, the note and that user's new balances |
| PointService.CreditEach | backend/app/services/point_service.py:323-336 | crediting a list of users keeps the keys |
| PointService.CreditEachAt | backend/app/services/point_service.py:323-336 | a listed user is credited once; others are unchanged |
| PointService.CreditTargetsIsBulk | backend/app/services/point_service.py:313-336 | crediting the matching users one by one in ascending id order gives exactly the bulk-credited table |
| PointService.CreditAll | backend/app/services/point_service.py:323-336 | the table is CreditEach of the targets, and the k-th new row names the k-th target with its new balances |
| PointService.BulkRows | backend/app/services/point_service.py:323-336 | the rows written for ascending targets name matching users in strictly ascending order, each stamped with that user's final balances |
| PointService.ApplyGuarded | backend/app/services/point_service.py:370-384 | a failed check changes nothing; a success writes the new user and one row |
| PointService.UsePoint | backend/app/services/point_service.py:344-389 | missing user fails; otherwise behaves as Ledger.Use with one USE row; keeps both invariants |
| PointService.ReservePoint | backend/app/services/point_service.py:391-434 | as Ledger.Reserve with one RESERVE row |
| PointService.ReleasePoint | backend/app/services/point_service.py:436-478 | as Ledger.Release with one RELEASE row |
| PointService.DeductReservedPoint | backend/app/services/point_service.py:480-527 | as Ledger.DeductReserved with one DEDUCT row |
| PointService.RefundPoint | backend/app/services/point_service.py:529-571 | unconditional credit with one REFUND row; keeps both invariants for amount >= 0 |
| UserService.ListPage | backend/app/services/user_service.py:51-53 | total_pages is the ceiling, and the offset is within the total iff the page is at most total_pages |
| UserService.CalculateYearlyPoint | backend/app/services/user_service.py:165-192 | all zeros without a rank; outside the retirement year total = annual + bonus × years with daily 0; in the retirement year daily = int((annual + bonus) × days_served / year length) with days_served counted from 1 January and a year length of 366 iff year % 4 == 0, total = daily, between 0 and the full amount |
| UserService.ProratedWithinYear | backend/app/services/user_service.py:176-179 | the pro-rated amount is between 0 and the full amount |
| Calendar.DayOfYearInYear | backend/app/services/user_service.py:177 | the days served in the retirement year lie between 1 and the length of that calendar year |
| Calendar.DayOfYearCountsDays | backend/app/services/user_service.py:177 | 1 January is day 1, each following day of the year adds one, and the year's last day is its length |
| UserService.Promote | backend/app/services/user_service.py:124-163 | missing user or rank fails with no change; otherwise sets the rank, logs the history, adds diff = new annual − old annual to current, keeps reserved, and writes a GRANT row iff diff ≠ 0; keeps soundness when diff >= 0 |
| UserService.Repoint | backend/app/services/user_service.py:147-159 | stores the user with the balance moved by diff, and one GRANT row carrying the new balances iff diff ≠ 0; keeps the ledger witnessed, and soundness when diff >= 0 |
| UserService.CreateCheck | backend/app/services/user_service.py:65-68 | fails with a duplicate username or duplicate service number exactly when one is taken |
| UserService.CreateOutcome | backend/app/services/user_service.py:64-90 | creation gets past the commit iff neither the username nor the service number is already stored; an empty stored service number is caught only by the unique column |
| UserService.CreateKeepsUnique | backend/app/models/user.py:87-100 | adding a user that passes the checks keeps usernames and service numbers unique |
| UserService.CreateAsWritten | backend/app/services/user_service.py:64-90 | as written, creation always fails; a missing attribute exactly when both uniqueness checks pass |
| UserService.NewUserRecord | backend/app/services/user_service.py:70-86 | a new user starts active with zero balances |
| UserService.Create | backend/app/services/user_service.py:64-90 | a taken username, or a taken non-empty service number, fails with no change; an empty service number already stored fails at commit through the unique column; otherwise one user with zero balances is added under the next id; keeps both invariants and the uniqueness of usernames and service numbers |
| UserService.BulkCreate | backend/app/services/user_service.py:113-122 | the new table, id counter, count, numbered ValueError messages and the escaped integrity error are exactly BulkOutcome of the rows; existing users keep their values; the table grows by the count; uniqueness and both invariants are kept |
| UserService.BulkOutcome | backend/app/services/user_service.py:113-122 | successes plus errors equal the rows, or the rows before the one whose error escaped; error rows are numbered from 1, increasing, and are duplicate username or service number |
| UserService.BulkRaisedStays | backend/app/services/user_service.py:117-121 | once an error escapes, later rows change nothing |
| UserService.BulkOutcomeKeeps | backend/app/services/user_service.py:113-122 | existing users keep their values, the table grows by the count, new ids are below the counter, and uniqueness is kept |
| UserService.CreateRow | backend/app/services/user_service.py:117-121 | one pass of the loop advances the state exactly as BulkOutcome does for one more row |
| OrderService.PricedLines | backend/app/services/order_service.py:49-64 | each line's total is the spec price × quantity, with price 0 without a spec |
| OrderService.SumSplit | backend/app/services/order_service.py:66-70 | the order total is the point total plus the voucher total |
| OrderService.Tally | backend/app/services/order_service.py:44-72 | the loop computes the total and the point and voucher totals |
| OrderService.Placed | backend/app/services/order_service.py:30-89 | online: CONFIRMED and reserved_point = point total; offline: DELIVERED and used_point = point total |
| OrderService.CreateOrder | backend/app/services/order_service.py:20-108 | missing user fails; point total above available fails with no change; otherwise places the order, with balances and stock as PlaceOrder states; keeps both invariants |
| OrderService.PlaceOrder | backend/app/services/order_service.py:72-104 | the new order; online holds the points with one RESERVE row and leaves stock untouched; offline charges them and lowers each line's stock; delivery attached when requested |
| OrderService.Book | backend/app/services/order_service.py:72-89 | the order under the next id; the points held (online) or charged (offline) with one matching row; keeps the ledger witnessed, and soundness when covered |
| OrderService.Dispatch | backend/app/services/order_service.py:88-104 | offline lowers each line's stock with DECREASE history; online leaves stock alone; a delivery row exactly when a type was given |
| OrderService.ShipFromStock | backend/app/services/order_service.py:145-166 | offline orders lower stock per line without a floor check; online orders leave it |
| OrderService.AttachDelivery | backend/app/services/order_service.py:91-104 | a delivery row exactly when a type was given; delivered at once for offline orders |
| OrderService.CancelledOrder | backend/app/services/order_service.py:201-204 | status CANCELLED; the point fields and lines are kept |
| OrderService.CancelOrder | backend/app/services/order_service.py:190-208 | succeeds iff the caller owns the order in PENDING or CONFIRMED; releases the order's reserved points; current untouched |
| OrderService.ForceCancelOrder | backend/app/services/order_service.py:211-233 | fails iff absent or already CANCELLED; releases reserved points when positive; an offline DELIVERED order is refunded and restocked; keeps soundness when the release is covered |
| OrderService.Undo | backend/app/services/order_service.py:216-224 | releases the held points, and for an offline DELIVERED order refunds the used points and restocks the lines; keeps the ledger witnessed, and soundness when the release is covered |
| OrderService.RefundSale | backend/app/services/order_service.py:220-224 | credits the used points with one REFUND row and restores each line's stock with RETURN history; keeps both invariants |
| OrderService.OfflineCreateThenForceCancel | backend/app/services/order_service.py:216-224 | force-cancelling an offline order restores the stock and the user |
| OrderService.UpdatedDelivery | backend/app/services/order_service.py:300-314 | the requested status, with shipped/delivered stamps; the tracking number only when given |
| OrderService.StatusAfterDelivery | backend/app/services/order_service.py:300-308 | IN_TRANSIT gives SHIPPED, DELIVERED gives DELIVERED, and anything else leaves the status |
| OrderService.UpdateDelivery | backend/app/services/order_service.py:293-318 | fails iff the order or its delivery is missing; takes no account of the current status; changes no points |
| OrderService.ReceiveOrder | backend/app/services/order_service.py:321-342 | succeeds iff the owner receives a DELIVERED order; settles the order's reserved points with one USE row; status RECEIVED; keeps order.reserved_point |
| SalesService.SaleLines | backend/app/services/sales_service.py:36-47 | each line's total is the caller's unit price × quantity |
| SalesService.SaleOrder | backend/app/services/sales_service.py:17-59 | OFFLINE and DELIVERED; used_point and used_voucher_amount are the per-method sums, and total_amount is their sum |
| SalesService.Open | backend/app/services/sales_service.py:17-59 | the sale order is stored under the next id |
| SalesService.Settle | backend/app/services/sales_service.py:61-64 | charges the point total with one DEDUCT row and lowers stock with DECREASE history; keeps the ledger witnessed, and soundness when the total is at most what is available |
| SalesService.CreateOfflineSale | backend/app/services/sales_service.py:12-68 | the new sale order; charges the point total without an availability check when positive; lowers stock with DECREASE history; keeps soundness only when covered |
| SalesService.FindLine | backend/app/services/sales_service.py:121-125 | the index of the order line with the requested id, or none |
| SalesService.Accepted | backend/app/services/sales_service.py:121-131 | a refund is accepted only for an existing, unreturned line, with quantity min(requested, line quantity) > 0 |
| SalesService.RefundStep | backend/app/services/sales_service.py:121-140 | one refund item keeps the line count |
| SalesService.Refunds | backend/app/services/sales_service.py:121-145 | the refund loop keeps the line count |
| SalesService.OutstandingUpdate | backend/app/services/sales_service.py:133-137 | marking a line returned removes its value from what is still refundable |
| SalesService.RefundsBounded | backend/app/services/sales_service.py:126-145 | the total refund never exceeds the point value of the unreturned lines, so each line is refunded at most once |
| SalesService.RefundOfReturnedIsEmpty | backend/app/services/sales_service.py:126-128 | refunding an order whose lines are all returned refunds nothing |
| SalesService.RefundOne | backend/app/services/sales_service.py:126-140 | one loop iteration marks the line and restores its stock with RETURN history |
| SalesService.RefundLines | backend/app/services/sales_service.py:121-140 | the loop leaves lines, stock and history as Refunds states |
| SalesService.TakeBack | backend/app/services/sales_service.py:121-145 | lines, stock and history as Refunds states, with one REFUND credit of the refunded points; keeps both invariants |
| SalesService.ProcessRefund | backend/app/services/sales_service.py:111-153 | fails iff the order is absent or neither DELIVERED nor SHIPPED; one aggregate REFUND credit when positive; REFUNDED iff every line is returned |
| InventoryService.ReceiveInventory | backend/app/services/inventory_service.py:30-65 | creates a record at 0/0 when absent; raises the quantity by the amount; leaves reserved; logs INCREASE with before and after |
| InventoryService.Adjusted | backend/app/services/inventory_service.py:79-84 | INCREASE adds, DECREASE subtracts, CORRECTION sets, RESTOCK and RETURN keep |
| InventoryService.AdjustedInverses | backend/app/services/inventory_service.py:79-84 | increase then decrease by n is the identity; correction is idempotent |
| InventoryService.AdjustInventory | backend/app/services/inventory_service.py:67-100 | no record: none and no change; otherwise the adjusted quantity, with reserved kept and one history row |
| InventoryService.InventorySummary | backend/app/services/inventory_service.py:120-136 | counts the records, those with 0 < q <= 10, and those with q == 0; low plus out of stock is at most the total, and the rest are exactly the records in neither class |
| InventoryService.StockClasses | backend/app/services/inventory_service.py:120-136 | the low, out-of-stock and remaining records of a scope are disjoint and together make up the scope, so their counts add up to the total |
| InventoryRouter.SalesOfficeFilter | backend/app/routers/inventory.py:21-44 | admin gets the requested office; staff with an office get it; all others get 403 |
| InventoryRouter.StaffFilterIgnoresRequest | backend/app/routers/inventory.py:30-35 | for staff the requested office makes no difference |
| InventoryRouter.SummaryRoute | backend/app/routers/inventory.py:48-59 | the summary for the filtered office, or the filter's error |
| InventoryRouter.ReceiveRoute | backend/app/routers/inventory.py:141-162 | a filter error changes nothing; otherwise receives at the request's own office, not the filtered one: the record (0/0 when new) gains the quantity, keeps its reserved quantity, and one INCREASE row with before and after is appended |
| InventoryRouter.AdjustRoute | backend/app/routers/inventory.py:166-189 | a filter error changes nothing; otherwise adjusts the request's own office: a missing record is 404 with no change, else the adjusted quantity with reserved kept and one history row of the requested kind and reason |
| SalesRouter.SalesOfficeScope | backend/app/routers/sales.py:20-29 | admin: all offices; staff with an office: that office; everyone else: 403 |
| SalesRouter.ParseStatus | backend/app/routers/sales.py:192-196 | only the names of order statuses parse |
| SalesRouter.ParseStatusName | backend/app/routers/sales.py:192-196 | every status name parses back to its status |
| SalesRouter.RoutedDelivery | backend/app/routers/sales.py:198-209 | shipped with a tracking number sets IN_TRANSIT; delivered sets DELIVERED with a stamp; nothing else changes |
| SalesRouter.RoutedOrder | backend/app/routers/sales.py:192-214 | any valid status is taken; delivered with points held moves them to used_point and zeroes reserved_point |
| SalesRouter.UpdateOrderStatus | backend/app/routers/sales.py:167-218 | 403 outside the roles, 404 outside the caller's office, 400 on an unknown status; delivered with points held lowers both balances and writes no ledger row; keeps soundness when the settle is covered, and the ledger witnessed unless it settles |
| SalesRouter.WriteRouted | backend/app/routers/sales.py:198-214 | stores the routed order and delivery; settles the held points without a ledger row; keeps soundness when covered |
| SalesRouter.SilentChangeBreaksWitness | backend/app/routers/sales.py:210-214 | a balance change without a ledger row leaves the ledger no longer witnessing the balances |
| SalesRouter.SettledThenReceivedDeductsOnce | backend/app/routers/sales.py:210-214 | after the router settles an order, receipt deducts nothing more |
| TailorService.IssuedVoucher | backend/app/services/tailor_service.py:21-31 | ISSUED with the given amount, owner and item, and not yet registered or cancelled |
| TailorService.CreateVoucher | backend/app/services/tailor_service.py:18-35 | adds the issued voucher under a fresh id and moves no points |
| TailorService.RegisteredVoucher | backend/app/services/tailor_service.py:58-61 | REGISTERED with the tailor company and registrar; amount and owner kept |
| TailorService.RegisterVoucher | backend/app/services/tailor_service.py:53-65 | succeeds iff the voucher exists and is ISSUED |
| TailorService.RefundVoucherAmount | backend/app/services/tailor_service.py:112-127 | credits the amount with one REFUND row carrying the voucher id when positive and the owner exists; keeps both invariants |
| TailorService.CancelledVoucher | backend/app/services/tailor_service.py:83-104 | CANCELLED, with the amount kept; neither cancel path accepts it again |
| TailorService.RequestCancelVoucher | backend/app/services/tailor_service.py:68-92 | succeeds iff the owner asks for an ISSUED voucher; cancels it at once and refunds its amount |
| TailorService.ApproveCancelVoucher | backend/app/services/tailor_service.py:95-109 | fails iff the voucher is absent or CANCELLED; approved cancels and refunds from any other status; not approved changes nothing |
| TailorService.RefundCreditsAmount | backend/app/services/tailor_service.py:114-117 | the owner's current rises by exactly the amount when it is positive |
| MenuService.SortRows | backend/app/services/menu_service.py:29-33 | rows ordered by sort_order, a permutation of the input |
| MenuService.SelectSpec | backend/app/services/menu_service.py:85-90 | active children of a parent (or active roots), keeping sort order |
| MenuService.FullTree | backend/app/services/menu_service.py:53-72 | the node carries its row |
| MenuService.FullForest | backend/app/services/menu_service.py:70 | one node per child, in order |
| MenuService.GetTree | backend/app/services/menu_service.py:27-35 | every root is an active menu without a parent |
| MenuService.WithRole | backend/app/services/menu_service.py:74-115 | a non-category menu is dropped iff its roles are non-empty and exclude the role |
| MenuService.KeptForestEmptyIff | backend/app/services/menu_service.py:94-97 | no child survives iff each child is dropped |
| MenuService.CategoryKeptIffChildKept | backend/app/services/menu_service.py:78-101 | a category is kept iff some child survives, whatever its own roles |
| MenuService.PruneFullTree | backend/app/services/menu_service.py:74-115 | the role tree is the full tree pruned |
| MenuService.PruneFullForest | backend/app/services/menu_service.py:94-97 | the same for a list of children |
| MenuService.TreeByRole | backend/app/services/menu_service.py:37-51 | get_tree_by_role equals get_tree pruned for the role, and every root is an active menu without a parent |
| MenuService.KeptForestFrom | backend/app/services/menu_service.py:94-97 | every kept child is one of the children |
| MenuService.KeptForestSubsequence | backend/app/services/menu_service.py:94-97 | kept children are a subsequence of the children |
| MenuService.KeptChildrenInOrder | backend/app/services/menu_service.py:85-97 | kept children are a subsequence of the active children in sort order |
| MenuService.CreateMenu | backend/app/services/menu_service.py:117-137 | fails iff a given parent is missing; otherwise adds the menu under a fresh id |
| MenuService.DeleteMenu | backend/app/services/menu_service.py:157-169 | false when absent; refuses a menu with children; otherwise removes it |
| MenuService.Seeded | backend/app/services/menu_service.py:216-227 | the seeded menus take consecutive ids |
| MenuService.SeedNameSound | backend/app/services/menu_service.py:216-227 | the name map sends each recorded name to the id of an entry with that name |
| MenuService.SeedNameRecorded | backend/app/services/menu_service.py:227 | every seeded entry's name is recorded |
| MenuService.SeededAt | backend/app/services/menu_service.py:216-227 | each entry is seeded with its parent looked up by name among the earlier entries |
| MenuService.SeededParents | backend/app/services/menu_service.py:222-223 | a child's parent is an earlier entry with its parent name |
| MenuService.SeededParentFound | backend/app/services/menu_service.py:222-223 | a child whose parent name was seeded earlier gets a parent |
| MenuService.SeedStep | backend/app/services/menu_service.py:216-227 | one loop step adds one menu and one name |
| MenuService.SeedOne | backend/app/services/menu_service.py:216-227 | one pass of the loop advances the seeded prefix by one entry |
| MenuService.SeedMenus | backend/app/services/menu_service.py:216-227 | the loop stores exactly Seeded(defaults) |
| MenuService.InitializeDefaultMenus | backend/app/services/menu_service.py:171-229 | a no-op when any menu exists; otherwise seeds the defaults |
| ClothingService.CategoryTree | backend/app/services/clothing_service.py:37-53 | the node carries its row |
| ClothingService.CategoryForest | backend/app/services/clothing_service.py:52 | one node per child, in order |
| ClothingService.CategoryTreeActive | backend/app/services/clothing_service.py:38-43 | every descendant shown in the tree is active |
| ClothingService.CategoryForestActive | backend/app/services/clothing_service.py:38-43 | every shown child is active and under its parent |
| ClothingService.GetTree | backend/app/services/clothing_service.py:28-35 | every root is a LARGE category, and every category shown at any depth is active |
| ClothingService.GetTreeShape | backend/app/services/clothing_service.py:28-35 | the forest built from the active LARGE roots has LARGE roots and only active categories |
| ClothingService.RootTreeIsAt | backend/app/services/clothing_service.py:35 | the i-th root's tree is built from the i-th root |
| ClothingService.DescendantIds | backend/app/services/clothing_service.py:112-118 | the category comes first |
| ClothingService.DescendantIdsExact | backend/app/services/clothing_service.py:112-118 | an id is listed iff it is reachable through child links, active or not |
| ClothingService.DescendantsOfExact | backend/app/services/clothing_service.py:114-117 | the same for a list of children |
| ClothingService.DescendantsOf | backend/app/services/clothing_service.py:114-117 | every child's id is listed |
| ClothingService.GetDescendantIds | backend/app/services/clothing_service.py:112-118 | the category comes first |
| ClothingService.InactiveChildListedNotShown | backend/app/services/clothing_service.py:112-118 | an inactive child is in the descendant list but not in the tree |
| ClothingService.GetList | backend/app/services/clothing_service.py:120-152 | total counts the matching items; total_pages is the ceiling; offset = (page − 1) × page_size |
| ClothingService.CreateCategory | backend/app/services/clothing_service.py:55-72 | rejects a missing parent and a SMALL parent; otherwise adds the category |
| ClothingService.DeleteCategory | backend/app/services/clothing_service.py:87-102 | false when absent; refuses one with children or items; otherwise removes it |
| ClothingService.CreateSpec | backend/app/services/clothing_service.py:232-254 | rejects a missing item and a spec code already used for the item; keeps codes unique per item |
| Scenarios.OfflineSaleOverdraws | backend/app/services/sales_service.py:61-85 | a 150-point sale to a member holding 100 leaves -50, which is unsound |
| Scenarios.NegativePromotionBreaks | backend/app/services/user_service.py:136-159 | a promotion with diff -100 for a member holding 250 of 300 leaves 200 < 250 held |
| Scenarios.ReserveThenReceive | backend/test_point_integrity.py:97-98 | reserve then receive lowers current by the total, returns reserved to its start, and keeps the ledger witnessed |
| Scenarios.ForceCancelAfterReceive | backend/app/services/order_service.py:216-224 | force-cancelling a received order releases its points again: reserved -30 |
| Scenarios.RefundThenForceCancel | backend/app/services/order_service.py:222-224 | after a one-line refund the sale stays DELIVERED, so force-cancelling it refunds all 60 used points and restocks both lines: the member ends 30 points and the shelf one unit above where they started |
| Scenarios.ShippedRefundCreditsUncharged | backend/app/services/sales_service.py:116-145 | refunding a shipped order credits 30 points never charged while 30 remain held |
| Scenarios.RouterDeliveredThenReceive | backend/app/routers/sales.py:205-214 | the router settles once and receipt adds nothing, but the ledger no longer witnesses the balance |
| Scenarios.VoucherRefundedOnce | backend/app/services/tailor_service.py:77-99 | a cancelled voucher is refunded once; the later approval is refused |

## Left out

- Database sessions, `commit`, `flush`, `refresh` and query building are not modelled; tables become in-memory maps and sequences. Rows without `ORDER BY` come back in ascending id order.
- OrderService.CreateOrder: the `ValueError` raised after the order row is flushed (backend/app/services/order_service.py:76-77) is modelled as having no effect at all, as a rolled-back transaction would.
- Order and voucher numbers (uuid plus timestamp) are not modelled; records are keyed by fresh ids instead.
- Timestamps from `datetime.utcnow()` and `date.today()` are parameters.
- UserService.CalculateYearlyPoint: the floating-point expression for the pro-rated amount is modelled as `int()` of an exact quotient (division truncating toward zero), not as IEEE double arithmetic.
- The JSON encoding of a menu's `allowed_roles` is not modelled; roles are a sequence of strings.
- Authentication, JWT tokens and password hashing are foreign library calls and are not modelled; callers are given as a role and a user id.
- Menu icons and the other display-only columns of menus, items and specs are not modelled.
- MenuService.WithRole and ClothingService.CategoryTree: recursion takes the number of rows as fuel. Parent links that form a cycle, which the source would follow forever, are not modelled.
- ClothingService.GetList: only `total`, `total_pages` and the offset are stated. The page of rows, its `created_at` ordering and the case-sensitivity of SQL `LIKE` are not modelled.
- ClothingService.GetList: the search text is matched as a literal substring. In SQL `LIKE` a `%` or `_` inside the search text is a wildcard, so a search containing one can match more items than the model counts.
- UserService.Create: only the uniqueness of `username` and `service_number` is modelled. The `email` column is unique too (backend/app/models/user.py:92), and a duplicate email would also fail at commit; the request fields beyond those the model keeps are not modelled.
- The listing and detail queries are not modelled: `get_orders`, `get_order`, `get_vouchers`, `get_voucher`, `get_inventory_history`, the sales history, and the grant and point history other than the reason parsing.
- The update endpoints for users, menus, categories, items and specs are not modelled, and neither are the statistics router, the seed scripts, the frontend or the test harnesses. The tests appear only as sources for scenarios.
- `issue_voucher_direct`, imported by backend/test_point_integrity.py, is not defined in backend/app/services/tailor_service.py, so direct issuance is not modelled.
- Concurrency and locking are not modelled; the source has none, and the model covers sequential calls only.
- TailorService.RequestCancelVoucher follows the code, which cancels at once with status CANCELLED. backend/test_screen_integrity.py:344 expects a CANCEL_REQUESTED status instead, which the code never sets.
- UserService.BulkCreate: the unique-column `IntegrityError` of a row is not a `ValueError`, so it escapes bulk_create; the model returns it in `raised` instead of as an exception, and stops there. The users created before it stay, as each `create` commits on its own.
- PointService.GrantYearly and PointService.GrantYearlyTo use the corrected PointService.YearlyGrantRequest, so in the retirement year they credit the pro-rated amount only; the code as written credits base + bonus + daily (see Findings).
- UserService.BulkCreate uses the corrected UserService.Create. As written, the `AttributeError` of create would escape bulk_create's `except ValueError` (see Findings).

## Findings

| source | as written | input that shows it | evidently intended | confidence | as-written member | corrected member |
|---|---|---|---|---|---|---|
| backend/app/services/point_service.py:244-252 | `grant_yearly` passes the calculation's base, bonus and daily amounts to `grant_point`, which credits their sum, although `calculate_yearly_point` sets the retirement year's total to the pro-rated daily amount alone | a member retiring on 1 January 2023 with a 365-point rank and no service-year bonus: the calculation gives 1 point, the grant credits 366 | credit the calculation's total, the pro-rated amount, in the retirement year | medium; not executed | PointService.RetirementYearGrantExceedsCalculation | PointService.YearlyGrantMatchesCalculation |
| backend/app/services/user_service.py:80 | `create` reads `user_data.service_years`, a field the user-creation schema does not declare, so every creation that passes the uniqueness checks raises `AttributeError` | any new user whose username and service number are both unused | create the user with zero balances and return it | high; not executed | UserService.CreateAsWritten | UserService.Create |
