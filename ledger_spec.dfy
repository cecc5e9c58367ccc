// What the order-ledger signal handlers of POS/signals.py do to the stored
// rows, as functions from the database state before an `Order.save()` or
// `Order.delete()` to the state after it. Each hook is one function, and the
// save and delete functions compose them in the order Django runs them:
// `Order.clean`, the pre_save hook, the row write, then the post_save hooks
// (or the post_delete hook). A save is not wrapped in a transaction: a hook that
// raises after the write leaves the write in place.

module LedgerSpec {
  import opened Wrappers
  import opened Calendar
  import opened Models
  import opened Sums

  /** The rows the ledger reads and writes, keyed by primary key (customers,
      staff, orders) or by the unique date (sales). `nextId` is the next
      primary key the database hands out for a new order. */
  datatype Db = Db(
    customers: map<nat, Customer>,
    staff: map<nat, Staff>,
    orders: map<nat, Order>,
    sales: map<Date, int>,
    nextId: nat)

  /** What escapes from `save()`/`delete()`: a validation error, or a
      related row that does not exist. */
  datatype Error =
    | Invalid(reason: ValidationError)
    | CustomerDoesNotExist
    | OrderDoesNotExist

  datatype Outcome = Ok | Err(error: Error)

  datatype Step = Step(db: Db, outcome: Outcome)

  /** The state every sequence of the operations below keeps: stored orders
      passed `Order.clean`, so their amounts are positive, and every key
      handed out so far lies below `nextId`. */
  ghost predicate Valid(db: Db) {
    forall id :: id in db.orders ==> db.orders[id].amount > 0 && id < db.nextId
  }

  // ---------------------------------------------------------------- daily totals

  /** What one order adds to the paid total of date d. */
  function PaidAmount(o: Order, d: Date): int {
    if o.paid && o.date == d then o.amount else 0
  }

  function PaidAmountOf(orders: map<nat, Order>, d: Date): nat -> int {
    k => if k in orders then PaidAmount(orders[k], d) else 0
  }

  /** `Order.objects.filter(paid_status=True, order_date__date=d)
      .aggregate(Sum('amount'))['total'] or 0`. */
  ghost function PaidTotal(orders: map<nat, Order>, d: Date): int {
    Sum(orders.Keys, PaidAmountOf(orders, d))
  }

  // ---------------------------------------------------------------- range totals

  /** What one Sales row adds to the total of period p. */
  function SalesInPeriodOf(sales: map<Date, int>, p: Period): Date -> int {
    k => if k in sales && InPeriod(p, k) then sales[k] else 0
  }

  /** `Sales.objects.filter(date__range=[p.first, p.last])
      .aggregate(Sum('daily_sales'))['total'] or 0`. */
  ghost function PeriodTotal(sales: map<Date, int>, p: Period): int {
    Sum(sales.Keys, SalesInPeriodOf(sales, p))
  }

  /** The dates of the rows that the range filter selects. */
  ghost function RowsIn(sales: map<Date, int>, p: Period): set<Date> {
    set k | k in sales.Keys && InPeriod(p, k)
  }

  // ---------------------------------------------------------------- row saves

  /** `Customer.save` (POS/models.py:37-39): clean, then write. */
  function SaveCustomer(db: Db, id: nat, c: Customer): (r: Step)
    ensures r.outcome == Ok <==> CustomerClean(c) == Pass
    ensures r.outcome == Ok ==> r.db == db.(customers := db.customers[id := c])
    ensures r.outcome != Ok ==> r.db == db && r.outcome == Err(Invalid(CustomerClean(c).error))
  {
    match CustomerClean(c)
    case Fail(e) => Step(db, Err(Invalid(e)))
    case Pass => Step(db.(customers := db.customers[id := c]), Ok)
  }

  /** `Staff.save` (POS/models.py:72-74): clean, then write. */
  function SaveStaff(db: Db, id: nat, s: Staff): (r: Step)
    ensures r.outcome == Ok <==> StaffClean(s) == Pass
    ensures r.outcome == Ok ==> r.db == db.(staff := db.staff[id := s])
    ensures r.outcome != Ok ==> r.db == db && r.outcome == Err(Invalid(InvalidPhone))
  {
    match StaffClean(s)
    case Fail(e) => Step(db, Err(Invalid(e)))
    case Pass => Step(db.(staff := db.staff[id := s]), Ok)
  }

  // ---------------------------------------------------------------- the hooks

  /** Balance after a paid-flag flip: an order that became paid takes its
      amount off, one that became unpaid puts it back, floored at 0
      (POS/signals.py:43-52). */
  function FlippedDue(due: int, amount: int, nowPaid: bool): (r: int)
    ensures r >= 0
    ensures nowPaid ==> r == if due - amount < 0 then 0 else due - amount
    ensures !nowPaid ==> r == if due + amount < 0 then 0 else due + amount
  {
    var raw := if nowPaid then due - amount else due + amount;
    if raw < 0 then 0 else raw
  }

  /** pre_save `update_customer_amount_due` (POS/signals.py:33-56). Runs only
      for a truthy key (`if instance.pk`, so never for key 0) that is already
      stored (a missing row is the swallowed DoesNotExist); acts only when the
      paid flag flips; adjusts the customer the NEW order names; and
      `customer.save()` runs `Customer.clean`, whose ValidationError escapes. */
  function PreSaveAmountDue(db: Db, id: nat, o: Order): (r: Step)
    requires o.customer in db.customers
    ensures r.db.orders == db.orders && r.db.staff == db.staff && r.db.sales == db.sales && r.db.nextId == db.nextId
    ensures r.db.customers.Keys == db.customers.Keys
    ensures forall k :: k in db.customers && k != o.customer ==> r.db.customers[k] == db.customers[k]
    ensures r.db.customers[o.customer] == db.customers[o.customer].(amountDue := r.db.customers[o.customer].amountDue)
    ensures id == 0 || id !in db.orders || db.orders[id].paid == o.paid ==> r == Step(db, Ok)
  {
    if id == 0 || id !in db.orders || db.orders[id].paid == o.paid then Step(db, Ok)
    else
      var c := db.customers[o.customer];
      SaveCustomer(db, o.customer, c.(amountDue := FlippedDue(c.amountDue, o.amount, o.paid)))
  }

  /** post_save `update_sales_on_order_save` (POS/signals.py:6-31): for a paid
      order, get or create the Sales row of its date (created at 0), re-sum
      the paid orders of that date and store the sum if it differs. The
      write runs `Sales.clean`; the ValidationError a negative sum would
      raise is swallowed by the handler, leaving the row as it was. */
  ghost function PostSaveSales(db: Db, o: Order): (r: Db)
    ensures r.customers == db.customers && r.staff == db.staff && r.orders == db.orders && r.nextId == db.nextId
    ensures !o.paid ==> r == db
    ensures o.paid ==> r.sales.Keys == db.sales.Keys + {o.date}
    ensures forall k :: k in db.sales && k != o.date ==> r.sales[k] == db.sales[k]
  {
    if !o.paid then db
    else
      var row := if o.date in db.sales then db.sales[o.date] else 0;
      var sales := db.sales[o.date := row];
      var total := PaidTotal(db.orders, o.date);
      if row != total && SalesClean(total) == Pass then db.(sales := sales[o.date := total])
      else db.(sales := sales)
  }

  /** post_save `handle_new_order_amount_due` (POS/signals.py:58-67): a newly
      created unpaid order adds its amount to the customer's balance; the
      customer save may raise, after the order row is already written. */
  function PostSaveNewOrder(db: Db, o: Order, created: bool): (r: Step)
    requires o.customer in db.customers
    ensures r.db.orders == db.orders && r.db.staff == db.staff && r.db.sales == db.sales && r.db.nextId == db.nextId
    ensures r.db.customers.Keys == db.customers.Keys
    ensures forall k :: k in db.customers && k != o.customer ==> r.db.customers[k] == db.customers[k]
    ensures r.db.customers[o.customer] == db.customers[o.customer].(amountDue := r.db.customers[o.customer].amountDue)
    ensures !created || o.paid ==> r == Step(db, Ok)
  {
    if created && !o.paid then
      var c := db.customers[o.customer];
      SaveCustomer(db, o.customer, c.(amountDue := c.amountDue + o.amount))
    else Step(db, Ok)
  }

  /** post_delete `update_sales_on_order_delete` (POS/signals.py:71-89): for a
      deleted paid order, re-sum the remaining paid orders of its date into
      the EXISTING Sales row; no row is created. Only Sales.DoesNotExist is
      caught, so a failing `Sales.clean` escapes. */
  ghost function PostDeleteSales(db: Db, o: Order): (r: Step)
    ensures r.db.customers == db.customers && r.db.staff == db.staff && r.db.orders == db.orders && r.db.nextId == db.nextId
    ensures r.db.sales.Keys == db.sales.Keys
    ensures forall k :: k in db.sales && k != o.date ==> r.db.sales[k] == db.sales[k]
    ensures !o.paid ==> r == Step(db, Ok)
  {
    if !o.paid || o.date !in db.sales then Step(db, Ok)
    else
      var total := PaidTotal(db.orders, o.date);
      match SalesClean(total)
      case Fail(e) => Step(db, Err(Invalid(e)))
      case Pass => Step(db.(sales := db.sales[o.date := total]), Ok)
  }

  // ---------------------------------------------------------------- save and delete

  /** The row write and the post_save hooks, in the order they are connected. */
  ghost function WriteOrder(db: Db, id: nat, o: Order, created: bool): (r: Step)
    requires o.customer in db.customers
    ensures r.db.orders == db.orders[id := o] && r.db.staff == db.staff
    ensures r.db.nextId > id && r.db.nextId >= db.nextId
  {
    var written := db.(orders := db.orders[id := o], nextId := if id < db.nextId then db.nextId else id + 1);
    PostSaveNewOrder(PostSaveSales(written, o), o, created)
  }

  /** `Order.clean` first (POS/models.py:124-126); then the order's customer
      must exist: when the flag flips the pre_save hook dereferences it,
      otherwise the write breaks the foreign key, and nothing is stored
      either way. */
  function Admit(db: Db, o: Order): (r: Outcome)
    ensures r == Ok <==> OrderClean(o) == Pass && o.customer in db.customers
  {
    match OrderClean(o)
    case Fail(e) => Err(Invalid(e))
    case Pass => if o.customer in db.customers then Ok else Err(CustomerDoesNotExist)
  }

  /** `order.save()` on an order whose primary key is id. */
  ghost function SaveOrder(db: Db, id: nat, o: Order): (r: Step)
    ensures r.db.staff == db.staff
    ensures r.db.orders == db.orders || r.db.orders == db.orders[id := o]
    ensures r.outcome == Ok ==> r.db.orders == db.orders[id := o]
    ensures db.sales.Keys <= r.db.sales.Keys <= db.sales.Keys + {o.date}
    ensures forall k :: k in db.sales && k != o.date ==> r.db.sales[k] == db.sales[k]
  {
    match Admit(db, o)
    case Err(e) => Step(db, Err(e))
    case Ok =>
      var pre := PreSaveAmountDue(db, id, o);
      if pre.outcome != Ok then pre
      else WriteOrder(pre.db, id, o, id !in db.orders)
  }

  /** `Order(...).save()` on a new order: the key is assigned by the write,
      so the pre_save hook has nothing to look up. */
  ghost function CreateOrder(db: Db, o: Order): (r: Step)
    ensures r.db.staff == db.staff
    ensures r.db.orders == db.orders || r.db.orders == db.orders[db.nextId := o]
    ensures r.outcome == Ok ==> r.db.orders == db.orders[db.nextId := o]
    ensures db.sales.Keys <= r.db.sales.Keys <= db.sales.Keys + {o.date}
    ensures forall k :: k in db.sales && k != o.date ==> r.db.sales[k] == db.sales[k]
  {
    match Admit(db, o)
    case Err(e) => Step(db, Err(e))
    case Ok => WriteOrder(db, db.nextId, o, true)
  }

  /** `order.delete()`: remove the row, then the post_delete hook. */
  ghost function DeleteOrder(db: Db, id: nat): (r: Step)
    ensures id !in db.orders ==> r == Step(db, Err(OrderDoesNotExist))
    ensures id in db.orders ==> r.db.orders == db.orders - {id}
    ensures r.db.customers == db.customers && r.db.staff == db.staff
    ensures r.db.sales.Keys == db.sales.Keys
    ensures forall k :: k in db.sales && (id !in db.orders || k != db.orders[id].date) ==> r.db.sales[k] == db.sales[k]
  {
    if id !in db.orders then Step(db, Err(OrderDoesNotExist))
    else PostDeleteSales(db.(orders := db.orders - {id}), db.orders[id])
  }

  // ================================================================ lemmas

  /** Re-summing after taking one order out. */
  lemma PaidTotalSplit(orders: map<nat, Order>, id: nat, d: Date)
    requires id in orders
    ensures PaidTotal(orders, d) == PaidAmount(orders[id], d) + PaidTotal(orders - {id}, d)
  {
    var f := PaidAmountOf(orders, d);
    var g := PaidAmountOf(orders - {id}, d);
    SumRemove(orders.Keys, f, id);
    assert (orders - {id}).Keys == orders.Keys - {id};
    SumCongruent(orders.Keys - {id}, f, g);
  }

  /** Re-summing after a write equals the old sum, minus what the old row
      contributed, plus what the new row contributes: the full re-sum and an
      incremental update agree whenever the re-sum is taken. */
  lemma PaidTotalAfterWrite(orders: map<nat, Order>, id: nat, o: Order, d: Date)
    ensures PaidTotal(orders[id := o], d)
         == PaidTotal(orders, d) - (if id in orders then PaidAmount(orders[id], d) else 0) + PaidAmount(o, d)
  {
    PaidTotalSplit(orders[id := o], id, d);
    assert orders[id := o] - {id} == orders - {id};
    if id in orders {
      PaidTotalSplit(orders, id, d);
    } else {
      assert orders - {id} == orders;
    }
  }

  /** With positive amounts, a daily total is never negative, so the
      `Sales.clean` inside the sales hooks never fires. */
  lemma PaidTotalNonNegative(orders: map<nat, Order>, d: Date)
    requires forall id :: id in orders ==> orders[id].amount > 0
    ensures PaidTotal(orders, d) >= 0
  {
    SumNonNegative(orders.Keys, PaidAmountOf(orders, d));
  }

  /** No paid order on d, no sales on d. */
  lemma PaidTotalZero(orders: map<nat, Order>, d: Date)
    requires forall id :: id in orders ==> !orders[id].paid || orders[id].date != d
    ensures PaidTotal(orders, d) == 0
  {
    SumOfZeros(orders.Keys, PaidAmountOf(orders, d));
  }

  /** Only the rows inside the period count towards its total. */
  lemma PeriodTotalOverRows(sales: map<Date, int>, p: Period)
    ensures PeriodTotal(sales, p) == Sum(RowsIn(sales, p), SalesInPeriodOf(sales, p))
  {
    SumZeroOutside(sales.Keys, RowsIn(sales, p), SalesInPeriodOf(sales, p));
  }

  /** No row in the range: the `or 0` fallback. */
  lemma PeriodTotalNoRows(sales: map<Date, int>, p: Period)
    requires forall k :: k in sales ==> !InPeriod(p, k)
    ensures PeriodTotal(sales, p) == 0
  {
    SumOfZeros(sales.Keys, SalesInPeriodOf(sales, p));
  }

  /** Two tables that agree on every date of the period give the period the
      same total, whatever their rows outside it. */
  lemma {:induction false} PeriodTotalLocal(a: map<Date, int>, b: map<Date, int>, p: Period)
    requires forall d :: InPeriod(p, d) ==> (d in a <==> d in b) && (d in a ==> a[d] == b[d])
    ensures PeriodTotal(a, p) == PeriodTotal(b, p)
  {
    PeriodTotalOverRows(a, p);
    PeriodTotalOverRows(b, p);
    assert RowsIn(a, p) == RowsIn(b, p);
    SumCongruent(RowsIn(a, p), SalesInPeriodOf(a, p), SalesInPeriodOf(b, p));
  }

  /** Rows that are never negative give a never-negative range total. */
  lemma PeriodTotalNonNegative(sales: map<Date, int>, p: Period)
    requires forall k :: k in sales ==> sales[k] >= 0
    ensures PeriodTotal(sales, p) >= 0
  {
    SumNonNegative(sales.Keys, SalesInPeriodOf(sales, p));
  }

  // ---------------------------------------------------------------- amount_due

  /** An existing order that goes from unpaid to paid lowers its customer's
      balance by its amount, floored at 0, and touches no other balance. */
  lemma PayingLowersAmountDue(db: Db, id: nat, o: Order)
    requires id != 0 && id in db.orders && !db.orders[id].paid && o.paid
    requires SaveOrder(db, id, o).outcome == Ok
    ensures var due := db.customers[o.customer].amountDue;
      && o.customer in SaveOrder(db, id, o).db.customers
      && SaveOrder(db, id, o).db.customers[o.customer].amountDue == (if due - o.amount < 0 then 0 else due - o.amount)
    ensures forall c :: c in db.customers && c != o.customer ==> SaveOrder(db, id, o).db.customers[c] == db.customers[c]
  {
  }

  /** An existing order that goes from paid to unpaid raises its customer's
      balance by its amount, and touches no other balance. */
  lemma UnpayingRaisesAmountDue(db: Db, id: nat, o: Order)
    requires id != 0 && id in db.orders && db.orders[id].paid && !o.paid
    requires SaveOrder(db, id, o).outcome == Ok
    ensures var due := db.customers[o.customer].amountDue;
      && o.customer in SaveOrder(db, id, o).db.customers
      && SaveOrder(db, id, o).db.customers[o.customer].amountDue == (if due + o.amount < 0 then 0 else due + o.amount)
    ensures db.customers[o.customer].amountDue >= 0 ==>
      SaveOrder(db, id, o).db.customers[o.customer].amountDue == db.customers[o.customer].amountDue + o.amount
    ensures forall c :: c in db.customers && c != o.customer ==> SaveOrder(db, id, o).db.customers[c] == db.customers[c]
  {
  }

  /** Re-saving an existing order without flipping its paid flag changes no
      balance. */
  lemma SameFlagKeepsAmountDue(db: Db, id: nat, o: Order)
    requires id in db.orders && db.orders[id].paid == o.paid
    ensures SaveOrder(db, id, o).db.customers == db.customers
  {
  }

  /** A new unpaid order adds its amount to its customer's balance; a new
      paid order leaves every balance alone. */
  lemma CreatingAddsAmountDue(db: Db, o: Order)
    requires CreateOrder(db, o).outcome == Ok
    ensures o.customer in db.customers
    ensures !o.paid ==> CreateOrder(db, o).db.customers
                        == db.customers[o.customer := db.customers[o.customer].(amountDue := db.customers[o.customer].amountDue + o.amount)]
    ensures o.paid ==> CreateOrder(db, o).db.customers == db.customers
  {
  }

  /** `if instance.pk` treats key 0 as unsaved: re-saving the order stored
      under key 0 never touches a balance, whatever happens to its flag. */
  lemma KeyZeroSkipsAmountDue(db: Db, o: Order)
    requires 0 in db.orders
    ensures SaveOrder(db, 0, o).db.customers == db.customers
  {
  }

  /** No atomicity: a new unpaid order for a customer whose stored phone is
      malformed is written, and then the balance update fails. */
  lemma CreatingForInvalidCustomerKeepsOrder(db: Db, o: Order)
    requires OrderClean(o) == Pass && !o.paid
    requires o.customer in db.customers
    requires db.customers[o.customer].phone != "" && !MatchesPhone(db.customers[o.customer].phone)
    ensures CreateOrder(db, o).outcome == Err(Invalid(InvalidPhone))
    ensures CreateOrder(db, o).db.orders == db.orders[db.nextId := o]
    ensures CreateOrder(db, o).db.customers == db.customers
  {
  }

  /** A flip for a customer whose stored phone is malformed raises in the
      pre_save hook, before the order row is written: nothing changes. */
  lemma FlipForInvalidCustomerAborts(db: Db, id: nat, o: Order)
    requires OrderClean(o) == Pass
    requires id != 0 && id in db.orders && db.orders[id].paid != o.paid
    requires o.customer in db.customers
    requires db.customers[o.customer].phone != "" && !MatchesPhone(db.customers[o.customer].phone)
    ensures SaveOrder(db, id, o) == Step(db, Err(Invalid(InvalidPhone)))
  {
  }

  /** `save()` runs `clean()` first: an order that fails validation leaves
      the database untouched. */
  lemma InvalidOrderNeverStored(db: Db, id: nat, o: Order)
    requires OrderClean(o) != Pass
    ensures SaveOrder(db, id, o) == Step(db, Err(Invalid(OrderClean(o).error)))
    ensures CreateOrder(db, o) == Step(db, Err(Invalid(OrderClean(o).error)))
  {
  }

  // ---------------------------------------------------------------- daily_sales

  /** After a paid order is saved, its date has a Sales row holding the sum of
      all paid orders of that date; no other date's row changes. */
  lemma {:induction false} PaidSaveResumsSales(db: Db, id: nat, o: Order)
    requires Valid(db)
    requires o.paid && SaveOrder(db, id, o).outcome == Ok
    ensures var after := SaveOrder(db, id, o).db;
      && after.orders == db.orders[id := o]
      && o.date in after.sales
      && after.sales[o.date] == PaidTotal(after.orders, o.date)
      && forall d :: d != o.date ==> (d in after.sales <==> d in db.sales) && (d in db.sales ==> after.sales[d] == db.sales[d])
  {
    var pre := PreSaveAmountDue(db, id, o);
    var orders := db.orders[id := o];
    assert forall k :: k in orders ==> orders[k].amount > 0;
    PaidTotalNonNegative(orders, o.date);
  }

  /** The same for a new paid order. */
  lemma {:induction false} PaidCreateResumsSales(db: Db, o: Order)
    requires Valid(db)
    requires o.paid && CreateOrder(db, o).outcome == Ok
    ensures var after := CreateOrder(db, o).db;
      && after.orders == db.orders[db.nextId := o]
      && o.date in after.sales
      && after.sales[o.date] == PaidTotal(after.orders, o.date)
      && forall d :: d != o.date ==> (d in after.sales <==> d in db.sales) && (d in db.sales ==> after.sales[d] == db.sales[d])
  {
    var orders := db.orders[db.nextId := o];
    assert forall k :: k in orders ==> orders[k].amount > 0;
    PaidTotalNonNegative(orders, o.date);
  }

  /** Saving an unpaid order never touches a Sales row, even right after a
      paid-to-unpaid flip whose amount the row still counts. */
  lemma UnpaidSaveKeepsSales(db: Db, id: nat, o: Order)
    requires !o.paid
    ensures SaveOrder(db, id, o).db.sales == db.sales
    ensures CreateOrder(db, o).db.sales == db.sales
  {
  }

  /** Deleting a paid order re-sums the remaining paid orders into its date's
      Sales row when that row exists, and creates no row otherwise. */
  lemma {:induction false} PaidDeleteResumsExistingRow(db: Db, id: nat)
    requires Valid(db)
    requires id in db.orders && db.orders[id].paid
    ensures var o, after := db.orders[id], DeleteOrder(db, id);
      && after.outcome == Ok
      && after.db.orders == db.orders - {id}
      && after.db.customers == db.customers
      && (o.date in db.sales ==> after.db.sales == db.sales[o.date := PaidTotal(after.db.orders, o.date)])
      && (o.date !in db.sales ==> after.db.sales == db.sales)
  {
    var o := db.orders[id];
    var rest := db.orders - {id};
    assert forall k :: k in rest ==> rest[k].amount > 0;
    PaidTotalNonNegative(rest, o.date);
  }

  /** Deleting an unpaid order changes no Sales row and no balance: the
      amount it added to `amount_due` stays there. */
  lemma UnpaidDeleteKeepsLedger(db: Db, id: nat)
    requires id in db.orders && !db.orders[id].paid
    ensures DeleteOrder(db, id) == Step(db.(orders := db.orders - {id}), Ok)
  {
  }

  /** Saving a paid order moves no period total whose range misses its date. */
  lemma PaidSaveKeepsOtherPeriods(db: Db, id: nat, o: Order, p: Period)
    requires Valid(db)
    requires o.paid && SaveOrder(db, id, o).outcome == Ok
    requires !InPeriod(p, o.date)
    ensures PeriodTotal(SaveOrder(db, id, o).db.sales, p) == PeriodTotal(db.sales, p)
  {
    PaidSaveResumsSales(db, id, o);
    PeriodTotalLocal(SaveOrder(db, id, o).db.sales, db.sales, p);
  }

  /** A paid order saved back as unpaid on the same date leaves its date's
      Sales row counting its amount: a row that was the true total before is
      stale by exactly that amount afterwards. */
  lemma UnpayingLeavesStaleSales(db: Db, id: nat, o: Order)
    requires id in db.orders && db.orders[id].paid && !o.paid && o.date == db.orders[id].date
    requires o.date in db.sales && db.sales[o.date] == PaidTotal(db.orders, o.date)
    requires SaveOrder(db, id, o).outcome == Ok
    ensures var after := SaveOrder(db, id, o).db;
      && o.date in after.sales
      && after.sales[o.date] == PaidTotal(after.orders, o.date) + db.orders[id].amount
  {
    PaidTotalAfterWrite(db.orders, id, o, o.date);
  }

  /** One order's life on an empty ledger: created unpaid for 50.00, marked
      paid, then deleted. The balance goes 0 -> 50.00 -> 0 and the day's
      sales row appears at 50.00 and is re-summed to 0 by the delete. */
  lemma {:induction false} OrderLifecycle(c: Customer, d: Date)
    requires CustomerClean(c) == Pass && c.amountDue == 0
    ensures var o := Order(1, d, 5000, false, "picked_up", None);
      var s1 := CreateOrder(Db(map[1 := c], map[], map[], map[], 1), o);
      var s2 := SaveOrder(s1.db, 1, o.(paid := true));
      var s3 := DeleteOrder(s2.db, 1);
      && s1.outcome == Ok && s1.db.customers[1].amountDue == 5000 && s1.db.sales == map[]
      && s2.outcome == Ok && s2.db.customers[1].amountDue == 0 && s2.db.sales == map[d := 5000]
      && s3.outcome == Ok && s3.db.customers[1].amountDue == 0 && s3.db.sales == map[d := 0]
  {
    var o := Order(1, d, 5000, false, "picked_up", None);
    var db1 := Db(map[1 := c.(amountDue := 5000)], map[], map[1 := o], map[], 2);
    LifecycleCreate(c, o);
    LifecyclePay(c, o, db1);
    LifecycleDelete(c, o.(paid := true), Db(map[1 := c], map[], map[1 := o.(paid := true)], map[d := 5000], 2));
  }

  /** The first step of `OrderLifecycle`: the unpaid order is created. */
  lemma LifecycleCreate(c: Customer, o: Order)
    requires CustomerClean(c) == Pass && c.amountDue == 0
    requires o == Order(1, o.date, 5000, false, "picked_up", None)
    ensures CreateOrder(Db(map[1 := c], map[], map[], map[], 1), o)
      == Step(Db(map[1 := c.(amountDue := 5000)], map[], map[1 := o], map[], 2), Ok)
  {
  }

  /** The second step of `OrderLifecycle`: the order is saved as paid. */
  lemma LifecyclePay(c: Customer, o: Order, db1: Db)
    requires CustomerClean(c) == Pass && c.amountDue == 0
    requires o == Order(1, o.date, 5000, false, "picked_up", None)
    requires db1 == Db(map[1 := c.(amountDue := 5000)], map[], map[1 := o], map[], 2)
    ensures SaveOrder(db1, 1, o.(paid := true))
      == Step(Db(map[1 := c], map[], map[1 := o.(paid := true)], map[o.date := 5000], 2), Ok)
  {
    var paid := o.(paid := true);
    var s2 := SaveOrder(db1, 1, paid);
    PaidSaveResumsSales(db1, 1, paid);
    assert s2.db.orders == map[1 := paid];
    assert map[1 := paid].Keys == {1};
    var f := PaidAmountOf(map[1 := paid], o.date);
    SumSingleton(1, f);
    assert f(1) == 5000;
    assert PaidTotal(map[1 := paid], o.date) == Sum({1}, f);
    assert s2.db.sales.Keys == {o.date};
    assert c.(amountDue := 0) == c;
  }

  /** The last step of `OrderLifecycle`: the paid order is deleted. */
  lemma LifecycleDelete(c: Customer, paid: Order, db2: Db)
    requires paid == Order(1, paid.date, 5000, true, "picked_up", None)
    requires db2 == Db(map[1 := c], map[], map[1 := paid], map[paid.date := 5000], 2)
    ensures DeleteOrder(db2, 1) == Step(db2.(orders := map[], sales := map[paid.date := 0]), Ok)
  {
    PaidDeleteResumsExistingRow(db2, 1);
    assert db2.orders - {1} == map[];
  }

  // ---------------------------------------------------------------- invariant

  lemma SaveOrderKeepsValid(db: Db, id: nat, o: Order)
    requires Valid(db)
    ensures Valid(SaveOrder(db, id, o).db)
  {
    if Admit(db, o) == Ok {
      var pre := PreSaveAmountDue(db, id, o);
      if pre.outcome == Ok {
        assert pre.db.orders == db.orders && pre.db.nextId == db.nextId;
        WriteOrderKeepsValid(pre.db, id, o, id !in db.orders);
      }
    }
  }

  lemma WriteOrderKeepsValid(db: Db, id: nat, o: Order, created: bool)
    requires Valid(db) && o.customer in db.customers && o.amount > 0
    ensures Valid(WriteOrder(db, id, o, created).db)
    ensures WriteOrder(db, id, o, created).db.orders == db.orders[id := o]
  {
  }

  lemma {:induction false} CreateOrderKeepsValid(db: Db, o: Order)
    requires Valid(db)
    ensures Valid(CreateOrder(db, o).db)
    ensures CreateOrder(db, o).db.orders != db.orders ==> db.nextId !in db.orders
  {
    var r := CreateOrder(db, o);
    if r.db.orders != db.orders {
      assert OrderClean(o) == Pass;
      assert r.db.orders == db.orders[db.nextId := o];
    }
  }

  /** Deletion keeps the invariant, and under it the post_delete hook never
      raises, so the transaction Django wraps a delete in never rolls back. */
  lemma DeleteOrderKeepsValid(db: Db, id: nat)
    requires Valid(db)
    ensures Valid(DeleteOrder(db, id).db)
    ensures id in db.orders ==> DeleteOrder(db, id).outcome == Ok
  {
    if id in db.orders {
      PaidTotalNonNegative(db.orders - {id}, db.orders[id].date);
    }
  }
}
