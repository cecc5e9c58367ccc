// The order ledger as the running application holds it: one store of rows
// whose fields the signal handlers of POS/signals.py update in place. Each
// method ties the new rows to the function of LedgerSpec that describes the
// same step, so the lemmas proved there hold of every run of these methods.
// The queries at the end are the ORM aggregates: `Sum('amount')` over the
// paid orders of a date, and `Sum('daily_sales')` over an inclusive date range
// (`get_weekly_sales`, `get_monthly_sales`, `get_yearly_sales`).

module Ledger {
  import opened Wrappers
  import opened Calendar
  import opened Models
  import opened Sums
  import opened LedgerSpec

  class Store {
    var customers: map<nat, Customer>
    var staff: map<nat, Staff>
    var orders: map<nat, Order>
    var sales: map<Date, int>
    var nextId: nat

    function Snapshot(): Db
      reads this
    {
      Db(customers, staff, orders, sales, nextId)
    }

    /** An empty database; the first order key handed out is 1. */
    constructor ()
      ensures Snapshot() == Db(map[], map[], map[], map[], 1)
      ensures Valid(Snapshot())
    {
      customers, staff, orders, sales, nextId := map[], map[], map[], map[], 1;
    }

    // ------------------------------------------------------------ row saves

    /** `Customer.save` (POS/models.py:37-39). */
    method SaveCustomer(id: nat, c: Customer) returns (r: Outcome)
      modifies this
      ensures Step(Snapshot(), r) == LedgerSpec.SaveCustomer(old(Snapshot()), id, c)
    {
      var check := CustomerClean(c);
      if check.Fail? {
        return Err(Invalid(check.error));
      }
      customers := customers[id := c];
      r := Ok;
    }

    /** `Staff.save` (POS/models.py:72-74). */
    method SaveStaff(id: nat, s: Staff) returns (r: Outcome)
      modifies this
      ensures Step(Snapshot(), r) == LedgerSpec.SaveStaff(old(Snapshot()), id, s)
    {
      var check := StaffClean(s);
      if check.Fail? {
        return Err(Invalid(check.error));
      }
      staff := staff[id := s];
      r := Ok;
    }

    // ------------------------------------------------------------ hooks

    /** pre_save `update_customer_amount_due` (POS/signals.py:33-56). */
    method UpdateCustomerAmountDue(id: nat, o: Order) returns (r: Outcome)
      requires o.customer in customers
      modifies this
      ensures Step(Snapshot(), r) == PreSaveAmountDue(old(Snapshot()), id, o)
    {
      r := Ok;
      if id != 0 && id in orders {
        var previous := orders[id];
        if previous.paid != o.paid {
          var c := customers[o.customer];
          r := SaveCustomer(o.customer, c.(amountDue := FlippedDue(c.amountDue, o.amount, o.paid)));
        }
      }
    }

    /** post_save `update_sales_on_order_save` (POS/signals.py:6-31). */
    method UpdateSalesOnOrderSave(o: Order)
      modifies this
      ensures Snapshot() == PostSaveSales(old(Snapshot()), o)
    {
      if o.paid {
        var row := if o.date in sales then sales[o.date] else 0;
        sales := sales[o.date := row];
        var total := PaidTotalOn(o.date);
        if row != total && SalesClean(total) == Pass {
          sales := sales[o.date := total];
        }
      }
    }

    /** post_save `handle_new_order_amount_due` (POS/signals.py:58-67). */
    method HandleNewOrderAmountDue(o: Order, created: bool) returns (r: Outcome)
      requires o.customer in customers
      modifies this
      ensures Step(Snapshot(), r) == PostSaveNewOrder(old(Snapshot()), o, created)
    {
      r := Ok;
      if created && !o.paid {
        var c := customers[o.customer];
        r := SaveCustomer(o.customer, c.(amountDue := c.amountDue + o.amount));
      }
    }

    /** post_delete `update_sales_on_order_delete` (POS/signals.py:71-89). */
    method UpdateSalesOnOrderDelete(o: Order) returns (r: Outcome)
      modifies this
      ensures Step(Snapshot(), r) == PostDeleteSales(old(Snapshot()), o)
    {
      r := Ok;
      if o.paid && o.date in sales {
        var total := PaidTotalOn(o.date);
        var check := SalesClean(total);
        if check.Fail? {
          return Err(Invalid(check.error));
        }
        sales := sales[o.date := total];
      }
    }

    // ------------------------------------------------------------ save and delete

    /** The write and the post_save hooks. */
    method Write(id: nat, o: Order, created: bool) returns (r: Outcome)
      requires o.customer in customers
      modifies this
      ensures Step(Snapshot(), r) == WriteOrder(old(Snapshot()), id, o, created)
    {
      orders := orders[id := o];
      nextId := if id < nextId then nextId else id + 1;
      UpdateSalesOnOrderSave(o);
      r := HandleNewOrderAmountDue(o, created);
    }

    /** `order.save()` for an order whose primary key is id. */
    method SaveOrder(id: nat, o: Order) returns (r: Outcome)
      requires Valid(Snapshot())
      modifies this
      ensures Step(Snapshot(), r) == LedgerSpec.SaveOrder(old(Snapshot()), id, o)
      ensures Valid(Snapshot())
    {
      SaveOrderKeepsValid(Snapshot(), id, o);
      r := Admit(Snapshot(), o);
      if r != Ok {
        return;
      }
      var created := id !in orders;
      r := UpdateCustomerAmountDue(id, o);
      if r != Ok {
        return;
      }
      r := Write(id, o, created);
    }

    /** `Order(...).save()` for a new order; id is the key it was given. */
    method CreateOrder(o: Order) returns (id: nat, r: Outcome)
      requires Valid(Snapshot())
      modifies this
      ensures id == old(nextId)
      ensures Step(Snapshot(), r) == LedgerSpec.CreateOrder(old(Snapshot()), o)
      ensures Valid(Snapshot())
    {
      CreateOrderKeepsValid(Snapshot(), o);
      id := nextId;
      r := Admit(Snapshot(), o);
      if r != Ok {
        return;
      }
      r := Write(id, o, true);
    }

    /** `order.delete()`. */
    method DeleteOrder(id: nat) returns (r: Outcome)
      requires Valid(Snapshot())
      modifies this
      ensures Step(Snapshot(), r) == LedgerSpec.DeleteOrder(old(Snapshot()), id)
      ensures Valid(Snapshot())
    {
      DeleteOrderKeepsValid(Snapshot(), id);
      if id !in orders {
        return Err(OrderDoesNotExist);
      }
      var o := orders[id];
      orders := orders - {id};
      r := UpdateSalesOnOrderDelete(o);
    }

    // ------------------------------------------------------------ aggregates

    /** Sum of the amounts of the paid orders dated d (POS/signals.py:19-22, 81-84). */
    method PaidTotalOn(d: Date) returns (total: int)
      ensures total == PaidTotal(orders, d)
    {
      var f := PaidAmountOf(orders, d);
      var left := orders.Keys;
      total := 0;
      while left != {}
        invariant left <= orders.Keys
        invariant total + Sum(left, f) == PaidTotal(orders, d)
        decreases left
      {
        var k :| k in left;
        SumRemove(left, f, k);
        total := total + PaidAmount(orders[k], d);
        left := left - {k};
      }
    }

    /** Sum of `daily_sales` over the rows dated inside p, 0 when there are none. */
    method SalesIn(p: Period) returns (total: int)
      ensures total == PeriodTotal(sales, p)
    {
      var f := SalesInPeriodOf(sales, p);
      var left := sales.Keys;
      total := 0;
      while left != {}
        invariant left <= sales.Keys
        invariant total + Sum(left, f) == PeriodTotal(sales, p)
        decreases left
      {
        var k :| k in left;
        SumRemove(left, f, k);
        if InPeriod(p, k) {
          total := total + sales[k];
        }
        left := left - {k};
      }
    }

    /** `get_weekly_sales` (POS/models.py:171-181); None is the OverflowError
        raised for the last days of year 9999. */
    method WeeklySales(d: Date) returns (r: Option<int>)
      requires ValidDate(d)
      ensures r.Some? <==> WeekPeriod(d).Some?
      ensures r.Some? ==> r.value == PeriodTotal(sales, WeekPeriod(d).value)
    {
      var p := WeekPeriod(d);
      if p.None? {
        return None;
      }
      var total := SalesIn(p.value);
      r := Some(total);
    }

    /** `get_monthly_sales` (POS/models.py:183-197); None is the ValueError
        raised for December 9999. */
    method MonthlySales(d: Date) returns (r: Option<int>)
      requires ValidDate(d)
      ensures r.Some? <==> MonthPeriod(d).Some?
      ensures r.Some? ==> r.value == PeriodTotal(sales, MonthPeriod(d).value)
    {
      var p := MonthPeriod(d);
      if p.None? {
        return None;
      }
      var total := SalesIn(p.value);
      r := Some(total);
    }

    /** `get_yearly_sales` (POS/models.py:199-209). */
    method YearlySales(d: Date) returns (total: int)
      requires ValidDate(d)
      ensures total == PeriodTotal(sales, Period(Date(d.year, 1, 1), Date(d.year, 12, 31)))
    {
      YearPeriodSpec(d);
      var p := YearPeriod(d);
      total := SalesIn(p.value);
    }
  }
}
