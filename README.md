# Water-station POS: order ledger and its satellites, in Dafny

This project models the bookkeeping core of a Django point-of-sale system for a water-refilling station and proves properties of it:

- **The order ledger.** The signal handlers of `POS/signals.py` keep a per-customer `amount_due` and a per-day `daily_sales` row in step with orders as they are created, saved and deleted. Every write goes through the model's `clean()`.
- **The calendar periods.** `get_weekly_sales`, `get_monthly_sales` and `get_yearly_sales` each sum `daily_sales` over an inclusive date range.
- **The point-of-sale order totals** of `pos/models.py`: the item subtotal rule and the total loop.
- **The driver's delivery board**: the latest delivery per customer, grouped by status.
- **The websocket consumers**: the routing rule that picks a group, plus group join and leave on the channel layer.
- **The delivery-update notification** and its outbox entry.
- **The `has_group` template filter.**

Layout:
- `wrappers.dfy`: the `Option` type shared by the modules.
- `sums.dfy`: sums over a finite set of keys, the model of the ORM's `Sum` aggregate.
- `text.dfy`: ASCII whitespace.
- `calendar.dfy`: proleptic Gregorian dates, `timedelta` steps and `date.replace`.
- `models.dfy`: rows and `clean()` rules.
- `ledger_spec.dfy`: each hook and operation as a function from state to state, with the ledger lemmas.
- `ledger.dfy`: the `Store` class whose methods update the rows in place. Each method is proved equal to its spec function.
- `order_totals.dfy`, `delivery_board.dfy`, `channels.dfy`, `staff_consumer.dfy`, `notification_consumer.dfy`, `delivery_notifications.dfy` and `group_filter.dfy` cover the rest.

Money in `POS/models.py` is held in integer cents. In `pos/models.py` prices and quantities are held in hundredths, so subtotals and totals are in ten-thousandths. Both are exact.

Where the documented intent of the system and its code differ, the model follows the code:
- A paid order saved back as unpaid keeps being counted in its date's `daily_sales`. The sales hook only runs for paid orders (`UnpaidSaveKeepsSales`, `UnpayingLeavesStaleSales`).
- Deleting an unpaid order leaves its amount in `amount_due` (`UnpaidDeleteKeepsLedger`).
- Delete re-sums a Sales row only if one already exists.
- Saves are not atomic. A failing customer save after the order write leaves the order written (`CreatingForInvalidCustomerKeepsOrder`).
- The notifications consumer puts every customer into one shared `customer_group`. There is no private group per customer (`CustomersShareOneGroup`).

## Model

| member | source | states |
|---|---|---|
| Sums.SumRemove | POS/signals.py:19-22 | an aggregate sum does not depend on the order in which rows are visited: any row can be taken out first |
| Sums.SumNonNegative | POS/signals.py:19-22 | a sum of non-negative amounts is non-negative |
| Calendar.Weekday | POS/models.py:176 | `date.weekday()` lies in 0..6 |
| Calendar.WeekdayAnchor | POS/models.py:176 | 0001-01-01, the first date, is a Monday, weekday 0 |
| Calendar.WeekdayNext | POS/models.py:176 | the weekday of the next day is one more, wrapping from Sunday (6) to Monday (0); with the anchor this pins `Weekday` to `date.weekday()` on every date |
| Calendar.Replace | POS/models.py:188-192 | `date.replace` succeeds exactly when the requested year, month and day form a valid date, and then yields that date; otherwise ValueError |
| Calendar.Ordinal | POS/models.py:179-180 | the day number that `date__range` compares: every valid date has one, counting 0001-01-01 as day 1; `OrdinalOrder` shows it follows calendar order |
| Calendar.NextDay | POS/models.py:177 | a successor, when there is one, is a valid date; `NextDayOrdinal` shows it is the following day |
| Calendar.PrevDay | POS/models.py:193 | a predecessor, when there is one, is a valid date; `PrevDayOrdinal` shows it is the preceding day |
| Calendar.AddDays | POS/models.py:177 | `date + timedelta(days=n)` yields a valid date or the OverflowError; `AddDaysOrdinal` pins which |
| Calendar.SubDays | POS/models.py:176 | `date - timedelta(days=n)` yields a valid date or the OverflowError; `SubDaysOrdinal` pins which |
| Calendar.OrdinalOrder | POS/models.py:179-180 | comparing dates (as `date__range` does) is comparing day numbers, and equal day numbers mean equal dates |
| Calendar.AddDaysOrdinal | POS/models.py:177 | adding n days moves the day number by n and fails (OverflowError) exactly past 9999-12-31 |
| Calendar.SubDaysOrdinal | POS/models.py:176 | subtracting n days moves the day number back by n and fails exactly before 0001-01-01 |
| Calendar.NextDayOrdinal | POS/models.py:177 | the next day has the next day number; only 9999-12-31 has none |
| Calendar.PrevDayOrdinal | POS/models.py:193 | the previous day has the previous day number; only 0001-01-01 has none |
| Calendar.WeekStartsOnMonday | POS/models.py:176 | the weekly range starts on a Monday |
| Calendar.WeekPeriod | POS/models.py:171-177 | both ends of a built weekly range are valid dates; `WeekPeriodSpec` gives the range itself |
| Calendar.MonthPeriod | POS/models.py:183-193 | both ends of a built monthly range are valid dates; `MonthPeriodSpec` gives the range itself |
| Calendar.YearPeriod | POS/models.py:199-205 | both ends of a built yearly range are valid dates; `YearPeriodSpec` gives the range itself |
| Calendar.WeekPeriodSpec | POS/models.py:176-177 | the weekly range exists unless its Sunday would pass 9999-12-31; it starts on the Monday on or before the date, ends six days later, contains the date, and holds exactly the dates whose day numbers lie between its ends |
| Calendar.MonthPeriodSpec | POS/models.py:188-193 | the monthly range is day 1 to the last day of the date's month (December ends on the 31st); it fails only for December 9999; it holds exactly the dates of that month |
| Calendar.YearPeriodSpec | POS/models.py:204-205 | the yearly range is January 1 to December 31 of the date's year and holds exactly that year's dates |
| Models.PhoneRunCoversAll | POS/models.py:31 | the scanner consumes the whole string iff every character is in the phone class |
| Models.MatchesPhone | POS/models.py:31 | a phone the pattern accepts has at least ten characters; `MatchesPhoneLanguage` states the accepted language in full |
| Models.MatchesPhoneLanguage | POS/models.py:31 | the phone pattern accepts exactly: 10 or more class characters, or a `+` followed by 10 or more class characters |
| Models.CustomerClean | POS/models.py:26-35 | passes iff there is a user or a phone, a non-empty phone matches the pattern, and `amount_due` is not negative; and the first failing check in source order is the one reported: missing contact, then an invalid phone, then a negative `amount_due` |
| Models.StaffClean | POS/models.py:68-70 | passes iff the phone is empty or matches the pattern; otherwise the phone error |
| Models.IsDriver | POS/models.py:65-66 | `is_driver()`: the position is `driver`; `OrderClean` states what it gates at POS/models.py:121 |
| Models.OrderClean | POS/models.py:117-122 | passes iff the amount is positive and any assigned staff member's position is `driver`; a non-positive amount is reported first, and a positive amount with a non-driver assigned reports `NotADriver` |
| Models.SalesClean | POS/models.py:155-157 | passes iff `daily_sales` is not negative; the only error it reports is the negative-sales one |
| Models.InvalidPhoneBlocksSave | POS/models.py:31-32 | a customer with a malformed stored phone fails `clean` whatever its balance |
| LedgerSpec.SaveCustomer | POS/models.py:37-39 | the customer row is written iff `Customer.clean` passes; otherwise nothing changes and its error is returned |
| LedgerSpec.SaveStaff | POS/models.py:72-74 | the staff row is written iff `Staff.clean` passes; otherwise nothing changes |
| LedgerSpec.PreSaveAmountDue | POS/signals.py:33-56 | the pre_save hook touches only customer balances, and only the new order's customer, whose other fields are kept; with key 0, a key not yet stored or no flip it changes nothing |
| LedgerSpec.PostSaveSales | POS/signals.py:6-31 | the sales hook touches only the Sales table; for an unpaid order nothing; for a paid one it only adds the order's date as a row and changes no other date's row |
| LedgerSpec.PostSaveNewOrder | POS/signals.py:58-67 | the creation hook touches only the order's customer's balance, keeping that customer's other fields, and only for a newly created unpaid order |
| LedgerSpec.PostDeleteSales | POS/signals.py:71-89 | the delete hook touches only the existing Sales row of the order's date, creates no row, and does nothing for an unpaid order |
| LedgerSpec.WriteOrder | POS/models.py:124-126 | the row write followed by the post_save hooks: the order ends up stored under its key even if a hook fails, no Staff row changes, and the next key lies beyond it |
| LedgerSpec.SaveOrder | POS/models.py:124-126 | a save never touches Staff rows, stores the order under its key when it succeeds (and may have stored it when a later hook fails), adds at most the order's date as a Sales row and changes no other date's row |
| LedgerSpec.CreateOrder | POS/models.py:124-126 | a creation stores the order under the next key when it succeeds, never touches Staff rows, and changes no Sales row but its date's |
| LedgerSpec.DeleteOrder | POS/signals.py:71-89 | deleting a missing order fails with nothing changed; otherwise the order row goes, no balance and no Staff row changes, no Sales row is created, and only the row of the order's date may change |
| LedgerSpec.FlippedDue | POS/signals.py:43-52 | the balance after a flip is the old balance minus (paid) or plus (unpaid) the amount, floored at 0 |
| LedgerSpec.Admit | POS/models.py:124-126 | an order save proceeds iff `Order.clean` passes and its customer exists |
| LedgerSpec.PaidTotal | POS/signals.py:19-22 | the daily aggregate: the sum over all stored orders of the amount of each paid order dated d; `PaidTotalSplit`, `PaidTotalZero` and `PaidTotalNonNegative` state its properties |
| LedgerSpec.PeriodTotal | POS/models.py:179-181 | the range aggregate: the sum of `daily_sales` over the rows dated inside the inclusive range; `PeriodTotalOverRows` and `PeriodTotalNoRows` state its properties |
| LedgerSpec.PaidTotalSplit | POS/signals.py:19-22 | the daily paid total is one order's contribution plus the total of the others |
| LedgerSpec.PaidTotalAfterWrite | POS/signals.py:19-22 | re-summing after writing one order equals the old total minus the old row's contribution plus the new row's |
| LedgerSpec.PaidTotalNonNegative | POS/signals.py:19-27 | with positive order amounts the daily total is never negative, so the `Sales.clean` inside the hooks never fires |
| LedgerSpec.PaidTotalZero | POS/signals.py:19-22 | no paid order on a date gives a total of 0 (the `or 0` fallback) |
| LedgerSpec.PeriodTotalOverRows | POS/models.py:179-181 | a range total is the sum over the Sales rows dated inside the inclusive range only |
| LedgerSpec.PeriodTotalNoRows | POS/models.py:179-181 | a range with no Sales rows totals 0 |
| LedgerSpec.PeriodTotalLocal | POS/models.py:179-181 | two Sales tables that agree inside a range give it the same total |
| LedgerSpec.PeriodTotalNonNegative | POS/models.py:179-181 | non-negative rows give a non-negative range total |
| LedgerSpec.PayingLowersAmountDue | POS/signals.py:38-54 | saving an existing order whose flag goes unpaid to paid lowers its customer's balance by the amount, floored at 0, and changes no other balance |
| LedgerSpec.UnpayingRaisesAmountDue | POS/signals.py:38-54 | saving an existing order whose flag goes paid to unpaid raises its customer's balance by the amount, and changes no other balance |
| LedgerSpec.SameFlagKeepsAmountDue | POS/signals.py:41 | re-saving an order without flipping its flag leaves every balance unchanged |
| LedgerSpec.KeyZeroSkipsAmountDue | POS/signals.py:38 | the falsy key 0 skips the balance hook altogether |
| LedgerSpec.CreatingAddsAmountDue | POS/signals.py:63-67 | a new unpaid order adds its amount to its customer's balance; a new paid order changes no balance |
| LedgerSpec.CreatingForInvalidCustomerKeepsOrder | POS/signals.py:63-67 | without atomicity, a new unpaid order for a customer whose stored phone is malformed is written and then the balance save fails |
| LedgerSpec.FlipForInvalidCustomerAborts | POS/signals.py:54-56 | a flip for such a customer raises in the pre_save hook, before the write: nothing changes |
| LedgerSpec.InvalidOrderNeverStored | POS/models.py:124-126 | an order failing `clean` is never stored and nothing changes |
| LedgerSpec.PaidSaveResumsSales | POS/signals.py:11-27 | after saving a paid order its date's Sales row exists and equals the sum of all paid orders on that date; no other row changes |
| LedgerSpec.PaidCreateResumsSales | POS/signals.py:11-27 | the same for a newly created paid order |
| LedgerSpec.PaidSaveKeepsOtherPeriods | POS/signals.py:11-27 | saving a paid order leaves the total of every range that misses its date unchanged |
| LedgerSpec.UnpaidSaveKeepsSales | POS/signals.py:11 | saving or creating an unpaid order leaves every Sales row unchanged |
| LedgerSpec.UnpayingLeavesStaleSales | POS/signals.py:11 | after a paid-to-unpaid flip the date's Sales row exceeds the true paid total by the order's amount |
| LedgerSpec.PaidDeleteResumsExistingRow | POS/signals.py:76-89 | deleting a paid order sets its date's existing Sales row to the sum of the remaining paid orders and creates no row when none exists; balances are untouched |
| LedgerSpec.UnpaidDeleteKeepsLedger | POS/signals.py:71-76 | deleting an unpaid order removes only the order: no Sales row and no balance changes |
| LedgerSpec.OrderLifecycle | POS/signals.py:6-89 | a 50.00 unpaid order created, marked paid, then deleted takes the balance 0 to 50.00 to 0 and the day's sales to 50.00, then re-sums them to 0 |
| LedgerSpec.LifecycleCreate | POS/signals.py:58-67 | the creation step of that trace: the order is stored under key 1 and the balance becomes 50.00 |
| LedgerSpec.LifecyclePay | POS/signals.py:6-56 | the payment step: the balance returns to 0 and the day's Sales row is created at 50.00 |
| LedgerSpec.LifecycleDelete | POS/signals.py:71-89 | the delete step: the order row goes and the day's row is re-summed to 0 |
| LedgerSpec.SaveOrderKeepsValid | POS/models.py:117-126 | every stored order has a positive amount and a key below the next key, before and after a save |
| LedgerSpec.WriteOrderKeepsValid | POS/models.py:117-126 | the write keeps that invariant and stores the order under its key |
| LedgerSpec.CreateOrderKeepsValid | POS/models.py:117-126 | creating keeps the invariant, and a new order gets an unused key |
| LedgerSpec.DeleteOrderKeepsValid | POS/signals.py:71-89 | deleting keeps the invariant, and deleting a stored order then always succeeds: the post_delete hook's `Sales.clean` cannot raise, so the delete's transaction never rolls back |
| Ledger.Store.SaveCustomer | POS/models.py:37-39 | updates the rows as `LedgerSpec.SaveCustomer` says |
| Ledger.Store.SaveStaff | POS/models.py:72-74 | updates the rows as `LedgerSpec.SaveStaff` says |
| Ledger.Store.UpdateCustomerAmountDue | POS/signals.py:33-56 | the pre_save hook, in place, as `LedgerSpec.PreSaveAmountDue` says |
| Ledger.Store.UpdateSalesOnOrderSave | POS/signals.py:6-31 | the sales post_save hook, in place, as `LedgerSpec.PostSaveSales` says |
| Ledger.Store.HandleNewOrderAmountDue | POS/signals.py:58-67 | the balance post_save hook, in place, as `LedgerSpec.PostSaveNewOrder` says |
| Ledger.Store.UpdateSalesOnOrderDelete | POS/signals.py:71-89 | the post_delete hook, in place, as `LedgerSpec.PostDeleteSales` says |
| Ledger.Store.Write | POS/signals.py:6-31 | the row write followed by the post_save hooks in the order they are connected |
| Ledger.Store.SaveOrder | POS/models.py:124-126 | `order.save()`: clean, pre_save hook, write, post_save hooks, with the state and outcome `LedgerSpec.SaveOrder` gives; keeps the invariant |
| Ledger.Store.CreateOrder | POS/models.py:124-126 | a new order gets the next key; state and outcome as `LedgerSpec.CreateOrder`; keeps the invariant |
| Ledger.Store.DeleteOrder | POS/signals.py:71-89 | `order.delete()` then the post_delete hook, as `LedgerSpec.DeleteOrder`; keeps the invariant |
| Ledger.Store.PaidTotalOn | POS/signals.py:19-22 | the loop over the stored orders returns the sum of the paid orders dated d |
| Ledger.Store.SalesIn | POS/models.py:179-181 | the loop over the Sales rows returns the sum of `daily_sales` inside the inclusive range, 0 when there are none |
| Ledger.Store.WeeklySales | POS/models.py:171-181 | the total over the weekly range, or the overflow failure exactly when that range cannot be built |
| Ledger.Store.MonthlySales | POS/models.py:183-197 | the total over the monthly range, or the ValueError exactly for December 9999 |
| Ledger.Store.YearlySales | POS/models.py:199-209 | the total over January 1 to December 31 of the date's year |
| OrderTotals.Or | pos/models.py:87-88 | `x or default`: None and 0 give the default; any other value is kept |
| OrderTotals.Saved | pos/models.py:86-89 | a missing or zero unit price becomes the product's price; the subtotal is the unit price times the quantity, 0 for a missing quantity; the quantity is kept |
| OrderTotals.SavedIdempotent | pos/models.py:86-89 | saving an item twice stores what saving once stored |
| OrderTotals.SavedSubtotalConsistent | pos/models.py:88 | after a save, subtotal equals stored unit price times quantity |
| OrderTotals.OrderItem.Save | pos/models.py:86-89 | the item's fields become those `Saved` gives |
| OrderTotals.Subtotals | pos/models.py:74-75 | the items' subtotals, one per item, in order |
| OrderTotals.Total | pos/models.py:73-75 | the running total, added front to back; `TotalAppend` and `TotalUpdate` show each subtotal counts exactly once |
| OrderTotals.TotalAppend | pos/models.py:73-75 | the running total over a concatenation is the sum of the two totals |
| OrderTotals.TotalUpdate | pos/models.py:73-75 | changing one subtotal changes the total by exactly the difference |
| OrderTotals.TotalNonNegative | pos/models.py:73-75 | non-negative subtotals give a non-negative total |
| OrderTotals.SavedTotalNonNegative | pos/models.py:72-89 | items saved with non-negative prices and quantities give a non-negative order total |
| OrderTotals.Order.CalculateTotal | pos/models.py:72-77 | returns the sum of the items' subtotals (0 with no items), stores that value in `total_amount`, and writes no item |
| DeliveryBoard.Lower | deliveries/views.py:41 | lower-casing keeps the length and lowers each ASCII letter |
| DeliveryBoard.Kept | deliveries/views.py:29-32 | the first delivery of each customer, in input order; no longer than the input; `KeptIsFirst` and `FirstIsKept` characterise it |
| DeliveryBoard.Bucket | deliveries/views.py:40-43 | the kept deliveries with one lower-cased status; no longer than the kept list; `BucketMembership` characterises it |
| DeliveryBoard.Board | deliveries/views.py:35-43 | the context has exactly the three keys `delivered`, `transporting` and `picked_up` |
| DeliveryBoard.LatestByCustomer | deliveries/views.py:29-32 | the first loop builds `latest_by_customer`: its keys in insertion order are exactly the customers of `Kept`, and each is mapped to the first of its deliveries in input order |
| DeliveryBoard.DeliveryList | deliveries/views.py:25-45 | the context has exactly the three bucket keys, and each bucket is the kept deliveries with that lower-cased status |
| DeliveryBoard.CustomersMembership | deliveries/views.py:29-32 | a customer is among those of a list iff some delivery in it has that customer |
| DeliveryBoard.KeptDistinct | deliveries/views.py:29-32 | each customer contributes at most one kept delivery |
| DeliveryBoard.KeptCustomers | deliveries/views.py:29-32 | the kept deliveries cover exactly the customers of the input |
| DeliveryBoard.KeptIsFirst | deliveries/views.py:30-32 | every kept delivery is in the input and no earlier delivery has its customer |
| DeliveryBoard.FirstIsKept | deliveries/views.py:30-32 | the first delivery of each customer is kept |
| DeliveryBoard.KeptIsLatest | deliveries/views.py:26-32 | with the input ordered newest first, a customer's kept delivery is no older than any of theirs |
| DeliveryBoard.KeptCount | deliveries/views.py:29-32 | there are exactly as many kept deliveries as distinct customers |
| DeliveryBoard.BucketMembership | deliveries/views.py:40-43 | a delivery is in bucket s iff it is kept and its lower-cased status is s |
| DeliveryBoard.BucketAppend | deliveries/views.py:40-43 | bucketing distributes over concatenation, so a bucket keeps the order of the kept list |
| DeliveryBoard.BucketsFit | deliveries/views.py:35-43 | the three buckets together hold no more deliveries than were kept |
| DeliveryBoard.OtherStatusDropped | deliveries/views.py:41-43 | a kept delivery with a status other than the three is in no bucket |
| DeliveryBoard.BoardSize | deliveries/views.py:35-43 | the board shows at most one delivery per distinct customer |
| Channels.Join | POS/consumers.py:12 | `group_add` puts the channel into that group and changes no other group |
| Channels.Leave | POS/consumers.py:16 | `group_discard` takes the channel out of that group and changes no other group |
| Channels.LeaveUndoesJoin | POS/consumers.py:12-16 | leaving the group just joined restores every group, if the channel was not in it before |
| Channels.JoinPutsInOneGroup | notifications/consumers.py:20 | a channel that was in no group is afterwards in exactly the joined group |
| Channels.JoinIdempotent | notifications/consumers.py:20 | joining twice subscribes once |
| Channels.Registry.GroupAdd | POS/consumers.py:12 | the registry becomes the `Join` of its old groups |
| Channels.Registry.GroupDiscard | POS/consumers.py:16 | the registry becomes the `Leave` of its old groups |
| Channels.NotificationFrame | POS/consumers.py:18-22 | the frame exists iff the event has `title` and `message`, and carries exactly those two values |
| Channels.FrameIgnoresOtherKeys | notifications/consumers.py:26-30 | other event keys do not change the frame |
| PosConsumers.StaffRoute | POS/consumers.py:8-13 | anonymous users and users in neither `staff` nor `admin` are closed; everyone else gets `staff_admin_group` |
| PosConsumers.AdminGroupSuffices | POS/consumers.py:8 | membership of the `admin` group is enough, whatever the `is_staff` flag |
| PosConsumers.NotificationConsumer.Connect | POS/consumers.py:5-13 | a refused user is closed and the registry is unchanged; an admitted one is accepted, remembers `staff_admin_group` and is joined to it |
| PosConsumers.NotificationConsumer.Disconnect | POS/consumers.py:15-16 | removes the channel from the group it joined and from no other |
| PosConsumers.NotificationConsumer.SendNotification | POS/consumers.py:18-22 | sends exactly the event's title and message, or fails with no frame sent when a key is missing |
| NotificationConsumers.NotificationRoute | notifications/consumers.py:8-17 | anonymous users are closed; staff go to `admin_group` even with a customer record; other customers to `customer_group`; everyone else to `general_group` |
| NotificationConsumers.CustomersShareOneGroup | notifications/consumers.py:14-15 | any two non-staff customers are routed to the same group |
| NotificationConsumers.ConnectThenDisconnect | notifications/consumers.py:20-24 | a fresh connection is in exactly its routed group, and disconnecting restores every group |
| NotificationConsumers.NotificationConsumer.Connect | notifications/consumers.py:5-21 | a closed connection leaves the registry unchanged; an accepted one remembers its routed group and is joined to it |
| NotificationConsumers.NotificationConsumer.Disconnect | notifications/consumers.py:23-24 | removes the channel from the group it joined and from no other |
| NotificationConsumers.NotificationConsumer.SendNotification | notifications/consumers.py:26-30 | forwards exactly title and message, or fails with nothing sent |
| DeliveryNotifications.Decimal | notifications/signals.py:15 | `str(id)` is a non-empty run of digits with no leading zero |
| DeliveryNotifications.DecimalRoundTrip | notifications/signals.py:15 | parsing the printed id gives the id back |
| DeliveryNotifications.Message | notifications/signals.py:15 | the message starts with `Your order #`, ends with `.`, and is as long as its five pieces together |
| DeliveryNotifications.MessageDecodes | notifications/signals.py:15 | the message is `Your order #`, the id's digits, ` is now `, the status, and `.`; the id and the status can be read back |
| DeliveryNotifications.DigitsEndAtSpace | notifications/signals.py:15 | the id's digits are followed by a space |
| DeliveryNotifications.MessageInjective | notifications/signals.py:15 | different ids or statuses give different messages |
| DeliveryNotifications.NotificationLog.NotifyDeliveryUpdate | notifications/signals.py:11-18 | a created delivery records nothing; an updated one appends one notification for its customer and one outbox entry for the same customer with the same message |
| GroupFilter.SplitCount | POS/templatetags/group_filters.py:8 | splitting gives one name per comma, plus one |
| GroupFilter.SplitPiecesHaveNoComma | POS/templatetags/group_filters.py:8 | no piece contains a comma |
| GroupFilter.JoinSplit | POS/templatetags/group_filters.py:8 | joining the pieces with commas gives back the input |
| GroupFilter.SplitWithoutComma | POS/templatetags/group_filters.py:8 | input without a comma is a single piece, itself |
| GroupFilter.Split | POS/templatetags/group_filters.py:8 | `str.split(',')` gives at least one piece; `SplitCount` and `JoinSplit` pin the pieces |
| GroupFilter.LeadingSpaces | POS/templatetags/group_filters.py:8 | the leading whitespace run: all whitespace, followed by a non-whitespace character or the end |
| GroupFilter.TrailingSpaces | POS/templatetags/group_filters.py:8 | the trailing whitespace run, characterized the same way from the end |
| GroupFilter.Strip | POS/templatetags/group_filters.py:8 | a stripped name is empty or starts and ends with non-whitespace |
| GroupFilter.StripRemovesOnlySpace | POS/templatetags/group_filters.py:8 | strip keeps one contiguous slice and removes only whitespace around it |
| GroupFilter.StripIdempotent | POS/templatetags/group_filters.py:8 | stripping twice strips once |
| GroupFilter.GroupList | POS/templatetags/group_filters.py:8 | one name per piece, each the stripped piece |
| GroupFilter.HasGroup | POS/templatetags/group_filters.py:9 | `has_group`: some parsed name is one of the user's groups; `HasGroupIsIntersection` restates it as a set intersection |
| GroupFilter.HasGroupIsIntersection | POS/templatetags/group_filters.py:9 | the filter holds iff the user's group names and the parsed names have a name in common |
| GroupFilter.SingleNameFilter | POS/templatetags/group_filters.py:8-9 | input without a comma checks exactly one name, the stripped input |

## Left out

- Database I/O is not modelled. Rows are maps keyed by primary key. Sales rows are keyed by their unique date.
- Decimal storage is not modelled: quantising to two places and the `max_digits` overflow at the database. Amounts are exact integers.
- Timezone conversion in `order_date.date()` and `timezone.now()` is not modelled. Dates are abstract calendar values.
- The clock is left out. The default `date=None` ("today") of the three sales helpers is not modelled: the caller passes the date.
- The `Sales.weekly_sales`, `monthly_sales` and `yearly_sales` properties are left out (POS/models.py:140-150). They just call the helpers with the row's date.
- The model reads an order's customer afresh from the rows. The source uses `instance.customer`, which may be a cached and stale object.
- Logging is left out. The exception that `update_sales_on_order_save` swallows and prints is modelled as "the row stays as it was".
- Saves run outside any transaction in the source, and the model keeps a hook's failure after the write. A delete runs inside Django's `transaction.atomic`, so a failing post_delete hook would roll it back; the model returns the error of `PostDeleteSales` without that rollback, a path that cannot arise while `Valid` holds, since every daily total is then non-negative (`DeleteOrderKeepsValid`). Locks and concurrent saves are not modelled.
- The second drafts of `Staff`, `Admin` and `Driver` at POS/models.py:211-235 are not modelled. They refer to attributes that do not exist.
- The `Order.assigned_driver` form filter on `is_active` is not modelled. It is not part of `Order.clean`.
- Unicode is left out. `\d`, `\s`, `str.strip()` and `str.lower()` are modelled on ASCII only.
- `pos/models.py`: the database write in `OrderItem.save` is not modelled. `Product`, `Payment`, `Customer.balance` and the order status fields are not modelled either, because no core logic reads them.
- deliveries/views.py: the database query and its `order_by('-date')` are the method's input. Template rendering and `update_delivery` are not modelled.
- Channel-layer transport is not modelled: async scheduling, JSON encoding, `group_send` fan-out and socket accept/close beyond two flags.
- customer/consumers.py and deliveries/consumers.py are not part of this model. They join a fixed group unconditionally.
- notifications/tasks.py is not modelled: the Celery task body, the user lookup and `send_mail`. A queued task is an outbox entry.
- PosConsumers.NotificationConsumer.Disconnect requires a joined group. On a connection the rule closed, the source reads an unset `group_name` and raises AttributeError. The model does not represent that error.
- NotificationConsumers.NotificationConsumer.Disconnect has the same requirement, for the same reason.
- PosConsumers.NotificationConsumer.Connect models the evident access rule: a signed-in member of `staff` or `admin` is joined and accepted. As written, `connect` is an `async def` that runs the synchronous query `user.groups.filter(...).exists()` (POS/consumers.py:8). Without `DJANGO_ALLOW_ASYNC_UNSAFE`, Django then raises `SynchronousOnlyOperation` for every signed-in user, before `group_add` and `accept`. The model does not represent that exception.
- NotificationConsumers.NotificationConsumer.Connect models the evident routing: a signed-in non-staff user with a customer record goes to `customer_group`, any other to `general_group`. As written, `hasattr(user, 'customer')` (notifications/consumers.py:14) reads a reverse one-to-one accessor that is not cached. Inside the `async def connect` that query raises `SynchronousOnlyOperation`, which `hasattr` does not swallow, so those users get an exception instead of a join. The model does not represent that exception.
- DeliveryNotifications.NotificationLog.NotifyDeliveryUpdate models the receiver body (notifications/signals.py:11-18) as it runs once registered, which is the evident intent. As written, `notify_delivery_update` is a function local to `connect_delivery_signals` and `@receiver` connects it with Django's default weak reference; nothing else holds it once that call returns (line 21), so the receiver can be collected and delivery updates would then record nothing. The registration and its lifetime are not modelled.
