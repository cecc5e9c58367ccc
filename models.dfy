// The rows of POS/models.py that the order ledger touches, and the
// validation each model's `clean` performs before `save` writes the row.
// Money is held in integer cents (the fields have two decimal places).

module Models {
  import opened Wrappers
  import opened Calendar
  import opened Text

  datatype ValidationError =
    | MissingContact      // Customer: neither a user account nor a phone number
    | InvalidPhone        // Customer, Staff: phone does not match the pattern
    | NegativeAmountDue   // Customer
    | NonPositiveAmount   // Order
    | NotADriver          // Order: assigned staff member is not a driver
    | NegativeDailySales  // Sales

  /** Outcome of a `clean()` call: return normally, or raise ValidationError. */
  datatype Check = Pass | Fail(error: ValidationError)

  datatype Customer = Customer(hasUser: bool, phone: string, amountDue: int)

  datatype Staff = Staff(position: string, phone: string, isActive: bool)

  datatype Order = Order(
    customer: nat,
    date: Date,
    amount: int,
    paid: bool,
    jugStatus: string,
    assignedDriver: Option<Staff>)

  // ---------------------------------------------------------------- phone numbers

  /** The character class `[\d\s\-\(\)]`, restricted to ASCII. */
  predicate IsPhoneChar(c: char) {
    ('0' <= c <= '9') || IsSpace(c) || c == '-' || c == '(' || c == ')'
  }

  predicate AllPhoneChars(s: string) {
    forall i :: 0 <= i < |s| ==> IsPhoneChar(s[i])
  }

  /** Length of the longest prefix of s drawn from the phone class. */
  function PhoneRun(s: string): (n: nat)
    ensures n <= |s|
  {
    if s == [] || !IsPhoneChar(s[0]) then 0 else 1 + PhoneRun(s[1..])
  }

  /** `re.match(r'^\+?[\d\s\-\(\)]{10,}$', s)`: skip one optional '+', then
      the class must run to the end of the string and cover at least 10
      characters. A '+' is not in the class, so skipping it is the only way
      to match a leading '+'. */
  function MatchesPhone(s: string): (r: bool)
    ensures r ==> |s| >= 10
  {
    var body := if |s| > 0 && s[0] == '+' then s[1..] else s;
    |body| >= 10 && PhoneRun(body) == |body|
  }

  lemma {:induction false} PhoneRunCoversAll(s: string)
    ensures PhoneRun(s) == |s| <==> AllPhoneChars(s)
  {
    if s != [] {
      PhoneRunCoversAll(s[1..]);
      if IsPhoneChar(s[0]) && AllPhoneChars(s[1..]) {
        forall i | 0 <= i < |s| ensures IsPhoneChar(s[i]) {
          if i > 0 { assert s[i] == s[1..][i - 1]; }
        }
      }
      if AllPhoneChars(s) {
        forall i | 0 <= i < |s| - 1 ensures IsPhoneChar(s[1..][i]) {
          assert s[1..][i] == s[i + 1];
        }
      }
    }
  }

  /** The language of the phone pattern: ten or more class characters,
      optionally preceded by one '+'. */
  lemma MatchesPhoneLanguage(s: string)
    ensures MatchesPhone(s) <==>
      || (|s| >= 10 && AllPhoneChars(s))
      || (|s| >= 11 && s[0] == '+' && AllPhoneChars(s[1..]))
  {
    PhoneRunCoversAll(s);
    if |s| > 0 {
      PhoneRunCoversAll(s[1..]);
      if s[0] == '+' {
        assert !IsPhoneChar(s[0]);
      }
    }
  }

  // ---------------------------------------------------------------- clean()

  /** `Customer.clean` (POS/models.py:26-35): the three checks in order. */
  function CustomerClean(c: Customer): (r: Check)
    ensures r == Pass <==>
      && (c.hasUser || c.phone != "")
      && (c.phone == "" || MatchesPhone(c.phone))
      && c.amountDue >= 0
    ensures !c.hasUser && c.phone == "" ==> r == Fail(MissingContact)
    ensures c.phone != "" && !MatchesPhone(c.phone) ==> r == Fail(InvalidPhone)
    ensures (c.hasUser || c.phone != "") && (c.phone == "" || MatchesPhone(c.phone)) && c.amountDue < 0 ==> r == Fail(NegativeAmountDue)
  {
    if !c.hasUser && c.phone == "" then Fail(MissingContact)
    else if c.phone != "" && !MatchesPhone(c.phone) then Fail(InvalidPhone)
    else if c.amountDue < 0 then Fail(NegativeAmountDue)
    else Pass
  }

  /** `Staff.is_driver` (POS/models.py:65-66). */
  predicate IsDriver(s: Staff) {
    s.position == "driver"
  }

  /** `Staff.clean` (POS/models.py:68-70): only the phone is checked. */
  function StaffClean(s: Staff): (r: Check)
    ensures r == Pass <==> s.phone == "" || MatchesPhone(s.phone)
    ensures r != Pass ==> r == Fail(InvalidPhone)
  {
    if s.phone != "" && !MatchesPhone(s.phone) then Fail(InvalidPhone) else Pass
  }

  /** `Order.clean` (POS/models.py:117-122). The driver's `is_active` flag is
      not looked at: only the form's `limit_choices_to` mentions it. */
  function OrderClean(o: Order): (r: Check)
    ensures r == Pass <==> o.amount > 0 && (o.assignedDriver.Some? ==> IsDriver(o.assignedDriver.value))
    ensures o.amount <= 0 ==> r == Fail(NonPositiveAmount)
    ensures o.amount > 0 && o.assignedDriver.Some? && !IsDriver(o.assignedDriver.value) ==> r == Fail(NotADriver)
  {
    if o.amount <= 0 then Fail(NonPositiveAmount)
    else if o.assignedDriver.Some? && !IsDriver(o.assignedDriver.value) then Fail(NotADriver)
    else Pass
  }

  /** `Sales.clean` (POS/models.py:155-157). */
  function SalesClean(dailySales: int): (r: Check)
    ensures r == Pass <==> dailySales >= 0
    ensures r != Pass ==> r == Fail(NegativeDailySales)
  {
    if dailySales < 0 then Fail(NegativeDailySales) else Pass
  }

  /** A customer whose stored phone is malformed fails every re-save,
      whatever its balance: the pre_save hook of the ledger relies on this. */
  lemma InvalidPhoneBlocksSave(c: Customer, due: int)
    requires c.phone != "" && !MatchesPhone(c.phone)
    ensures CustomerClean(c.(amountDue := due)) == Fail(InvalidPhone)
  {
  }
}
