// The body of the post_save receiver of notifications/signals.py: when an
// existing delivery is saved again (not when it is created), it stores a
// Notification for the delivery's customer and queues the e-mail task with
// the customer's id and the same text. The Celery queue is modelled as an
// outbox; the job body (looking up the user and calling `send_mail`) is not
// modelled. Neither is the registration: the receiver is a local function
// connected through a weak reference, which nothing else keeps alive, so as
// written it may be collected before any delivery is saved.

module DeliveryNotifications {

  /** The fields of the saved Delivery that the receiver reads. */
  datatype DeliveryRow = DeliveryRow(id: nat, customer: nat, status: string)

  datatype Notification = Notification(user: nat, message: string)

  /** `send_delivery_notification.delay(user_id, message)`. */
  datatype OutboxEntry = OutboxEntry(userId: nat, message: string)

  const OrderPrefix := "Your order #"
  const NowInfix := " is now "

  predicate IsDigit(c: char) {
    '0' <= c <= '9'
  }

  function DigitChar(n: nat): char
    requires n < 10
  {
    ('0' as int + n) as char
  }

  /** `str(n)` for a non-negative int: decimal digits, most significant
      first, no leading zero. */
  function Decimal(n: nat): (r: string)
    ensures |r| >= 1
    ensures forall i :: 0 <= i < |r| ==> IsDigit(r[i])
    ensures r[0] == '0' ==> n == 0
    ensures n < 10 <==> |r| == 1
  {
    if n < 10 then [DigitChar(n)] else Decimal(n / 10) + [DigitChar(n % 10)]
  }

  /** `int(s)` on a string of decimal digits. */
  function ParseDecimal(s: string): nat
    requires forall i :: 0 <= i < |s| ==> IsDigit(s[i])
  {
    if s == [] then 0
    else
      assert IsDigit(s[|s| - 1]);
      ParseDecimal(s[..|s| - 1]) * 10 + (s[|s| - 1] as int - '0' as int)
  }

  lemma {:induction false} DecimalRoundTrip(n: nat)
    ensures ParseDecimal(Decimal(n)) == n
  {
    if n >= 10 {
      DecimalRoundTrip(n / 10);
      assert Decimal(n)[..|Decimal(n)| - 1] == Decimal(n / 10);
    }
  }

  /** The text of the notification (notifications/signals.py:15). */
  function Message(id: nat, status: string): (m: string)
    ensures |m| == |OrderPrefix| + |Decimal(id)| + |NowInfix| + |status| + 1
    ensures m[..|OrderPrefix|] == OrderPrefix && m[|m| - 1] == '.'
  {
    OrderPrefix + Decimal(id) + NowInfix + status + "."
  }

  /** The id and the status can be read back from the message. */
  lemma MessageDecodes(id: nat, status: string)
    ensures var m, k := Message(id, status), |OrderPrefix| + |Decimal(id)|;
      && m[..|OrderPrefix|] == OrderPrefix
      && k + |NowInfix| < |m|
      && (forall i :: |OrderPrefix| <= i < k ==> IsDigit(m[i]))
      && ParseDecimal(m[|OrderPrefix|..k]) == id
      && m[k..k + |NowInfix|] == NowInfix
      && m[k + |NowInfix|..|m| - 1] == status
      && m[|m| - 1] == '.'
  {
    Pieces(OrderPrefix, Decimal(id), NowInfix, status);
    DigitsEndAtSpace(id, status);
    DecimalRoundTrip(id);
  }

  /** Each piece of a four-piece text ending in '.' can be sliced back out. */
  lemma Pieces(a: string, b: string, c: string, e: string)
    ensures var m := a + b + c + e + ".";
      && m[..|a|] == a
      && m[|a|..|a| + |b|] == b
      && m[|a| + |b|..|a| + |b| + |c|] == c
      && m[|a| + |b| + |c|..|m| - 1] == e
      && m[|m| - 1] == '.'
  {
    var m := a + b + c + e + ".";
    assert m == a + (b + (c + (e + ".")));
  }

  /** The digits of the id run up to the space that opens " is now ". */
  lemma DigitsEndAtSpace(id: nat, status: string)
    ensures var m, k := Message(id, status), |OrderPrefix| + |Decimal(id)|;
      && k < |m| && m[k] == ' '
      && forall i :: |OrderPrefix| <= i < k ==> IsDigit(m[i])
  {
    var m, k := Message(id, status), |OrderPrefix| + |Decimal(id)|;
    assert m[k] == NowInfix[0];
    forall i | |OrderPrefix| <= i < k ensures IsDigit(m[i]) {
      assert m[i] == Decimal(id)[i - |OrderPrefix|];
    }
  }

  /** Different deliveries or different statuses give different messages. */
  lemma MessageInjective(id1: nat, status1: string, id2: nat, status2: string)
    requires Message(id1, status1) == Message(id2, status2)
    ensures id1 == id2 && status1 == status2
  {
    var d1, d2 := Decimal(id1), Decimal(id2);
    var m := Message(id1, status1);
    var p := |OrderPrefix|;
    DigitsEndAtSpace(id1, status1);
    DigitsEndAtSpace(id2, status2);
    if |d1| < |d2| {
      assert false;
    }
    if |d2| < |d1| {
      assert false;
    }
    MessageDecodes(id1, status1);
    MessageDecodes(id2, status2);
  }

  class NotificationLog {
    var notifications: seq<Notification>
    var outbox: seq<OutboxEntry>

    constructor ()
      ensures notifications == [] && outbox == []
    {
      notifications, outbox := [], [];
    }

    /** `notify_delivery_update` (notifications/signals.py:11-18). */
    method NotifyDeliveryUpdate(d: DeliveryRow, created: bool)
      modifies this
      ensures created ==> notifications == old(notifications) && outbox == old(outbox)
      ensures !created ==> notifications == old(notifications) + [Notification(d.customer, Message(d.id, d.status))]
      ensures !created ==> outbox == old(outbox) + [OutboxEntry(d.customer, Message(d.id, d.status))]
    {
      if !created {
        var message := OrderPrefix + Decimal(d.id) + NowInfix + d.status + ".";
        notifications := notifications + [Notification(d.customer, message)];
        outbox := outbox + [OutboxEntry(d.customer, message)];
      }
    }
  }
}
