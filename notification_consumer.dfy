// The notifications websocket consumer (notifications/consumers.py): every
// signed-in user joins exactly one of three shared groups, chosen by the
// `is_staff` flag and the presence of a customer record; anonymous users are
// closed. Customers share `customer_group`: there is no per-customer group.
// This is the intended routing: the customer lookup at
// notifications/consumers.py:14 queries synchronously inside an async
// `connect`, and the `SynchronousOnlyOperation` Django raises there is not
// modelled.

module NotificationConsumers {
  import opened Wrappers
  import opened Channels

  const AdminGroup := "admin_group"
  const CustomerGroup := "customer_group"
  const GeneralGroup := "general_group"

  /** The rule of `connect` (notifications/consumers.py:8-17): the group a
      user joins, or None when the connection is closed. */
  function NotificationRoute(u: User): (r: Option<string>)
    ensures r.None? <==> u.isAnonymous
    ensures r.Some? ==> r.value in {AdminGroup, CustomerGroup, GeneralGroup}
    ensures r.Some? ==> (r.value == AdminGroup <==> u.isStaff)
    ensures r.Some? ==> (r.value == CustomerGroup <==> !u.isStaff && u.hasCustomer)
    ensures r.Some? ==> (r.value == GeneralGroup <==> !u.isStaff && !u.hasCustomer)
  {
    if u.isAnonymous then None
    else if u.isStaff then Some(AdminGroup)
    else if u.hasCustomer then Some(CustomerGroup)
    else Some(GeneralGroup)
  }

  /** Any two signed-in customers who are not staff land in the same group,
      so a message for that group reaches every customer. */
  lemma CustomersShareOneGroup(a: User, b: User)
    requires !a.isAnonymous && !a.isStaff && a.hasCustomer
    requires !b.isAnonymous && !b.isStaff && b.hasCustomer
    ensures NotificationRoute(a) == NotificationRoute(b) == Some(CustomerGroup)
  {
  }

  /** A fresh channel that connects is afterwards in exactly the group the
      rule picks; disconnecting from that group leaves every group as it was
      before the connection. */
  lemma ConnectThenDisconnect(gs: Groups, u: User, ch: Channel)
    requires forall h :: ch !in Members(gs, h)
    requires !u.isAnonymous
    ensures var g := NotificationRoute(u).value;
      && (forall h :: ch in Members(Join(gs, g, ch), h) <==> h == g)
      && (forall h :: Members(Leave(Join(gs, g, ch), g, ch), h) == Members(gs, h))
  {
    var g := NotificationRoute(u).value;
    JoinPutsInOneGroup(gs, g, ch);
    LeaveUndoesJoin(gs, g, ch);
  }

  class NotificationConsumer {
    const channel: Channel
    var groupName: Option<string>   // `self.group_name`, unset until a group is joined
    var accepted: bool
    var closed: bool
    var sent: seq<Frame>

    constructor (channel: Channel)
      ensures this.channel == channel && groupName == None
      ensures !accepted && !closed && sent == []
    {
      this.channel := channel;
      groupName := None;
      accepted, closed, sent := false, false, [];
    }

    /** `connect` (notifications/consumers.py:5-21). */
    method Connect(user: User, layer: Registry)
      requires groupName == None && !accepted && !closed
      modifies this, layer
      ensures groupName == NotificationRoute(user)
      ensures accepted == groupName.Some? && closed == groupName.None?
      ensures groupName.None? ==> layer.groups == old(layer.groups)
      ensures groupName.Some? ==> layer.groups == Join(old(layer.groups), groupName.value, channel)
      ensures sent == old(sent)
    {
      if user.isAnonymous {
        closed := true;
      } else {
        var g;
        if user.isStaff {
          g := AdminGroup;
        } else if user.hasCustomer {
          g := CustomerGroup;
        } else {
          g := GeneralGroup;
        }
        groupName := Some(g);
        layer.GroupAdd(g, channel);
        accepted := true;
      }
    }

    /** `disconnect` (notifications/consumers.py:23-24); as in the point-of-sale
        consumer, `self.group_name` exists only after a joined connection. */
    method Disconnect(layer: Registry)
      requires groupName.Some?
      modifies layer
      ensures layer.groups == Leave(old(layer.groups), groupName.value, channel)
    {
      layer.GroupDiscard(groupName.value, channel);
    }

    /** `send_notification` (notifications/consumers.py:26-30); false is the KeyError. */
    method SendNotification(event: map<string, string>) returns (ok: bool)
      modifies this
      ensures ok == NotificationFrame(event).Some?
      ensures ok ==> sent == old(sent) + [NotificationFrame(event).value]
      ensures !ok ==> sent == old(sent)
      ensures groupName == old(groupName) && accepted == old(accepted) && closed == old(closed)
    {
      ok := "title" in event && "message" in event;
      if ok {
        sent := sent + [Frame(event["title"], event["message"])];
      }
    }
  }
}
