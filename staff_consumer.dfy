// The point-of-sale websocket consumer (POS/consumers.py): only members of
// the `staff` or `admin` auth group may connect, and they all share the one
// group `staff_admin_group`; everyone else is closed and joins nothing.
// This is the intended rule: the group query at POS/consumers.py:8 is
// synchronous inside an async `connect`, and the `SynchronousOnlyOperation`
// Django raises there is not modelled.

module PosConsumers {
  import opened Wrappers
  import opened Channels

  const StaffAdminGroup := "staff_admin_group"

  /** The rule of `connect` (POS/consumers.py:8-13): the group a user joins,
      or None when the connection is closed. */
  function StaffRoute(u: User): (r: Option<string>)
    ensures r.None? <==> u.isAnonymous || ("staff" !in u.groups && "admin" !in u.groups)
    ensures r.Some? ==> r.value == StaffAdminGroup
  {
    if u.isAnonymous || !("staff" in u.groups || "admin" in u.groups) then None else Some(StaffAdminGroup)
  }

  /** A user in the `admin` group is let in whatever else holds of it, even
      without the `is_staff` flag. */
  lemma AdminGroupSuffices(u: User)
    requires !u.isAnonymous && "admin" in u.groups
    ensures StaffRoute(u) == Some(StaffAdminGroup)
    ensures StaffRoute(u.(isStaff := false)) == Some(StaffAdminGroup)
  {
  }

  class NotificationConsumer {
    const channel: Channel
    var groupName: Option<string>   // `self.group_name`, unset until a group is joined
    var accepted: bool
    var closed: bool
    var sent: seq<Frame>

    constructor (channel: Channel)
      ensures this.channel == channel && groupName == None
      ensures !accepted && !closed && sent == []
    {
      this.channel := channel;
      groupName := None;
      accepted, closed, sent := false, false, [];
    }

    /** `connect` (POS/consumers.py:5-13). */
    method Connect(user: User, layer: Registry)
      requires groupName == None && !accepted && !closed
      modifies this, layer
      ensures groupName == StaffRoute(user)
      ensures accepted == groupName.Some? && closed == groupName.None?
      ensures groupName.None? ==> layer.groups == old(layer.groups)
      ensures groupName.Some? ==> layer.groups == Join(old(layer.groups), StaffAdminGroup, channel)
      ensures sent == old(sent)
    {
      if user.isAnonymous || !("staff" in user.groups || "admin" in user.groups) {
        closed := true;
      } else {
        groupName := Some(StaffAdminGroup);
        layer.GroupAdd(StaffAdminGroup, channel);
        accepted := true;
      }
    }

    /** `disconnect` (POS/consumers.py:15-16). It reads `self.group_name`,
        which a closed connection never set, so it needs a joined group. */
    method Disconnect(layer: Registry)
      requires groupName.Some?
      modifies layer
      ensures layer.groups == Leave(old(layer.groups), groupName.value, channel)
    {
      layer.GroupDiscard(groupName.value, channel);
    }

    /** `send_notification` (POS/consumers.py:18-22); false is the KeyError. */
    method SendNotification(event: map<string, string>) returns (ok: bool)
      modifies this
      ensures ok == NotificationFrame(event).Some?
      ensures ok ==> sent == old(sent) + [NotificationFrame(event).value]
      ensures !ok ==> sent == old(sent)
      ensures groupName == old(groupName) && accepted == old(accepted) && closed == old(closed)
    {
      ok := "title" in event && "message" in event;
      if ok {
        sent := sent + [Frame(event["title"], event["message"])];
      }
    }
  }
}
