// The part of the channel layer the websocket consumers rely on: a registry
// from group name to the set of channel names subscribed to it
// (`group_add`, `group_discard`), the connecting user as the consumers see
// it, and the frame `send_notification` writes back to the socket.
// Transport, JSON encoding and `group_send` fan-out are not modelled.

module Channels {
  import opened Wrappers

  type Channel = string

  /** `scope['user']`: anonymous or not, the names of its auth groups, its
      `is_staff` flag, and whether a `customer` record hangs off it. */
  datatype User = User(isAnonymous: bool, groups: set<string>, isStaff: bool, hasCustomer: bool)

  type Groups = map<string, set<Channel>>

  /** The channels subscribed to group g; a group nobody joined is empty. */
  function Members(gs: Groups, g: string): set<Channel> {
    if g in gs then gs[g] else {}
  }

  /** `group_add(g, ch)`. */
  function Join(gs: Groups, g: string, ch: Channel): (r: Groups)
    ensures Members(r, g) == Members(gs, g) + {ch}
    ensures forall h :: h != g ==> Members(r, h) == Members(gs, h)
  {
    gs[g := Members(gs, g) + {ch}]
  }

  /** `group_discard(g, ch)`: discarding a channel that is not there is no error. */
  function Leave(gs: Groups, g: string, ch: Channel): (r: Groups)
    ensures Members(r, g) == Members(gs, g) - {ch}
    ensures forall h :: h != g ==> Members(r, h) == Members(gs, h)
  {
    gs[g := Members(gs, g) - {ch}]
  }

  /** Leaving the group just joined restores every group's members, provided
      the channel was not already in it. */
  lemma LeaveUndoesJoin(gs: Groups, g: string, ch: Channel)
    requires ch !in Members(gs, g)
    ensures forall h :: Members(Leave(Join(gs, g, ch), g, ch), h) == Members(gs, h)
  {
    assert Members(gs, g) + {ch} - {ch} == Members(gs, g);
  }

  /** A channel that was in no group is, after joining g, in g and only g. */
  lemma JoinPutsInOneGroup(gs: Groups, g: string, ch: Channel)
    requires forall h :: ch !in Members(gs, h)
    ensures forall h :: ch in Members(Join(gs, g, ch), h) <==> h == g
  {
  }

  /** Joining twice subscribes once. */
  lemma JoinIdempotent(gs: Groups, g: string, ch: Channel)
    ensures forall h :: Members(Join(Join(gs, g, ch), g, ch), h) == Members(Join(gs, g, ch), h)
  {
  }

  /** The channel layer's group registry, shared by every consumer. */
  class Registry {
    var groups: Groups

    constructor ()
      ensures groups == map[]
    {
      groups := map[];
    }

    method GroupAdd(g: string, ch: Channel)
      modifies this
      ensures groups == Join(old(groups), g, ch)
    {
      groups := Join(groups, g, ch);
    }

    method GroupDiscard(g: string, ch: Channel)
      modifies this
      ensures groups == Leave(old(groups), g, ch)
    {
      groups := Leave(groups, g, ch);
    }
  }

  // ---------------------------------------------------------------- frames

  /** The JSON object `{"title": ..., "message": ...}` sent to the socket. */
  datatype Frame = Frame(title: string, message: string)

  /** `send_notification(event)`: the frame carries the event's `title` and
      `message` and nothing else; a missing key is the KeyError (None). */
  function NotificationFrame(event: map<string, string>): (r: Option<Frame>)
    ensures r.Some? <==> "title" in event && "message" in event
    ensures r.Some? ==> r.value.title == event["title"] && r.value.message == event["message"]
  {
    if "title" in event && "message" in event then Some(Frame(event["title"], event["message"])) else None
  }

  /** Keys other than `title` and `message` do not reach the socket. */
  lemma FrameIgnoresOtherKeys(event: map<string, string>, k: string, v: string)
    requires k != "title" && k != "message"
    ensures NotificationFrame(event[k := v]) == NotificationFrame(event)
  {
  }
}
