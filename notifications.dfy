/** The notifications controller (`notificationsController.ts`): a
    module-level list of notifications, read with a filter, a sort and a
    page, and changed in place by mark-as-read and delete. Each request
    comes with the authenticated user's id, or none. */
module Notifications {
  import opened Wrappers
  import Text
  import Seqs
  import JsNumber

  datatype Kind = Payment | Security | System | Promotion
  datatype Priority = High | Medium | Low

  /** A notification; `timestamp` is the ISO date read as milliseconds. */
  datatype Notification = Notification(
    id: string, kind: Kind, title: string, message: string,
    timestamp: int, read: bool, priority: Priority, userId: string)

  /** Demo notifications are addressed to this id and shown to everyone. */
  const SharedOwner: string := "user1"

  datatype Reject = Reject(status: nat, error: string)

  const Unauthenticated := Reject(401, "User not authenticated")
  const NotFound := Reject(404, "Notification not found")

  /** `n.userId === user.id.toString() || n.userId === 'user1'`. */
  predicate VisibleTo(caller: string, n: Notification) {
    n.userId == caller || n.userId == SharedOwner
  }

  /** The `filter` query: `unread`, `payment` and `security` narrow the
      list, any other value keeps everything. */
  predicate InFilter(filter: string, n: Notification) {
    if filter == "unread" then !n.read
    else if filter == "payment" then n.kind == Payment
    else if filter == "security" then n.kind == Security
    else true
  }

  predicate UnreadFor(caller: string, n: Notification) {
    VisibleTo(caller, n) && !n.read
  }

  /** The notification a mark or delete request for `id` addresses. */
  predicate IsTarget(caller: string, id: string, n: Notification) {
    n.id == id && VisibleTo(caller, n)
  }

  function Stamp(n: Notification): int {
    n.timestamp
  }

  /** What a listing holds before paging: the caller's notifications that
      pass the filter, in list order. */
  function Selected(s: seq<Notification>, caller: string, filter: string): seq<Notification> {
    Seqs.Filter(s, n => VisibleTo(caller, n) && InFilter(filter, n))
  }

  /** Narrowing the caller's notifications by a test that agrees with the
      filter gives the selection. */
  lemma NarrowedSelection(s: seq<Notification>, caller: string, filter: string, narrow: Notification -> bool)
    requires forall n :: narrow(n) == InFilter(filter, n)
    ensures Seqs.Filter(Seqs.Filter(s, n => VisibleTo(caller, n)), narrow) == Selected(s, caller, filter)
  {
    Seqs.FilterFilter(s, n => VisibleTo(caller, n), narrow, n => VisibleTo(caller, n) && InFilter(filter, n));
  }

  /** Position of the first notification `find`/`findIndex` would return. */
  function FirstTarget(s: seq<Notification>, caller: string, id: string): (r: Option<nat>)
    ensures r.Some? ==> r.value < |s| && IsTarget(caller, id, s[r.value])
    ensures r.Some? ==> forall j :: 0 <= j < r.value ==> !IsTarget(caller, id, s[j])
    ensures r.None? <==> forall j :: 0 <= j < |s| ==> !IsTarget(caller, id, s[j])
  {
    if s == [] then None
    else if IsTarget(caller, id, s[0]) then Some(0)
    else match FirstTarget(s[1..], caller, id)
         case None => None
         case Some(k) => Some(k + 1)
  }

  /** The list after `markAllAsRead` for `caller`. */
  function ReadAll(s: seq<Notification>, caller: string): (r: seq<Notification>)
    ensures |r| == |s|
  {
    seq(|s|, i requires 0 <= i < |s| => if VisibleTo(caller, s[i]) then s[i].(read := true) else s[i])
  }

  /** After `markAllAsRead` the caller has nothing unread, sees the same
      notifications as before, and every other notification is untouched. */
  lemma ReadAllClearsUnread(s: seq<Notification>, caller: string)
    ensures Seqs.Count(ReadAll(s, caller), n => UnreadFor(caller, n)) == 0
    ensures forall i :: 0 <= i < |s| && !VisibleTo(caller, s[i]) ==> ReadAll(s, caller)[i] == s[i]
    ensures forall i :: 0 <= i < |s| ==> ReadAll(s, caller)[i].(read := s[i].read) == s[i]
  {
    var r := ReadAll(s, caller);
    var p := n => UnreadFor(caller, n);
    Seqs.FilterMembers(r, p);
    if Seqs.Filter(r, p) != [] {
      assert Seqs.Filter(r, p)[0] in r;
    }
  }

  /** One page of a listing, with the counts the response reports;
      `limit` and `offset` are the parsed numbers, `NaN` written `null`. */
  datatype Listing = Listing(
    data: seq<Notification>, total: nat, limit: JsNumber.JsInt, offset: JsNumber.JsInt, hasMore: bool,
    unreadCount: nat)

  /** The `limit` and `offset` a query string without them stands for. */
  const DefaultLimit: string := "50"
  const DefaultOffset: string := "0"

  /** Without `limit` and `offset` a listing is the first 50. */
  lemma DefaultPage(sorted: seq<Notification>)
    ensures var page := JsNumber.Paginate(sorted, JsNumber.ParseInt(DefaultOffset), JsNumber.ParseInt(DefaultLimit));
            page.data == Seqs.Take(sorted, 50) && (page.hasMore <==> 50 < |sorted|)
  {
    assert DefaultLimit == Text.NatText(50);
    JsNumber.DefaultOffsetPage(sorted, 50);
  }

  class NotificationStore {
    var notifications: seq<Notification>

    /** The five demo notifications, timed relative to when the module
        loaded: 30 minutes, 2 hours, 8 hours, 1 day and 2 days before. */
    constructor (loadedAt: int)
      ensures |notifications| == 5
      ensures forall i :: 0 <= i < 5 ==> notifications[i].userId == SharedOwner
      ensures Seqs.SortedDesc(notifications, Stamp)
    {
      var minute := 60 * 1000;
      notifications := [
        Notification("1", Payment, "Payment Received", "You received $250.00 from John Doe",
                     loadedAt - 30 * minute, false, High, SharedOwner),
        Notification("2", Security, "New Login Detected", "Someone signed in from a new device in New York",
                     loadedAt - 2 * 60 * minute, false, High, SharedOwner),
        Notification("3", System, "Maintenance Complete", "System maintenance has been completed successfully",
                     loadedAt - 8 * 60 * minute, true, Medium, SharedOwner),
        Notification("4", Payment, "Payment Failed", "Payment to Alice Smith failed due to insufficient funds",
                     loadedAt - 24 * 60 * minute, true, High, SharedOwner),
        Notification("5", Promotion, "New Feature Available",
                     "Check out our new analytics dashboard with advanced insights",
                     loadedAt - 2 * 24 * 60 * minute, true, Low, SharedOwner)
      ];
    }

    /** `getNotifications`: the caller's notifications passing the filter,
        newest first, paged by `offset` and `limit` as `parseInt` reads the
        query values (50 and 0 when absent); `total` and `hasMore` refer to
        the filtered list, `unreadCount` ignores the filter. A `NaN` limit
        or offset gives an empty page that has no more. */
    method GetNotifications(user: Option<nat>, filter: string, limit: Option<string>, offset: Option<string>)
      returns (r: Result<Listing, Reject>)
      ensures user.None? <==> r == Err(Unauthenticated)
      ensures r.Ok? ==>
                var caller := Text.NatText(user.value);
                var sorted := Seqs.SortDesc(Selected(notifications, caller, filter), Stamp);
                var l := JsNumber.ParseInt(limit.GetOr(DefaultLimit));
                var o := JsNumber.ParseInt(offset.GetOr(DefaultOffset));
                var page := JsNumber.Paginate(sorted, o, l);
                && r.value.total == |sorted|
                && r.value.data == page.data && r.value.hasMore == page.hasMore
                && r.value.limit == l && r.value.offset == o
                && r.value.unreadCount == Seqs.Count(notifications, n => UnreadFor(caller, n))
      ensures r.Ok? && limit.None? && offset.None? ==>
                var sorted := Seqs.SortDesc(Selected(notifications, Text.NatText(user.value), filter), Stamp);
                r.value.data == Seqs.Take(sorted, 50) && (r.value.hasMore <==> 50 < |sorted|)
    {
      if user.None? {
        return Err(Unauthenticated);
      }
      var caller := Text.NatText(user.value);
      var own := Seqs.Filter(notifications, n => VisibleTo(caller, n));
      if filter == "unread" {
        var unread := (n: Notification) => !n.read;
        own := Seqs.Filter(own, unread);
        NarrowedSelection(notifications, caller, filter, unread);
      } else if filter == "payment" {
        var payments := (n: Notification) => n.kind == Payment;
        own := Seqs.Filter(own, payments);
        NarrowedSelection(notifications, caller, filter, payments);
      } else if filter == "security" {
        var security := (n: Notification) => n.kind == Security;
        own := Seqs.Filter(own, security);
        NarrowedSelection(notifications, caller, filter, security);
      } else {
        Seqs.FilterSame(notifications, n => VisibleTo(caller, n), n => VisibleTo(caller, n) && InFilter(filter, n));
      }
      var sorted := Seqs.SortDesc(own, Stamp);
      var limitNum := JsNumber.ParseInt(limit.GetOr(DefaultLimit));
      var startIndex := JsNumber.ParseInt(offset.GetOr(DefaultOffset));
      var page := JsNumber.Paginate(sorted, startIndex, limitNum);
      if limit.None? && offset.None? {
        DefaultPage(sorted);
      }
      var unread := Seqs.Count(notifications, n => UnreadFor(caller, n));
      r := Ok(Listing(page.data, page.total, limitNum, startIndex, page.hasMore, unread));
    }

    /** The `find` of `markAsRead` and the `findIndex` of
        `deleteNotification`: scans from the front for the first
        notification with that id that the caller may see. */
    method FindTarget(caller: string, id: string) returns (k: Option<nat>)
      ensures k == FirstTarget(notifications, caller, id)
    {
      var i := 0;
      while i < |notifications|
        invariant 0 <= i <= |notifications|
        invariant forall j :: 0 <= j < i ==> !IsTarget(caller, id, notifications[j])
      {
        if IsTarget(caller, id, notifications[i]) {
          return Some(i);
        }
        i := i + 1;
      }
      return None;
    }

    /** `markAsRead`: sets `read` on the first notification with that id
        the caller may see and returns it; 404 and no change otherwise. */
    method MarkAsRead(user: Option<nat>, id: string) returns (r: Result<Notification, Reject>)
      modifies this
      ensures user.None? ==> r == Err(Unauthenticated) && notifications == old(notifications)
      ensures user.Some? ==>
                match FirstTarget(old(notifications), Text.NatText(user.value), id)
                case None => r == Err(NotFound) && notifications == old(notifications)
                case Some(k) =>
                  var marked := old(notifications)[k].(read := true);
                  r == Ok(marked) && notifications == old(notifications)[k := marked]
    {
      if user.None? {
        return Err(Unauthenticated);
      }
      var k := FindTarget(Text.NatText(user.value), id);
      if k.None? {
        return Err(NotFound);
      }
      var marked := notifications[k.value].(read := true);
      notifications := notifications[k.value := marked];
      r := Ok(marked);
    }

    /** `markAllAsRead`: sets `read` on every notification the caller may
        see and reports how many that was. */
    method MarkAllAsRead(user: Option<nat>) returns (r: Result<nat, Reject>)
      modifies this
      ensures user.None? ==> r == Err(Unauthenticated) && notifications == old(notifications)
      ensures user.Some? ==>
                var caller := Text.NatText(user.value);
                && notifications == ReadAll(old(notifications), caller)
                && r == Ok(Seqs.Count(old(notifications), n => VisibleTo(caller, n)))
    {
      if user.None? {
        return Err(Unauthenticated);
      }
      var caller := Text.NatText(user.value);
      var count := Seqs.Count(notifications, n => VisibleTo(caller, n));
      var i := 0;
      while i < |notifications|
        invariant 0 <= i <= |notifications| == |old(notifications)|
        invariant notifications[..i] == ReadAll(old(notifications), caller)[..i]
        invariant notifications[i..] == old(notifications)[i..]
      {
        if VisibleTo(caller, notifications[i]) {
          notifications := notifications[i := notifications[i].(read := true)];
        }
        i := i + 1;
      }
      assert notifications == notifications[..i];
      r := Ok(count);
    }

    /** `deleteNotification`: removes the first notification with that id
        the caller may see and returns it; 404 and no change otherwise. */
    method DeleteNotification(user: Option<nat>, id: string) returns (r: Result<Notification, Reject>)
      modifies this
      ensures user.None? ==> r == Err(Unauthenticated) && notifications == old(notifications)
      ensures user.Some? ==>
                match FirstTarget(old(notifications), Text.NatText(user.value), id)
                case None => r == Err(NotFound) && notifications == old(notifications)
                case Some(k) =>
                  r == Ok(old(notifications)[k]) && notifications == old(notifications)[..k] + old(notifications)[k + 1..]
    {
      if user.None? {
        return Err(Unauthenticated);
      }
      var k := FindTarget(Text.NatText(user.value), id);
      if k.None? {
        return Err(NotFound);
      }
      r := Ok(notifications[k.value]);
      notifications := notifications[..k.value] + notifications[k.value + 1..];
    }
  }

  /** Marking one notification read lowers the caller's unread count by
      one if it was unread, and changes nothing else. */
  lemma MarkOneUnreadCount(s: seq<Notification>, caller: string, id: string)
    requires FirstTarget(s, caller, id).Some?
    ensures var k := FirstTarget(s, caller, id).value;
            Seqs.Count(s[k := s[k].(read := true)], n => UnreadFor(caller, n))
              == Seqs.Count(s, n => UnreadFor(caller, n)) - (if s[k].read then 0 else 1)
  {
    var k := FirstTarget(s, caller, id).value;
    Seqs.CountUpdate(s, k, s[k].(read := true), n => UnreadFor(caller, n));
  }

  /** A delete removes exactly one notification, the one returned: the
      list shrinks by one and loses exactly that element. */
  lemma DeleteRemovesOne(s: seq<Notification>, caller: string, id: string)
    requires FirstTarget(s, caller, id).Some?
    ensures var k := FirstTarget(s, caller, id).value;
            && |s[..k] + s[k + 1..]| == |s| - 1
            && multiset(s[..k] + s[k + 1..]) + multiset{s[k]} == multiset(s)
  {
    Seqs.RemoveAt(s, FirstTarget(s, caller, id).value);
  }
}
