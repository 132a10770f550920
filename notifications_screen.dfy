/** The mobile notifications screen (`mobile/src/screens/NotificationsScreen.tsx`):
    each action replaces the list with a mapped or filtered copy; the
    listing, the unread count and the icon and colour choices are computed
    from the list. Types and priorities are texts here, as the switch
    statements read them, so their default branches are reachable. */
module NotificationsScreen {
  import Seqs

  datatype ScreenNotification = ScreenNotification(
    id: string, kind: string, title: string, message: string, timestamp: string,
    read: bool, priority: string)

  /** The theme colours the screen picks from. */
  datatype ThemeColor = Success | Error | Info | Warning | Primary | TextSecondary

  predicate Unread(n: ScreenNotification) {
    !n.read
  }

  /** `markAsRead(id)`: every entry with that id becomes read. */
  function MarkAsRead(s: seq<ScreenNotification>, id: string): (r: seq<ScreenNotification>)
    ensures |r| == |s|
    ensures forall i :: 0 <= i < |s| ==> r[i] == if s[i].id == id then s[i].(read := true) else s[i]
  {
    seq(|s|, i requires 0 <= i < |s| => if s[i].id == id then s[i].(read := true) else s[i])
  }

  /** `markAllAsRead`. */
  function MarkAllAsRead(s: seq<ScreenNotification>): (r: seq<ScreenNotification>)
    ensures |r| == |s|
    ensures forall i :: 0 <= i < |s| ==> r[i] == s[i].(read := true)
  {
    seq(|s|, i requires 0 <= i < |s| => s[i].(read := true))
  }

  /** `deleteNotification(id)`: every entry with that id goes. */
  function Delete(s: seq<ScreenNotification>, id: string): (r: seq<ScreenNotification>)
    ensures Seqs.SubsequenceOf(r, s)
    ensures forall i :: 0 <= i < |r| ==> r[i].id != id
    ensures forall i :: 0 <= i < |s| && s[i].id != id ==> s[i] in r
  {
    Seqs.FilterIsSubsequence(s, (n: ScreenNotification) => n.id != id);
    Seqs.FilterMembers(s, (n: ScreenNotification) => n.id != id);
    Seqs.Filter(s, (n: ScreenNotification) => n.id != id)
  }

  /** The filter tabs: `unread`, `payment` and `security` narrow the list;
      `all`, like any other value, keeps everything. */
  predicate InFilter(filter: string, n: ScreenNotification) {
    if filter == "unread" then !n.read
    else if filter == "payment" then n.kind == "payment"
    else if filter == "security" then n.kind == "security"
    else true
  }

  /** `filteredNotifications`. */
  function Filtered(s: seq<ScreenNotification>, filter: string): (r: seq<ScreenNotification>)
    ensures Seqs.SubsequenceOf(r, s)
    ensures forall i :: 0 <= i < |r| ==> InFilter(filter, r[i])
    ensures forall i :: 0 <= i < |s| && InFilter(filter, s[i]) ==> s[i] in r
    ensures |r| == Seqs.Count(s, (n: ScreenNotification) => InFilter(filter, n))
  {
    Seqs.FilterIsSubsequence(s, (n: ScreenNotification) => InFilter(filter, n));
    Seqs.FilterMembers(s, (n: ScreenNotification) => InFilter(filter, n));
    Seqs.Filter(s, (n: ScreenNotification) => InFilter(filter, n))
  }

  /** `unreadCount`: how many are unread; none exactly when all are read. */
  function UnreadCount(s: seq<ScreenNotification>): (c: nat)
    ensures c <= |s|
    ensures c == 0 <==> forall i :: 0 <= i < |s| ==> s[i].read
  {
    NothingUnread(s);
    Seqs.Count(s, Unread)
  }

  /** "Mark All Read" is disabled exactly when nothing is unread. */
  predicate MarkAllDisabled(s: seq<ScreenNotification>)
    ensures MarkAllDisabled(s) <==> forall i :: 0 <= i < |s| ==> s[i].read
  {
    UnreadCount(s) == 0
  }

  /** The count of unread entries is at most the length, and zero exactly
      when every entry is read. */
  lemma {:induction false} NothingUnread(s: seq<ScreenNotification>)
    ensures Seqs.Count(s, Unread) <= |s|
    ensures Seqs.Count(s, Unread) == 0 <==> forall i :: 0 <= i < |s| ==> s[i].read
  {
    Seqs.FilterMembers(s, Unread);
    if forall i :: 0 <= i < |s| ==> s[i].read {
      Seqs.FilterNone(s, Unread);
    }
  }

  /** After marking all as read the button is disabled. */
  lemma MarkAllDisables(s: seq<ScreenNotification>)
    ensures MarkAllDisabled(MarkAllAsRead(s))
  {
    NothingUnread(MarkAllAsRead(s));
  }

  /** Marking one id as read keeps ids and order, and marking it again
      changes nothing. */
  lemma MarkAsReadKeepsOrder(s: seq<ScreenNotification>, id: string)
    ensures forall i :: 0 <= i < |s| ==> MarkAsRead(s, id)[i].id == s[i].id
    ensures MarkAsRead(MarkAsRead(s, id), id) == MarkAsRead(s, id)
  {
  }

  /** After marking an id as read, no entry with that id is unread, and the
      unread count never grows. */
  lemma {:induction false} MarkAsReadCount(s: seq<ScreenNotification>, id: string)
    ensures UnreadCount(MarkAsRead(s, id)) <= UnreadCount(s)
    ensures forall i :: 0 <= i < |s| && s[i].id == id ==> MarkAsRead(s, id)[i].read
  {
    if s != [] {
      MarkAsReadCount(s[1..], id);
      assert MarkAsRead(s, id)[1..] == MarkAsRead(s[1..], id);
    }
  }

  /** Deleting an id removes exactly the entries with that id. */
  lemma {:induction false} DeleteCount(s: seq<ScreenNotification>, id: string)
    ensures |Delete(s, id)| == |s| - Seqs.Count(s, (n: ScreenNotification) => n.id == id)
  {
    if s != [] {
      DeleteCount(s[1..], id);
    }
  }

  /** The `unread` tab lists as many entries as the unread count says, and
      any tab other than `unread`, `payment` and `security` lists
      everything in its order. */
  lemma FilteredTabs(s: seq<ScreenNotification>, filter: string)
    ensures |Filtered(s, "unread")| == UnreadCount(s)
    ensures filter !in {"unread", "payment", "security"} ==> Filtered(s, filter) == s
  {
    Seqs.FilterSame(s, (n: ScreenNotification) => InFilter("unread", n), Unread);
    if filter !in {"unread", "payment", "security"} {
      Seqs.FilterKeepsAll(s, (n: ScreenNotification) => InFilter(filter, n));
    }
  }

  /** `getNotificationIcon`. */
  function Icon(kind: string): (icon: string)
    ensures kind != "payment" && kind != "security" && kind != "system" && kind != "promotion" ==>
              icon == "notifications"
    ensures kind == "payment" || kind == "security" || kind == "system" || kind == "promotion" ==>
              icon != "notifications"
  {
    if kind == "payment" then "card"
    else if kind == "security" then "shield-checkmark"
    else if kind == "system" then "settings"
    else if kind == "promotion" then "megaphone"
    else "notifications"
  }

  /** `getNotificationColor`. */
  function KindColor(kind: string): (c: ThemeColor)
    ensures c == Primary <==> kind != "payment" && kind != "security" && kind != "system" && kind != "promotion"
  {
    if kind == "payment" then Success
    else if kind == "security" then Error
    else if kind == "system" then Info
    else if kind == "promotion" then Warning
    else Primary
  }

  /** `getPriorityColor`. */
  function PriorityColor(priority: string): (c: ThemeColor)
    ensures c == TextSecondary <==> priority != "high" && priority != "medium" && priority != "low"
  {
    if priority == "high" then Error
    else if priority == "medium" then Warning
    else if priority == "low" then Success
    else TextSecondary
  }
}
