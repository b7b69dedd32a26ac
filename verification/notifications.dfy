/**
 The dashboard's in-memory notification queue (frontend/dashboard/app.js):
 records are prepended newest first, the unread badge shows the number of
 records whose `read` flag is false, opening the panel marks every record
 read, and "clear all" empties the queue after a confirmation.
 */
module Notifications {

  import opened JsText

  type ConversationId = int

  /** One record of the queue; `id` and `timestamp` come from the clock. */
  datatype Notification = Notification(
    id: int,
    title: string,
    body: string,
    conversationId: Option<ConversationId>,
    timestamp: string,
    read: bool)

  /** Newest first. */
  type Queue = seq<Notification>

  /** `Notification.permission`. */
  datatype Permission = Default | Granted | Denied

  /** A native desktop notification raised next to the queue record. */
  datatype Desktop = Desktop(title: string, body: string, tag: string)

  datatype Shown = Shown(queue: Queue, desktop: Option<Desktop>)

  /** The number of records not yet read. */
  function UnreadCount(q: Queue): nat {
    if |q| == 0 then 0 else (if q[0].read then 0 else 1) + UnreadCount(q[1..])
  }

  /** The `read` flags in queue order: the independent reading of the count. */
  ghost function ReadFlags(q: Queue): seq<bool> {
    seq(|q|, i requires 0 <= i < |q| => q[i].read)
  }

  predicate AllRead(q: Queue) {
    forall i :: 0 <= i < |q| ==> q[i].read
  }

  /** The unread count is the number of records whose `read` flag is false. */
  lemma {:induction false} UnreadCountCountsUnread(q: Queue)
    ensures UnreadCount(q) == multiset(ReadFlags(q))[false]
  {
    if |q| > 0 {
      UnreadCountCountsUnread(q[1..]);
      assert ReadFlags(q) == [q[0].read] + ReadFlags(q[1..]);
    }
  }

  /** No unread record exactly when every record is read. */
  lemma {:induction false} UnreadZeroIffAllRead(q: Queue)
    ensures UnreadCount(q) == 0 <==> AllRead(q)
  {
    if |q| > 0 {
      UnreadZeroIffAllRead(q[1..]);
      if AllRead(q) {
        assert AllRead(q[1..]);
      }
      if UnreadCount(q) == 0 {
        assert q == [q[0]] + q[1..];
      }
    }
  }

  /** The count never exceeds the queue length. */
  lemma {:induction false} UnreadCountBounded(q: Queue)
    ensures UnreadCount(q) <= |q|
  {
    if |q| > 0 {
      UnreadCountBounded(q[1..]);
    }
  }

  /**
   `showNotification(title, body, conversationId)`: without the
   `Notification` API it does nothing; otherwise it prepends one unread
   record and, when permission is granted, raises a desktop notification
   tagged with the conversation (or `general` when there is none).
   */
  function ShowNotification(
    q: Queue, supported: bool, permission: Permission,
    title: string, body: string, conversationId: Option<ConversationId>,
    now: int, timestamp: string): (r: Shown)
    ensures !supported ==> r.queue == q && r.desktop.None?
    ensures supported ==> |r.queue| == |q| + 1 && r.queue[1..] == q
    ensures supported ==> r.queue[0] == Notification(now, title, body, conversationId, timestamp, false)
    ensures supported ==> UnreadCount(r.queue) == UnreadCount(q) + 1
    ensures r.desktop.Some? <==> supported && permission == Granted
    ensures r.desktop.Some? ==> r.desktop.value.title == title && r.desktop.value.body == body
  {
    if !supported then Shown(q, None)
    else
      var record := Notification(now, title, body, conversationId, timestamp, false);
      var queue := [record] + q;
      assert queue[1..] == q;
      var desktop :=
        if permission == Granted then Some(Desktop(title, body, DesktopTag(conversationId)))
        else None;
      Shown(queue, desktop)
  }

  /** The desktop notification tag: `conv-<id>` for a truthy id, else `general`. */
  function DesktopTag(conversationId: Option<ConversationId>): (tag: string)
    ensures TruthyNumber(conversationId) ==> tag == "conv-" + IntToString(conversationId.value)
    ensures !TruthyNumber(conversationId) ==> tag == "general"
  {
    if TruthyNumber(conversationId) then "conv-" + IntToString(conversationId.value) else "general"
  }

  /** `markAllNotificationsAsRead`: every flag set, nothing else touched. */
  function MarkAllRead(q: Queue): (r: Queue)
    ensures |r| == |q|
    ensures forall i :: 0 <= i < |q| ==> r[i] == q[i].(read := true)
    ensures AllRead(r)
    ensures UnreadCount(r) == 0
  {
    var r := seq(|q|, i requires 0 <= i < |q| => q[i].(read := true));
    UnreadZeroIffAllRead(r);
    r
  }

  /** `clearAllNotifications`: empties the queue only when the user confirms. */
  function ClearAll(q: Queue, confirmed: bool): (r: Queue)
    ensures confirmed ==> r == []
    ensures !confirmed ==> r == q
  {
    if confirmed then [] else q
  }

  /** The badge: hidden when nothing is unread, otherwise showing the count. */
  datatype Badge = Hidden | Count(n: nat)

  function BadgeOf(q: Queue): (b: Badge)
    ensures b.Hidden? <==> AllRead(q)
    ensures b.Count? ==> b.n == multiset(ReadFlags(q))[false] && b.n > 0
  {
    UnreadZeroIffAllRead(q);
    UnreadCountCountsUnread(q);
    var n := UnreadCount(q);
    if n > 0 then Count(n) else Hidden
  }

  /** One rendered row of the panel, in queue order. */
  datatype Row = Row(title: string, body: string, unread: bool, conversationLink: string)

  /** The rendered panel: a placeholder for an empty queue, otherwise one row per record. */
  datatype PanelView = EmptyPlaceholder | Rows(rows: seq<Row>)

  function RowOf(n: Notification): Row {
    Row(n.title, n.body, !n.read,
        if TruthyNumber(n.conversationId) then IntToString(n.conversationId.value) else "")
  }

  /** `updateNotificationPanel`'s list: rows follow the queue, newest first. */
  function PanelOf(q: Queue): (v: PanelView)
    ensures v.EmptyPlaceholder? <==> |q| == 0
    ensures v.Rows? ==> |v.rows| == |q|
    ensures v.Rows? ==> forall i :: 0 <= i < |q| ==>
              (v.rows[i].title == q[i].title && v.rows[i].unread == !q[i].read)
  {
    if |q| == 0 then EmptyPlaceholder
    else Rows(seq(|q|, i requires 0 <= i < |q| => RowOf(q[i])))
  }

  /**
   After a confirmed "clear all" the badge is hidden and the panel shows the
   placeholder; a declined one leaves badge and panel as they were.
   */
  lemma ClearAllShowsNothing(q: Queue)
    ensures BadgeOf(ClearAll(q, true)) == Hidden && PanelOf(ClearAll(q, true)) == EmptyPlaceholder
    ensures BadgeOf(ClearAll(q, false)) == BadgeOf(q) && PanelOf(ClearAll(q, false)) == PanelOf(q)
  {
  }

  /** The notification bell and its panel. */
  datatype Center = Center(queue: Queue, panelOpen: bool)

  /**
   A click on the bell toggles the panel; when that opens it, every record is
   marked read.
   */
  function ToggleBell(c: Center): (r: Center)
    ensures r.panelOpen == !c.panelOpen
    ensures r.panelOpen ==> |r.queue| == |c.queue| && UnreadCount(r.queue) == 0
    ensures r.panelOpen ==> forall i :: 0 <= i < |c.queue| ==> r.queue[i] == c.queue[i].(read := true)
    ensures !r.panelOpen ==> r.queue == c.queue
  {
    if c.panelOpen then c.(panelOpen := false)
    else Center(MarkAllRead(c.queue), true)
  }

  /**
   A click on a panel row: a row with a conversation link closes the panel
   and clicks the first list row carrying that id, if there is one; a row
   without a link does nothing. The result is the conversation to select.
   */
  function ClickRow(c: Center, row: Row, listed: seq<ConversationId>): (r: (Center, Option<ConversationId>))
    ensures row.conversationLink == "" ==> r == (c, None)
    ensures row.conversationLink != "" ==> !r.0.panelOpen && r.0.queue == c.queue
    ensures r.1.Some? ==> r.1.value in listed && IntToString(r.1.value) == row.conversationLink
    ensures r.1.None? && row.conversationLink != "" ==>
              forall k :: 0 <= k < |listed| ==> IntToString(listed[k]) != row.conversationLink
  {
    if row.conversationLink == "" then (c, None)
    else (c.(panelOpen := false), FirstLinked(listed, row.conversationLink))
  }

  /** The first listed id whose rendering is `link` (`querySelector` order). */
  function FirstLinked(listed: seq<ConversationId>, link: string): (r: Option<ConversationId>)
    ensures r.Some? ==> r.value in listed && IntToString(r.value) == link
    ensures r.None? ==> forall k :: 0 <= k < |listed| ==> IntToString(listed[k]) != link
  {
    if |listed| == 0 then None
    else if IntToString(listed[0]) == link then Some(listed[0])
    else FirstLinked(listed[1..], link)
  }

  /**
   A click on a desktop notification: with a truthy conversation id, the
   first list row carrying that id is clicked, if there is one.
   */
  function ClickDesktop(conversationId: Option<ConversationId>, listed: seq<ConversationId>): (r: Option<ConversationId>)
    ensures !TruthyNumber(conversationId) ==> r.None?
    ensures r.Some? ==> r.value in listed && r.value == conversationId.value
    ensures TruthyNumber(conversationId) && conversationId.value in listed ==> r == Some(conversationId.value)
  {
    if TruthyNumber(conversationId) then
      var found := FirstLinked(listed, IntToString(conversationId.value));
      if found.Some? then
        IntToStringInjective(found.value, conversationId.value);
        found
      else None
    else None
  }

  /** The panel opened by a bell click always shows a hidden badge. */
  lemma OpeningHidesBadge(c: Center)
    requires !c.panelOpen
    ensures BadgeOf(ToggleBell(c).queue) == Hidden
  {
  }
}
