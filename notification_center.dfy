/** `src/components/notifications/NotificationCenter.tsx`: the notification
    page's own list (seeded with sample entries), the socket prepend, the
    read and clear operations, the filter tabs, the unread count and the
    relative time label. */
module NotificationCenter {
  import opened Wrappers
  import opened Text
  import opened Seqs
  import opened NotificationLists

  datatype CenterKind = ConnectionRequestKind | LikeKind | CommentKind | TrendingKind | SystemKind

  datatype CenterNotice = CenterNotice(kind: CenterKind, title: string, message: string, timestamp: int, user: Option<string>)

  type CenterNotification = Entry<CenterNotice>

  /** The filter tabs. */
  datatype Tab = AllTab | UnreadTab | ConnectionRequestsTab | LikesTab | CommentsTab

  /** The notification kind a type tab selects. */
  function TabKind(tab: Tab): CenterKind
    requires tab.ConnectionRequestsTab? || tab.LikesTab? || tab.CommentsTab?
  {
    match tab
    case ConnectionRequestsTab => ConnectionRequestKind
    case LikesTab => LikeKind
    case CommentsTab => CommentKind
  }

  function Shows(tab: Tab): CenterNotification -> bool {
    (n: CenterNotification) =>
      match tab
      case UnreadTab => !n.read
      case ConnectionRequestsTab => n.payload.kind == ConnectionRequestKind
      case LikesTab => n.payload.kind == LikeKind
      case CommentsTab => n.payload.kind == CommentKind
      case AllTab => true
  }

  /** `filteredNotifications`: always a subsequence of the list. */
  function Visible(ns: seq<CenterNotification>, tab: Tab): (r: seq<CenterNotification>)
    ensures IsSubsequence(r, ns)
  {
    Filter(ns, Shows(tab))
  }

  /** The "all" tab shows the whole list. */
  lemma VisibleAll(ns: seq<CenterNotification>)
    ensures Visible(ns, AllTab) == ns
  {
    FilterKeepsAll(ns, Shows(AllTab));
  }

  /** The "unread" tab shows exactly what clearing the read ones keeps, so
      its length is the unread count. */
  lemma VisibleUnread(ns: seq<CenterNotification>)
    ensures Visible(ns, UnreadTab) == ClearRead(ns)
    ensures |Visible(ns, UnreadTab)| == UnreadCount(ns)
  {
    EquivalentFilters(ns, Shows(UnreadTab), IsUnread);
  }

  /** A type tab shows every entry of its kind, as often as it occurs, and
      nothing else. */
  lemma VisibleKind(ns: seq<CenterNotification>, tab: Tab, x: CenterNotification)
    requires tab.ConnectionRequestsTab? || tab.LikesTab? || tab.CommentsTab?
    ensures forall i :: 0 <= i < |Visible(ns, tab)| ==> Visible(ns, tab)[i].payload.kind == TabKind(tab)
    ensures multiset(Visible(ns, tab))[x] == if x.payload.kind == TabKind(tab) then multiset(ns)[x] else 0
  {
    FilterMultiset(ns, Shows(tab), x);
  }

  /** `Math.floor(a / d)` for a positive divisor: Dafny's division rounds
      toward negative infinity when the divisor is positive. */
  function FloorDiv(a: int, d: int): (q: int)
    requires d > 0
    ensures d * q <= a < d * (q + 1)
  {
    a / d
  }

  /** `formatTimestamp`, given `now - date` in milliseconds. */
  function FormatTimestamp(diffMs: int): (r: string)
    ensures r == "Just now" <==> diffMs < 60000
  {
    var mins := FloorDiv(diffMs, 60000);
    var hours := FloorDiv(diffMs, 3600000);
    var days := FloorDiv(diffMs, 86400000);
    if mins < 1 then "Just now"
    else
      var shown := if mins < 60 then NatToString(mins) + "m ago"
        else if hours < 24 then NatToString(hours) + "h ago"
        else NatToString(days) + "d ago";
      assert shown[|shown| - 1] == 'o';
      shown
  }

  /** Between one minute and one hour the label counts whole minutes. */
  lemma FormatMinutes(diffMs: int, n: nat)
    requires 1 <= n < 60 && 60000 * n <= diffMs < 60000 * (n + 1)
    ensures FormatTimestamp(diffMs) == NatToString(n) + "m ago"
  {
    assert FloorDiv(diffMs, 60000) == n;
  }

  /** Between one hour and one day it counts whole hours. */
  lemma FormatHours(diffMs: int, n: nat)
    requires 1 <= n < 24 && 3600000 * n <= diffMs < 3600000 * (n + 1)
    ensures FormatTimestamp(diffMs) == NatToString(n) + "h ago"
  {
    assert FloorDiv(diffMs, 60000) >= 60;
    assert FloorDiv(diffMs, 3600000) == n;
  }

  /** From one day on it counts whole days. */
  lemma FormatDays(diffMs: int, n: nat)
    requires 1 <= n && 86400000 * n <= diffMs < 86400000 * (n + 1)
    ensures FormatTimestamp(diffMs) == NatToString(n) + "d ago"
  {
    assert FloorDiv(diffMs, 60000) >= 60;
    assert FloorDiv(diffMs, 3600000) >= 24;
    assert FloorDiv(diffMs, 86400000) == n;
  }

  /** The sample entries the page starts with, stamped relative to `now`. */
  function SampleNotifications(now: int): (r: seq<CenterNotification>)
    ensures |r| == 5
  {
    [ Entry("1", false, CenterNotice(ConnectionRequestKind, "New Connection Request", "alex wants to connect with you", now - 5 * 60 * 1000, Some("alex"))),
      Entry("2", false, CenterNotice(LikeKind, "Your post is getting attention", "15 people liked your recent ephemeral post", now - 15 * 60 * 1000, None)),
      Entry("3", true, CenterNotice(CommentKind, "New comment on your post", "sarah: \"This really resonates with me!\"", now - 30 * 60 * 1000, Some("sarah"))),
      Entry("4", true, CenterNotice(TrendingKind, "Your content is trending", "Your emotional compatibility post is trending in the community", now - 60 * 60 * 1000, None)),
      Entry("5", true, CenterNotice(ConnectionRequestKind, "New Connection Request", "mike_j wants to connect with you", now - 2 * 60 * 60 * 1000, Some("mike_j"))) ]
  }

  /** Two of the samples are unread. */
  lemma SampleUnread(now: int)
    ensures UnreadCount(SampleNotifications(now)) == 2
  {
    var ns := SampleNotifications(now);
    UnreadCountPositions(ns);
    assert (set i | 0 <= i < |ns| && !ns[i].read) == {0, 1};
  }

  /** The page's state. */
  class Center {
    var notifications: seq<CenterNotification>
    var tab: Tab

    constructor()
      ensures notifications == [] && tab == AllTab
    {
      notifications := [];
      tab := AllTab;
    }

    function Filtered(): seq<CenterNotification>
      reads this
    {
      Visible(notifications, tab)
    }

    function Unread(): nat
      reads this
    {
      UnreadCount(notifications)
    }

    /** The mount effect. */
    method LoadSamples(now: int)
      modifies this
      ensures notifications == SampleNotifications(now) && tab == old(tab)
    {
      notifications := SampleNotifications(now);
    }

    /** A `notification:new` payload is put in front as received. */
    method Receive(n: CenterNotification)
      modifies this
      ensures notifications == Prepend(old(notifications), n) && tab == old(tab)
    {
      notifications := Prepend(notifications, n);
    }

    method MarkAsRead(id: string)
      modifies this
      ensures notifications == NotificationLists.MarkAsRead(old(notifications), id) && tab == old(tab)
    {
      notifications := NotificationLists.MarkAsRead(notifications, id);
    }

    method MarkAllAsRead()
      modifies this
      ensures notifications == NotificationLists.MarkAllAsRead(old(notifications)) && tab == old(tab)
      ensures Unread() == 0
    {
      notifications := NotificationLists.MarkAllAsRead(notifications);
      MarkAllClearsCount(old(notifications));
    }

    method ClearNotification(id: string)
      modifies this
      ensures notifications == RemoveId(old(notifications), id) && tab == old(tab)
    {
      notifications := RemoveId(notifications, id);
    }

    method ClearAllRead()
      modifies this
      ensures notifications == ClearRead(old(notifications)) && tab == old(tab)
      ensures Unread() == old(Unread()) == |notifications|
    {
      ClearReadExact(notifications, Entry("", false, CenterNotice(SystemKind, "", "", 0, None)));
      notifications := ClearRead(notifications);
    }

    method SetFilter(t: Tab)
      modifies this
      ensures tab == t && notifications == old(notifications)
    {
      tab := t;
    }
  }
}
