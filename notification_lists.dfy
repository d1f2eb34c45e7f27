/** The list operations both notification views perform on their state:
    put a notification in front, mark one or all as read, delete by id, drop
    the read ones, and count the unread ones. */
module NotificationLists {
  import opened Seqs

  /** A notification: its id, whether it has been read, and the rest. */
  datatype Entry<P> = Entry(id: string, read: bool, payload: P)

  predicate IsUnread<P>(n: Entry<P>) {
    !n.read
  }

  function UnreadCount<P(!new)>(ns: seq<Entry<P>>): (c: nat)
    ensures c <= |ns|
  {
    |Filter(ns, IsUnread)|
  }

  /** The count is the number of positions holding an unread entry. */
  lemma UnreadCountPositions<P(!new)>(ns: seq<Entry<P>>)
    ensures UnreadCount(ns) == |set i | 0 <= i < |ns| && !ns[i].read|
  {
    FilterCountsPositions(ns, IsUnread);
    assert Positions(ns, IsUnread) == set i | 0 <= i < |ns| && !ns[i].read;
  }

  /** `[n, ...prev]`. */
  function Prepend<P>(ns: seq<Entry<P>>, n: Entry<P>): (r: seq<Entry<P>>)
    ensures |r| == |ns| + 1 && r[0] == n && r[1..] == ns
  {
    [n] + ns
  }

  lemma PrependCount<P(!new)>(ns: seq<Entry<P>>, n: Entry<P>)
    ensures UnreadCount(Prepend(ns, n)) == UnreadCount(ns) + (if n.read then 0 else 1)
  {
    FilterCons(n, ns, IsUnread);
  }

  function MarkIf<P>(id: string): Entry<P> -> Entry<P> {
    (n: Entry<P>) => if n.id == id then n.(read := true) else n
  }

  function MarkRead<P>(n: Entry<P>): Entry<P> {
    n.(read := true)
  }

  /** `markAsRead(id)`. */
  function MarkAsRead<P>(ns: seq<Entry<P>>, id: string): (r: seq<Entry<P>>)
    ensures |r| == |ns|
    ensures forall i :: 0 <= i < |ns| ==> r[i].id == ns[i].id && r[i].payload == ns[i].payload
    ensures forall i :: 0 <= i < |ns| ==> (r[i].read <==> ns[i].read || ns[i].id == id)
  {
    Map(ns, MarkIf(id))
  }

  /** `markAllAsRead`. */
  function MarkAllAsRead<P>(ns: seq<Entry<P>>): (r: seq<Entry<P>>)
    ensures |r| == |ns|
    ensures forall i :: 0 <= i < |ns| ==> r[i] == ns[i].(read := true)
  {
    Map(ns, MarkRead)
  }

  function HasOtherId<P>(id: string): Entry<P> -> bool {
    (n: Entry<P>) => n.id != id
  }

  /** `filter(n => n.id !== id)`. */
  function RemoveId<P(!new)>(ns: seq<Entry<P>>, id: string): (r: seq<Entry<P>>)
    ensures forall i :: 0 <= i < |r| ==> r[i].id != id
    ensures IsSubsequence(r, ns)
  {
    Filter(ns, HasOtherId(id))
  }

  /** `filter(n => !n.read)`. */
  function ClearRead<P(!new)>(ns: seq<Entry<P>>): (r: seq<Entry<P>>)
    ensures forall i :: 0 <= i < |r| ==> !r[i].read
    ensures IsSubsequence(r, ns)
  {
    Filter(ns, IsUnread)
  }

  /** Deleting removes every entry with that id and keeps every other one,
      as often as it occurred. */
  lemma RemoveIdExact<P(!new)>(ns: seq<Entry<P>>, id: string, x: Entry<P>)
    ensures multiset(RemoveId(ns, id))[x] == if x.id == id then 0 else multiset(ns)[x]
  {
    FilterMultiset(ns, HasOtherId(id), x);
  }

  /** Deleting an id that is not present changes nothing. */
  lemma RemoveAbsentId<P(!new)>(ns: seq<Entry<P>>, id: string)
    requires forall i :: 0 <= i < |ns| ==> ns[i].id != id
    ensures RemoveId(ns, id) == ns
  {
    FilterKeepsAll(ns, HasOtherId(id));
  }

  /** Dropping the read entries keeps exactly the unread ones, so the unread
      count is unchanged and equals the new length. */
  lemma ClearReadExact<P(!new)>(ns: seq<Entry<P>>, x: Entry<P>)
    ensures multiset(ClearRead(ns))[x] == if x.read then 0 else multiset(ns)[x]
    ensures UnreadCount(ClearRead(ns)) == UnreadCount(ns) == |ClearRead(ns)|
  {
    FilterMultiset(ns, IsUnread, x);
    FilterKeepsAll(ClearRead(ns), IsUnread);
  }

  /** After marking everything read nothing is unread. */
  lemma MarkAllClearsCount<P(!new)>(ns: seq<Entry<P>>)
    ensures UnreadCount(MarkAllAsRead(ns)) == 0
  {
    UnreadCountPositions(MarkAllAsRead(ns));
    assert (set i | 0 <= i < |ns| && !MarkAllAsRead(ns)[i].read) == {};
  }

  function UnreadOther<P>(id: string): Entry<P> -> bool {
    (n: Entry<P>) => !n.read && n.id != id
  }

  /** Marking one id read leaves unread exactly the unread entries with
      another id; the count never grows. */
  lemma MarkAsReadCount<P(!new)>(ns: seq<Entry<P>>, id: string)
    ensures Filter(MarkAsRead(ns, id), IsUnread) == Filter(ns, UnreadOther(id))
    ensures UnreadCount(MarkAsRead(ns, id)) <= UnreadCount(ns)
  {
    FilterMap(ns, MarkIf(id), IsUnread, UnreadOther(id));
    FilterFilter(ns, IsUnread, HasOtherId(id));
    var both: Entry<P> -> bool := x => IsUnread(x) && HasOtherId(id)(x);
    EquivalentFilters(ns, both, UnreadOther(id));
  }

  lemma {:induction false} EquivalentFilters<T(!new)>(s: seq<T>, p: T -> bool, q: T -> bool)
    requires forall x :: p(x) == q(x)
    ensures Filter(s, p) == Filter(s, q)
  {
    if s != [] {
      EquivalentFilters(s[1..], p, q);
    }
  }
}
