/** The notifications page (frontend/src/pages/Notifications.jsx): the list
    updates behind its buttons, the tab filter, the unread badge and the
    grouping of the visible list by date. */
module Notifications {
  import opened Common
  import opened Text

  /** `isFollowing` is present only on follow notifications. */
  datatype Notification = Notification(
    id: int, kind: string, userName: string, content: string,
    timestamp: string, read: bool, isFollowing: Option<bool>)

  // ---------------------------------------------------------------------
  // List updates

  /** `markAsRead(id)`: every notification with that id becomes read. */
  function MarkedRead(ns: seq<Notification>, id: int): (r: seq<Notification>)
    ensures |r| == |ns|
  {
    seq(|ns|, i requires 0 <= i < |ns| => if ns[i].id == id then ns[i].(read := true) else ns[i])
  }

  /** `markAllAsRead()`. */
  function AllRead(ns: seq<Notification>): (r: seq<Notification>)
    ensures |r| == |ns|
  {
    seq(|ns|, i requires 0 <= i < |ns| => ns[i].(read := true))
  }

  /** `!notif.isFollowing`: a missing value is falsy, so it becomes `true`. */
  function Flip(b: Option<bool>): (r: Option<bool>)
    ensures r.Some?
    ensures b.Some? ==> r.value == !b.value
    ensures b.None? ==> r == Some(true)
  {
    Some(!(b.Some? && b.value))
  }

  /** `toggleFollow(id)`. */
  function FollowToggled(ns: seq<Notification>, id: int): (r: seq<Notification>)
    ensures |r| == |ns|
  {
    seq(|ns|, i requires 0 <= i < |ns| => if ns[i].id == id then ns[i].(isFollowing := Flip(ns[i].isFollowing)) else ns[i])
  }

  /** `deleteNotification(id)`: `filter(notif => notif.id !== id)`. */
  function Deleted(ns: seq<Notification>, id: int): (r: seq<Notification>)
    ensures forall n | n in r :: n in ns && n.id != id
    ensures forall n | n in ns && n.id != id :: n in r
    ensures |r| <= |ns|
  {
    if ns == [] then []
    else (if ns[0].id == id then [] else [ns[0]]) + Deleted(ns[1..], id)
  }

  /** Marking one id read touches exactly the entries with that id, keeps
      every position, and doing it twice is doing it once. */
  lemma MarkAsReadFacts(ns: seq<Notification>, id: int)
    ensures forall i | 0 <= i < |ns| :: MarkedRead(ns, id)[i].id == ns[i].id
    ensures forall i | 0 <= i < |ns| && ns[i].id == id ::
      MarkedRead(ns, id)[i].read && MarkedRead(ns, id)[i].(read := ns[i].read) == ns[i]
    ensures forall i | 0 <= i < |ns| && ns[i].id != id :: MarkedRead(ns, id)[i] == ns[i]
    ensures MarkedRead(MarkedRead(ns, id), id) == MarkedRead(ns, id)
  {
  }

  /** After marking all read, nothing is unread. */
  lemma MarkAllLeavesNothingUnread(ns: seq<Notification>)
    ensures UnreadCount(AllRead(ns)) == 0
    ensures forall i | 0 <= i < |ns| :: AllRead(ns)[i].(read := ns[i].read) == ns[i]
  {
    NoneUnread(AllRead(ns));
  }

  lemma {:induction false} NoneUnread(ns: seq<Notification>)
    requires forall i | 0 <= i < |ns| :: ns[i].read
    ensures Unread(ns) == []
  {
    if ns != [] {
      NoneUnread(ns[1..]);
    }
  }

  /** Deleting keeps the relative order of the rest: it distributes over
      concatenation, and it changes nothing when the id is absent. */
  lemma {:induction false} DeleteKeepsOrder(a: seq<Notification>, b: seq<Notification>, id: int)
    ensures Deleted(a + b, id) == Deleted(a, id) + Deleted(b, id)
  {
    if a == [] {
      assert a + b == b;
    } else {
      assert (a + b)[1..] == a[1..] + b;
      DeleteKeepsOrder(a[1..], b, id);
    }
  }

  lemma {:induction false} DeleteAbsent(ns: seq<Notification>, id: int)
    requires forall i | 0 <= i < |ns| :: ns[i].id != id
    ensures Deleted(ns, id) == ns
  {
    if ns != [] {
      DeleteAbsent(ns[1..], id);
    }
  }

  /** Toggling twice restores the list when every notification with that id
      carries a follow state; one without gets `Some(false)` instead. */
  lemma ToggleFollowTwice(ns: seq<Notification>, id: int)
    ensures forall i | 0 <= i < |ns| && ns[i].id != id :: FollowToggled(ns, id)[i] == ns[i]
    ensures forall i | 0 <= i < |ns| && ns[i].id == id :: FollowToggled(ns, id)[i].isFollowing == Flip(ns[i].isFollowing)
    ensures (forall i | 0 <= i < |ns| && ns[i].id == id :: ns[i].isFollowing.Some?) ==>
      FollowToggled(FollowToggled(ns, id), id) == ns
    ensures forall i | 0 <= i < |ns| && ns[i].id == id && ns[i].isFollowing.None? ::
      FollowToggled(FollowToggled(ns, id), id)[i] == ns[i].(isFollowing := Some(false))
  {
  }

  // ---------------------------------------------------------------------
  // Filter and badge

  function Unread(ns: seq<Notification>): (r: seq<Notification>)
    ensures forall n | n in r :: n in ns && !n.read
    ensures forall n | n in ns && !n.read :: n in r
    ensures |r| <= |ns|
  {
    if ns == [] then []
    else (if !ns[0].read then [ns[0]] else []) + Unread(ns[1..])
  }

  function OfKind(ns: seq<Notification>, kind: string): (r: seq<Notification>)
    ensures forall n | n in r :: n in ns && n.kind == kind
    ensures forall n | n in ns && n.kind == kind :: n in r
  {
    if ns == [] then []
    else (if ns[0].kind == kind then [ns[0]] else []) + OfKind(ns[1..], kind)
  }

  /** `filterNotifications()` for the active tab. */
  function FilterNotifications(ns: seq<Notification>, tab: string): (r: seq<Notification>)
    ensures tab == "all" ==> r == ns
    ensures tab == "unread" ==> forall n :: n in r <==> n in ns && !n.read
    ensures tab != "all" && tab != "unread" ==> forall n :: n in r <==> n in ns && n.kind == tab
  {
    if tab == "all" then ns
    else if tab == "unread" then Unread(ns)
    else OfKind(ns, tab)
  }

  /** `unreadCount`: the length of the unread filter. */
  function UnreadCount(ns: seq<Notification>): (c: nat)
    ensures c <= |ns|
    ensures c == 0 <==> forall i | 0 <= i < |ns| :: ns[i].read
  {
    var r := Unread(ns);
    assert |r| == 0 <==> forall i | 0 <= i < |ns| :: ns[i].read by {
      if forall i | 0 <= i < |ns| :: ns[i].read {
        NoneUnread(ns);
      }
      if |r| == 0 {
        forall i | 0 <= i < |ns| ensures ns[i].read {
          assert ns[i] in ns;
        }
      }
    }
    |r|
  }

  /** Unread count of a list built from two parts. */
  lemma {:induction false} UnreadAppend(a: seq<Notification>, b: seq<Notification>)
    ensures Unread(a + b) == Unread(a) + Unread(b)
  {
    if a == [] {
      assert a + b == b;
    } else {
      assert (a + b)[1..] == a[1..] + b;
      UnreadAppend(a[1..], b);
    }
  }

  /** Unread notifications that carry the given id. */
  function UnreadWithId(ns: seq<Notification>, id: int): nat
  {
    if ns == [] then 0 else (if ns[0].id == id && !ns[0].read then 1 else 0) + UnreadWithId(ns[1..], id)
  }

  /** Marking an id read takes exactly its unread notifications off the badge. */
  lemma {:induction false} MarkedReadUnreadCount(ns: seq<Notification>, id: int)
    ensures UnreadCount(MarkedRead(ns, id)) == UnreadCount(ns) - UnreadWithId(ns, id)
  {
    if ns != [] {
      MarkedReadUnreadCount(ns[1..], id);
      assert MarkedRead(ns, id)[1..] == MarkedRead(ns[1..], id);
    }
  }

  // ---------------------------------------------------------------------
  // Grouping by date

  datatype DateGroup = Today | Yesterday | ThisWeek | Older

  /** The group the (lower-cased) timestamp text points to: the tests are
      tried in order, and a text none of them accepts is older. */
  function Bucket(timestamp: string): (g: DateGroup)
    ensures var t := ToLower(timestamp);
      && (g == Today <==> Contains(t, "m ago") || Contains(t, "h ago") || t == "today")
      && (g == Yesterday <==> g != Today && Contains(t, "yesterday"))
      && (g == ThisWeek <==> g != Today && !Contains(t, "yesterday")
                             && Contains(t, "d ago") && !Contains(t, "10d ago"))
      && (g == Older <==> g != Today && !Contains(t, "yesterday")
                          && (!Contains(t, "d ago") || Contains(t, "10d ago")))
  {
    var time := ToLower(timestamp);
    if Contains(time, "m ago") || Contains(time, "h ago") || time == "today" then Today
    else if Contains(time, "yesterday") then Yesterday
    else if Contains(time, "d ago") && !Contains(time, "10d ago") then ThisWeek
    else Older
  }

  /** The group a notification's timestamp picks. */
  function GroupOf(n: Notification): DateGroup
  {
    Bucket(n.timestamp)
  }

  /** The notifications of `ns` that `pick` puts in group `g`, in input order. */
  function Picked(ns: seq<Notification>, pick: Notification -> DateGroup, g: DateGroup): (r: seq<Notification>)
    ensures |r| <= |ns|
  {
    if ns == [] then []
    else
      var last := ns[|ns| - 1];
      Picked(ns[..|ns| - 1], pick, g) + (if pick(last) == g then [last] else [])
  }

  /** The notifications of `ns` whose timestamp falls in group `g`, in input order. */
  function InGroup(ns: seq<Notification>, g: DateGroup): seq<Notification>
  {
    Picked(ns, GroupOf, g)
  }

  /** Appending one notification extends exactly the group it is picked for. */
  lemma PickedSnoc(ns: seq<Notification>, pick: Notification -> DateGroup, x: Notification, g: DateGroup)
    ensures Picked(ns + [x], pick, g) == Picked(ns, pick, g) + (if pick(x) == g then [x] else [])
  {
    assert (ns + [x])[..|ns|] == ns;
  }

  /** A group holds only notifications of the input whose timestamp picks that group. */
  lemma {:induction false} InGroupMembers(ns: seq<Notification>, g: DateGroup)
    ensures forall n | n in InGroup(ns, g) :: n in ns && Bucket(n.timestamp) == g
  {
    if ns != [] {
      var init, last := ns[..|ns| - 1], ns[|ns| - 1];
      InGroupMembers(init, g);
      assert ns == init + [last];
      PickedSnoc(init, GroupOf, last, g);
    }
  }

  /** The same step, counted: the picked group gains one copy of `x`, the others nothing. */
  lemma PickedSnocCount(ns: seq<Notification>, pick: Notification -> DateGroup, x: Notification, g: DateGroup)
    ensures multiset(Picked(ns + [x], pick, g))
         == multiset(Picked(ns, pick, g)) + (if pick(x) == g then multiset{x} else multiset{})
  {
    PickedSnoc(ns, pick, x, g);
  }

  /** Whatever the classification, the four groups together hold each
      notification exactly as often as the input does. */
  lemma {:induction false} PickedPartition(ns: seq<Notification>, pick: Notification -> DateGroup)
    ensures multiset(Picked(ns, pick, Today)) + multiset(Picked(ns, pick, Yesterday))
          + multiset(Picked(ns, pick, ThisWeek)) + multiset(Picked(ns, pick, Older)) == multiset(ns)
  {
    if ns != [] {
      var init, last := ns[..|ns| - 1], ns[|ns| - 1];
      assert ns == init + [last];
      PickedPartition(init, pick);
      PickedSnocCount(init, pick, last, Today);
      PickedSnocCount(init, pick, last, Yesterday);
      PickedSnocCount(init, pick, last, ThisWeek);
      PickedSnocCount(init, pick, last, Older);
    }
  }

  /** The four date groups partition the list. */
  lemma GroupsPartition(ns: seq<Notification>)
    ensures multiset(InGroup(ns, Today)) + multiset(InGroup(ns, Yesterday))
          + multiset(InGroup(ns, ThisWeek)) + multiset(InGroup(ns, Older)) == multiset(ns)
  {
    PickedPartition(ns, GroupOf);
  }

  datatype Groups = Groups(today: seq<Notification>, yesterday: seq<Notification>,
                           thisWeek: seq<Notification>, older: seq<Notification>)

  /** `groupByDate(notifs)`: each notification is pushed onto the group its
      timestamp picks, so each group keeps input order, and every
      notification lands in exactly one group. */
  method GroupByDate(notifs: seq<Notification>) returns (g: Groups)
    ensures g.today == InGroup(notifs, Today) && g.yesterday == InGroup(notifs, Yesterday)
    ensures g.thisWeek == InGroup(notifs, ThisWeek) && g.older == InGroup(notifs, Older)
    ensures multiset(g.today) + multiset(g.yesterday) + multiset(g.thisWeek) + multiset(g.older) == multiset(notifs)
  {
    var today, yesterday, thisWeek, older := [], [], [], [];
    var i := 0;
    while i < |notifs|
      invariant 0 <= i <= |notifs|
      invariant today == InGroup(notifs[..i], Today) && yesterday == InGroup(notifs[..i], Yesterday)
      invariant thisWeek == InGroup(notifs[..i], ThisWeek) && older == InGroup(notifs[..i], Older)
    {
      var notif := notifs[i];
      assert notifs[..i + 1] == notifs[..i] + [notif];
      PickedSnoc(notifs[..i], GroupOf, notif, Today);
      PickedSnoc(notifs[..i], GroupOf, notif, Yesterday);
      PickedSnoc(notifs[..i], GroupOf, notif, ThisWeek);
      PickedSnoc(notifs[..i], GroupOf, notif, Older);
      var group := Bucket(notif.timestamp);
      match group {
      case Today => today := today + [notif];
      case Yesterday => yesterday := yesterday + [notif];
      case ThisWeek => thisWeek := thisWeek + [notif];
      case Older => older := older + [notif];
      }
      i := i + 1;
    }
    assert notifs[..i] == notifs;
    GroupsPartition(notifs);
    g := Groups(today, yesterday, thisWeek, older);
  }

  /** Any "<n>m ago" or "<n>h ago" timestamp, whatever `n` is, is today's. */
  lemma MinutesOrHoursAgoAreToday(n: string, unit: string)
    requires unit == "m ago" || unit == "h ago"
    ensures Bucket(n + unit) == Today
  {
    ToLowerAppend(n, unit);
    assert ToLower(unit) == unit;
    ContainsSuffix(ToLower(n), unit);
  }

  /** "Today", in any letter case, is today's. */
  lemma TodayIsToday(ts: string)
    requires ToLower(ts) == "today"
    ensures Bucket(ts) == Today
  {
  }

  /** "Yesterday", in any letter case, is yesterday's. */
  lemma YesterdayIsYesterday(ts: string)
    requires ToLower(ts) == "yesterday"
    ensures Bucket(ts) == Yesterday
  {
    var time := ToLower(ts);
    FirstCharAbsent(time, "m ago");
    FirstCharAbsent(time, "h ago");
    assert "yesterday" <= time;
  }

  /** "3d ago" is this week's. */
  lemma ThreeDaysIsThisWeek(ts: string)
    requires ts == "3d ago"
    ensures Bucket(ts) == ThisWeek
  {
    assert ToLower(ts) == ts;
    FirstCharAbsent(ts, "m ago");
    FirstCharAbsent(ts, "h ago");
    FirstCharAbsent(ts, "yesterday");
    FirstCharAbsent(ts, "10d ago");
    assert Contains(ts[1..], "d ago") by {
      assert "d ago" <= ts[1..];
    }
  }

  /** "10d ago" is older, because of the explicit exclusion. */
  lemma TenDaysIsOlder(ts: string)
    requires ts == "10d ago"
    ensures Bucket(ts) == Older
  {
    assert ToLower(ts) == ts;
    FirstCharAbsent(ts, "m ago");
    FirstCharAbsent(ts, "h ago");
    FirstCharAbsent(ts, "yesterday");
    assert "10d ago" <= ts;
  }

  /** "11d ago" still counts as this week: only the text "10d ago" is excluded. */
  lemma ElevenDaysIsThisWeek(ts: string)
    requires ts == "11d ago"
    ensures Bucket(ts) == ThisWeek
  {
    assert ToLower(ts) == ts;
    FirstCharAbsent(ts, "m ago");
    FirstCharAbsent(ts, "h ago");
    FirstCharAbsent(ts, "yesterday");
    DaysNotTen(ts);
  }

  /** "11d ago" mentions days but not the text "10d ago". */
  lemma DaysNotTen(s: string)
    requires s == "11d ago"
    ensures Contains(s, "d ago") && !Contains(s, "10d ago")
  {
    var t := s[1..];
    assert t == "1d ago";
    assert Contains(t, "d ago") by {
      assert "d ago" <= t[1..];
    }
    Shorter(t, "10d ago");
    assert !("10d ago" <= s) by {
      assert s[1] != "10d ago"[1];
    }
  }

  /** A string ending in `part` contains it. */
  lemma {:induction false} ContainsSuffix(x: string, part: string)
    ensures Contains(x + part, part)
    decreases |x|
  {
    if x == [] {
      assert x + part == part;
    } else {
      ContainsSuffix(x[1..], part);
      assert (x + part)[1..] == x[1..] + part;
    }
  }

  /** Lower-casing works character by character. */
  lemma ToLowerAppend(a: string, b: string)
    ensures ToLower(a + b) == ToLower(a) + ToLower(b)
  {
  }

  /** A string that lacks the first character of `part` does not contain it. */
  lemma {:induction false} FirstCharAbsent(s: string, part: string)
    requires |part| > 0 && part[0] !in s
    ensures !Contains(s, part)
    decreases |s|
  {
    if s != [] {
      FirstCharAbsent(s[1..], part);
    }
  }

  lemma {:induction false} Shorter(s: string, part: string)
    requires |s| < |part|
    ensures !Contains(s, part)
    decreases |s|
  {
    if s != [] {
      Shorter(s[1..], part);
    }
  }

  // ---------------------------------------------------------------------
  // The page's state

  /** The component's state: the list and the selected tab. */
  class NotificationsPage {
    var notifications: seq<Notification>
    var activeTab: string

    constructor (initial: seq<Notification>)
      ensures notifications == initial && activeTab == "all"
    {
      notifications := initial;
      activeTab := "all";
    }

    /** What the page shows: the active tab's filter, grouped by date. */
    function Visible(): (r: seq<Notification>)
      reads this
      ensures activeTab == "all" ==> r == notifications
    {
      FilterNotifications(notifications, activeTab)
    }

    method MarkAsRead(id: int)
      modifies this
      ensures notifications == MarkedRead(old(notifications), id) && activeTab == old(activeTab)
      ensures UnreadCount(notifications) == UnreadCount(old(notifications)) - UnreadWithId(old(notifications), id)
    {
      MarkedReadUnreadCount(notifications, id);
      notifications := MarkedRead(notifications, id);
    }

    method MarkAllAsRead()
      modifies this
      ensures notifications == AllRead(old(notifications)) && activeTab == old(activeTab)
      ensures UnreadCount(notifications) == 0
    {
      MarkAllLeavesNothingUnread(notifications);
      notifications := AllRead(notifications);
    }

    method DeleteNotification(id: int)
      modifies this
      ensures notifications == Deleted(old(notifications), id) && activeTab == old(activeTab)
    {
      notifications := Deleted(notifications, id);
    }

    method ToggleFollow(id: int)
      modifies this
      ensures notifications == FollowToggled(old(notifications), id) && activeTab == old(activeTab)
    {
      notifications := FollowToggled(notifications, id);
    }

    method SelectTab(tab: string)
      modifies this
      ensures activeTab == tab && notifications == old(notifications)
    {
      activeTab := tab;
    }
  }
}
