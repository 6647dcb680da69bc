/** The notification list and its unread counter: backend/api/notification_service.py. */
module Notifications {
  import opened Wrappers

  const MAX_NOTIFICATIONS: nat := 100

  /** `serial` is the number of the push; ids are cut from a UUID and may
      collide. */
  datatype Notification = Notification(id: string, serial: nat, read: bool)

  datatype Op =
    | Push(id: string)
    | ClearOne(id: string)
    | ClearAll
    | MarkRead(id: string)
    | MarkAllRead

  /** The two fields, and the number of pushes so far. */
  datatype State = State(items: seq<Notification>, unread: int, pushes: nat)

  const EMPTY := State([], 0, 0)

  function Unread(items: seq<Notification>): nat {
    if items == [] then 0 else (if items[0].read then 0 else 1) + Unread(items[1..])
  }

  /** The first position with this id, or the length. */
  function IndexOf(items: seq<Notification>, id: string): (i: nat)
    ensures i <= |items|
    ensures i < |items| ==> items[i].id == id
    ensures forall j :: 0 <= j < i ==> items[j].id != id
  {
    if items == [] || items[0].id == id then 0 else 1 + IndexOf(items[1..], id)
  }

  /** The first unread one with this id, or the length. */
  function UnreadIndexOf(items: seq<Notification>, id: string): (i: nat)
    ensures i <= |items|
    ensures i < |items| ==> items[i].id == id && !items[i].read
    ensures forall j :: 0 <= j < i ==> items[j].id != id || items[j].read
  {
    if items == [] || (items[0].id == id && !items[0].read) then 0 else 1 + UnreadIndexOf(items[1..], id)
  }

  function Max(a: int, b: int): int { if a >= b then a else b }

  function AllRead(items: seq<Notification>): seq<Notification> {
    seq(|items|, i requires 0 <= i < |items| => items[i].(read := true))
  }

  function Step(s: State, op: Op): State {
    match op
    case Push(id) =>
      var items := [Notification(id, s.pushes, false)] + s.items;
      State(if |items| > MAX_NOTIFICATIONS then items[..MAX_NOTIFICATIONS] else items, s.unread + 1, s.pushes + 1)
    case ClearOne(id) =>
      var i := IndexOf(s.items, id);
      if i == |s.items| then s
      else
        s.(items := s.items[..i] + s.items[i + 1..],
           unread := if s.items[i].read then s.unread else Max(0, s.unread - 1))
    case ClearAll => s.(items := [], unread := 0)
    case MarkRead(id) =>
      var i := UnreadIndexOf(s.items, id);
      if i == |s.items| then s
      else s.(items := s.items[i := s.items[i].(read := true)], unread := Max(0, s.unread - 1))
    case MarkAllRead => s.(items := AllRead(s.items), unread := 0)
  }

  function Run(ops: seq<Op>): State {
    if ops == [] then EMPTY else Step(Run(ops[..|ops| - 1]), ops[|ops| - 1])
  }

  class NotificationService {
    var notifications: seq<Notification>
    var unreadCount: int
    ghost var pushes: nat

    constructor ()
      ensures Abs() == EMPTY
    {
      notifications, unreadCount, pushes := [], 0, 0;
    }

    ghost function Abs(): State
      reads this
    {
      State(notifications, unreadCount, pushes)
    }

    /** `push` and `pushRich`; the serial stands for the time stamp. */
    method PushNotification(id: string, serial: nat)
      requires serial == pushes
      modifies this
      ensures Abs() == Step(old(Abs()), Push(id))
    {
      notifications := [Notification(id, serial, false)] + notifications;
      unreadCount := unreadCount + 1;
      if |notifications| > MAX_NOTIFICATIONS {
        notifications := notifications[..MAX_NOTIFICATIONS];
      }
      pushes := pushes + 1;
    }

    method ClearNotification(id: string) returns (found: bool)
      modifies this
      ensures Abs() == Step(old(Abs()), ClearOne(id))
      ensures found <==> exists i :: 0 <= i < |old(notifications)| && old(notifications)[i].id == id
    {
      for i := 0 to |notifications|
        invariant notifications == old(notifications) && unreadCount == old(unreadCount)
        invariant forall j :: 0 <= j < i ==> notifications[j].id != id
      {
        if notifications[i].id == id {
          var wasUnread := !notifications[i].read;
          notifications := notifications[..i] + notifications[i + 1..];
          if wasUnread {
            unreadCount := if unreadCount - 1 > 0 then unreadCount - 1 else 0;
          }
          return true;
        }
      }
      return false;
    }

    method ClearAllNotifications()
      modifies this
      ensures Abs() == Step(old(Abs()), ClearAll)
    {
      notifications := [];
      unreadCount := 0;
    }

    method MarkAllAsRead()
      modifies this
      ensures Abs() == Step(old(Abs()), MarkAllRead)
    {
      for i := 0 to |notifications|
        invariant |notifications| == |old(notifications)| && pushes == old(pushes)
        invariant forall j :: 0 <= j < i ==> notifications[j] == old(notifications)[j].(read := true)
        invariant forall j :: i <= j < |notifications| ==> notifications[j] == old(notifications)[j]
      {
        notifications := notifications[i := notifications[i].(read := true)];
      }
      assert notifications == AllRead(old(notifications));
      unreadCount := 0;
    }

    method MarkAsRead(id: string)
      modifies this
      ensures Abs() == Step(old(Abs()), MarkRead(id))
    {
      for i := 0 to |notifications|
        invariant notifications == old(notifications) && unreadCount == old(unreadCount)
        invariant forall j :: 0 <= j < i ==> notifications[j].id != id || notifications[j].read
      {
        if notifications[i].id == id && !notifications[i].read {
          notifications := notifications[i := notifications[i].(read := true)];
          unreadCount := if unreadCount - 1 > 0 then unreadCount - 1 else 0;
          break;
        }
      }
    }
  }

  // ---- conservation ----

  /** Unread notifications pushed out by the cap since the last reset. */
  function Evicted(ops: seq<Op>): nat {
    if ops == [] then 0
    else
      var n := |ops| - 1;
      var items := Run(ops[..n]).items;
      match ops[n]
      case Push(_) =>
        Evicted(ops[..n]) +
        if |items| == MAX_NOTIFICATIONS && !items[MAX_NOTIFICATIONS - 1].read then 1 else 0
      case ClearAll => 0
      case MarkAllRead => 0
      case _ => Evicted(ops[..n])
  }

  lemma {:induction false} UnreadAppend(a: seq<Notification>, b: seq<Notification>)
    ensures Unread(a + b) == Unread(a) + Unread(b)
  {
    if a == [] {
      assert a + b == b;
    } else {
      assert (a + b)[1..] == a[1..] + b;
      UnreadAppend(a[1..], b);
    }
  }

  lemma UnreadSplit(items: seq<Notification>, i: nat)
    requires i < |items|
    ensures Unread(items) ==
            Unread(items[..i]) + (if items[i].read then 0 else 1) + Unread(items[i + 1..])
  {
    assert items == items[..i] + ([items[i]] + items[i + 1..]);
    UnreadAppend(items[..i], [items[i]] + items[i + 1..]);
    UnreadAppend([items[i]], items[i + 1..]);
  }

  lemma {:induction false} UnreadAllRead(items: seq<Notification>)
    ensures Unread(AllRead(items)) == 0
  {
    if items != [] {
      assert AllRead(items)[1..] == AllRead(items[1..]);
      UnreadAllRead(items[1..]);
    }
  }

  /** Newest first: the serials fall strictly. */
  predicate NewestFirst(s: State) {
    && (forall i, j :: 0 <= i < j < |s.items| ==> s.items[i].serial > s.items[j].serial)
    && (forall i :: 0 <= i < |s.items| ==> s.items[i].serial < s.pushes)
  }

  lemma PushCounts(s: State, id: string)
    requires |s.items| <= MAX_NOTIFICATIONS
    ensures Unread(Step(s, Push(id)).items) +
            (if |s.items| == MAX_NOTIFICATIONS && !s.items[MAX_NOTIFICATIONS - 1].read then 1 else 0) ==
            Unread(s.items) + 1
  {
    var items := [Notification(id, s.pushes, false)] + s.items;
    assert items[1..] == s.items;
    if |s.items| == MAX_NOTIFICATIONS {
      UnreadSplit(items, MAX_NOTIFICATIONS);
      assert items[MAX_NOTIFICATIONS + 1..] == [];
    }
  }

  lemma RemovalCounts(items: seq<Notification>, i: nat)
    requires i < |items|
    ensures Unread(items[..i] + items[i + 1..]) == Unread(items) - (if items[i].read then 0 else 1)
  {
    UnreadSplit(items, i);
    UnreadAppend(items[..i], items[i + 1..]);
  }

  lemma ReadingCounts(items: seq<Notification>, i: nat)
    requires i < |items| && !items[i].read
    ensures Unread(items[i := items[i].(read := true)]) == Unread(items) - 1
  {
    var after := items[i := items[i].(read := true)];
    UnreadSplit(items, i);
    UnreadSplit(after, i);
    assert after[..i] == items[..i] && after[i + 1..] == items[i + 1..];
  }

  lemma StepKeepsOrder(s: State, op: Op)
    requires NewestFirst(s) && |s.items| <= MAX_NOTIFICATIONS
    ensures NewestFirst(Step(s, op)) && |Step(s, op).items| <= MAX_NOTIFICATIONS
  {
    match op
    case ClearOne(id) =>
      var i := IndexOf(s.items, id);
      if i < |s.items| {
        RemovalKeepsOrder(s.items, i);
      }
    case MarkRead(id) =>
      SameSerials(s, Step(s, op));
    case MarkAllRead =>
      SameSerials(s, Step(s, op));
    case Push(id) => PushKeepsOrder(s, id);
    case ClearAll =>
  }

  lemma SameSerials(s: State, t: State)
    requires NewestFirst(s) && t.pushes == s.pushes && |t.items| == |s.items|
    requires forall j :: 0 <= j < |s.items| ==> t.items[j].serial == s.items[j].serial
    ensures NewestFirst(t)
  {
  }

  lemma PushKeepsOrder(s: State, id: string)
    requires NewestFirst(s) && |s.items| <= MAX_NOTIFICATIONS
    ensures NewestFirst(Step(s, Push(id))) && |Step(s, Push(id)).items| <= MAX_NOTIFICATIONS
  {
  }

  lemma RemovalKeepsOrder(items: seq<Notification>, i: nat)
    requires i < |items|
    requires forall j, k :: 0 <= j < k < |items| ==> items[j].serial > items[k].serial
    ensures
      var rest := items[..i] + items[i + 1..];
      && (forall j, k :: 0 <= j < k < |rest| ==> rest[j].serial > rest[k].serial)
      && (forall j :: 0 <= j < |rest| ==> rest[j] in items)
  {
  }

  /** What an operation takes off the counter it takes off the list. */
  lemma StepCounts(s: State, op: Op)
    requires s.unread >= Unread(s.items) && |s.items| <= MAX_NOTIFICATIONS
    ensures op.ClearOne? || op.MarkRead? ==>
              s.unread - Step(s, op).unread == Unread(s.items) - Unread(Step(s, op).items)
    ensures op.ClearAll? || op.MarkAllRead? ==> Step(s, op).unread == 0 == Unread(Step(s, op).items)
  {
    match op
    case ClearOne(id) =>
      var i := IndexOf(s.items, id);
      if i < |s.items| {
        RemovalCounts(s.items, i);
      }
    case MarkRead(id) =>
      var i := UnreadIndexOf(s.items, id);
      if i < |s.items| {
        ReadingCounts(s.items, i);
      }
    case MarkAllRead => UnreadAllRead(s.items);
    case _ =>
  }

  /** The badge shows the unread notifications in the list plus those the cap
      evicted unread since the last reset; the list is newest first and at most
      100 long. */
  lemma {:induction false} UnreadIsConserved(ops: seq<Op>)
    ensures
      var s := Run(ops);
      s.unread == Unread(s.items) + Evicted(ops) && |s.items| <= MAX_NOTIFICATIONS && NewestFirst(s)
  {
    if ops != [] {
      var n := |ops| - 1;
      UnreadIsConserved(ops[..n]);
      StepKeepsOrder(Run(ops[..n]), ops[n]);
      StepCounts(Run(ops[..n]), ops[n]);
      if ops[n].Push? {
        PushCounts(Run(ops[..n]), ops[n].id);
      }
    }
  }

  /** The step without the clamp at zero. */
  function Unclamped(s: State, op: Op): int {
    match op
    case ClearOne(id) =>
      var i := IndexOf(s.items, id);
      if i == |s.items| || s.items[i].read then s.unread else s.unread - 1
    case MarkRead(id) => if UnreadIndexOf(s.items, id) == |s.items| then s.unread else s.unread - 1
    case _ => Step(s, op).unread
  }

  /** The clamp never takes effect. */
  lemma ClampIsIdle(ops: seq<Op>, op: Op)
    ensures Step(Run(ops), op).unread == Unclamped(Run(ops), op) >= 0
  {
    UnreadIsConserved(ops);
    UnreadIsConserved(ops + [op]);
    assert (ops + [op])[..|ops|] == ops;
    var s := Run(ops);
    if op.ClearOne? && IndexOf(s.items, op.id) < |s.items| {
      UnreadSplit(s.items, IndexOf(s.items, op.id));
    }
    if op.MarkRead? && UnreadIndexOf(s.items, op.id) < |s.items| {
      UnreadSplit(s.items, UnreadIndexOf(s.items, op.id));
    }
  }

  /** The badge is right exactly when nothing unread was evicted since the last
      reset. */
  lemma BadgeIsRightIffNothingEvicted(ops: seq<Op>)
    ensures Run(ops).unread == Unread(Run(ops).items) <==> Evicted(ops) == 0
  {
    UnreadIsConserved(ops);
  }
}
