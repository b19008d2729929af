/** The store rows the realtime session reads and updates (bookings, messages and
    notifications), and the queries it runs over them: the filters, the
    `order_by(...)[:n]` selections of the initial snapshot, the paginated message
    window and the `filter(...).update(is_read=True)` mutations. */
module Records {
  import opened Wrappers
  import opened Uuids
  import opened Values

  datatype Booking = Booking(id: Uuid, user: Uuid, bookingDate: int)
  datatype Message = Message(id: Uuid, sender: Uuid, receiver: Uuid, isRead: bool, createdAt: int)
  datatype Notification = Notification(id: Uuid, user: Uuid, isRead: bool, createdAt: int)

  /** The initial snapshot pushed to a client right after it connects. */
  datatype Snapshot = Snapshot(bookings: seq<Booking>, messages: seq<Message>,
                               notifications: seq<Notification>)

  const BookingLimit: nat := 10
  const MessageLimit: nat := 20
  const NotificationLimit: nat := 50

  function BookingDate(b: Booking): int { b.bookingDate }
  function MessageTime(m: Message): int { m.createdAt }
  function NotificationTime(n: Notification): int { n.createdAt }

  // ------------------------------------------------------------ filtering

  /** `filter(...)`: the rows satisfying `p`, in store order. */
  function Filter<T>(s: seq<T>, p: T -> bool): (r: seq<T>)
    ensures |r| <= |s|
    ensures forall x :: x in r ==> x in s && p(x)
    ensures forall x :: x in s && p(x) ==> x in r
  {
    if s == [] then []
    else (if p(s[0]) then [s[0]] else []) + Filter(s[1..], p)
  }

  /** The number of rows satisfying `p`, which `update(...)` reports. */
  function Count<T>(s: seq<T>, p: T -> bool): (n: nat)
    ensures n <= |s|
  {
    if s == [] then 0 else (if p(s[0]) then 1 else 0) + Count(s[1..], p)
  }

  /** When no two rows both satisfy `p`, at most one is counted. */
  lemma {:induction false} CountAtMostOne<T>(s: seq<T>, p: T -> bool)
    requires forall i, j :: 0 <= i < j < |s| && p(s[i]) ==> !p(s[j])
    ensures Count(s, p) <= 1
  {
    if s != [] {
      var rest := s[1..];
      forall i, j | 0 <= i < j < |rest| && p(rest[i]) ensures !p(rest[j]) {
        assert rest[i] == s[i + 1] && rest[j] == s[j + 1];
      }
      CountAtMostOne(rest, p);
      if p(s[0]) {
        forall i | 0 <= i < |rest| ensures !p(rest[i]) {
          assert rest[i] == s[i + 1];
        }
        CountPositive(rest, p);
      }
    }
  }

  /** The count is positive exactly when some row satisfies `p`. */
  lemma {:induction false} CountPositive<T>(s: seq<T>, p: T -> bool)
    ensures Count(s, p) > 0 <==> exists i :: 0 <= i < |s| && p(s[i])
  {
    if s != [] {
      var rest := s[1..];
      CountPositive(rest, p);
      if exists i :: 0 <= i < |s| && p(s[i]) {
        var i :| 0 <= i < |s| && p(s[i]);
        if i > 0 { assert rest[i - 1] == s[i]; }
      }
      if exists i :: 0 <= i < |rest| && p(rest[i]) {
        var i :| 0 <= i < |rest| && p(rest[i]);
        assert rest[i] == s[i + 1];
      }
    }
  }

  lemma {:induction false} FilterMultiset<T>(s: seq<T>, p: T -> bool)
    ensures multiset(Filter(s, p)) <= multiset(s)
  {
    if s != [] {
      FilterMultiset(s[1..], p);
      assert s == [s[0]] + s[1..];
    }
  }

  // -------------------------------------------------------------- sorting

  ghost predicate SortedDesc<T>(s: seq<T>, key: T -> int) {
    forall i, j :: 0 <= i < j < |s| ==> key(s[i]) >= key(s[j])
  }

  /** Inserts `x` before the first element that is not newer than it. */
  function Insert<T>(x: T, s: seq<T>, key: T -> int): (r: seq<T>)
    ensures |r| == |s| + 1
    ensures multiset(r) == multiset(s) + multiset{x}
  {
    if s == [] || key(x) >= key(s[0]) then [x] + s
    else
      assert s == [s[0]] + s[1..];
      [s[0]] + Insert(x, s[1..], key)
  }

  /** `order_by('-key')`: a stable sort, newest first. */
  function SortDesc<T>(s: seq<T>, key: T -> int): (r: seq<T>)
    ensures |r| == |s|
    ensures multiset(r) == multiset(s)
  {
    if s == [] then []
    else
      assert s == [s[0]] + s[1..];
      Insert(s[0], SortDesc(s[1..], key), key)
  }

  lemma {:induction false} InsertSorted<T>(x: T, s: seq<T>, key: T -> int)
    requires SortedDesc(s, key)
    ensures SortedDesc(Insert(x, s, key), key)
  {
    if s != [] && key(x) < key(s[0]) {
      InsertSorted(x, s[1..], key);
      var r := Insert(x, s, key);
      forall i, j | 0 <= i < j < |r| ensures key(r[i]) >= key(r[j]) {
        if i == 0 {
          assert r[j] in multiset(Insert(x, s[1..], key));
          assert r[j] in multiset(s[1..]) + multiset{x};
        }
      }
    }
  }

  lemma {:induction false} SortDescSorted<T>(s: seq<T>, key: T -> int)
    ensures SortedDesc(SortDesc(s, key), key)
  {
    if s != [] {
      SortDescSorted(s[1..], key);
      InsertSorted(s[0], SortDesc(s[1..], key), key);
    }
  }

  /** `q[:n]` */
  function Take<T>(s: seq<T>, n: nat): (r: seq<T>)
    ensures |r| == if |s| < n then |s| else n
  {
    if |s| <= n then s else s[..n]
  }

  /** The `n` newest rows of `s` that satisfy `p`, newest first. */
  function Newest<T>(s: seq<T>, p: T -> bool, key: T -> int, n: nat): seq<T> {
    Take(SortDesc(Filter(s, p), key), n)
  }

  lemma TakeSorted<T>(t: seq<T>, n: nat, key: T -> int)
    requires SortedDesc(t, key)
    ensures SortedDesc(Take(t, n), key)
    ensures forall i, j :: 0 <= i < |Take(t, n)| <= j < |t| ==> key(t[j]) <= key(t[i])
    ensures Take(t, n) == t[..|Take(t, n)|]
  {
  }

  lemma NewestMembers<T>(s: seq<T>, p: T -> bool, key: T -> int, n: nat)
    ensures forall x :: x in Newest(s, p, key, n) ==> x in s && p(x)
    ensures multiset(Newest(s, p, key, n)) <= multiset(s)
    ensures |Filter(s, p)| <= n ==> multiset(Newest(s, p, key, n)) == multiset(Filter(s, p))
  {
    var f := Filter(s, p);
    var t := SortDesc(f, key);
    var r := Newest(s, p, key, n);
    FilterMultiset(s, p);
    assert t == r + t[|r|..];
    assert multiset(r) <= multiset(t);
    forall x | x in r ensures x in s && p(x) {
      assert x in multiset(t);
    }
  }

  lemma NewestTopRows<T>(s: seq<T>, p: T -> bool, key: T -> int, n: nat)
    ensures forall x, y :: x in s && p(x) && x !in Newest(s, p, key, n) && y in Newest(s, p, key, n)
                           ==> key(x) <= key(y)
  {
    var f := Filter(s, p);
    var t := SortDesc(f, key);
    var r := Newest(s, p, key, n);
    SortDescSorted(f, key);
    TakeSorted(t, n, key);
    forall x, y | x in s && p(x) && x !in r && y in r ensures key(x) <= key(y) {
      assert x in multiset(f);
      var k :| 0 <= k < |t| && t[k] == x;
      var m :| 0 <= m < |r| && r[m] == y;
      assert t[m] == y;
    }
  }

  /** What `Newest` selects: at most `n` rows, all satisfying `p`, newest first, all of
      them when there are no more than `n`, and no omitted row newer than a selected one. */
  lemma NewestSpec<T>(s: seq<T>, p: T -> bool, key: T -> int, n: nat)
    ensures var r := Newest(s, p, key, n);
      && |r| == (if |Filter(s, p)| < n then |Filter(s, p)| else n)
      && SortedDesc(r, key)
      && (forall x :: x in r ==> x in s && p(x))
      && multiset(r) <= multiset(s)
      && (|Filter(s, p)| <= n ==> multiset(r) == multiset(Filter(s, p)))
      && (forall x, y :: x in s && p(x) && x !in r && y in r ==> key(x) <= key(y))
  {
    SortDescSorted(Filter(s, p), key);
    TakeSorted(SortDesc(Filter(s, p), key), n, key);
    NewestMembers(s, p, key, n);
    NewestTopRows(s, p, key, n);
  }

  // ------------------------------------------------------------ the queries

  predicate UnreadFor(user: Uuid, n: Notification) { n.user == user && !n.isRead }

  /** `filter(user=user)` */
  function BookedBy(user: Uuid): Booking -> bool { (b: Booking) => b.user == user }
  /** `filter(Q(sender=user) | Q(receiver=user))` */
  function Conversation(user: Uuid): Message -> bool { (m: Message) => m.sender == user || m.receiver == user }
  /** `filter(user=user, is_read=False)` */
  function Unread(user: Uuid): Notification -> bool { (n: Notification) => UnreadFor(user, n) }

  /** The three reads of the initial snapshot. */
  function InitialData(bookings: seq<Booking>, messages: seq<Message>,
                       notifications: seq<Notification>, user: Uuid): (r: Snapshot)
    ensures |r.bookings| <= BookingLimit && |r.messages| <= MessageLimit
    ensures |r.notifications| <= NotificationLimit
  {
    Snapshot(Newest(bookings, BookedBy(user), BookingDate, BookingLimit),
             Newest(messages, Conversation(user), MessageTime, MessageLimit),
             Newest(notifications, Unread(user), NotificationTime, NotificationLimit))
  }

  /** The snapshot holds at most 10 of the user's bookings, latest booking date first,
      and no booking of the user left out has a later date than one included. */
  lemma SnapshotBookings(bookings: seq<Booking>, messages: seq<Message>,
                         notifications: seq<Notification>, user: Uuid)
    ensures var r := InitialData(bookings, messages, notifications, user).bookings;
      && r == Newest(bookings, BookedBy(user), BookingDate, BookingLimit)
      && |r| == (if |Filter(bookings, BookedBy(user))| < 10 then |Filter(bookings, BookedBy(user))| else 10)
      && SortedDesc(r, BookingDate)
      && (forall b :: b in r ==> b in bookings && b.user == user)
      && (forall b, b' :: b in bookings && b.user == user && b !in r && b' in r ==>
            b.bookingDate <= b'.bookingDate)
  {
    var r := InitialData(bookings, messages, notifications, user).bookings;
    NewestSpec(bookings, BookedBy(user), BookingDate, BookingLimit);
    forall b, b' | b in bookings && b.user == user && b !in r && b' in r
      ensures b.bookingDate <= b'.bookingDate
    {
      assert BookedBy(user)(b);
      assert BookingDate(b) <= BookingDate(b');
    }
  }

  /** The snapshot holds at most 20 messages the user sent or received, newest first,
      and no such message left out is newer than one included. */
  lemma SnapshotMessages(bookings: seq<Booking>, messages: seq<Message>,
                         notifications: seq<Notification>, user: Uuid)
    ensures var r := InitialData(bookings, messages, notifications, user).messages;
      && r == Newest(messages, Conversation(user), MessageTime, MessageLimit)
      && |r| == (if |Filter(messages, Conversation(user))| < 20 then |Filter(messages, Conversation(user))| else 20)
      && SortedDesc(r, MessageTime)
      && (forall m :: m in r ==> m in messages && (m.sender == user || m.receiver == user))
      && (forall m, m' :: m in messages && (m.sender == user || m.receiver == user) && m !in r && m' in r ==>
            m.createdAt <= m'.createdAt)
  {
    var r := InitialData(bookings, messages, notifications, user).messages;
    NewestSpec(messages, Conversation(user), MessageTime, MessageLimit);
    forall m, m' | m in messages && (m.sender == user || m.receiver == user) && m !in r && m' in r
      ensures m.createdAt <= m'.createdAt
    {
      assert Conversation(user)(m);
      assert MessageTime(m) <= MessageTime(m');
    }
  }

  /** The snapshot holds at most 50 of the user's unread notifications, newest first,
      and no unread notification of the user left out is newer than one included. */
  lemma SnapshotNotifications(bookings: seq<Booking>, messages: seq<Message>,
                              notifications: seq<Notification>, user: Uuid)
    ensures var r := InitialData(bookings, messages, notifications, user).notifications;
      && r == Newest(notifications, Unread(user), NotificationTime, NotificationLimit)
      && |r| == (if |Filter(notifications, Unread(user))| < 50 then |Filter(notifications, Unread(user))| else 50)
      && SortedDesc(r, NotificationTime)
      && (forall n :: n in r ==> n in notifications && n.user == user && !n.isRead)
      && (forall n, n' :: n in notifications && n.user == user && !n.isRead && n !in r && n' in r ==>
            n.createdAt <= n'.createdAt)
  {
    var r := InitialData(bookings, messages, notifications, user).notifications;
    NewestSpec(notifications, Unread(user), NotificationTime, NotificationLimit);
    forall n, n' | n in notifications && n.user == user && !n.isRead && n !in r && n' in r
      ensures n.createdAt <= n'.createdAt
    {
      assert Unread(user)(n);
      assert NotificationTime(n) <= NotificationTime(n');
    }
  }

  /** Django's `q[start:stop]` once both bounds are known not to be negative: when
      `stop <= start` the window is empty, otherwise it is the rows from `start` up to
      but excluding `stop`, cut at the end of `q`. */
  function Window<T>(s: seq<T>, start: nat, stop: nat): (r: seq<T>)
    ensures |r| <= |s|
    ensures stop <= start || |s| <= start ==> r == []
    ensures start < stop <= |s| ==> r == s[start..stop]
    ensures start < stop && start < |s| ==>
              |r| == (if stop < |s| then stop else |s|) - start
              && forall i :: 0 <= i < |r| ==> r[i] == s[start + i]
  {
    if stop <= start || |s| <= start then []
    else s[start..if stop < |s| then stop else |s|]
  }

  /** Consecutive windows join up: paging through a list in steps misses nothing and
      repeats nothing. */
  lemma WindowsJoin<T>(s: seq<T>, start: nat, a: nat, b: nat)
    ensures Window(s, start, start + a) + Window(s, start + a, start + a + b)
            == Window(s, start, start + a + b)
  {
  }

  /** `_get_more_messages_sync`: the user's messages, newest first, from `offset` to
      `offset + limit`. */
  function MessagePage(messages: seq<Message>, user: Uuid, offset: nat, stop: nat): (r: seq<Message>)
    ensures |r| <= (if stop <= offset then 0 else stop - offset)
  {
    Window(SortDesc(Filter(messages, Conversation(user)), MessageTime), offset, stop)
  }

  /** A window of a list sorted newest first is sorted newest first, and holds rows of
      the list only. */
  lemma WindowSorted<T>(s: seq<T>, start: nat, stop: nat, key: T -> int)
    requires SortedDesc(s, key)
    ensures SortedDesc(Window(s, start, stop), key)
    ensures multiset(Window(s, start, stop)) <= multiset(s)
  {
    var w := Window(s, start, stop);
    if w != [] {
      var end := if stop < |s| then stop else |s|;
      assert s == s[..start] + w + s[end..];
      forall i, j | 0 <= i < j < |w| ensures key(w[i]) >= key(w[j]) {
        assert w[i] == s[start + i] && w[j] == s[start + j];
      }
    }
  }

  /** A page holds at most `stop - offset` rows, each one the user's, sent or received;
      newest first; and it is the run of the user's messages from `offset` on. */
  lemma MessagePageSpec(messages: seq<Message>, user: Uuid, offset: nat, stop: nat)
    ensures var all := SortDesc(Filter(messages, Conversation(user)), MessageTime);
            var page := MessagePage(messages, user, offset, stop);
            && |page| <= (if stop <= offset then 0 else stop - offset)
            && (offset < stop && offset < |all| ==>
                  page == all[offset..if stop < |all| then stop else |all|])
            && SortedDesc(page, MessageTime)
            && (forall m :: m in page ==> m in messages && (m.sender == user || m.receiver == user))
  {
    var f := Filter(messages, Conversation(user));
    var all := SortDesc(f, MessageTime);
    var page := MessagePage(messages, user, offset, stop);
    SortDescSorted(f, MessageTime);
    WindowSorted(all, offset, stop, MessageTime);
    forall m | m in page ensures m in messages && (m.sender == user || m.receiver == user) {
      assert m in multiset(page);
      assert m in multiset(f);
      assert Conversation(user)(m);
    }
  }

  // ------------------------------------------------------- read-flag updates

  /** The rows `filter(id=id, receiver=user, is_read=False)` selects. */
  predicate MessageSelected(m: Message, id: Json, user: Uuid) {
    RefersTo(id, m.id) && m.receiver == user && !m.isRead
  }

  /** The rows `filter(id=id, user=user, is_read=False)` selects. */
  predicate NotificationSelected(n: Notification, id: Json, user: Uuid) {
    RefersTo(id, n.id) && n.user == user && !n.isRead
  }

  /** Whether the looked-up value `v` names the UUID `u`, as Django's `UUIDField` reads it:
      a string through `UUID(hex=...)`, an integer (a bool is one) through `UUID(int=...)`.
      Anything else raises, and selects nothing. */
  predicate RefersTo(v: Json, u: Uuid)
    ensures v.JStr? ==>
              (RefersTo(v, u) <==> |UuidText(v.s)| == 32 && ParseInt(UuidText(v.s), 16) == Some(Value(u)))
    ensures v.JNull? || v.JArr? || v.JObj? ==> !RefersTo(v, u)
  {
    match v
    case JStr(s) => ParseUuidNames(s, u); ParseUuid(s) == Some(u)
    case JInt(i) => i == Value(u)
    case JBool(b) => (if b then 1 else 0) == Value(u)
    case _ => false
  }

  /** A looked-up value names at most one UUID. */
  lemma RefersToOne(v: Json, u: Uuid, w: Uuid)
    requires RefersTo(v, u) && RefersTo(v, w)
    ensures u == w
  {
    match v
    case JInt(_) => ValueInjective(u, w, 16);
    case JBool(_) => ValueInjective(u, w, 16);
    case _ =>
  }

  /** `id` is the primary key of both tables: no two rows share one. */
  predicate DistinctMessageIds(ms: seq<Message>) {
    forall i, j :: 0 <= i < j < |ms| ==> ms[i].id != ms[j].id
  }

  predicate DistinctNotificationIds(ns: seq<Notification>) {
    forall i, j :: 0 <= i < j < |ns| ==> ns[i].id != ns[j].id
  }

  /** `update(is_read=True)` on the selected messages. */
  function MarkMessages(ms: seq<Message>, id: Json, user: Uuid): (r: seq<Message>)
    ensures |r| == |ms|
    ensures forall i :: 0 <= i < |ms| ==>
      r[i] == if MessageSelected(ms[i], id, user) then ms[i].(isRead := true) else ms[i]
  {
    seq(|ms|, i requires 0 <= i < |ms| =>
      if MessageSelected(ms[i], id, user) then ms[i].(isRead := true) else ms[i])
  }

  /** The number of messages `MarkMessages` changes. */
  function CountMessages(ms: seq<Message>, id: Json, user: Uuid): (n: nat)
    ensures n <= |ms|
  {
    Count(ms, (m: Message) => MessageSelected(m, id, user))
  }

  lemma CountMessagesPositive(ms: seq<Message>, id: Json, user: Uuid)
    ensures CountMessages(ms, id, user) > 0 <==> exists i :: 0 <= i < |ms| && MessageSelected(ms[i], id, user)
  {
    CountPositive(ms, (m: Message) => MessageSelected(m, id, user));
  }

  /** Marking one message read flips `is_read` exactly on the rows selected, which were
      unread and received by the user, changes nothing else in them or in any other row,
      and reports a change exactly when such a row existed. */
  lemma MarkMessagesSpec(ms: seq<Message>, id: Json, user: Uuid)
    ensures var r := MarkMessages(ms, id, user);
      && (forall i :: 0 <= i < |ms| ==>
            r[i].id == ms[i].id && r[i].sender == ms[i].sender &&
            r[i].receiver == ms[i].receiver && r[i].createdAt == ms[i].createdAt)
      && (forall i :: 0 <= i < |ms| && r[i] != ms[i] ==>
            RefersTo(id, ms[i].id) && ms[i].receiver == user && !ms[i].isRead && r[i].isRead)
      && (forall i :: 0 <= i < |ms| ==> !MessageSelected(r[i], id, user))
      && (CountMessages(ms, id, user) > 0 <==> r != ms)
  {
    var r := MarkMessages(ms, id, user);
    CountMessagesPositive(ms, id, user);
    if r != ms {
      var i :| 0 <= i < |ms| && r[i] != ms[i];
    }
    if exists i :: 0 <= i < |ms| && MessageSelected(ms[i], id, user) {
      var i :| 0 <= i < |ms| && MessageSelected(ms[i], id, user);
      assert r[i] != ms[i];
    }
  }

  /** On a table keyed by `id`, marking one message read changes at most one row, reports
      a count of at most one, and keeps the ids distinct. */
  lemma MarkMessagesOne(ms: seq<Message>, id: Json, user: Uuid)
    requires DistinctMessageIds(ms)
    ensures var r := MarkMessages(ms, id, user);
      && (forall i, j :: 0 <= i < |ms| && 0 <= j < |ms| && r[i] != ms[i] && r[j] != ms[j] ==> i == j)
      && CountMessages(ms, id, user) <= 1
      && DistinctMessageIds(r)
  {
    var r := MarkMessages(ms, id, user);
    var p := (m: Message) => MessageSelected(m, id, user);
    forall i, j | 0 <= i < j < |ms| && p(ms[i]) ensures !p(ms[j]) {
      if p(ms[j]) {
        RefersToOne(id, ms[i].id, ms[j].id);
      }
    }
    CountAtMostOne(ms, p);
    forall i, j | 0 <= i < |ms| && 0 <= j < |ms| && r[i] != ms[i] && r[j] != ms[j] ensures i == j {
      RefersToOne(id, ms[i].id, ms[j].id);
    }
  }

  /** `update(is_read=True)` on the selected notifications. */
  function MarkNotifications(ns: seq<Notification>, id: Json, user: Uuid): (r: seq<Notification>)
    ensures |r| == |ns|
    ensures forall i :: 0 <= i < |ns| ==>
      r[i] == if NotificationSelected(ns[i], id, user) then ns[i].(isRead := true) else ns[i]
  {
    seq(|ns|, i requires 0 <= i < |ns| =>
      if NotificationSelected(ns[i], id, user) then ns[i].(isRead := true) else ns[i])
  }

  function CountNotifications(ns: seq<Notification>, id: Json, user: Uuid): (n: nat)
    ensures n <= |ns|
  {
    Count(ns, (n: Notification) => NotificationSelected(n, id, user))
  }

  lemma CountNotificationsPositive(ns: seq<Notification>, id: Json, user: Uuid)
    ensures CountNotifications(ns, id, user) > 0 <==>
            exists i :: 0 <= i < |ns| && NotificationSelected(ns[i], id, user)
  {
    CountPositive(ns, (n: Notification) => NotificationSelected(n, id, user));
  }

  /** The notification counterpart of `MarkMessagesSpec`, with the owner in place of
      the receiver. */
  lemma MarkNotificationsSpec(ns: seq<Notification>, id: Json, user: Uuid)
    ensures var r := MarkNotifications(ns, id, user);
      && (forall i :: 0 <= i < |ns| ==>
            r[i].id == ns[i].id && r[i].user == ns[i].user && r[i].createdAt == ns[i].createdAt)
      && (forall i :: 0 <= i < |ns| && r[i] != ns[i] ==>
            RefersTo(id, ns[i].id) && ns[i].user == user && !ns[i].isRead && r[i].isRead)
      && (forall i :: 0 <= i < |ns| ==> !NotificationSelected(r[i], id, user))
      && (CountNotifications(ns, id, user) > 0 <==> r != ns)
  {
    var r := MarkNotifications(ns, id, user);
    CountNotificationsPositive(ns, id, user);
    if r != ns {
      var i :| 0 <= i < |ns| && r[i] != ns[i];
    }
    if exists i :: 0 <= i < |ns| && NotificationSelected(ns[i], id, user) {
      var i :| 0 <= i < |ns| && NotificationSelected(ns[i], id, user);
      assert r[i] != ns[i];
    }
  }

  /** The notification counterpart of `MarkMessagesOne`. */
  lemma MarkNotificationsOne(ns: seq<Notification>, id: Json, user: Uuid)
    requires DistinctNotificationIds(ns)
    ensures var r := MarkNotifications(ns, id, user);
      && (forall i, j :: 0 <= i < |ns| && 0 <= j < |ns| && r[i] != ns[i] && r[j] != ns[j] ==> i == j)
      && CountNotifications(ns, id, user) <= 1
      && DistinctNotificationIds(r)
  {
    var r := MarkNotifications(ns, id, user);
    var p := (n: Notification) => NotificationSelected(n, id, user);
    forall i, j | 0 <= i < j < |ns| && p(ns[i]) ensures !p(ns[j]) {
      if p(ns[j]) {
        RefersToOne(id, ns[i].id, ns[j].id);
      }
    }
    CountAtMostOne(ns, p);
    forall i, j | 0 <= i < |ns| && 0 <= j < |ns| && r[i] != ns[i] && r[j] != ns[j] ensures i == j {
      RefersToOne(id, ns[i].id, ns[j].id);
    }
  }

  /** `filter(user=user, is_read=False).update(is_read=True)` */
  function MarkAllNotifications(ns: seq<Notification>, user: Uuid): (r: seq<Notification>)
    ensures |r| == |ns|
    ensures forall i :: 0 <= i < |ns| ==>
      r[i] == if UnreadFor(user, ns[i]) then ns[i].(isRead := true) else ns[i]
  {
    seq(|ns|, i requires 0 <= i < |ns| =>
      if UnreadFor(user, ns[i]) then ns[i].(isRead := true) else ns[i])
  }

  /** The number of the user's unread notifications. */
  function UnreadCount(ns: seq<Notification>, user: Uuid): (n: nat)
    ensures n <= |ns|
  {
    if ns == [] then 0
    else (if UnreadFor(user, ns[0]) then 1 else 0) + UnreadCount(ns[1..], user)
  }

  lemma {:induction false} UnreadCountFilter(ns: seq<Notification>, user: Uuid)
    ensures UnreadCount(ns, user) == |Filter(ns, Unread(user))|
  {
    if ns != [] {
      UnreadCountFilter(ns[1..], user);
    }
  }

  /** After marking all read, the user has no unread notification left, every other
      user's notifications are as they were, and the count reported is the number that
      were unread before. */
  lemma MarkAllNotificationsSpec(ns: seq<Notification>, user: Uuid)
    ensures var r := MarkAllNotifications(ns, user);
      && UnreadCount(r, user) == 0
      && Filter(r, Unread(user)) == []
      && (forall i :: 0 <= i < |ns| && ns[i].user != user ==> r[i] == ns[i])
      && (forall i :: 0 <= i < |ns| ==>
            r[i].id == ns[i].id && r[i].user == ns[i].user && r[i].createdAt == ns[i].createdAt)
      && UnreadCount(ns, user) == |Filter(ns, Unread(user))|
      && (DistinctNotificationIds(ns) ==> DistinctNotificationIds(r))
  {
    var r := MarkAllNotifications(ns, user);
    NoUnreadLeft(r, user);
    UnreadCountFilter(r, user);
    UnreadCountFilter(ns, user);
  }

  lemma {:induction false} NoUnreadLeft(r: seq<Notification>, user: Uuid)
    requires forall i :: 0 <= i < |r| ==> !UnreadFor(user, r[i])
    ensures UnreadCount(r, user) == 0
  {
    if r != [] {
      NoUnreadLeft(r[1..], user);
    }
  }
}
