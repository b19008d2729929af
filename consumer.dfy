/** `SafariConsumer`: one websocket session. Its own state is the signed-in user, the
    list of groups it joined and the `_connected` flag that gates every send; it reads and
    updates the rows of the store, reads and writes the snapshot cache, and joins and
    leaves groups of the channel layer. Every foreign call that can raise takes its
    outcome from a parameter (`Env`, `SetupFault`, the index of a failing discard). The
    ghost `trace` records, in order, what the session did to the outside world. */
module Realtime {
  import opened Wrappers
  import opened Values
  import opened Uuids
  import opened Records
  import opened Channels
  import opened Storage
  import opened Protocol

  /** One effect of the session on the outside world. */
  datatype Effect =
    | Accepted                 // `accept()`
    | Closed(code: int)        // `close(code=...)`
    | FlagSet(value: bool)     // an assignment to `_connected`
    | Joined(group: string)    // `group_add(group, channel_name)`
    | Left(group: string)      // `group_discard(group, channel_name)`
    | Sent(frame: Frame)       // a frame written to the socket
    | CacheStored(key: string) // `cache.aset(key, ...)`
    | CacheDeleted(key: string) // `cache.adelete(key)`

  /** What `connect` meets: the outcomes of `accept` and of the `group_add` calls. A
      `GroupAddFails(k)` with `k >= 4` never fires. */
  datatype SetupFault = NoSetupFault | AcceptFails | GroupAddFails(index: nat)

  /** How many groups `connect` joins before a setup fault. */
  function JoinedBeforeFault(setup: SetupFault): nat {
    if setup.GroupAddFails? && setup.index < 4 then setup.index else 4
  }

  predicate SetupFailed(setup: SetupFault) {
    setup.AcceptFails? || (setup.GroupAddFails? && setup.index < 4)
  }

  /** The effects of `send_json(frame)`: nothing while disconnected; otherwise the frame
      goes out, or the send raises and the flag is cleared. */
  function SendEffects(connected: bool, frame: Frame, fails: bool): seq<Effect> {
    if !connected then [] else if fails then [FlagSet(false)] else [Sent(frame)]
  }

  function JoinEffects(gs: seq<string>): seq<Effect> {
    seq(|gs|, i requires 0 <= i < |gs| => Joined(gs[i]))
  }

  function LeaveEffects(gs: seq<string>): seq<Effect> {
    seq(|gs|, i requires 0 <= i < |gs| => Left(gs[i]))
  }

  function StoreEffects(entries: map<string, CacheEntry>, key: string,
                        built: Result<Snapshot, string>, env: Env): seq<Effect>
  {
    if StoresSnapshot(entries, key, built, env) then [CacheStored(key)] else []
  }

  function DeleteEffects(key: string, deleteFails: bool): seq<Effect> {
    if deleteFails then [] else [CacheDeleted(key)]
  }

  /** How many of `groups` `disconnect` discards: all of them, up to the first discard
      that raises, and none for a session that never had a signed-in user. */
  function DiscardedCount(user: Option<User>, groups: seq<string>, failsAt: Option<nat>): nat
    ensures DiscardedCount(user, groups, failsAt) <= |groups|
  {
    if user.None? || user.value.Anonymous? then 0
    else if failsAt.Some? && failsAt.value < |groups| then failsAt.value
    else |groups|
  }

  /** The snapshot `_fetch_initial_data` builds from the current rows. */
  function Build(store: Store, user: Uuid, dbFault: Option<string>): (r: Result<Snapshot, string>)
    reads store
    ensures r.Ok? <==> dbFault.None?
    ensures r.Ok? ==> r.value == InitialData(store.bookings, store.messages, store.notifications, user)
  {
    FetchInitialData(store.bookings, store.messages, store.notifications, user, dbFault)
  }

  /** The message `payload.get(...)` raises with when the payload is not a dict. */
  function NoGet(payload: Json): string {
    "'" + TypeName(payload) + "' object has no attribute 'get'"
  }

  function Field(fields: map<string, Json>, key: string): Json {
    if key in fields then fields[key] else JNull
  }

  class SafariConsumer {
    const channelName: string
    const store: Store
    const cache: Cache
    const layer: ChannelLayer
    var user: Option<User>
    var groups: seq<string>
    var connected: bool
    ghost var trace: seq<Effect>

    /** The flag is only ever set for a signed-in user, and the groups, once set, are that
        user's four groups. */
    ghost predicate Valid()
      reads this
    {
      (connected ==> user.Some? && user.value.Member?) &&
      (groups != [] ==> user.Some? && user.value.Member? && groups == GroupNames(user.value.id))
    }

    predicate SignedIn()
      reads this
    {
      user.Some? && user.value.Member?
    }

    constructor (channelName: string, store: Store, cache: Cache, layer: ChannelLayer)
      ensures this.channelName == channelName && this.store == store
      ensures this.cache == cache && this.layer == layer
      ensures user == None && groups == [] && !connected && trace == []
      ensures Valid()
    {
      this.channelName := channelName;
      this.store := store;
      this.cache := cache;
      this.layer := layer;
      user := None;
      groups := [];
      connected := false;
      trace := [];
    }

    // ------------------------------------------------------------ sending

    /** `send_json`: a no-op while disconnected; a send that raises clears the flag. */
    method SendJson(frame: Frame, fails: bool)
      modifies this`connected, this`trace
      ensures connected == (old(connected) && !fails)
      ensures trace == old(trace) + SendEffects(old(connected), frame, fails)
    {
      if !connected {
        return;
      }
      if fails {
        connected := false;
        trace := trace + [FlagSet(false)];
      } else {
        trace := trace + [Sent(frame)];
      }
    }

    /** `_send_error`: an `error` frame carrying the message. */
    method SendError(message: string, fails: bool)
      modifies this`connected, this`trace
      ensures connected == (old(connected) && !fails)
      ensures trace == old(trace) + SendEffects(old(connected), ErrorFrame(message), fails)
    {
      if !connected {
        return;
      }
      SendJson(ErrorFrame(message), fails);
    }

    /** `booking_update`: relays the event's data while connected. */
    method BookingUpdate(event: map<string, Json>, fails: bool)
      modifies this`connected, this`trace
      ensures connected == (old(connected) && !fails)
      ensures trace == old(trace) + SendEffects(old(connected), Frame("booking_update", EventBody(EventData(event))), fails)
    {
      if connected {
        SendJson(Frame("booking_update", EventBody(EventData(event))), fails);
      }
    }

    /** `message_new` */
    method MessageNew(event: map<string, Json>, fails: bool)
      modifies this`connected, this`trace
      ensures connected == (old(connected) && !fails)
      ensures trace == old(trace) + SendEffects(old(connected), Frame("new_message", EventBody(EventData(event))), fails)
    {
      if connected {
        SendJson(Frame("new_message", EventBody(EventData(event))), fails);
      }
    }

    /** `notification_new` */
    method NotificationNew(event: map<string, Json>, fails: bool)
      modifies this`connected, this`trace
      ensures connected == (old(connected) && !fails)
      ensures trace == old(trace) + SendEffects(old(connected), Frame("new_notification", EventBody(EventData(event))), fails)
    {
      if connected {
        SendJson(Frame("new_notification", EventBody(EventData(event))), fails);
      }
    }

    // ------------------------------------------------------- the cache

    /** `_invalidate_cache`: a failing delete is swallowed. */
    method InvalidateCache(deleteFails: bool)
      requires SignedIn()
      modifies cache, this`trace
      ensures cache.entries == Invalidated(old(cache.entries), CacheKey(user.value.id), deleteFails)
      ensures trace == old(trace) + DeleteEffects(CacheKey(user.value.id), deleteFails)
    {
      var key := CacheKey(user.value.id);
      if !deleteFails {
        cache.Delete(key);
        trace := trace + [CacheDeleted(key)];
      }
    }

    /** `_get_cached_initial_data` */
    method CachedInitialData(env: Env) returns (r: Result<Snapshot, string>)
      requires SignedIn()
      modifies cache, this`trace
      ensures var key := CacheKey(user.value.id);
              var built := Build(store, user.value.id, env.dbFault);
              var retry := Build(store, user.value.id, env.retryDbFault);
              && r == CachedSnapshot(old(cache.entries), key, built, retry, env)
              && cache.entries == CacheAfter(old(cache.entries), key, built, env)
              && trace == old(trace) + StoreEffects(old(cache.entries), key, built, env)
    {
      var key := CacheKey(user.value.id);
      if env.cacheGetFails {
        r := Build(store, user.value.id, env.retryDbFault);
        return;
      }
      var hit := cache.Get(key);
      if hit.Some? && CachedTruthy(hit.value) {
        if hit.value.Serialized? {
          r := Ok(hit.value.snapshot);
        } else {
          // `json.loads` raises; the handler builds afresh.
          r := Build(store, user.value.id, env.retryDbFault);
        }
        return;
      }
      var data := Build(store, user.value.id, env.dbFault);
      if data.Err? || env.cacheSetFails {
        // The handler builds a second time, with its own database outcome.
        r := Build(store, user.value.id, env.retryDbFault);
        return;
      }
      cache.Set(key, Serialized(data.value), CacheTimeout);
      trace := trace + [CacheStored(key)];
      r := data;
    }

    /** `_send_initial_data` */
    method SendInitialData(env: Env)
      requires SignedIn()
      modifies cache, this`trace, this`connected
      ensures !old(connected) ==>
                connected == old(connected) && cache.entries == old(cache.entries) && trace == old(trace)
      ensures old(connected) ==>
                var key := CacheKey(user.value.id);
                var built := Build(store, user.value.id, env.dbFault);
                var retry := Build(store, user.value.id, env.retryDbFault);
                && connected == !env.sendFails
                && cache.entries == CacheAfter(old(cache.entries), key, built, env)
                && trace == old(trace) + StoreEffects(old(cache.entries), key, built, env)
                            + SendEffects(true, InitialFrame(CachedSnapshot(old(cache.entries), key, built, retry, env)), env.sendFails)
    {
      if !connected {
        return;
      }
      var data := CachedInitialData(env);
      match data {
        case Ok(s) => SendJson(Frame("initial_data", SnapshotBody(s)), env.sendFails);
        case Err(e) => SendError("Failed to load initial data: " + e, env.sendFails);
      }
    }

    // ------------------------------------------------- connect, disconnect

    /** The `group_add` loop of `connect`: the groups are joined in order until one
        `group_add` raises. */
    method JoinGroups(setup: SetupFault) returns (joined: nat)
      modifies layer, this`trace
      ensures joined == if setup.GroupAddFails? && setup.index < |groups| then setup.index else |groups|
      ensures layer.registry == AddedAll(old(layer.registry), groups[..joined], channelName)
      ensures trace == old(trace) + JoinEffects(groups[..joined])
    {
      joined := 0;
      while joined < |groups|
        invariant 0 <= joined <= |groups|
        invariant !(setup.GroupAddFails? && setup.index < joined)
        invariant layer.registry == AddedAll(old(layer.registry), groups[..joined], channelName)
        invariant trace == old(trace) + JoinEffects(groups[..joined])
      {
        if setup == GroupAddFails(joined) {
          return;
        }
        layer.GroupAdd(groups[joined], channelName);
        assert groups[..joined + 1][..joined] == groups[..joined];
        trace := trace + [Joined(groups[joined])];
        assert JoinEffects(groups[..joined + 1]) == JoinEffects(groups[..joined]) + [Joined(groups[joined])];
        joined := joined + 1;
      }
    }

    /** `connect`, called once on a new session. */
    method Connect(scopeUser: User, setup: SetupFault, env: Env)
      requires Valid() && user == None
      modifies this, layer, cache
      ensures Valid() && user == Some(scopeUser)
      ensures scopeUser.Anonymous? ==>
                && !connected && groups == []
                && layer.registry == old(layer.registry) && cache.entries == old(cache.entries)
                && trace == old(trace) + [Closed(CloseUnauthenticated)]
      ensures scopeUser.Member? && setup.AcceptFails? ==>
                && !connected && groups == []
                && layer.registry == old(layer.registry) && cache.entries == old(cache.entries)
                && trace == old(trace) + [FlagSet(false), Closed(CloseInternalError)]
      ensures scopeUser.Member? && setup.GroupAddFails? && setup.index < 4 ==>
                var gs := GroupNames(scopeUser.id);
                && !connected && groups == gs
                && layer.registry == AddedAll(old(layer.registry), gs[..setup.index], channelName)
                && cache.entries == old(cache.entries)
                && trace == old(trace) + [Accepted, FlagSet(true)] + JoinEffects(gs[..setup.index])
                            + [FlagSet(false), Closed(CloseInternalError)]
      ensures scopeUser.Member? && !SetupFailed(setup) ==>
                var gs := GroupNames(scopeUser.id);
                var key := CacheKey(scopeUser.id);
                var built := Build(store, scopeUser.id, env.dbFault);
                var retry := Build(store, scopeUser.id, env.retryDbFault);
                && connected == !env.sendFails && groups == gs
                && layer.registry == AddedAll(old(layer.registry), gs, channelName)
                && cache.entries == CacheAfter(old(cache.entries), key, built, env)
                && trace == old(trace) + [Accepted, FlagSet(true)] + JoinEffects(gs)
                            + StoreEffects(old(cache.entries), key, built, env)
                            + SendEffects(true, InitialFrame(CachedSnapshot(old(cache.entries), key, built, retry, env)), env.sendFails)
    {
      user := Some(scopeUser);
      if scopeUser.Anonymous? {
        trace := trace + [Closed(CloseUnauthenticated)];
        return;
      }
      if setup.AcceptFails? {
        connected := false;
        trace := trace + [FlagSet(false), Closed(CloseInternalError)];
        return;
      }
      trace := trace + [Accepted];
      connected := true;
      trace := trace + [FlagSet(true)];
      groups := GroupNames(scopeUser.id);
      var joined := JoinGroups(setup);
      if joined < |groups| {
        connected := false;
        trace := trace + [FlagSet(false), Closed(CloseInternalError)];
        return;
      }
      assert groups[..joined] == groups;
      ghost var joinedTrace := trace;
      assert joinedTrace == old(trace) + [Accepted, FlagSet(true)] + JoinEffects(groups);
      assert cache.entries == old(cache.entries);
      SendInitialData(env);
      ghost var key := CacheKey(scopeUser.id);
      ghost var built := Build(store, scopeUser.id, env.dbFault);
      ghost var retry := Build(store, scopeUser.id, env.retryDbFault);
      assert trace == joinedTrace + StoreEffects(old(cache.entries), key, built, env)
                      + SendEffects(true, InitialFrame(CachedSnapshot(old(cache.entries), key, built, retry, env)), env.sendFails);
    }

    /** `disconnect`: the flag is cleared first; then the groups are discarded in order
        until one discard raises, which ends the loop and is swallowed. */
    method Disconnect(closeCode: int, discardFailsAt: Option<nat>)
      requires Valid()
      modifies this`connected, this`trace, layer
      ensures Valid() && !connected
      ensures var k := DiscardedCount(user, groups, discardFailsAt);
              && layer.registry == DiscardedAll(old(layer.registry), groups[..k], channelName)
              && trace == old(trace) + [FlagSet(false)] + LeaveEffects(groups[..k])
    {
      connected := false;
      trace := trace + [FlagSet(false)];
      if user.Some? && user.value.Member? {
        ghost var start := trace;
        var i := 0;
        while i < |groups|
          invariant 0 <= i <= |groups| && !connected
          invariant discardFailsAt.Some? ==> i <= discardFailsAt.value
          invariant layer.registry == DiscardedAll(old(layer.registry), groups[..i], channelName)
          invariant trace == start + LeaveEffects(groups[..i])
        {
          if discardFailsAt == Some(i) {
            break;
          }
          layer.GroupDiscard(groups[i], channelName);
          assert groups[..i + 1][..i] == groups[..i];
          trace := trace + [Left(groups[i])];
          assert LeaveEffects(groups[..i + 1]) == LeaveEffects(groups[..i]) + [Left(groups[i])];
          i := i + 1;
        }
        assert i == DiscardedCount(user, groups, discardFailsAt);
      }
    }

    // ------------------------------------------------------ the handlers

    /** `_handle_ping` */
    method HandlePing(env: Env)
      modifies this`connected, this`trace
      ensures connected == (old(connected) && !env.sendFails)
      ensures trace == old(trace) + SendEffects(old(connected), Frame("pong", TimestampBody(env.now)), env.sendFails)
    {
      if !connected {
        return;
      }
      SendJson(Frame("pong", TimestampBody(env.now)), env.sendFails);
    }

    /** `_mark_message_read_sync`: a database fault is swallowed and reported as no
        change. */
    method MarkMessageReadSync(id: Json, dbFault: Option<string>) returns (success: bool)
      requires SignedIn()
      modifies store`messages
      ensures success == (dbFault.None? && CountMessages(old(store.messages), id, user.value.id) > 0)
      ensures store.messages == if dbFault.None? then MarkMessages(old(store.messages), id, user.value.id)
                                else old(store.messages)
    {
      if dbFault.Some? {
        return false;
      }
      var count := store.UpdateMessageRead(id, user.value.id);
      success := count > 0;
    }

    /** `_mark_notification_read_sync` */
    method MarkNotificationReadSync(id: Json, dbFault: Option<string>) returns (success: bool)
      requires SignedIn()
      modifies store`notifications
      ensures success == (dbFault.None? && CountNotifications(old(store.notifications), id, user.value.id) > 0)
      ensures store.notifications == if dbFault.None? then MarkNotifications(old(store.notifications), id, user.value.id)
                                     else old(store.notifications)
    {
      if dbFault.Some? {
        return false;
      }
      var count := store.UpdateNotificationRead(id, user.value.id);
      success := count > 0;
    }

    /** `_mark_all_notifications_read_sync`: a database fault is reported as 0. */
    method MarkAllNotificationsReadSync(dbFault: Option<string>) returns (count: nat)
      requires SignedIn()
      modifies store`notifications
      ensures count == if dbFault.None? then UnreadCount(old(store.notifications), user.value.id) else 0
      ensures store.notifications == if dbFault.None? then MarkAllNotifications(old(store.notifications), user.value.id)
                                     else old(store.notifications)
    {
      if dbFault.Some? {
        return 0;
      }
      count := store.UpdateAllNotificationsRead(user.value.id);
    }

    /** The outcome of `_handle_mark_message_read` on a dict payload: a falsy id is
        refused; otherwise the message is marked when the database is up and a matching
        unread row received by the user exists, and then the cache key is deleted before
        the acknowledgement that echoes the id; in every other case an error goes out and
        the rows and the cache are as they were. */
    twostate predicate MarkedMessage(fields: map<string, Json>, env: Env)
      reads this, store, cache
    {
      old(SignedIn()) &&
      var uid := old(user.value.id);
      var id := Field(fields, "message_id");
      var before := old(store.messages);
      var marked := Truthy(id) && env.dbFault.None? && CountMessages(before, id, uid) > 0;
      var reply := if !Truthy(id) then ErrorFrame("Message ID is required")
                   else if marked then Frame("message_marked_read", MessageIdBody(id))
                   else ErrorFrame("Message not found or not authorized");
      && store.messages == (if Truthy(id) && env.dbFault.None? then MarkMessages(before, id, uid) else before)
      && cache.entries == (if marked then Invalidated(old(cache.entries), CacheKey(uid), env.cacheDeleteFails)
                           else old(cache.entries))
      && connected == (old(connected) && !env.sendFails)
      && trace == old(trace) + (if marked then DeleteEffects(CacheKey(uid), env.cacheDeleteFails) else [])
                  + SendEffects(old(connected), reply, env.sendFails)
    }

    /** `_handle_mark_message_read`. A payload that is not a dict makes `payload.get`
        raise; the exception is returned to `receive_json`, which reports it. */
    method HandleMarkMessageRead(payload: Json, env: Env) returns (raised: Option<string>)
      requires SignedIn()
      modifies this`connected, this`trace, store`messages, cache
      ensures !payload.JObj? ==>
                && raised == Some(NoGet(payload))
                && connected == old(connected) && trace == old(trace)
                && store.messages == old(store.messages) && cache.entries == old(cache.entries)
      ensures payload.JObj? ==> raised == None && MarkedMessage(payload.fields, env)
    {
      var got := Get(payload, "message_id", JNull);
      if got.Err? {
        return Some(got.error.message);
      }
      raised := None;
      var id := got.value;
      if !Truthy(id) {
        SendError("Message ID is required", env.sendFails);
        return;
      }
      var success := MarkMessageReadSync(id, env.dbFault);
      if success {
        InvalidateCache(env.cacheDeleteFails);
        SendJson(Frame("message_marked_read", MessageIdBody(id)), env.sendFails);
      } else {
        SendError("Message not found or not authorized", env.sendFails);
      }
    }

    /** The outcome of `_handle_mark_notification_read` on a dict payload, the rule of
        `MarkedMessage` for notifications owned by the user. */
    twostate predicate MarkedNotification(fields: map<string, Json>, env: Env)
      reads this, store, cache
    {
      old(SignedIn()) &&
      var uid := old(user.value.id);
      var id := Field(fields, "notification_id");
      var before := old(store.notifications);
      var marked := Truthy(id) && env.dbFault.None? && CountNotifications(before, id, uid) > 0;
      var reply := if !Truthy(id) then ErrorFrame("Notification ID is required")
                   else if marked then Frame("notification_marked_read", NotificationIdBody(id))
                   else ErrorFrame("Notification not found or not authorized");
      && store.notifications == (if Truthy(id) && env.dbFault.None? then MarkNotifications(before, id, uid) else before)
      && cache.entries == (if marked then Invalidated(old(cache.entries), CacheKey(uid), env.cacheDeleteFails)
                           else old(cache.entries))
      && connected == (old(connected) && !env.sendFails)
      && trace == old(trace) + (if marked then DeleteEffects(CacheKey(uid), env.cacheDeleteFails) else [])
                  + SendEffects(old(connected), reply, env.sendFails)
    }

    /** `_handle_mark_notification_read` */
    method HandleMarkNotificationRead(payload: Json, env: Env) returns (raised: Option<string>)
      requires SignedIn()
      modifies this`connected, this`trace, store`notifications, cache
      ensures !payload.JObj? ==>
                && raised == Some(NoGet(payload))
                && connected == old(connected) && trace == old(trace)
                && store.notifications == old(store.notifications) && cache.entries == old(cache.entries)
      ensures payload.JObj? ==> raised == None && MarkedNotification(payload.fields, env)
    {
      var got := Get(payload, "notification_id", JNull);
      if got.Err? {
        return Some(got.error.message);
      }
      raised := None;
      var id := got.value;
      if !Truthy(id) {
        SendError("Notification ID is required", env.sendFails);
        return;
      }
      var success := MarkNotificationReadSync(id, env.dbFault);
      if success {
        InvalidateCache(env.cacheDeleteFails);
        SendJson(Frame("notification_marked_read", NotificationIdBody(id)), env.sendFails);
      } else {
        SendError("Notification not found or not authorized", env.sendFails);
      }
    }

    /** The outcome of `_handle_mark_all_notifications_read`: every unread notification of
        the user is marked, the count of them is reported, and the cache key is deleted
        whatever the count, before the acknowledgement. */
    twostate predicate MarkedAll(env: Env)
      reads this, store, cache
    {
      old(SignedIn()) &&
      var uid := old(user.value.id);
      var before := old(store.notifications);
      var count := if env.dbFault.None? then UnreadCount(before, uid) else 0;
      && store.notifications == (if env.dbFault.None? then MarkAllNotifications(before, uid) else before)
      && cache.entries == Invalidated(old(cache.entries), CacheKey(uid), env.cacheDeleteFails)
      && connected == (old(connected) && !env.sendFails)
      && trace == old(trace) + DeleteEffects(CacheKey(uid), env.cacheDeleteFails)
                  + SendEffects(old(connected), Frame("all_notifications_marked_read", CountBody(count)), env.sendFails)
    }

    /** `_handle_mark_all_notifications_read` */
    method HandleMarkAllNotificationsRead(env: Env)
      requires SignedIn()
      modifies this`connected, this`trace, store`notifications, cache
      ensures MarkedAll(env)
      ensures env.dbFault.None? ==> UnreadCount(store.notifications, user.value.id) == 0
      ensures forall i :: 0 <= i < |old(store.notifications)| && old(store.notifications)[i].user != user.value.id
                ==> store.notifications[i] == old(store.notifications)[i]
    {
      var count := MarkAllNotificationsReadSync(env.dbFault);
      if env.dbFault.None? {
        MarkAllNotificationsSpec(old(store.notifications), user.value.id);
        NoUnreadLeft(store.notifications, user.value.id);
      }
      InvalidateCache(env.cacheDeleteFails);
      SendJson(Frame("all_notifications_marked_read", CountBody(count)), env.sendFails);
    }

    /** `_handle_get_more_messages` */
    method HandleGetMoreMessages(payload: Json, env: Env)
      requires SignedIn()
      modifies this`connected, this`trace
      ensures connected == (old(connected) && !env.sendFails)
      ensures trace == old(trace)
                + SendEffects(old(connected), MoreMessagesReply(payload, store.messages, user.value.id, env.dbFault), env.sendFails)
    {
      SendJson(MoreMessagesReply(payload, store.messages, user.value.id, env.dbFault), env.sendFails);
    }

    // --------------------------------------------------------- dispatch

    /** Only one frame goes out, the rows and the cache are as they were. */
    twostate predicate OnlySent(frame: Frame, env: Env)
      reads this, store, cache
    {
      && store.messages == old(store.messages) && store.notifications == old(store.notifications)
      && cache.entries == old(cache.entries)
      && connected == (old(connected) && !env.sendFails)
      && trace == old(trace) + SendEffects(old(connected), frame, env.sendFails)
    }

    /** What the handler of action `a` does with payload `p`, an exception it lets
        through reported as a server error. */
    twostate predicate Ran(a: Action, p: Json, env: Env)
      reads this, store, cache
    {
      match a
      case Ping => OnlySent(Frame("pong", TimestampBody(env.now)), env)
      case MarkMessageRead =>
        if p.JObj? then store.notifications == old(store.notifications) && MarkedMessage(p.fields, env)
        else OnlySent(ErrorFrame("Server error: " + NoGet(p)), env)
      case MarkNotificationRead =>
        if p.JObj? then store.messages == old(store.messages) && MarkedNotification(p.fields, env)
        else OnlySent(ErrorFrame("Server error: " + NoGet(p)), env)
      case MarkAllNotificationsRead =>
        store.messages == old(store.messages) && MarkedAll(env)
      case GetMoreMessages =>
        old(SignedIn()) && OnlySent(MoreMessagesReply(p, old(store.messages), old(user.value.id), env.dbFault), env)
    }

    /** What `receive_json` does with a frame while connected. */
    twostate predicate Dispatched(content: Json, env: Env)
      reads this, store, cache
    {
      match Decode(content)
      case Reject(m) => OnlySent(ErrorFrame(m), env)
      case Invoke(a, p) => Ran(a, p, env)
    }

    /** `await handler(payload)` inside the `try` of `receive_json`. */
    method Run(a: Action, p: Json, env: Env)
      requires SignedIn()
      modifies this`connected, this`trace, store`messages, store`notifications, cache
      ensures Ran(a, p, env)
    {
      match a {
        case Ping =>
          HandlePing(env);
        case MarkMessageRead =>
          var raised := HandleMarkMessageRead(p, env);
          if raised.Some? {
            SendError("Server error: " + raised.value, env.sendFails);
          }
        case MarkNotificationRead =>
          var raised := HandleMarkNotificationRead(p, env);
          if raised.Some? {
            SendError("Server error: " + raised.value, env.sendFails);
          }
        case MarkAllNotificationsRead =>
          HandleMarkAllNotificationsRead(env);
        case GetMoreMessages =>
          HandleGetMoreMessages(p, env);
      }
    }

    /** `receive_json`: nothing happens while disconnected; otherwise the frame is
        decoded and dispatched, and an exception a handler lets through is reported as a
        server error. The user and the groups never change. */
    method ReceiveJson(content: Json, env: Env)
      requires Valid()
      modifies this`connected, this`trace, store`messages, store`notifications, cache
      ensures Valid()
      ensures !old(connected) ==>
                && connected == old(connected) && trace == old(trace)
                && store.messages == old(store.messages) && store.notifications == old(store.notifications)
                && cache.entries == old(cache.entries)
      ensures old(connected) ==> Dispatched(content, env)
    {
      if !connected {
        return;
      }
      match Decode(content) {
        case Reject(m) =>
          SendError(m, env.sendFails);
        case Invoke(a, p) =>
          Run(a, p, env);
      }
    }
  }

  // ------------------------------------------------- sessions over time

  /** Once a send raises, the session is silent: the relays that follow send nothing. */
  method SilencedAfterSendFailure(c: SafariConsumer, frame: Frame, e1: map<string, Json>,
                                  e2: map<string, Json>, e3: map<string, Json>,
                                  f1: bool, f2: bool, f3: bool)
    requires c.connected
    modifies c`connected, c`trace
    ensures !c.connected && c.trace == old(c.trace) + [FlagSet(false)]
  {
    c.SendJson(frame, true);
    c.BookingUpdate(e1, f1);
    c.MessageNew(e2, f2);
    c.NotificationNew(e3, f3);
  }

  /** A session that connects and later disconnects with no failing discard leaves every
      group of the channel layer as it found it, whatever went wrong during setup. */
  method SessionLeavesNoTrace(c: SafariConsumer, scopeUser: User, setup: SetupFault, env: Env,
                              closeCode: int)
    requires c.Valid() && c.user == None
    requires scopeUser.Member? ==>
               forall g :: g in GroupNames(scopeUser.id) ==> c.channelName !in Members(c.layer.registry, g)
    modifies c, c.layer, c.cache
    ensures forall g :: Members(c.layer.registry, g) == Members(old(c.layer.registry), g)
  {
    ghost var reg := c.layer.registry;
    c.Connect(scopeUser, setup, env);
    ghost var joinedReg := c.layer.registry;
    c.Disconnect(closeCode, None);
    assert c.layer.registry == DiscardedAll(joinedReg, c.groups, c.channelName) by {
      assert c.groups[..DiscardedCount(c.user, c.groups, None)] == c.groups;
    }
    if scopeUser.Member? && !setup.AcceptFails? {
      var gs := GroupNames(scopeUser.id);
      var k := JoinedBeforeFault(setup);
      assert joinedReg == AddedAll(reg, gs[..k], c.channelName) by {
        assert gs[..4] == gs;
      }
      forall g | g in gs[..k] ensures g in gs {
      }
      JoinThenLeave(reg, gs[..k], gs, c.channelName);
    }
  }
}
