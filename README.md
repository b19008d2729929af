# Safar realtime session and account helpers, in Dafny

This project models three parts of the Safar travel backend.

- **The realtime session** (`SafariConsumer` in `real_time/consumers.py`). One websocket session has three fields: the signed-in user, the list of broadcast groups it joined, and the `_connected` flag that gates every send.
  - `connect` rejects an anonymous user with close code 4001. For anyone else it accepts, sets the flag, joins the user's four broadcast groups in order and pushes an initial snapshot. Any setup failure clears the flag and closes with 1011.
  - The snapshot (the user's last 10 bookings, last 20 messages and up to 50 unread notifications) comes from a get-or-build cache. The key is `ws_initial_data_<user id>` and entries live 300 seconds.
  - Inbound frames go through a closed five-way dispatch:
    - mark one message read;
    - mark one notification read;
    - mark all notifications read;
    - page through messages;
    - ping.
  - The three read mutations invalidate the cached snapshot.
  - Channel-layer events are relayed to the client only while connected.
  - `disconnect` clears the flag and discards the groups.
- **The account helpers** in `authentication/models.py`:
  - the avatar upload path;
  - the display name of a user and of a profile;
  - the checks and defaults `UserManager` applies before saving a user.
- **The display labels** that `authentication/serializers.py` computes for points transactions and user interactions.

Modules:

| module | file | role |
|---|---|---|
| `Wrappers` | wrappers.dfy | `Option` and `Result` |
| `Text` | text.dfy | the parts of Python's `str` used by the code: `strip`, `replace`, `title`, `split(...)[-1]`, `split(..., 1)[1]`, `startswith` |
| `Values` | values.dfy | JSON values as Python sees them: truthiness, `dict.get`, hashability, `int()` and `str()` |
| `Uuids` | uuids.dfy | UUIDs as 32 nibbles: `.hex`, `str(uuid)` and Django's reading of a looked-up id |
| `Records` | records.dfy | the rows the session reads and writes, and the queries over them: filter, `order_by('-key')`, `[:n]`, `[a:b]`, `update(is_read=True)` |
| `Channels` | channels.dfy | the channel layer, as a map from group name to a set of channel names (`class ChannelLayer`) |
| `Storage` | storage.dfy | the database rows (`class Store`) and the cache (`class Cache`) |
| `Protocol` | protocol.dfy | the session's pure side: group names and cache key, frames, command decoding, pagination, the get-or-build cache rule, `UUIDEncoder.default` |
| `Realtime` | consumer.dfy | `class SafariConsumer`, with one method per method of the source |
| `Accounts` | accounts.dfy | `upload_avatar`, `get_full_name`, the `__str__` methods, `UserManager` |
| `Display` | display.dfy | `get_action_display`, `get_content_type_display`, `get_interaction_type_display` |

How the session is modelled:

- `SafariConsumer` is a class. Its fields `user`, `groups` and `connected` are updated in place.
- It holds the store, the cache and the channel layer, which are classes too.
- A ghost field `trace` records, in order, everything the session does to the outside world:
  - accept and close;
  - every assignment to the flag;
  - group joins and leaves;
  - frames sent;
  - cache writes and deletes.

  Ordering facts of the source are stated as equations on `trace`. Examples: the flag is set before the first join, the cache delete comes before the acknowledgement, and the flag is cleared before the first discard.
- Every foreign call that can raise takes its outcome from a parameter:
  - `Env` says whether the send raises, whether the database raises (and with what message), whether each cache call raises, and what the clock reads. The database outcome of the second `_fetch_initial_data`, the one in the `except` branch of `_get_cached_initial_data`, is a field of its own, `retryDbFault`.
  - `SetupFault` says whether `accept` raises or which `group_add` does.
  - `discardFailsAt` gives the index of the first `group_discard` that raises.

## Model

| member | source | states |
|---|---|---|
| Protocol.EncodeDefault | safar_backend/backend/apps/real_time/consumers.py:20-25 | a UUID is encoded as a 36-character string that parses back to the same UUID; any other object without `__dict__` gets a TypeError |
| Protocol.GroupNames | safar_backend/backend/apps/real_time/consumers.py:58-63 | a session joins exactly four groups |
| Protocol.GroupNamesOf | safar_backend/backend/apps/real_time/consumers.py:58-63 | group number i, in the order bookings, messages, notifications, general, is that group's prefix followed by the user's UUID in its 36-character form, which reads back as the user's UUID |
| Protocol.SamePrefixSuffix | safar_backend/backend/apps/real_time/consumers.py:31-34 | two names with the same group prefix are equal only if their user parts are equal |
| Protocol.GroupNamesOwned | safar_backend/backend/apps/real_time/consumers.py:31-34 | group names never collide: equal names mean the same user and the same prefix, so a broadcast to a user's group reaches only that user's sessions |
| Protocol.CacheKeyOwned | safar_backend/backend/apps/real_time/consumers.py:109 | the snapshot cache key `ws_initial_data_<id>` is different for every user |
| Realtime.SafariConsumer.constructor | safar_backend/backend/apps/real_time/consumers.py:36-41 | a new session has no user, no groups, a cleared flag and an empty trace |
| Realtime.SafariConsumer.Connect | safar_backend/backend/apps/real_time/consumers.py:43-76 | an anonymous user is closed with 4001, with no flag set and no group joined; when `accept` raises, the flag is cleared and the close is 1011; when `group_add` number k raises, the session keeps the first k joins and the four-group list and ends flag cleared and closed 1011; otherwise accept, flag set, the four joins in order, and then the initial frame, built and cached as `CachedSnapshot`/`CacheAfter` say |
| Realtime.SafariConsumer.JoinGroups | safar_backend/backend/apps/real_time/consumers.py:65-66 | the groups are added in list order up to the first `group_add` that raises, and the layer's registry is the old one with exactly those joins |
| Realtime.SafariConsumer.SendInitialData | safar_backend/backend/apps/real_time/consumers.py:78-92 | does nothing while disconnected; otherwise it sends an `initial_data` frame with the cached or fresh snapshot, or "Failed to load initial data: <error>" when the build raises |
| Realtime.SafariConsumer.CachedInitialData | safar_backend/backend/apps/real_time/consumers.py:107-123 | returns a truthy, decodable hit as stored; on a miss it builds, stores the build under the user's key with timeout 300 and returns it; a failing `aget`, undecodable text, a failing build or a failing `aset` fall back to a second build with its own database outcome |
| Protocol.CacheMissStores | safar_backend/backend/apps/real_time/consumers.py:116-119 | on a miss the built snapshot is returned and stored under the key with timeout 300 |
| Protocol.CacheLookupSafe | safar_backend/backend/apps/real_time/consumers.py:111-123 | a failed lookup is always the second build's error, so the lookup succeeds whenever both builds do; no other key is touched; a failing `aget` gives the second build and changes nothing |
| Protocol.RetryRecovers | safar_backend/backend/apps/real_time/consumers.py:116-123 | on a miss whose first build raises, the second build's result is returned and nothing is cached |
| Protocol.SecondLookupHits | safar_backend/backend/apps/real_time/consumers.py:112-114 | once a snapshot is stored, the next lookup returns it as stored, even if the rows have changed, and writes nothing |
| Protocol.InvalidatedRebuilds | safar_backend/backend/apps/real_time/consumers.py:350-356 | after an invalidation the key is absent and the next lookup returns the first build when it succeeds and `aset` does not fail, the second build otherwise; invalidating twice is the same as once |
| Realtime.SafariConsumer.Disconnect | safar_backend/backend/apps/real_time/consumers.py:94-105 | the flag is cleared before any discard; then the groups are discarded in order, stopping at the first discard that raises, and none are discarded for a session that never had a signed-in user |
| Realtime.DiscardedCount | safar_backend/backend/apps/real_time/consumers.py:97-101 | the number of discards never exceeds the number of groups |
| Realtime.SafariConsumer.SendJson | safar_backend/backend/apps/real_time/consumers.py:406-414 | sends nothing while disconnected; a send that raises sends nothing and clears the flag |
| Realtime.SafariConsumer.SendError | safar_backend/backend/apps/real_time/consumers.py:358-370 | sends one `error` frame with the message, only while connected |
| Realtime.SafariConsumer.BookingUpdate | safar_backend/backend/apps/real_time/consumers.py:373-382 | while connected, relays a `booking_update` frame carrying the event's `data`, or `{}` when it has none; otherwise sends nothing |
| Realtime.SafariConsumer.MessageNew | safar_backend/backend/apps/real_time/consumers.py:384-393 | the same relay rule, for `new_message` |
| Realtime.SafariConsumer.NotificationNew | safar_backend/backend/apps/real_time/consumers.py:395-404 | the same relay rule, for `new_notification` |
| Realtime.SilencedAfterSendFailure | safar_backend/backend/apps/real_time/consumers.py:373-414 | after one send raises, the three relays that follow send nothing |
| Realtime.SessionLeavesNoTrace | safar_backend/backend/apps/real_time/consumers.py:43-105 | a session that connects and then disconnects, with no failing discard, leaves every group of the channel layer as it found it, whatever failed during setup |
| Realtime.SafariConsumer.ReceiveJson | safar_backend/backend/apps/real_time/consumers.py:170-201 | nothing happens while disconnected; otherwise the frame is decoded and sent to one of the five handlers, or answered with exactly one error frame; an exception raised by a handler becomes "Server error: <message>"; the user and the groups never change |
| Realtime.SafariConsumer.Run | safar_backend/backend/apps/real_time/consumers.py:183-201 | runs the handler of the decoded action, as `Ran` states it per action; an exception the handler lets through becomes "Server error: <message>" |
| Protocol.HandlerFor | safar_backend/backend/apps/real_time/consumers.py:183-191 | only the five names have a handler, and each maps to the handler of that name |
| Protocol.HandlerForName | safar_backend/backend/apps/real_time/consumers.py:183-191 | every command name reaches its own handler |
| Protocol.DecodeInvokes | safar_backend/backend/apps/real_time/consumers.py:176-193 | a handler runs exactly when the frame is a dict whose `action` is one of the five names; it runs with the frame's `payload`, or `{}` when there is none |
| Protocol.DecodeMissingAction | safar_backend/backend/apps/real_time/consumers.py:179-181 | a missing or falsy `action` gets "Missing 'action' field", and that is the only input that does |
| Protocol.DecodeUnknownAction | safar_backend/backend/apps/real_time/consumers.py:194-195 | any other non-empty string action gets "Unknown action: <action>" |
| Protocol.Decode | safar_backend/backend/apps/real_time/consumers.py:176-195 | a frame that is not a dict never runs a handler; a handler runs only for a dict whose `action` is that handler's name, with the frame's `payload` or `{}` |
| Realtime.SafariConsumer.HandlePing | safar_backend/backend/apps/real_time/consumers.py:203-214 | while connected, answers with a `pong` frame carrying the clock's timestamp |
| Realtime.SafariConsumer.MarkMessageReadSync | safar_backend/backend/apps/real_time/consumers.py:243-253 | marks the unread messages with that id received by the user, and reports success exactly when at least one was marked; a database fault is reported as failure and changes nothing |
| Realtime.SafariConsumer.HandleMarkMessageRead | safar_backend/backend/apps/real_time/consumers.py:221-241 | a falsy id gets "Message ID is required"; on success the cache key is deleted before the `message_marked_read` acknowledgement that echoes the id; otherwise "Message not found or not authorized" is sent, and the rows and the cache are unchanged; a payload that is not a dict raises to the caller |
| Realtime.SafariConsumer.MarkNotificationReadSync | safar_backend/backend/apps/real_time/consumers.py:277-287 | the same rule, for unread notifications owned by the user |
| Realtime.SafariConsumer.HandleMarkNotificationRead | safar_backend/backend/apps/real_time/consumers.py:255-275 | the same rule, with "Notification ID is required", `notification_marked_read` and "Notification not found or not authorized" |
| Realtime.SafariConsumer.MarkAllNotificationsReadSync | safar_backend/backend/apps/real_time/consumers.py:303-312 | marks all of the user's unread notifications and returns how many there were; a database fault returns 0 and changes nothing |
| Realtime.SafariConsumer.HandleMarkAllNotificationsRead | safar_backend/backend/apps/real_time/consumers.py:289-301 | the user has no unread notification left; other users' notifications are unchanged; the count sent is the number that were unread; the cache key is deleted even when the count is 0, and before the acknowledgement |
| Realtime.SafariConsumer.HandleGetMoreMessages | safar_backend/backend/apps/real_time/consumers.py:314-336 | sends exactly the reply `MoreMessagesReply` gives for the payload and the current rows |
| Protocol.PageParamsSpec | safar_backend/backend/apps/real_time/consumers.py:317-318 | the offset defaults to 0 and the limit to 20; both are read as `int()` reads them; the limit is capped at 50 |
| Protocol.PageParams | safar_backend/backend/apps/real_time/consumers.py:317-318 | the bounds are read exactly when the payload is a dict whose `offset` and `limit` (or their defaults) `int()` accepts; the limit read is at most 50; a payload that is not a dict raises AttributeError |
| Protocol.NonIntegerPageParams | safar_backend/backend/apps/real_time/consumers.py:317-333 | a string `offset`, or a readable offset with a string `limit`, that `int()` cannot read gets "Invalid pagination parameters" |
| Protocol.LongOffsetRefused | safar_backend/backend/apps/real_time/consumers.py:317-333 | an offset sent as a decimal string of more than 4300 digits, which `int()` refuses, gets "Invalid pagination parameters" |
| Protocol.DecimalPageParams | safar_backend/backend/apps/real_time/consumers.py:317-318 | bounds sent as the decimal strings of integers of at most 4300 digits are read back as those integers, with the limit capped at 50 |
| Protocol.IntOfDecimal | safar_backend/backend/apps/real_time/consumers.py:317-318 | `int(str(i)) == i` for the JSON string of an integer of at most 4300 digits |
| Protocol.MoreMessagesReply | safar_backend/backend/apps/real_time/consumers.py:314-348 | the reply is a `more_messages` frame exactly when the bounds are read, the offset and `offset + limit` are not negative, and either the database does not raise or the slice is empty (a limit of 0 or less, for which Django's `set_limits` marks the query empty and runs none); every other reply is an `error` frame |
| Protocol.EmptyPageSkipsDatabase | safar_backend/backend/apps/real_time/consumers.py:338-348 | a readable request whose limit is 0 or less, with non-negative slice bounds, gets a `more_messages` frame with no messages, echoing its offset and limit, whatever the database would do |
| Protocol.MoreMessagesPage | safar_backend/backend/apps/real_time/consumers.py:314-330 | a well-formed request gets a `more_messages` frame with the page from `offset` to `offset + limit`, echoing the offset and the capped limit |
| Records.MessagePageSpec | safar_backend/backend/apps/real_time/consumers.py:338-348 | a page holds at most `limit` messages, all sent or received by the user, newest first, and it is the run of the user's messages that starts at `offset` |
| Records.MessagePage | safar_backend/backend/apps/real_time/consumers.py:338-348 | a page holds no more rows than the distance from `offset` to the stop, and none when the stop is not past the offset |
| Records.WindowSorted | safar_backend/backend/apps/real_time/consumers.py:346 | a slice of a list sorted newest first stays sorted and holds only rows of the list |
| Records.Window | safar_backend/backend/apps/real_time/consumers.py:346 | a slice with its stop at or before its start, or its start past the end, is empty; otherwise it holds, in order, the rows from start up to the stop or the end of the list, whichever comes first |
| Records.WindowsJoin | safar_backend/backend/apps/real_time/consumers.py:346 | consecutive pages join up: paging in steps misses nothing and repeats nothing |
| Records.Filter | safar_backend/backend/apps/real_time/consumers.py:144 | a filter keeps exactly the rows satisfying its condition |
| Records.FilterMultiset | safar_backend/backend/apps/real_time/consumers.py:144 | a filter only drops rows; it never duplicates them |
| Records.Insert | safar_backend/backend/apps/real_time/consumers.py:146 | inserting adds exactly one row |
| Records.SortDesc | safar_backend/backend/apps/real_time/consumers.py:146 | `order_by` is a permutation of the rows |
| Records.InsertSorted | safar_backend/backend/apps/real_time/consumers.py:146 | inserting into a newest-first list keeps it newest first |
| Records.SortDescSorted | safar_backend/backend/apps/real_time/consumers.py:146 | `order_by('-key')` yields rows newest first |
| Records.Take | safar_backend/backend/apps/real_time/consumers.py:146 | `[:n]` keeps n rows, or all of them when there are fewer |
| Records.TakeSorted | safar_backend/backend/apps/real_time/consumers.py:146 | the rows `[:n]` keeps from a sorted list are a sorted prefix, and none it drops is newer than one it keeps |
| Records.NewestMembers | safar_backend/backend/apps/real_time/consumers.py:143-166 | the selected rows are rows of the table that satisfy the filter, and all of them are selected when they fit |
| Records.NewestTopRows | safar_backend/backend/apps/real_time/consumers.py:143-166 | no matching row left out is newer than a selected one |
| Records.NewestSpec | safar_backend/backend/apps/real_time/consumers.py:143-166 | a selection holds at most n matching rows, newest first, all of them when they fit, and no omitted match is newer than a selected row |
| Records.SnapshotBookings | safar_backend/backend/apps/real_time/consumers.py:143-148 | the snapshot holds at most 10 of the user's bookings, latest booking date first, and none left out is later than one included |
| Records.SnapshotMessages | safar_backend/backend/apps/real_time/consumers.py:150-157 | the snapshot holds at most 20 messages the user sent or received, newest first, and none left out is newer than one included |
| Records.SnapshotNotifications | safar_backend/backend/apps/real_time/consumers.py:159-166 | the snapshot holds at most 50 of the user's unread notifications, newest first, and none left out is newer than one included |
| Protocol.FetchInitialData | safar_backend/backend/apps/real_time/consumers.py:125-139 | `_fetch_initial_data` fails exactly when the database raises, with that error; otherwise its snapshot holds at most 10 bookings, 20 messages and 50 notifications |
| Realtime.Build | safar_backend/backend/apps/real_time/consumers.py:125-168 | the fetch succeeds exactly when the database does not raise, and then it is the snapshot `InitialData` selects from the store's current rows |
| Protocol.CachedSnapshot | safar_backend/backend/apps/real_time/consumers.py:107-123 | a truthy hit that decodes is returned as stored; when the build is stored, the build is returned; on every other path (failing `aget`, undecodable hit, failed build, failing `aset`) the second build is returned |
| Protocol.CacheAfter | safar_backend/backend/apps/real_time/consumers.py:107-123 | the cache gains the build under the key with timeout 300 exactly when the lookup misses, the build succeeds and `aset` works; otherwise it is unchanged; no other key ever changes |
| Protocol.Invalidated | safar_backend/backend/apps/real_time/consumers.py:350-356 | a working `adelete` leaves the key absent; a failing one changes nothing; no other key ever changes |
| Records.InitialData | safar_backend/backend/apps/real_time/consumers.py:141-166 | the snapshot holds at most 10 bookings, 20 messages and 50 notifications |
| Records.MarkMessages | safar_backend/backend/apps/real_time/consumers.py:246-250 | `update(is_read=True)` sets `is_read` on the selected messages (matching id, received by the user, unread) and leaves every other row as it was |
| Records.Count | safar_backend/backend/apps/real_time/consumers.py:250 | the number `update(...)` reports never exceeds the number of rows |
| Records.CountPositive | safar_backend/backend/apps/real_time/consumers.py:250 | the count is positive exactly when some row satisfies the condition |
| Records.CountAtMostOne | safar_backend/backend/apps/real_time/consumers.py:250 | when no two rows both satisfy the condition, the count is at most one |
| Records.RefersToOne | safar_backend/backend/apps/real_time/consumers.py:246-250 | a looked-up id, whether a string, an integer or a bool, names at most one UUID |
| Records.RefersTo | safar_backend/backend/apps/real_time/consumers.py:246-250 | a string id names a row exactly when, after the clean-up `UUID(hex=...)` does, it has 32 characters that `int(..., 16)` reads as the row's UUID; null, a list or a dict names no row |
| Records.CountMessages | safar_backend/backend/apps/real_time/consumers.py:250 | the update count never exceeds the number of rows |
| Records.CountMessagesPositive | safar_backend/backend/apps/real_time/consumers.py:250 | the count is positive exactly when some message is selected |
| Records.MarkMessagesSpec | safar_backend/backend/apps/real_time/consumers.py:246-250 | only unread messages with that id received by the user change, and only their `is_read`; none stays selected; the update reports a change exactly when some row changed |
| Records.MarkMessagesOne | safar_backend/backend/apps/real_time/consumers.py:246-250 | on a table whose ids are distinct (its UUID primary key), at most one row changes, the count is at most one, and the ids stay distinct |
| Records.MarkNotifications | safar_backend/backend/apps/real_time/consumers.py:280-284 | the same update on notifications with that id owned by the user |
| Records.CountNotifications | safar_backend/backend/apps/real_time/consumers.py:284 | the update count never exceeds the number of rows |
| Records.CountNotificationsPositive | safar_backend/backend/apps/real_time/consumers.py:284 | the count is positive exactly when some notification is selected |
| Records.MarkNotificationsSpec | safar_backend/backend/apps/real_time/consumers.py:280-284 | only unread notifications with that id owned by the user change, and only their `is_read`; the update reports a change exactly when some row changed |
| Records.MarkNotificationsOne | safar_backend/backend/apps/real_time/consumers.py:280-284 | on a table whose ids are distinct, at most one notification changes, the count is at most one, and the ids stay distinct |
| Records.MarkAllNotifications | safar_backend/backend/apps/real_time/consumers.py:306-309 | every unread notification of the user is marked read, and other rows are as they were |
| Records.UnreadCount | safar_backend/backend/apps/real_time/consumers.py:306-309 | the number of the user's unread notifications never exceeds the number of rows |
| Records.UnreadCountFilter | safar_backend/backend/apps/real_time/consumers.py:306-309 | the count the update reports is the size of the `filter(user=user, is_read=False)` selection |
| Records.MarkAllNotificationsSpec | safar_backend/backend/apps/real_time/consumers.py:306-309 | after marking, the user has no unread notification; other users' rows are unchanged; ids, owners and times are kept, so distinct ids stay distinct; the count reported is the number unread before |
| Records.NoUnreadLeft | safar_backend/backend/apps/real_time/consumers.py:306-309 | rows none of which is an unread notification of the user give a count of 0 |
| Storage.Store.constructor | safar_backend/backend/apps/real_time/consumers.py:143-166 | a store holds the given bookings, messages and notifications, whose ids are distinct as a UUID primary key makes them (`Keyed`) |
| Storage.Store.UpdateMessageRead | safar_backend/backend/apps/real_time/consumers.py:246-250 | applies `MarkMessages` to the message table and returns the number of rows it changed; on a keyed table that is at most one, and the table stays keyed |
| Storage.Store.UpdateNotificationRead | safar_backend/backend/apps/real_time/consumers.py:280-284 | applies `MarkNotifications` and returns the number of rows it changed; on a keyed table that is at most one, and the table stays keyed |
| Storage.Store.UpdateAllNotificationsRead | safar_backend/backend/apps/real_time/consumers.py:306-309 | applies `MarkAllNotifications` and returns the number of the user's unread notifications before it; the table stays keyed |
| Storage.Cache.constructor | safar_backend/backend/apps/real_time/consumers.py:112 | a new cache is empty |
| Storage.Cache.Get | safar_backend/backend/apps/real_time/consumers.py:112 | `aget` returns the stored value, or `None` on a miss |
| Storage.Cache.Set | safar_backend/backend/apps/real_time/consumers.py:118 | `aset` stores the value with its timeout under the key, and no other key changes |
| Storage.Cache.Delete | safar_backend/backend/apps/real_time/consumers.py:354 | `adelete` removes the key, and no other key changes |
| Realtime.SafariConsumer.InvalidateCache | safar_backend/backend/apps/real_time/consumers.py:350-356 | deletes the user's snapshot key; a failing delete is swallowed and changes nothing |
| Channels.Added | safar_backend/backend/apps/real_time/consumers.py:66 | `group_add` puts the channel into the group and changes no other group |
| Channels.Discarded | safar_backend/backend/apps/real_time/consumers.py:101 | `group_discard` removes the channel from the group and changes no other group |
| Channels.AddedAllMembers | safar_backend/backend/apps/real_time/consumers.py:65-66 | after the join loop the channel is in every group it joined, and the other members of each group are unchanged |
| Channels.DiscardedAllMembers | safar_backend/backend/apps/real_time/consumers.py:100-101 | after the discard loop the channel is in none of the groups it left, and the other members of each group are unchanged |
| Channels.JoinThenLeave | safar_backend/backend/apps/real_time/consumers.py:65-101 | joining some groups and then leaving a list that covers them restores every group's members, when the channel was in none of the left groups before |
| Channels.LeaveDropsOne | safar_backend/backend/apps/real_time/consumers.py:101 | each left group that held the channel loses exactly one member, and the other groups are unchanged |
| Channels.ChannelLayer.constructor | safar_backend/backend/apps/real_time/consumers.py:66 | a new layer has no groups |
| Channels.ChannelLayer.GroupAdd | safar_backend/backend/apps/real_time/consumers.py:66 | the registry becomes `Added` of the old one |
| Channels.ChannelLayer.GroupDiscard | safar_backend/backend/apps/real_time/consumers.py:101 | the registry becomes `Discarded` of the old one |
| Values.Truthy | safar_backend/backend/apps/real_time/consumers.py:224 | a value is falsy exactly when it is `None`, `False`, `0`, `""`, `[]` or `{}`, as `if not message_id` and `if cached_data` test it |
| Values.Str | safar_backend/backend/apps/real_time/consumers.py:194-195 | the text an action is formatted as in "Unknown action: ...": `str(v)` of a string is the string itself; of `None`, a bool or an integer it is not empty, and an integer's text starts with `-` exactly when it is negative |
| Values.ParseInt | safar_backend/backend/apps/real_time/consumers.py:317-318 | `int(s, base)` reads only a literal of the `int()` grammar (surrounding whitespace, a sign, `0x` in base 16, digits with single underscores between them); the magnitude of the result is the value of its digits, it is negative only after a `-`, and a decimal literal read has at most 4300 digits |
| Values.Get | safar_backend/backend/apps/real_time/consumers.py:176-177 | `dict.get` returns the field or the default; on a value that is not a dict it raises AttributeError "'<type>' object has no attribute 'get'" |
| Values.IntOf | safar_backend/backend/apps/real_time/consumers.py:317-318 | `int()` returns an integer unchanged and a bool as 1 or 0; a string succeeds exactly when `ParseInt` reads it in base 10 (surrounding whitespace, a sign, digits with single underscores between them, at most 4300 digits), and raises ValueError otherwise; null, a list or a dict raise TypeError |
| Values.DigitChar | safar_backend/backend/apps/real_time/consumers.py:317-318 | each digit is written as the decimal character for it |
| Values.NatToString | safar_backend/backend/apps/real_time/consumers.py:317-318 | `str()` of a natural number is a non-empty run of decimal digits |
| Values.NatToStringValue | safar_backend/backend/apps/real_time/consumers.py:317-318 | the numeral `str()` writes reads back as the same number |
| Values.NatToStringNumeral | safar_backend/backend/apps/real_time/consumers.py:317-318 | `str()` of a natural number is a decimal numeral `int()` accepts |
| Values.ParseIntToString | safar_backend/backend/apps/real_time/consumers.py:317-318 | `int(str(n)) == n` for every integer n of at most 4300 digits |
| Values.DigitIn | safar_backend/backend/apps/real_time/consumers.py:317-318 | a character is a digit of a base only when its value is below the base; in base 10 the decimal characters have their usual values |
| Values.NumeralDigits | safar_backend/backend/apps/real_time/consumers.py:317-318 | the digits of a numeral, underscores skipped, are no more than its characters, and each is below the base |
| Values.Unsigned | safar_backend/backend/apps/real_time/consumers.py:317-318 | taking off the sign never lengthens the text |
| Values.Unprefixed | safar_backend/backend/apps/real_time/consumers.py:247 | taking off a `0x` or `0X` prefix (and one `_` after it) in base 16 never lengthens the text |
| Values.NumeralUnprefixed | safar_backend/backend/apps/real_time/consumers.py:317-318 | a numeral has no `0x` prefix to take off, in base 10 or 16 |
| Values.IntLiteral | safar_backend/backend/apps/real_time/consumers.py:317-318 | a literal `int()` accepts has no more digits than characters, each below the base |
| Values.PlainLiteral | safar_backend/backend/apps/real_time/consumers.py:317-318 | a plain numeral is read as a non-negative literal with its own digits |
| Values.ReadLiteral | safar_backend/backend/apps/real_time/consumers.py:317-318 | a decimal literal of at most 4300 digits reads as its value, negated when it has `-` |
| Values.NegativeLiteral | safar_backend/backend/apps/real_time/consumers.py:317-318 | a numeral after `-` is read as a negative literal with the numeral's digits |
| Values.LongNumeralRefused | safar_backend/backend/apps/real_time/consumers.py:317-318 | `int()` refuses the decimal string of a number with more than 4300 digits |
| Uuids.HexChar | safar_backend/backend/apps/real_time/consumers.py:22 | a nibble is written as a lower-case hexadecimal digit |
| Uuids.HexValueOfChar | safar_backend/backend/apps/real_time/consumers.py:22 | each lower-case hexadecimal digit is a digit of base 16 whose value is its nibble |
| Uuids.Hex | safar_backend/backend/apps/authentication/models.py:13 | `uuid.hex` is 32 lower-case hexadecimal digits |
| Uuids.Canonical | safar_backend/backend/apps/real_time/consumers.py:22 | `str(uuid)` is 36 characters, with hyphens at positions 8, 13, 18 and 23 |
| Uuids.HexDigitsRead | safar_backend/backend/apps/real_time/consumers.py:247 | each of the first k characters of `uuid.hex` is a base-16 digit, and together they read as the UUID's first k nibbles |
| Uuids.HexNumeral | safar_backend/backend/apps/real_time/consumers.py:247 | `uuid.hex` is a base-16 numeral whose digits are the UUID's nibbles |
| Uuids.HexNoHyphen | safar_backend/backend/apps/authentication/models.py:13 | `uuid.hex` has no hyphen |
| Uuids.HexReadsBack | safar_backend/backend/apps/authentication/models.py:13 | `int(u.hex, 16)` is the UUID's value |
| Uuids.ZerosValue | safar_backend/backend/apps/real_time/consumers.py:247 | leading zero digits do not change the value of a numeral |
| Uuids.ValueInjective | safar_backend/backend/apps/real_time/consumers.py:247 | two digit strings of the same length with the same value are equal, so a value names one UUID |
| Uuids.Pad | safar_backend/backend/apps/real_time/consumers.py:247 | a value of at most 32 hexadecimal digits, widened with leading zeros to a UUID, keeps its value |
| Uuids.UuidText | safar_backend/backend/apps/real_time/consumers.py:247 | the text `UUID(hex=...)` reads after its clean-up has no hyphen and is no longer than the input; a text with no `u`, brace or hyphen is read as it is |
| Uuids.UuidOfText | safar_backend/backend/apps/real_time/consumers.py:247 | once prepared, a text names a UUID exactly when it has 32 characters that `int(..., 16)` reads as a value that is not negative, and it names the UUID with that value |
| Uuids.ParseUuid | safar_backend/backend/apps/real_time/consumers.py:247 | `UUID(hex=s)` succeeds exactly when the text left after dropping `urn:`, `uuid:`, the braces and the hyphens has 32 characters that `int(..., 16)` reads as a value that is not negative, which is the value of the UUID it returns |
| Uuids.ParseUuidNames | safar_backend/backend/apps/real_time/consumers.py:247 | `UUID(hex=s)` is `u` exactly when the prepared text has 32 characters and reads as `u`'s value |
| Uuids.PrepareKeepsDigits | safar_backend/backend/apps/real_time/consumers.py:247 | on a string of hyphens and lower-case hexadecimal digits, the clean-up `UUID(hex)` does before reading (dropping `urn:`, `uuid:`, braces and hyphens) only drops the hyphens |
| Uuids.HyphenJoin | safar_backend/backend/apps/real_time/consumers.py:22 | removing the hyphens from `x-y` gives `x` and `y`, each without its hyphens, joined |
| Uuids.WithoutHyphens | safar_backend/backend/apps/real_time/consumers.py:22 | removing the hyphens from five hyphen-free groups joined by hyphens gives the groups joined directly |
| Uuids.CanonicalWithoutHyphens | safar_backend/backend/apps/real_time/consumers.py:22 | the canonical form without its hyphens is `uuid.hex` |
| Uuids.CanonicalChars | safar_backend/backend/apps/real_time/consumers.py:22 | every character of the canonical form is a hexadecimal digit or a hyphen |
| Uuids.ParseCanonical | safar_backend/backend/apps/real_time/consumers.py:22 | `UUID(str(u)) == u`: an id sent as its canonical string selects that row |
| Uuids.ParseHex | safar_backend/backend/apps/authentication/models.py:13 | `UUID(u.hex) == u` |
| Uuids.CanonicalInjective | safar_backend/backend/apps/real_time/consumers.py:59-62 | different UUIDs have different canonical strings |
| Accounts.AvatarExtension | safar_backend/backend/apps/authentication/models.py:15 | the extension is the text after the last `.` and contains no `.`; a name without `.` gets `jpg` |
| Accounts.UploadAvatar | safar_backend/backend/apps/authentication/models.py:12-16 | the path is `avatar/`, then the 32 hexadecimal digits of the random UUID, then `.`, then the extension |
| Accounts.UploadAvatarSpec | safar_backend/backend/apps/authentication/models.py:12-16 | the 32 characters after `avatar/` read back as the random UUID, and the text after the path's last `.` is the upload's extension |
| Accounts.LastFieldAfterLast | safar_backend/backend/apps/authentication/models.py:15 | the text after the last `.` of `name.ext` is `ext` when `ext` has no `.` |
| Accounts.UploadAvatarInjective | safar_backend/backend/apps/authentication/models.py:13-16 | different random UUIDs give different avatar paths |
| Accounts.FullName | safar_backend/backend/apps/authentication/models.py:97-98 | when the joined `<first> <last>` is all whitespace the email is shown; otherwise the joined name stripped, which is not empty |
| Accounts.FullNameShown | safar_backend/backend/apps/authentication/models.py:97-98 | when either name has a character other than whitespace the stripped joined name is shown, never the email |
| Accounts.FullNameLastOnly | safar_backend/backend/apps/authentication/models.py:97-98 | with an empty first name, a last name with no whitespace at its ends is shown on its own |
| Accounts.FullNameJoined | safar_backend/backend/apps/authentication/models.py:97-98 | a first name with no leading whitespace and a last name with no trailing whitespace are shown as `<first> <last>` |
| Accounts.FullNameFallback | safar_backend/backend/apps/authentication/models.py:97-98 | blank names fall back to the email |
| Accounts.UserStr | safar_backend/backend/apps/authentication/models.py:100-101 | `str(user)` is the user's full name |
| Accounts.ProfileStr | safar_backend/backend/apps/authentication/models.py:151-152 | `str(profile)` is "Profile of " followed by the owner's full name |
| Accounts.SetDefault | safar_backend/backend/apps/authentication/models.py:24-35 | `setdefault` keeps a value the caller gave, adds the default otherwise, and changes no other key |
| Accounts.SuperuserFields | safar_backend/backend/apps/authentication/models.py:33-40 | when the flags are accepted, `is_staff` and `is_superuser` are truthy and all three flags are present; a refusal is a ValueError |
| Accounts.SuperuserFieldsSpec | safar_backend/backend/apps/authentication/models.py:33-40 | the three flags default to True and keep the caller's values; a falsy `is_staff` is refused first, and only then a falsy `is_superuser`, each exactly when it applies; no other field changes |
| Accounts.UserManager.constructor | safar_backend/backend/apps/authentication/models.py:18-19 | a new manager has the given normalizer and username generator, and has saved no user |
| Accounts.UserManager.CreateUser | safar_backend/backend/apps/authentication/models.py:20-30 | a missing or empty email raises ValueError "The Email field must be set" and saves nothing; otherwise the email is normalized, `username` is set to the generated name unless the caller gave one, and exactly one user is saved |
| Accounts.UserManager.CreateSuperuser | safar_backend/backend/apps/authentication/models.py:32-42 | a refused flag raises its ValueError and saves nothing; otherwise `create_user` runs on the completed fields |
| Text.Lower | safar_backend/backend/apps/authentication/serializers.py:66 | lower-casing maps upper-case ASCII letters to lower case and keeps every other character |
| Text.Upper | safar_backend/backend/apps/authentication/serializers.py:66 | upper-casing maps lower-case ASCII letters to upper case and keeps every other character |
| Text.StripLeft | safar_backend/backend/apps/authentication/models.py:98 | the result is a suffix that does not start with a stripped character, and only stripped characters were removed |
| Text.StripRight | safar_backend/backend/apps/authentication/models.py:98 | the result is a prefix that does not end with a stripped character, and only stripped characters were removed |
| Text.Strip | safar_backend/backend/apps/authentication/models.py:98 | `strip()` neither starts nor ends with whitespace, and the text is the result with only whitespace before and after it |
| Text.StripKeeps | safar_backend/backend/apps/authentication/models.py:98 | stripping a text whose ends are not stripped characters keeps it as it is |
| Text.StripLeftCut | safar_backend/backend/apps/authentication/models.py:98 | what the left strip removes is all stripped characters |
| Text.StripRightCut | safar_backend/backend/apps/authentication/models.py:98 | what the right strip removes is all stripped characters |
| Text.StripSlice | safar_backend/backend/apps/authentication/models.py:98 | the text is the stripped result with stripped characters only before and after it |
| Text.StripEmpty | safar_backend/backend/apps/authentication/models.py:98 | `strip()` leaves nothing exactly when the text is all whitespace |
| Text.StripUnchanged | safar_backend/backend/apps/authentication/models.py:98 | `strip()` keeps a text with no whitespace at either end as it is |
| Text.AllSpaceConcat | safar_backend/backend/apps/authentication/models.py:98 | joining two all-whitespace texts gives an all-whitespace text |
| Text.ReplaceChar | safar_backend/backend/apps/authentication/serializers.py:66 | `replace('_', ' ')` replaces every `_` and keeps every other character in place |
| Text.Without | safar_backend/backend/apps/real_time/consumers.py:247 | `replace('-', '')` leaves no hyphen and never lengthens the text |
| Text.WithoutConcat | safar_backend/backend/apps/real_time/consumers.py:247 | removing a character from a joined text joins the pieces with it removed |
| Text.WithoutAbsent | safar_backend/backend/apps/real_time/consumers.py:247 | removing a character that is absent changes nothing |
| Text.RemoveAll | safar_backend/backend/apps/real_time/consumers.py:247 | `replace(p, '')` never lengthens the text and only drops characters of it; a text shorter than `p` is kept |
| Text.RemoveAllAbsent | safar_backend/backend/apps/real_time/consumers.py:247 | `replace('urn:', '')` changes nothing in a text without `u` |
| Text.StripChars | safar_backend/backend/apps/real_time/consumers.py:247 | `strip('{}')` never lengthens the text, and leaves it as it is when neither end is a brace |
| Text.Title | safar_backend/backend/apps/authentication/serializers.py:66 | `title()` keeps the length and upper-cases the first character; `TitleIsTitled` states the rule for every character |
| Text.TitleAfter | safar_backend/backend/apps/authentication/serializers.py:66 | the title-casing scan keeps the length of the text |
| Text.TitleAfterAt | safar_backend/backend/apps/authentication/serializers.py:66 | each character of the result follows the `str.title` rule relative to the character before it |
| Text.TitleIsTitled | safar_backend/backend/apps/authentication/serializers.py:66 | `title()` upper-cases the first cased letter after an uncased character and lower-cases every other letter |
| Text.TitleIdempotent | safar_backend/backend/apps/authentication/serializers.py:66 | title-casing an already title-cased text changes nothing |
| Text.TitleKeepsUncased | safar_backend/backend/apps/authentication/serializers.py:66 | `title()` keeps each uncased character where it was, and introduces none |
| Text.IndexOf | safar_backend/backend/apps/authentication/serializers.py:62 | the index returned holds the first occurrence of the character |
| Text.AfterFirst | safar_backend/backend/apps/authentication/serializers.py:62 | `split(':', 1)[1]` is the text after the first `:` |
| Text.LastField | safar_backend/backend/apps/authentication/models.py:15 | `split('.')[-1]` is a suffix with no `.`, preceded by a `.` when the text has one |
| Display.Humanize | safar_backend/backend/apps/authentication/serializers.py:66 | the label keeps the length, has no `_`, is title-cased, and has a space exactly where the input had `_` or a space |
| Display.HumanizeIdempotent | safar_backend/backend/apps/authentication/serializers.py:66 | humanizing a label again changes nothing |
| Display.ActionDisplaySpec | safar_backend/backend/apps/authentication/serializers.py:48-66 | the configured name when the action is in the config, even when it starts with `deduct:`; otherwise, for `deduct:<reason>`, "Points deduction: " followed by everything after `deduct:`, later colons included; otherwise the humanized action, with no `_` |
| Display.ActionDisplay | safar_backend/backend/apps/authentication/serializers.py:48-66 | the configured name when the action is configured; otherwise a `deduct:` action is shown as "Points deduction: " and the reason; any other action keeps its length and shows no `_` |
| Display.ContentTypeDisplay | safar_backend/backend/apps/authentication/serializers.py:94-98 | the model name humanized: same length, no `_`, title-cased |
| Display.InteractionTypeDisplay | safar_backend/backend/apps/authentication/serializers.py:100-108 | the registered type's name when one exists for the code; otherwise the humanized code |

## Left out

- The websocket transport, and the mechanics of `accept` and `close`. They are recorded as effects in the trace; their outcome for the session comes from a parameter.
- The channel layer's cross-process broker and the Redis protocol of the cache. Both are modelled as maps held by a class.
- Async scheduling and cancellation. Each handler runs as one atomic sequential step.
- The `json.JSONDecodeError` branch of `receive_json` (consumers.py:197-198). Decoding the frame happens in the channels base class, which is not part of this model; the model takes the decoded value.
- `_get_timestamp` and `datetime.now()`. The timestamp is the string parameter `Env.now`.
- Logging. It has no effect on the session.
- Serializer output shapes. `BookingSerializer`, `MessageSerializer` and `NotificationSerializer` are not part of this model, so frames carry the selected rows themselves, and `json.dumps` of a snapshot is assumed to succeed.
- `UUIDEncoder.default`'s `vars()` fallback for objects with `__dict__`. No object of that kind reaches the encoder here. `Opaque` has only the UUID case and the refused case.
- The `Message` and `Notification` models are not part of this model. Their `id` is taken to be a UUID primary key, as the project's models declare it (authentication/migrations/0001_initial.py:30). A `Store` is therefore built only from tables with distinct ids.
- Cache expiry. The 300-second timeout is stored with each entry, but the clock that evicts entries is not part of this model.
- Cached text that decodes to JSON but is not a snapshot. The model has only a snapshot this code wrote (`Serialized`) and undecodable text (`Undecodable`).
- Tie order within `order_by('-created_at')` and `order_by('-booking_date')`. The database does not fix it; the model uses a stable sort, so tied rows keep store order.
- Timestamps and dates are integers, not datetimes.
- `Text.Lower`/`Text.Upper`: case mapping is that of ASCII letters; every other character counts as uncased, so `title()` of non-ASCII letters is not modelled. Whitespace follows Python's `str.isspace`.
- `Values.IntOf`, `Values.ParseInt`, `Uuids.ParseUuid`: floats are not modelled, and a string of non-ASCII decimal digits (Arabic-Indic digits, full-width digits and the like), which `int()` and so `UUID(hex=...)` accept, reads as not a number.
- JSON integers of more than 4300 digits. `json.loads` refuses them before the session sees the frame; the model's JSON integers are unbounded.
- `sys.set_int_max_str_digits`. The 4300-digit limit of `int()` on decimal strings is the interpreter default, a constant here.
- The `except Exception` branches of `_handle_mark_message_read`, `_handle_mark_notification_read` and `_handle_mark_all_notifications_read` ("Failed to mark ..."). Their `*_sync` calls catch every database error themselves, and their sends catch their own errors, so these branches cannot be reached with the behaviour modelled here.
- A failing `accept` is modelled as raising before the flag is set. The source then clears the flag and closes with 1011, as modelled.
- The code decides these two points, and the model follows it: the `except` branch of `connect` (consumers.py:73-76) discards no group, and `disconnect` (consumers.py:94-105) resets neither `groups` nor `user`:
  - a setup fault leaves the groups already joined in the channel layer; only a later `disconnect` discards them;
  - `disconnect` does not clear `groups` or `user`.
- `UserManager`: the model constructor's validation of keyword arguments (such as unknown field names), `set_password`'s hashing and the database's uniqueness constraint on the email. The saved user records the raw password and the fields by name; `save` is an append to `saved`.
- `normalize_email` and `generate_unique_username`. They are passed to the manager as functions of the email alone. models.py:19 imports `generate_unique_username` into the class body, so `self.generate_unique_username(email)` calls it with the manager as an extra first argument. Its module, `apps/core_apps/utility`, is not part of this model, so whether it accepts that argument (and so whether `create_user` can succeed at all) is not decided here.
- `PointsManager.get_points_config()` and the `InteractionType` lookup. They are parameters: a map from action to configured name, and an option. A config entry with no `name` key is not modelled; the map holds the names.
