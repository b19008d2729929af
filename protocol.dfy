/** The pure side of the realtime session: per-user group names and cache key, the frames
    sent to the client, decoding of inbound commands, the pagination parameters and
    reply, the get-or-build rule of the snapshot cache, and `UUIDEncoder.default`. */
module Protocol {
  import opened Wrappers
  import opened Text
  import opened Values
  import opened Uuids
  import opened Records
  import opened Storage

  /** `scope["user"]`: Django's `AnonymousUser`, or a signed-in user with its id. */
  datatype User = Anonymous | Member(id: Uuid)

  const BookingGroup: string := "bookings_"
  const MessageGroup: string := "messages_"
  const NotificationGroup: string := "notifications_"
  const GeneralGroup: string := "safar_"

  /** Seconds a snapshot stays in the cache. */
  const CacheTimeout: nat := 300

  /** Close code for an anonymous connection, from the private-use range of section
      7.4.2 of RFC 6455. */
  const CloseUnauthenticated: int := 4001
  /** Close code "internal error", section 7.4.1 of RFC 6455. */
  const CloseInternalError: int := 1011

  const GroupPrefixes: seq<string> := [BookingGroup, MessageGroup, NotificationGroup, GeneralGroup]

  /** The four groups a user's session joins, in join order. */
  function GroupNames(id: Uuid): (gs: seq<string>)
    ensures |gs| == 4
  {
    seq(4, i requires 0 <= i < 4 => GroupPrefixes[i] + Canonical(id))
  }

  /** Each group name is its prefix followed by the user's UUID in canonical form, which
      reads back as that UUID. */
  lemma GroupNamesOf(id: Uuid, i: nat)
    requires i < 4
    ensures var g := GroupNames(id)[i];
            && |g| == |GroupPrefixes[i]| + 36 && g[..|GroupPrefixes[i]|] == GroupPrefixes[i]
            && ParseUuid(g[|GroupPrefixes[i]|..]) == Some(id)
  {
    var g := GroupNames(id)[i];
    assert g[|GroupPrefixes[i]|..] == Canonical(id);
    ParseCanonical(id);
  }

  /** The cache key of a user's snapshot. */
  function CacheKey(id: Uuid): string {
    "ws_initial_data_" + Canonical(id)
  }

  lemma SamePrefixSuffix(p: string, x: string, y: string)
    requires p + x == p + y
    ensures x == y
  {
    assert x == (p + x)[|p|..];
    assert y == (p + y)[|p|..];
  }

  /** Group names never collide: the four groups of a user are distinct, and no group of
      one user is a group of another, so a broadcast reaches only its owner. */
  lemma GroupNamesOwned(u: Uuid, v: Uuid, i: nat, j: nat)
    requires i < 4 && j < 4
    requires GroupNames(u)[i] == GroupNames(v)[j]
    ensures u == v && i == j
  {
    var a := GroupNames(u)[i];
    assert a[0] == GroupPrefixes[i][0];
    assert a[0] == GroupPrefixes[j][0];
    assert i == j;
    SamePrefixSuffix(GroupPrefixes[i], Canonical(u), Canonical(v));
    CanonicalInjective(u, v);
  }

  /** Cache keys are per user. */
  lemma CacheKeyOwned(u: Uuid, v: Uuid)
    requires CacheKey(u) == CacheKey(v)
    ensures u == v
  {
    SamePrefixSuffix("ws_initial_data_", Canonical(u), Canonical(v));
    CanonicalInjective(u, v);
  }

  // ------------------------------------------------------------ frames

  /** The `payload` of a frame. */
  datatype Payload =
    | SnapshotBody(snapshot: Snapshot)
    | TimestampBody(timestamp: string)
    | ErrorBody(message: string)
    | MessageIdBody(messageId: Json)
    | NotificationIdBody(notificationId: Json)
    | CountBody(count: nat)
    | PageBody(messages: seq<Message>, offset: int, limit: int)
    | EventBody(data: Json)

  /** A `{"type": kind, "payload": payload}` frame. */
  datatype Frame = Frame(kind: string, payload: Payload)

  function ErrorFrame(message: string): Frame {
    Frame("error", ErrorBody(message))
  }

  /** `event.get("data", {})` for a channel-layer event. */
  function EventData(event: map<string, Json>): Json {
    if "data" in event then event["data"] else JObj(map[])
  }

  // ---------------------------------------------------------- dispatch

  /** The five commands a client can send. */
  datatype Action = MarkMessageRead | MarkNotificationRead | MarkAllNotificationsRead
                  | GetMoreMessages | Ping

  function ActionName(a: Action): string {
    match a
    case MarkMessageRead => "mark_message_read"
    case MarkNotificationRead => "mark_notification_read"
    case MarkAllNotificationsRead => "mark_all_notifications_read"
    case GetMoreMessages => "get_more_messages"
    case Ping => "ping"
  }

  /** `handlers.get(action)` for a hashable action: only the five names have a handler. */
  function HandlerFor(action: Json): (r: Option<Action>)
    ensures r.Some? ==> action == JStr(ActionName(r.value))
  {
    if action == JStr("mark_message_read") then Some(MarkMessageRead)
    else if action == JStr("mark_notification_read") then Some(MarkNotificationRead)
    else if action == JStr("mark_all_notifications_read") then Some(MarkAllNotificationsRead)
    else if action == JStr("get_more_messages") then Some(GetMoreMessages)
    else if action == JStr("ping") then Some(Ping)
    else None
  }

  /** Every command name reaches its own handler. */
  lemma HandlerForName(a: Action)
    ensures HandlerFor(JStr(ActionName(a))) == Some(a)
  {
  }

  /** What `receive_json` makes of a frame: a handler to run on a payload, or the text of
      the one error frame it answers with. */
  datatype Command = Invoke(action: Action, payload: Json) | Reject(message: string)

  function Decode(content: Json): (r: Command)
    ensures !content.JObj? ==> r.Reject?
    ensures r.Invoke? ==>
              && content.JObj? && ActionField(content) == JStr(ActionName(r.action))
              && r.payload == (if "payload" in content.fields then content.fields["payload"] else JObj(map[]))
  {
    match Get(content, "action", JNull)
    case Err(e) => Reject("Server error: " + e.message)
    case Ok(action) =>
      if !Truthy(action) then Reject("Missing 'action' field")
      else if !Hashable(action) then
        Reject("Server error: unhashable type: '" + TypeName(action) + "'")
      else match HandlerFor(action)
        case Some(a) => Invoke(a, Get(content, "payload", JObj(map[])).value)
        case None => Reject("Unknown action: " + Str(action))
  }

  /** The field `action` of a dict frame, `None` when there is none. */
  function ActionField(content: Json): Json
    requires content.JObj?
  {
    if "action" in content.fields then content.fields["action"] else JNull
  }

  /** A command runs exactly when the frame is a dict whose `action` is one of the five
      names; it runs with the frame's `payload`, or `{}` when there is none. */
  lemma DecodeInvokes(content: Json, a: Action)
    ensures Decode(content).Invoke? && Decode(content).action == a
            <==> content.JObj? && ActionField(content) == JStr(ActionName(a))
    ensures Decode(content).Invoke? ==>
              Decode(content).payload ==
                (if "payload" in content.fields then content.fields["payload"] else JObj(map[]))
  {
    if content.JObj? && ActionField(content) == JStr(ActionName(a)) {
      HandlerForName(a);
    }
  }

  /** A dict frame with no `action`, or a falsy one, gets exactly the "Missing 'action'
      field" error, and no other frame does. */
  lemma DecodeMissingAction(content: Json)
    ensures Decode(content) == Reject("Missing 'action' field")
            <==> content.JObj? && !Truthy(ActionField(content))
  {
    var missing := "Missing 'action' field";
    if content.JObj? && Truthy(ActionField(content)) {
      var action := ActionField(content);
      if !Hashable(action) {
        var m := "Server error: unhashable type: '" + TypeName(action) + "'";
        assert m[0] != missing[0];
      } else if HandlerFor(action).None? {
        var m := "Unknown action: " + Str(action);
        assert m[0] != missing[0];
      }
    } else if !content.JObj? {
      var m := "Server error: " + Get(content, "action", JNull).error.message;
      assert m[0] != missing[0];
    }
  }

  /** Any other non-empty string gets "Unknown action: " followed by that string. */
  lemma DecodeUnknownAction(content: Json, s: string)
    requires content.JObj? && ActionField(content) == JStr(s) && s != []
    requires forall a: Action :: s != ActionName(a)
    ensures Decode(content) == Reject("Unknown action: " + s)
  {
  }

  // -------------------------------------------------------- pagination

  const DefaultPageSize: int := 20
  const MaxPageSize: int := 50

  /** `offset = int(payload.get("offset", 0))` and
      `limit = min(int(payload.get("limit", 20)), 50)`. */
  function PageParams(payload: Json): (r: Result<(int, int), Exception>)
    ensures r.Ok? <==> && payload.JObj? && IntOf(Param(payload, "offset", 0)).Ok?
                       && IntOf(Param(payload, "limit", DefaultPageSize)).Ok?
    ensures r.Ok? ==> r.value.1 <= MaxPageSize
    ensures !payload.JObj? ==> r.Err? && r.error.AttributeError?
  {
    match Get(payload, "offset", JInt(0))
    case Err(e) => Err(e)
    case Ok(o) =>
      match IntOf(o)
      case Err(e) => Err(e)
      case Ok(offset) =>
        match IntOf(Get(payload, "limit", JInt(DefaultPageSize)).value)
        case Err(e) => Err(e)
        case Ok(limit) => Ok((offset, if limit < MaxPageSize then limit else MaxPageSize))
  }

  /** The parameter `key` of a paging request, or its default. */
  function Param(payload: Json, key: string, default: int): Json
    requires payload.JObj?
  {
    if key in payload.fields then payload.fields[key] else JInt(default)
  }

  /** The offset defaults to 0 and the limit to 20; the limit is capped at 50; the values
      are read as `int()` reads them. */
  lemma PageParamsSpec(payload: Json)
    requires payload.JObj?
    ensures IntOf(Param(payload, "offset", 0)).Ok? && IntOf(Param(payload, "limit", DefaultPageSize)).Ok?
            <==> PageParams(payload).Ok?
    ensures PageParams(payload).Ok? ==>
              var (offset, limit) := PageParams(payload).value;
              var asked := IntOf(Param(payload, "limit", DefaultPageSize)).value;
              && offset == IntOf(Param(payload, "offset", 0)).value
              && limit <= MaxPageSize
              && (limit == asked || (limit == MaxPageSize && asked > MaxPageSize))
    ensures "offset" !in payload.fields && "limit" !in payload.fields ==>
              PageParams(payload) == Ok((0, DefaultPageSize))
  {
  }

  /** The frame `_handle_get_more_messages` answers with, given the rows of the message
      table, the user, and whether the database raises. */
  function MoreMessagesReply(payload: Json, messages: seq<Message>, user: Uuid,
                             dbFault: Option<string>): (r: Frame)
    ensures r.kind == "more_messages" || r.kind == "error"
    ensures r.kind == "more_messages" <==>
              && PageParams(payload).Ok?
              && PageParams(payload).value.0 >= 0
              && PageParams(payload).value.0 + PageParams(payload).value.1 >= 0
              && (dbFault.None? || PageParams(payload).value.1 <= 0)
  {
    match PageParams(payload)
    case Err(ValueError(_)) => ErrorFrame("Invalid pagination parameters")
    case Err(e) => ErrorFrame("Failed to fetch more messages: " + e.message)
    case Ok((offset, limit)) =>
      // A negative bound of the slice is refused with a ValueError.
      if offset < 0 || offset + limit < 0 then ErrorFrame("Invalid pagination parameters")
      // A slice whose stop is not past its start is empty without a query being run.
      else if dbFault.Some? && limit > 0 then ErrorFrame("Failed to fetch more messages: " + dbFault.value)
      else Frame("more_messages", PageBody(MessagePage(messages, user, offset, offset + limit),
                                           offset, limit))
  }

  /** A parameter `int()` cannot read as a number gets "Invalid pagination parameters". */
  lemma NonIntegerPageParams(payload: Json, messages: seq<Message>, user: Uuid,
                             dbFault: Option<string>)
    requires payload.JObj?
    requires var o := Param(payload, "offset", 0);
             var l := Param(payload, "limit", DefaultPageSize);
             (o.JStr? && ParseInt(o.s, 10).None?) || (IntOf(o).Ok? && l.JStr? && ParseInt(l.s, 10).None?)
    ensures MoreMessagesReply(payload, messages, user, dbFault)
            == ErrorFrame("Invalid pagination parameters")
  {
  }

  /** An offset of more than 4300 decimal digits is refused like any other bad number. */
  lemma LongOffsetRefused(payload: Json, n: nat, messages: seq<Message>, user: Uuid,
                          dbFault: Option<string>)
    requires payload.JObj? && Param(payload, "offset", 0) == JStr(NatToString(n))
    requires |NatToString(n)| > MaxStrDigits
    ensures MoreMessagesReply(payload, messages, user, dbFault)
            == ErrorFrame("Invalid pagination parameters")
  {
    LongNumeralRefused(n);
    NonIntegerPageParams(payload, messages, user, dbFault);
  }

  /** Bounds sent as the decimal strings of integers are read back as those integers,
      the limit capped at 50. */
  lemma DecimalPageParams(offset: int, limit: int)
    requires |NatToString(if offset < 0 then -offset else offset)| <= MaxStrDigits
    requires |NatToString(if limit < 0 then -limit else limit)| <= MaxStrDigits
    ensures PageParams(JObj(map["offset" := JStr(IntToString(offset)), "limit" := JStr(IntToString(limit))]))
            == Ok((offset, if limit < MaxPageSize then limit else MaxPageSize))
  {
    var payload := JObj(map["offset" := JStr(IntToString(offset)), "limit" := JStr(IntToString(limit))]);
    assert Param(payload, "offset", 0) == JStr(IntToString(offset));
    assert Param(payload, "limit", DefaultPageSize) == JStr(IntToString(limit));
    IntOfDecimal(offset);
    IntOfDecimal(limit);
  }

  lemma IntOfDecimal(i: int)
    requires |NatToString(if i < 0 then -i else i)| <= MaxStrDigits
    ensures IntOf(JStr(IntToString(i))) == Ok(i)
  {
    var s := IntToString(i);
    ParseIntToString(i);
    assert ParseInt(s, 10) == Some(i);
    assert IntOf(JStr(s)).Ok?;
  }

  /** A slice whose stop does not pass its start gets an empty `more_messages` page, even
      while the database would raise, since no query is run for it. */
  lemma EmptyPageSkipsDatabase(payload: Json, messages: seq<Message>, user: Uuid,
                               dbFault: Option<string>, offset: int, limit: int)
    requires PageParams(payload) == Ok((offset, limit))
    requires offset >= 0 && offset + limit >= 0 && limit <= 0
    ensures MoreMessagesReply(payload, messages, user, dbFault)
            == Frame("more_messages", PageBody([], offset, limit))
  {
  }

  /** A well-formed request is answered with the page from `offset` up to
      `offset + limit` (see `MessagePageSpec`), echoing the offset and the capped limit. */
  lemma MoreMessagesPage(payload: Json, messages: seq<Message>, user: Uuid, offset: int, limit: int)
    requires PageParams(payload) == Ok((offset, limit))
    requires offset >= 0 && offset + limit >= 0
    ensures MoreMessagesReply(payload, messages, user, None)
            == Frame("more_messages", PageBody(MessagePage(messages, user, offset, offset + limit), offset, limit))
  {
  }

  // ---------------------------------------------------- snapshot cache

  /** `_fetch_initial_data`: the database raises with a message, or the snapshot is built
      from the rows. */
  function FetchInitialData(bookings: seq<Booking>, messages: seq<Message>,
                            notifications: seq<Notification>, user: Uuid,
                            dbFault: Option<string>): (r: Result<Snapshot, string>)
    ensures r.Err? <==> dbFault.Some?
    ensures r.Err? ==> r.error == dbFault.value
    ensures r.Ok? ==> && |r.value.bookings| <= BookingLimit
                      && |r.value.messages| <= MessageLimit
                      && |r.value.notifications| <= NotificationLimit
  {
    if dbFault.Some? then Err(dbFault.value)
    else Ok(InitialData(bookings, messages, notifications, user))
  }

  /** The outcomes of the foreign calls one step of the session makes: whether the
      socket's send raises, whether the database raises (and its message), whether each
      cache call raises, and the clock's reading for a pong. `dbFault` is the outcome of
      the step's first database call; `retryDbFault` is that of the second
      `_fetch_initial_data` the `except` branch of `_get_cached_initial_data` makes. */
  datatype Env = Env(sendFails: bool, dbFault: Option<string>, retryDbFault: Option<string>,
                     cacheGetFails: bool, cacheSetFails: bool, cacheDeleteFails: bool,
                     now: string)

  /** `if cached_data:` — the lookup found a truthy entry. */
  predicate CacheHit(entries: map<string, CacheEntry>, key: string, env: Env) {
    !env.cacheGetFails && key in entries && CachedTruthy(entries[key].value)
  }

  /** Whether `_get_cached_initial_data` writes the freshly built snapshot. */
  predicate StoresSnapshot(entries: map<string, CacheEntry>, key: string,
                           built: Result<Snapshot, string>, env: Env)
  {
    !env.cacheGetFails && !(key in entries && CachedTruthy(entries[key].value))
    && built.Ok? && !env.cacheSetFails
  }

  /** What `_get_cached_initial_data` returns, given the outcome `built` of the fetch on
      a miss and the outcome `retry` of the fetch in the `except` branch: a decodable hit
      as stored; on a miss the build, once it is stored; every path that raises (a
      failing `aget`, text that does not decode, a failing build, a failing `aset`) the
      retry. */
  function CachedSnapshot(entries: map<string, CacheEntry>, key: string,
                          built: Result<Snapshot, string>, retry: Result<Snapshot, string>,
                          env: Env): (r: Result<Snapshot, string>)
    ensures CacheHit(entries, key, env) && entries[key].value.Serialized? ==>
              r == Ok(entries[key].value.snapshot)
    ensures StoresSnapshot(entries, key, built, env) ==> r == built
    ensures (!StoresSnapshot(entries, key, built, env)
             && !(CacheHit(entries, key, env) && entries[key].value.Serialized?)) ==> r == retry
  {
    if env.cacheGetFails then retry
    else if CacheHit(entries, key, env) then
      if entries[key].value.Serialized? then Ok(entries[key].value.snapshot) else retry
    else if built.Err? || env.cacheSetFails then retry
    else built
  }

  /** The cache after `_get_cached_initial_data`. */
  function CacheAfter(entries: map<string, CacheEntry>, key: string,
                      built: Result<Snapshot, string>, env: Env): (r: map<string, CacheEntry>)
    ensures StoresSnapshot(entries, key, built, env) ==>
              key in r && r[key] == CacheEntry(Serialized(built.value), CacheTimeout)
    ensures !StoresSnapshot(entries, key, built, env) ==> r == entries
    ensures r - {key} == entries - {key}
  {
    if StoresSnapshot(entries, key, built, env) then
      entries[key := CacheEntry(Serialized(built.value), CacheTimeout)]
    else entries
  }

  /** The cache after `_invalidate_cache`. */
  function Invalidated(entries: map<string, CacheEntry>, key: string, deleteFails: bool)
    : (r: map<string, CacheEntry>)
    ensures !deleteFails ==> key !in r
    ensures deleteFails ==> r == entries
    ensures r - {key} == entries - {key}
  {
    if deleteFails then entries else entries - {key}
  }

  /** A miss stores the build under the key with the 300-second timeout and returns it;
      the lookup touches no other key, and it fails only when the build does. */
  lemma CacheMissStores(entries: map<string, CacheEntry>, key: string,
                        built: Result<Snapshot, string>, retry: Result<Snapshot, string>, env: Env)
    requires key !in entries && !env.cacheGetFails && !env.cacheSetFails && built.Ok?
    ensures CachedSnapshot(entries, key, built, retry, env) == built
    ensures CacheAfter(entries, key, built, env)[key] == CacheEntry(Serialized(built.value), 300)
  {
  }

  /** Whatever the faults, the lookup fails only with the retry's database error, so it
      succeeds whenever both fetches do; it leaves every other key alone. */
  lemma CacheLookupSafe(entries: map<string, CacheEntry>, key: string,
                        built: Result<Snapshot, string>, retry: Result<Snapshot, string>, env: Env)
    ensures CachedSnapshot(entries, key, built, retry, env).Err? ==>
              CachedSnapshot(entries, key, built, retry, env) == retry
    ensures built.Ok? && retry.Ok? ==> CachedSnapshot(entries, key, built, retry, env).Ok?
    ensures forall k :: k != key ==>
              (k in CacheAfter(entries, key, built, env) <==> k in entries)
    ensures forall k :: k != key && k in entries ==> CacheAfter(entries, key, built, env)[k] == entries[k]
    ensures env.cacheGetFails ==>
              CachedSnapshot(entries, key, built, retry, env) == retry && CacheAfter(entries, key, built, env) == entries
  {
  }

  /** A first fetch that raises is not the end: the retry's snapshot is returned, and
      nothing is cached. */
  lemma RetryRecovers(entries: map<string, CacheEntry>, key: string,
                      built: Result<Snapshot, string>, retry: Result<Snapshot, string>, env: Env)
    requires !env.cacheGetFails && !CacheHit(entries, key, env) && built.Err?
    ensures CachedSnapshot(entries, key, built, retry, env) == retry
    ensures CacheAfter(entries, key, built, env) == entries
  {
  }

  /** Within the cache window a second lookup returns the snapshot the first one stored,
      even when the rows have changed since, and writes nothing. */
  lemma SecondLookupHits(entries: map<string, CacheEntry>, key: string,
                         built: Result<Snapshot, string>, later: Result<Snapshot, string>,
                         retry: Result<Snapshot, string>, env: Env, env': Env)
    requires StoresSnapshot(entries, key, built, env) && !env'.cacheGetFails
    ensures var e := CacheAfter(entries, key, built, env);
            CachedSnapshot(e, key, later, retry, env') == built && CacheAfter(e, key, later, env') == e
  {
  }

  /** After an invalidation the next lookup rebuilds from the rows. Invalidating twice is
      the same as invalidating once. */
  lemma InvalidatedRebuilds(entries: map<string, CacheEntry>, key: string,
                            built: Result<Snapshot, string>, retry: Result<Snapshot, string>, env: Env)
    ensures CachedSnapshot(Invalidated(entries, key, false), key, built, retry, env)
            == if built.Ok? && !env.cacheGetFails && !env.cacheSetFails then built else retry
    ensures Invalidated(Invalidated(entries, key, false), key, false) == Invalidated(entries, key, false)
    ensures key !in Invalidated(entries, key, false)
  {
  }

  /** The first frame of a session: the snapshot, or the error that replaced it. */
  function InitialFrame(r: Result<Snapshot, string>): Frame {
    match r
    case Ok(s) => Frame("initial_data", SnapshotBody(s))
    case Err(e) => ErrorFrame("Failed to load initial data: " + e)
  }

  // --------------------------------------------------- UUID encoding

  /** An object `json.dumps` cannot write itself: a UUID, or an object of another type
      without `__dict__`. */
  datatype Opaque = UuidObject(uuid: Uuid) | OtherObject(typeName: string)

  /** `UUIDEncoder.default`: a UUID becomes its hyphenated string, which reads back as the
      same UUID; anything else is refused as the base encoder refuses it. */
  function EncodeDefault(o: Opaque): (r: Result<string, Exception>)
    ensures o.UuidObject? ==> r.Ok? && |r.value| == 36 && ParseUuid(r.value) == Some(o.uuid)
    ensures o.OtherObject? ==> r.Err? && r.error.TypeError?
  {
    match o
    case UuidObject(u) => ParseCanonical(u); Ok(Canonical(u))
    case OtherObject(t) => Err(TypeError("Object of type " + t + " is not JSON serializable"))
  }
}
