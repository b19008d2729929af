/** The two stores the session talks to: the database tables it reads and whose read
    flags it updates, and the key-value cache that holds serialized snapshots. */
module Storage {
  import opened Wrappers
  import opened Uuids
  import opened Values
  import opened Records

  /** The rows of the three tables. */
  class Store {
    var bookings: seq<Booking>
    var messages: seq<Message>
    var notifications: seq<Notification>

    /** Both tables have `id` as their primary key. */
    predicate Keyed()
      reads this
    {
      DistinctMessageIds(messages) && DistinctNotificationIds(notifications)
    }

    constructor (bookings: seq<Booking>, messages: seq<Message>, notifications: seq<Notification>)
      requires DistinctMessageIds(messages) && DistinctNotificationIds(notifications)
      ensures this.bookings == bookings && this.messages == messages
      ensures this.notifications == notifications
      ensures Keyed()
    {
      this.bookings := bookings;
      this.messages := messages;
      this.notifications := notifications;
    }

    /** `Message.objects.filter(id=id, receiver=receiver, is_read=False).update(is_read=True)` */
    method UpdateMessageRead(id: Json, receiver: Uuid) returns (count: nat)
      modifies this`messages
      ensures messages == MarkMessages(old(messages), id, receiver)
      ensures count == CountMessages(old(messages), id, receiver)
      ensures old(Keyed()) ==> Keyed() && count <= 1
    {
      if Keyed() {
        MarkMessagesOne(messages, id, receiver);
      }
      count := CountMessages(messages, id, receiver);
      messages := MarkMessages(messages, id, receiver);
    }

    /** `Notification.objects.filter(id=id, user=owner, is_read=False).update(is_read=True)` */
    method UpdateNotificationRead(id: Json, owner: Uuid) returns (count: nat)
      modifies this`notifications
      ensures notifications == MarkNotifications(old(notifications), id, owner)
      ensures count == CountNotifications(old(notifications), id, owner)
      ensures old(Keyed()) ==> Keyed() && count <= 1
    {
      if Keyed() {
        MarkNotificationsOne(notifications, id, owner);
      }
      count := CountNotifications(notifications, id, owner);
      notifications := MarkNotifications(notifications, id, owner);
    }

    /** `Notification.objects.filter(user=owner, is_read=False).update(is_read=True)` */
    method UpdateAllNotificationsRead(owner: Uuid) returns (count: nat)
      modifies this`notifications
      ensures notifications == MarkAllNotifications(old(notifications), owner)
      ensures count == UnreadCount(old(notifications), owner)
      ensures old(Keyed()) ==> Keyed()
    {
      MarkAllNotificationsSpec(notifications, owner);
      count := UnreadCount(notifications, owner);
      notifications := MarkAllNotifications(notifications, owner);
    }
  }

  /** What a cache entry holds: the JSON text of a snapshot this code wrote, or text
      that does not decode as one. */
  datatype CacheValue = Serialized(snapshot: Snapshot) | Undecodable(text: string)

  datatype CacheEntry = CacheEntry(value: CacheValue, timeout: nat)

  /** Python truthiness of the cached text: the JSON text of a snapshot is never empty. */
  predicate CachedTruthy(v: CacheValue) {
    v.Serialized? || v.text != []
  }

  /** The live entries of the cache. Expiry removes entries after their timeout; the
      clock that drives it is not part of the model. */
  class Cache {
    var entries: map<string, CacheEntry>

    constructor ()
      ensures entries == map[]
    {
      entries := map[];
    }

    /** `cache.aget(key)`: `None` on a miss. */
    method Get(key: string) returns (v: Option<CacheValue>)
      ensures key in entries ==> v == Some(entries[key].value)
      ensures key !in entries ==> v == None
    {
      v := if key in entries then Some(entries[key].value) else None;
    }

    /** `cache.aset(key, value, timeout=timeout)` */
    method Set(key: string, value: CacheValue, timeout: nat)
      modifies this
      ensures entries == old(entries)[key := CacheEntry(value, timeout)]
    {
      entries := entries[key := CacheEntry(value, timeout)];
    }

    /** `cache.adelete(key)`: deleting a missing key is not an error. */
    method Delete(key: string)
      modifies this
      ensures entries == old(entries) - {key}
    {
      entries := entries - {key};
    }
  }
}
