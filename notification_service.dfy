/**
 * The notification collection of the order service: notification records,
 * their insertion, the per-recipient listing and the mark-as-read update.
 * The live push that follows every insertion belongs to the order engine
 * (OrderService.OrderEngine.SendNotification), which owns the outbox.
 */
module NotificationService {
  import opened OrderTypes
  import opened Listing

  /** The record `sendNotification` builds before persisting it. */
  datatype Notification = Notification(
    userTo: string,
    senderUsername: string,
    senderPicture: string,
    receiverUsername: string,
    receiverPicture: string,
    message: string,
    orderId: string)

  /** A persisted notification: the store adds an id, the schema's `isRead`
      default, the `read` flag that markNotificationsAsRead writes, and the
      insertion stamp `createdAt`. */
  datatype StoredNotification = StoredNotification(
    id: nat,
    record: Notification,
    isRead: bool,
    read: bool,
    createdAt: Timestamp)

  /** The record for `order` addressed to `userTo`: the seller is always the
      sender and the buyer always the receiver, whoever `userTo` is. */
  function BuildNotification(order: Order, userTo: string, message: string): Notification {
    Notification(userTo, order.sellerUsername, order.sellerImage,
                 order.buyerUsername, order.buyerImage, message, order.orderId)
  }

  /** The record sendNotification persists for `order`, as stored under `id` at `now`. */
  function NewRecord(id: nat, order: Order, userTo: string, message: string, now: Timestamp): StoredNotification {
    StoredNotification(id, BuildNotification(order, userTo, message), false, false, now)
  }

  function NotificationTime(n: StoredNotification): Timestamp {
    n.createdAt
  }

  /** The `$match: {userTo}` stage: keeps exactly the records addressed to `userTo`,
      each as often as it occurs in `s`. */
  function AddressedTo(s: seq<StoredNotification>, userTo: string): (r: seq<StoredNotification>)
    ensures forall n :: multiset(r)[n] == if n.record.userTo == userTo then multiset(s)[n] else 0
  {
    if s == [] then []
    else
      var init, last := s[..|s| - 1], s[|s| - 1];
      assert s == init + [last];
      var rest := AddressedTo(init, userTo);
      if last.record.userTo == userTo then rest + [last] else rest
  }

  /** The update markNotificationsAsRead applies: the record with id `id` gets
      `read` set; every other record, and every other field, is left alone. */
  function MarkRead(s: seq<StoredNotification>, id: nat): (r: seq<StoredNotification>)
    ensures |r| == |s|
    ensures forall i :: 0 <= i < |s| && i != id ==> r[i] == s[i]
    ensures id < |s| ==> r[id].read && r[id].(read := s[id].read) == s[id]
  {
    if id < |s| then s[id := s[id].(read := true)] else s
  }

  /** Marking the same notification twice is the same as marking it once. */
  lemma MarkReadIdempotent(s: seq<StoredNotification>, id: nat)
    ensures MarkRead(MarkRead(s, id), id) == MarkRead(s, id)
  {
  }

  class NotificationStore {
    /** The collection, in insertion order. */
    var records: seq<StoredNotification>

    /** Ids are assigned in insertion order, so each names one record. */
    ghost predicate Valid()
      reads this
    {
      forall i :: 0 <= i < |records| ==> records[i].id == i
    }

    constructor ()
      ensures Valid() && records == []
    {
      records := [];
    }

    /** createNotification: stores exactly `data`, unread and stamped `now`,
        and grows the collection by one. */
    method CreateNotification(data: Notification, now: Timestamp) returns (stored: StoredNotification)
      requires Valid()
      modifies this
      ensures Valid()
      ensures stored.record == data && !stored.isRead && !stored.read && stored.createdAt == now
      ensures stored.id == |old(records)|
      ensures records == old(records) + [stored]
    {
      stored := StoredNotification(|records|, data, false, false, now);
      records := records + [stored];
    }

    /** getNotificationsById: the notifications addressed to `userTo`, newest first. */
    function GetNotificationsById(userTo: string): (r: seq<StoredNotification>)
      reads this
      ensures NewestFirst(r, NotificationTime)
      ensures forall n :: multiset(r)[n] == if n.record.userTo == userTo then multiset(records)[n] else 0
    {
      SortNewestFirst(AddressedTo(records, userTo), NotificationTime)
    }

    /** markNotificationsAsRead: sets `read` on the record with id `id` and
        returns it; an unknown id matches nothing and yields None. */
    method MarkNotificationsAsRead(id: nat) returns (r: Option<StoredNotification>)
      requires Valid()
      modifies this
      ensures Valid()
      ensures records == MarkRead(old(records), id)
      ensures id < |records| ==> r == Some(records[id]) && r.value.id == id && r.value.read
      ensures id >= |records| ==> r == None && records == old(records)
    {
      records := MarkRead(records, id);
      r := if id < |records| then Some(records[id]) else None;
    }
  }
}
