/** The Notification collection: the notifications service, whose update,
    markAsRead and remove apply the ownership rule themselves, and the
    handlers of the notifications controller, which scope listing and bulk
    reading to the caller. */
module Notifications {
  import opened Common
  import opened Tables

  /** A stored notification for user `userId`. */
  datatype Notification = Notification(userId: Id, message: string, isRead: bool)

  /** The create payload. */
  datatype NotificationDraft = NotificationDraft(userId: Id, message: string, isRead: Option<bool>)

  /** The update payload: each field optional. */
  datatype NotificationPatch = NotificationPatch(userId: Option<Id>, message: Option<string>, isRead: Option<bool>)

  /** The document `new notificationModel(dto)` builds: `isRead` defaults to
      false. */
  function Built(d: NotificationDraft): Notification {
    Notification(d.userId, d.message, d.isRead.GetOr(false))
  }

  /** `findByIdAndUpdate(id, dto)`: each field the payload carries replaces
      the stored one. */
  function Patched(n: Notification, u: NotificationPatch): Notification {
    Notification(u.userId.GetOr(n.userId), u.message.GetOr(n.message), u.isRead.GetOr(n.isRead))
  }

  /** `updateMany({ userId, isRead: false }, { isRead: true })` on a table:
      the unread notifications of `userId` become read, nothing else moves. */
  function AllRead(rows: map<Id, Notification>, userId: Id): (r: map<Id, Notification>)
    ensures r.Keys == rows.Keys
    ensures forall id :: id in r ==>
      r[id].userId == rows[id].userId && r[id].message == rows[id].message &&
      r[id].isRead == (rows[id].isRead || rows[id].userId == userId)
  {
    map id | id in rows :: if rows[id].userId == userId && !rows[id].isRead then rows[id].(isRead := true) else rows[id]
  }

  /** `userId` has unread notifications in `rows`. */
  predicate HasUnread(rows: map<Id, Notification>, userId: Id) {
    exists id :: id in rows && rows[id].userId == userId && !rows[id].isRead
  }

  /** Marking everything read twice is marking it read once. */
  lemma AllReadIdempotent(rows: map<Id, Notification>, userId: Id)
    ensures AllRead(AllRead(rows, userId), userId) == AllRead(rows, userId)
  {
    var once := AllRead(rows, userId);
    assert !HasUnread(once, userId);
    AllReadWithoutUnread(once, userId);
  }

  /** With no unread notifications, marking all read changes nothing. */
  lemma AllReadWithoutUnread(rows: map<Id, Notification>, userId: Id)
    requires !HasUnread(rows, userId)
    ensures AllRead(rows, userId) == rows
  {
    var r := AllRead(rows, userId);
    forall id | id in rows
      ensures r[id] == rows[id]
    {
      assert !(rows[id].userId == userId && !rows[id].isRead);
    }
  }

  class NotificationTable {
    var notifications: map<Id, Notification>
    var nextId: Id

    /** Every id was handed out. */
    ghost predicate Valid()
      reads this
    {
      forall id :: id in notifications ==> id < nextId
    }

    constructor ()
      ensures Valid() && notifications == map[]
    {
      notifications := map[];
      nextId := 0;
    }

    /** `create(dto)`: the schema's `required` validator refuses an empty
        message; otherwise exactly one new notification. */
    method Create(dto: NotificationDraft) returns (r: Outcome<(Id, Notification)>)
      requires Valid()
      modifies this
      ensures Valid()
      ensures dto.message == "" ==> r == Rejected && notifications == old(notifications)
      ensures dto.message != "" ==>
        r.Ok? && r.value.1 == Built(dto) && r.value.0 !in old(notifications) &&
        notifications == old(notifications)[r.value.0 := r.value.1]
    {
      if dto.message == "" {
        return Rejected;
      }
      var n := Built(dto);
      var id := nextId;
      notifications := notifications[id := n];
      nextId := nextId + 1;
      r := Ok((id, n));
    }

    /** `findAll()`: every notification, newest first. */
    function FindAll(): (r: seq<(Id, Notification)>)
      reads this
      requires Valid()
      ensures forall id, n :: (id, n) in r <==> id in notifications && notifications[id] == n
      ensures NewestFirst(r)
    {
      var keep := (n: Notification) => true;
      SelectMembers(notifications, keep, nextId);
      SelectOrdered(notifications, keep, nextId);
      Select(notifications, keep, nextId)
    }

    /** `findByUserId(userId)`: exactly that user's notifications, newest
        first. */
    function FindByUserId(userId: Id): (r: seq<(Id, Notification)>)
      reads this
      requires Valid()
      ensures forall id, n :: (id, n) in r <==> id in notifications && notifications[id] == n && n.userId == userId
      ensures NewestFirst(r)
    {
      var keep := (n: Notification) => n.userId == userId;
      SelectMembers(notifications, keep, nextId);
      SelectOrdered(notifications, keep, nextId);
      Select(notifications, keep, nextId)
    }

    /** `findUnreadByUserId(userId)`: exactly that user's unread
        notifications, newest first. */
    function FindUnreadByUserId(userId: Id): (r: seq<(Id, Notification)>)
      reads this
      requires Valid()
      ensures forall id, n :: (id, n) in r <==>
        id in notifications && notifications[id] == n && n.userId == userId && !n.isRead
      ensures NewestFirst(r)
    {
      var keep := (n: Notification) => n.userId == userId && !n.isRead;
      SelectMembers(notifications, keep, nextId);
      SelectOrdered(notifications, keep, nextId);
      Select(notifications, keep, nextId)
    }

    /** `findOne(id)`: the notification, or NotFound. */
    function FindOne(id: Id): (r: Outcome<Notification>)
      reads this
      ensures r.Ok? <==> id in notifications
      ensures r.Ok? ==> r.value == notifications[id]
      ensures !r.Ok? ==> r == NotFound
    {
      if id in notifications then Ok(notifications[id]) else NotFound
    }

    /** `update(id, dto, userId, role)`: NotFound, then the owner-or-admin
        gate, then the payload. */
    method Update(id: Id, patch: NotificationPatch, caller: Principal) returns (r: Outcome<Notification>)
      requires Valid()
      modifies this
      ensures Valid()
      ensures id !in old(notifications) ==> r == NotFound && notifications == old(notifications)
      ensures id in old(notifications) && !OwnerOrAdmin(caller, old(notifications)[id].userId) ==>
        r == Forbidden && notifications == old(notifications)
      ensures id in old(notifications) && OwnerOrAdmin(caller, old(notifications)[id].userId) ==>
        r == Ok(Patched(old(notifications)[id], patch)) && notifications == old(notifications)[id := r.value]
    {
      var found := FindOne(id);
      if !found.Ok? {
        return NotFound;
      }
      if !OwnerOrAdmin(caller, found.value.userId) {
        return Forbidden;
      }
      var n := Patched(found.value, patch);
      notifications := notifications[id := n];
      r := Ok(n);
    }

    /** `markAsRead(id, userId, role)`: NotFound, then the owner-or-admin
        gate; only `isRead` changes. */
    method MarkAsRead(id: Id, caller: Principal) returns (r: Outcome<Notification>)
      requires Valid()
      modifies this
      ensures Valid()
      ensures id !in old(notifications) ==> r == NotFound && notifications == old(notifications)
      ensures id in old(notifications) && !OwnerOrAdmin(caller, old(notifications)[id].userId) ==>
        r == Forbidden && notifications == old(notifications)
      ensures id in old(notifications) && OwnerOrAdmin(caller, old(notifications)[id].userId) ==>
        r == Ok(old(notifications)[id].(isRead := true)) && notifications == old(notifications)[id := r.value]
    {
      var found := FindOne(id);
      if !found.Ok? {
        return NotFound;
      }
      if !OwnerOrAdmin(caller, found.value.userId) {
        return Forbidden;
      }
      var n := found.value.(isRead := true);
      notifications := notifications[id := n];
      r := Ok(n);
    }

    /** `markAllAsRead(userId)`: every notification of `userId` ends up read
        and no other user's notification changes. */
    method MarkAllAsRead(userId: Id)
      requires Valid()
      modifies this
      ensures Valid()
      ensures notifications == AllRead(old(notifications), userId)
    {
      notifications := AllRead(notifications, userId);
    }

    /** `remove(id, userId, role)`: NotFound, then the owner-or-admin gate,
        then the deletion of that notification alone. */
    method Remove(id: Id, caller: Principal) returns (r: Outcome<()>)
      requires Valid()
      modifies this
      ensures Valid()
      ensures id !in old(notifications) ==> r == NotFound && notifications == old(notifications)
      ensures id in old(notifications) && !OwnerOrAdmin(caller, old(notifications)[id].userId) ==>
        r == Forbidden && notifications == old(notifications)
      ensures id in old(notifications) && OwnerOrAdmin(caller, old(notifications)[id].userId) ==>
        r == Ok(()) && notifications == old(notifications) - {id}
    {
      var found := FindOne(id);
      if !found.Ok? {
        return NotFound;
      }
      if !OwnerOrAdmin(caller, found.value.userId) {
        return Forbidden;
      }
      notifications := notifications - {id};
      r := Ok(());
    }

    /** Controller `create`: a non-admin may only notify itself; the refusal
        comes before anything is written. */
    method HandleCreate(caller: Principal, dto: NotificationDraft) returns (r: Outcome<(Id, Notification)>)
      requires Valid()
      modifies this
      ensures Valid()
      ensures !OwnerOrAdmin(caller, dto.userId) ==> r == Forbidden && notifications == old(notifications)
      ensures OwnerOrAdmin(caller, dto.userId) && dto.message == "" ==>
        r == Rejected && notifications == old(notifications)
      ensures OwnerOrAdmin(caller, dto.userId) && dto.message != "" ==>
        r.Ok? && r.value.1 == Built(dto) && r.value.0 !in old(notifications) &&
        notifications == old(notifications)[r.value.0 := r.value.1]
    {
      if !OwnerOrAdmin(caller, dto.userId) {
        return Forbidden;
      }
      r := Create(dto);
    }

    /** Controller `findAll`: an admin sees every notification; anyone else
        gets exactly their own, with no error. */
    function HandleFindAll(caller: Principal): (r: seq<(Id, Notification)>)
      reads this
      requires Valid()
      ensures forall id, n :: (id, n) in r <==>
        (id in notifications && notifications[id] == n && (caller.role != Admin ==> n.userId == caller.userId))
      ensures NewestFirst(r)
    {
      if caller.role != Admin then FindByUserId(caller.userId) else FindAll()
    }

    /** Controller `findUnread`: the caller's own unread notifications. */
    function HandleFindUnread(caller: Principal): (r: seq<(Id, Notification)>)
      reads this
      requires Valid()
      ensures forall id, n :: (id, n) in r <==>
        id in notifications && notifications[id] == n && n.userId == caller.userId && !n.isRead
      ensures NewestFirst(r)
    {
      FindUnreadByUserId(caller.userId)
    }

    /** Controller `markAllAsRead`: acts on the caller's own notifications
        only. */
    method HandleMarkAllAsRead(caller: Principal)
      requires Valid()
      modifies this
      ensures Valid()
      ensures notifications == AllRead(old(notifications), caller.userId)
    {
      MarkAllAsRead(caller.userId);
    }
  }
}
