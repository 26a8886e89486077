/** The Subscription collection: the subscriptions service, whose create
    refuses a duplicate by matching only the fields supplied, and the
    handlers of the subscriptions controller, which scope every request to
    the caller unless the caller is an admin. */
module Subscriptions {
  import opened Common
  import opened Tables

  /** A stored subscription of `subscriberId` to an author, a category or
      both. */
  datatype Subscription = Subscription(subscriberId: Id, authorId: Option<Id>, categoryId: Option<Id>)

  /** The create payload as the controller receives it: the subscriber may
      be left out. */
  datatype SubscriptionDraft = SubscriptionDraft(subscriberId: Option<Id>, authorId: Option<Id>, categoryId: Option<Id>)

  /** The update payload: each field optional. */
  datatype SubscriptionPatch = SubscriptionPatch(subscriberId: Option<Id>, authorId: Option<Id>, categoryId: Option<Id>)

  /** The duplicate probe of `create` and of `checkSubscription`: same
      subscriber, and equal on each of author and category that is given;
      an absent one is not part of the filter. */
  predicate Matches(s: Subscription, subscriberId: Id, authorId: Option<Id>, categoryId: Option<Id>) {
    s.subscriberId == subscriberId
    && (authorId.Some? ==> s.authorId == authorId)
    && (categoryId.Some? ==> s.categoryId == categoryId)
  }

  /** A subscription as a whole tuple, the key of tuple uniqueness. */
  function TupleOf(s: Subscription): Subscription {
    s
  }

  /** `findByIdAndUpdate(id, dto)`: each field the payload carries replaces
      the stored one. */
  function Patched(s: Subscription, u: SubscriptionPatch): Subscription {
    Subscription(u.subscriberId.GetOr(s.subscriberId),
                 if u.authorId.Some? then u.authorId else s.authorId,
                 if u.categoryId.Some? then u.categoryId else s.categoryId)
  }

  /** A subscription matches its own full tuple, so the probe of `create`
      catches every exact duplicate. */
  lemma MatchesItself(s: Subscription)
    ensures Matches(s, s.subscriberId, s.authorId, s.categoryId)
  {
  }

  class SubscriptionTable {
    var subscriptions: map<Id, Subscription>
    var nextId: Id

    /** Every id was handed out. The schema declares no unique index, so
        tuple uniqueness is not part of the invariant. */
    ghost predicate Valid()
      reads this
    {
      forall id :: id in subscriptions ==> id < nextId
    }

    constructor ()
      ensures Valid() && subscriptions == map[]
    {
      subscriptions := map[];
      nextId := 0;
    }

    /** `checkSubscription(subscriberId, authorId?, categoryId?)`: whether
        some subscription matches the subscriber and each given field. */
    function CheckSubscription(subscriberId: Id, authorId: Option<Id>, categoryId: Option<Id>): (r: bool)
      reads this
      requires Valid()
      ensures r <==> exists id :: id in subscriptions && Matches(subscriptions[id], subscriberId, authorId, categoryId)
    {
      var keep := (s: Subscription) => Matches(s, subscriberId, authorId, categoryId);
      SelectMembers(subscriptions, keep, nextId);
      var hits := Select(subscriptions, keep, nextId);
      assert (exists id :: id in subscriptions && keep(subscriptions[id])) ==> hits != [] by {
        if exists id :: id in subscriptions && keep(subscriptions[id]) {
          var i :| i in subscriptions && keep(subscriptions[i]);
          assert (i, subscriptions[i]) in hits;
        }
      }
      assert hits != [] ==> hits[0].0 in subscriptions && keep(subscriptions[hits[0].0]) by {
        if hits != [] {
          assert hits[0] in hits;
        }
      }
      hits != []
    }

    /** `create(dto)`: Conflict when neither author nor category is given,
        Conflict when a subscription already matches, otherwise exactly one
        new subscription. An insert keeps whole tuples unique. */
    method Create(dto: Subscription) returns (r: Outcome<(Id, Subscription)>)
      requires Valid()
      modifies this
      ensures Valid()
      ensures r == Conflict <==>
        (dto.authorId.None? && dto.categoryId.None?) ||
        old(CheckSubscription(dto.subscriberId, dto.authorId, dto.categoryId))
      ensures r == Conflict ==> subscriptions == old(subscriptions)
      ensures r != Conflict ==>
        r.Ok? && r.value.1 == dto && r.value.0 !in old(subscriptions) &&
        subscriptions == old(subscriptions)[r.value.0 := dto]
      ensures Unique(old(subscriptions), TupleOf) ==> Unique(subscriptions, TupleOf)
    {
      if dto.authorId.None? && dto.categoryId.None? {
        return Conflict;
      }
      if CheckSubscription(dto.subscriberId, dto.authorId, dto.categoryId) {
        return Conflict;
      }
      var id := nextId;
      if Unique(subscriptions, TupleOf) {
        MatchesItself(dto);
        WriteKeepsUnique(subscriptions, TupleOf, id, dto);
      }
      subscriptions := subscriptions[id := dto];
      nextId := nextId + 1;
      r := Ok((id, dto));
    }

    /** `findAll()`: every subscription. */
    function FindAll(): (r: seq<(Id, Subscription)>)
      reads this
      requires Valid()
      ensures forall id, s :: (id, s) in r <==> id in subscriptions && subscriptions[id] == s
    {
      var keep := (s: Subscription) => true;
      SelectMembers(subscriptions, keep, nextId);
      Select(subscriptions, keep, nextId)
    }

    /** `findBySubscriber(subscriberId)`: exactly that user's subscriptions. */
    function FindBySubscriber(subscriberId: Id): (r: seq<(Id, Subscription)>)
      reads this
      requires Valid()
      ensures forall id, s :: (id, s) in r <==> id in subscriptions && subscriptions[id] == s && s.subscriberId == subscriberId
    {
      var keep := (s: Subscription) => s.subscriberId == subscriberId;
      SelectMembers(subscriptions, keep, nextId);
      Select(subscriptions, keep, nextId)
    }

    /** `findByAuthor(authorId)`: exactly the subscriptions to that author. */
    function FindByAuthor(authorId: Id): (r: seq<(Id, Subscription)>)
      reads this
      requires Valid()
      ensures forall id, s :: (id, s) in r <==> id in subscriptions && subscriptions[id] == s && s.authorId == Some(authorId)
    {
      var keep := (s: Subscription) => s.authorId == Some(authorId);
      SelectMembers(subscriptions, keep, nextId);
      Select(subscriptions, keep, nextId)
    }

    /** `findByCategory(categoryId)`: exactly the subscriptions to that
        category. */
    function FindByCategory(categoryId: Id): (r: seq<(Id, Subscription)>)
      reads this
      requires Valid()
      ensures forall id, s :: (id, s) in r <==> id in subscriptions && subscriptions[id] == s && s.categoryId == Some(categoryId)
    {
      var keep := (s: Subscription) => s.categoryId == Some(categoryId);
      SelectMembers(subscriptions, keep, nextId);
      Select(subscriptions, keep, nextId)
    }

    /** `findOne(id)`: the subscription, or NotFound. */
    function FindOne(id: Id): (r: Outcome<Subscription>)
      reads this
      ensures r.Ok? <==> id in subscriptions
      ensures r.Ok? ==> r.value == subscriptions[id]
      ensures !r.Ok? ==> r == NotFound
    {
      if id in subscriptions then Ok(subscriptions[id]) else NotFound
    }

    /** `update(id, dto)`: applies the payload with no duplicate check. */
    method Update(id: Id, patch: SubscriptionPatch) returns (r: Outcome<Subscription>)
      requires Valid()
      modifies this
      ensures Valid()
      ensures id !in old(subscriptions) ==> r == NotFound && subscriptions == old(subscriptions)
      ensures id in old(subscriptions) ==>
        r == Ok(Patched(old(subscriptions)[id], patch)) && subscriptions == old(subscriptions)[id := r.value]
    {
      if id !in subscriptions {
        return NotFound;
      }
      var s := Patched(subscriptions[id], patch);
      subscriptions := subscriptions[id := s];
      r := Ok(s);
    }

    /** `remove(id)`: only subscription `id` goes. */
    method Remove(id: Id) returns (r: Outcome<()>)
      requires Valid()
      modifies this
      ensures Valid()
      ensures id !in old(subscriptions) ==> r == NotFound && subscriptions == old(subscriptions)
      ensures id in old(subscriptions) ==> r == Ok(()) && subscriptions == old(subscriptions) - {id}
    {
      if id !in subscriptions {
        return NotFound;
      }
      subscriptions := subscriptions - {id};
      r := Ok(());
    }

    /** Controller `create`: a missing subscriber becomes the caller; a
        non-admin naming someone else is refused before anything is
        written. */
    method HandleCreate(caller: Principal, dto: SubscriptionDraft) returns (r: Outcome<(Id, Subscription)>)
      requires Valid()
      modifies this
      ensures Valid()
      ensures dto.subscriberId.Some? && !OwnerOrAdmin(caller, dto.subscriberId.value) ==>
        r == Forbidden && subscriptions == old(subscriptions)
      ensures dto.subscriberId.None? || OwnerOrAdmin(caller, dto.subscriberId.value) ==>
        var s := Subscription(dto.subscriberId.GetOr(caller.userId), dto.authorId, dto.categoryId);
        (r == Conflict <==>
          (s.authorId.None? && s.categoryId.None?) || old(CheckSubscription(s.subscriberId, s.authorId, s.categoryId))) &&
        (r == Conflict ==> subscriptions == old(subscriptions)) &&
        (r != Conflict ==>
          r.Ok? && r.value.1 == s && r.value.0 !in old(subscriptions) &&
          subscriptions == old(subscriptions)[r.value.0 := s])
    {
      var subscriberId := caller.userId;
      if dto.subscriberId.Some? {
        if !OwnerOrAdmin(caller, dto.subscriberId.value) {
          return Forbidden;
        }
        subscriberId := dto.subscriberId.value;
      }
      r := Create(Subscription(subscriberId, dto.authorId, dto.categoryId));
    }

    /** Controller `findAll`: an admin filters by the first given of
        subscriber, author and category, else sees everything; anyone else
        sees exactly their own subscriptions, whatever the filters say. */
    function HandleFindAll(caller: Principal, subscriberId: Option<Id>, authorId: Option<Id>, categoryId: Option<Id>)
      : (r: seq<(Id, Subscription)>)
      reads this
      requires Valid()
      ensures caller.role == User ==> forall id, s :: (id, s) in r <==>
        id in subscriptions && subscriptions[id] == s && s.subscriberId == caller.userId
      ensures caller.role == Admin ==> forall id, s :: (id, s) in r <==>
        (id in subscriptions && subscriptions[id] == s &&
         (subscriberId.Some? ==> s.subscriberId == subscriberId.value) &&
         (subscriberId.None? && authorId.Some? ==> s.authorId == authorId) &&
         (subscriberId.None? && authorId.None? && categoryId.Some? ==> s.categoryId == categoryId))
    {
      if caller.role == Admin then
        if subscriberId.Some? then FindBySubscriber(subscriberId.value)
        else if authorId.Some? then FindByAuthor(authorId.value)
        else if categoryId.Some? then FindByCategory(categoryId.value)
        else FindAll()
      else
        FindBySubscriber(caller.userId)
    }

    /** Controller `findOne(id)`: NotFound, then the owner-or-admin gate. */
    function HandleFindOne(caller: Principal, id: Id): (r: Outcome<Subscription>)
      reads this
      ensures id !in subscriptions ==> r == NotFound
      ensures id in subscriptions && !OwnerOrAdmin(caller, subscriptions[id].subscriberId) ==> r == Forbidden
      ensures id in subscriptions && OwnerOrAdmin(caller, subscriptions[id].subscriberId) ==> r == Ok(subscriptions[id])
    {
      var found := FindOne(id);
      if !found.Ok? then NotFound
      else if !OwnerOrAdmin(caller, found.value.subscriberId) then Forbidden
      else found
    }

    /** Controller `checkSubscription(authorId?, categoryId?)`: the probe
        always uses the caller as subscriber. */
    function HandleCheckSubscription(caller: Principal, authorId: Option<Id>, categoryId: Option<Id>): (r: bool)
      reads this
      requires Valid()
      ensures r <==> exists id :: id in subscriptions && Matches(subscriptions[id], caller.userId, authorId, categoryId)
    {
      CheckSubscription(caller.userId, authorId, categoryId)
    }

    /** Controller `update(id)`: NotFound, then the owner-or-admin gate, then
        the rule that a non-admin may not hand the subscription to someone
        else; no duplicate check. */
    method HandleUpdate(caller: Principal, id: Id, patch: SubscriptionPatch) returns (r: Outcome<Subscription>)
      requires Valid()
      modifies this
      ensures Valid()
      ensures id !in old(subscriptions) ==> r == NotFound && subscriptions == old(subscriptions)
      ensures id in old(subscriptions) && !OwnerOrAdmin(caller, old(subscriptions)[id].subscriberId) ==>
        r == Forbidden && subscriptions == old(subscriptions)
      ensures id in old(subscriptions) && patch.subscriberId.Some? && !OwnerOrAdmin(caller, patch.subscriberId.value) ==>
        r == Forbidden && subscriptions == old(subscriptions)
      ensures id in old(subscriptions) && OwnerOrAdmin(caller, old(subscriptions)[id].subscriberId) &&
              (patch.subscriberId.None? || OwnerOrAdmin(caller, patch.subscriberId.value)) ==>
        r == Ok(Patched(old(subscriptions)[id], patch)) && subscriptions == old(subscriptions)[id := r.value]
    {
      var found := FindOne(id);
      if !found.Ok? {
        return NotFound;
      }
      if !OwnerOrAdmin(caller, found.value.subscriberId) {
        return Forbidden;
      }
      if patch.subscriberId.Some? && !OwnerOrAdmin(caller, patch.subscriberId.value) {
        return Forbidden;
      }
      r := Update(id, patch);
    }

    /** Controller `remove(id)`: NotFound, then the owner-or-admin gate, then
        the deletion. */
    method HandleRemove(caller: Principal, id: Id) returns (r: Outcome<()>)
      requires Valid()
      modifies this
      ensures Valid()
      ensures id !in old(subscriptions) ==> r == NotFound && subscriptions == old(subscriptions)
      ensures id in old(subscriptions) && !OwnerOrAdmin(caller, old(subscriptions)[id].subscriberId) ==>
        r == Forbidden && subscriptions == old(subscriptions)
      ensures id in old(subscriptions) && OwnerOrAdmin(caller, old(subscriptions)[id].subscriberId) ==>
        r == Ok(()) && subscriptions == old(subscriptions) - {id}
    {
      var found := FindOne(id);
      if !found.Ok? {
        return NotFound;
      }
      if !OwnerOrAdmin(caller, found.value.subscriberId) {
        return Forbidden;
      }
      r := Remove(id);
    }
  }
}
