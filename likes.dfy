/** The Like collection: the likes service over a table with a unique
    compound index on (userId, postId), and the handlers of the likes
    controller, which bind every like to the caller. */
module Likes {
  import opened Common
  import opened Tables

  /** A stored like: one user's like of one post. */
  datatype Like = Like(userId: Id, postId: Id)

  /** The key of the compound unique index `{ userId: 1, postId: 1 }`. */
  function PairOf(l: Like): (Id, Id) {
    (l.userId, l.postId)
  }

  /** The ids of the likes of post `postId`. */
  function LikersOf(likes: map<Id, Like>, postId: Id): set<Id> {
    set id | id in likes && likes[id].postId == postId
  }

  class LikeTable {
    var likes: map<Id, Like>
    var nextId: Id

    /** Every id was handed out, and no user likes a post twice. */
    ghost predicate Valid()
      reads this
    {
      (forall id :: id in likes ==> id < nextId) && Unique(likes, PairOf)
    }

    constructor ()
      ensures Valid() && likes == map[]
    {
      likes := map[];
      nextId := 0;
    }

    /** `create(dto)`: the unique index turns a second like of the same
        post by the same user into Conflict; otherwise one like is added. */
    method Create(dto: Like) returns (r: Outcome<(Id, Like)>)
      requires Valid()
      modifies this
      ensures Valid()
      ensures HeldBy(old(likes), PairOf, PairOf(dto), {}) ==> r == Conflict && likes == old(likes)
      ensures !HeldBy(old(likes), PairOf, PairOf(dto), {}) ==>
        r.Ok? && r.value.1 == dto && r.value.0 !in old(likes) && likes == old(likes)[r.value.0 := dto]
    {
      if HeldBy(likes, PairOf, PairOf(dto), {}) {
        return Conflict;
      }
      var id := nextId;
      WriteKeepsUnique(likes, PairOf, id, dto);
      likes := likes[id := dto];
      nextId := nextId + 1;
      r := Ok((id, dto));
    }

    /** `findAll()`: every like. */
    function FindAll(): (r: seq<(Id, Like)>)
      reads this
      requires Valid()
      ensures forall id, l :: (id, l) in r <==> id in likes && likes[id] == l
    {
      var keep := (l: Like) => true;
      SelectMembers(likes, keep, nextId);
      Select(likes, keep, nextId)
    }

    /** `findByPostId(postId)`: exactly the likes of that post. */
    function FindByPostId(postId: Id): (r: seq<(Id, Like)>)
      reads this
      requires Valid()
      ensures forall id, l :: (id, l) in r <==> id in likes && likes[id] == l && l.postId == postId
    {
      var keep := (l: Like) => l.postId == postId;
      SelectMembers(likes, keep, nextId);
      Select(likes, keep, nextId)
    }

    /** `findByUserId(userId)`: exactly the likes by that user. */
    function FindByUserId(userId: Id): (r: seq<(Id, Like)>)
      reads this
      requires Valid()
      ensures forall id, l :: (id, l) in r <==> id in likes && likes[id] == l && l.userId == userId
    {
      var keep := (l: Like) => l.userId == userId;
      SelectMembers(likes, keep, nextId);
      Select(likes, keep, nextId)
    }

    /** `findOne(id)`: the like, or NotFound. */
    function FindOne(id: Id): (r: Outcome<Like>)
      reads this
      ensures r.Ok? <==> id in likes
      ensures r.Ok? ==> r.value == likes[id]
      ensures !r.Ok? ==> r == NotFound
    {
      if id in likes then Ok(likes[id]) else NotFound
    }

    /** `findUserLike(userId, postId)`: the like of that user on that post,
        if there is one. */
    function FindUserLike(userId: Id, postId: Id): (r: Option<(Id, Like)>)
      reads this
      requires Valid()
      ensures r.Some? <==> HeldBy(likes, PairOf, (userId, postId), {})
      ensures r.Some? ==> r.value.0 in likes && likes[r.value.0] == r.value.1 && r.value.1 == Like(userId, postId)
    {
      var keep := (l: Like) => l.userId == userId && l.postId == postId;
      SelectMembers(likes, keep, nextId);
      var hits := Select(likes, keep, nextId);
      assert HeldBy(likes, PairOf, (userId, postId), {}) ==> hits != [] by {
        if HeldBy(likes, PairOf, (userId, postId), {}) {
          var i :| i in likes && PairOf(likes[i]) == (userId, postId);
          assert (i, likes[i]) in hits;
        }
      }
      assert hits != [] ==> PairOf(likes[hits[0].0]) == (userId, postId) by {
        if hits != [] {
          assert hits[0] in hits;
        }
      }
      if hits == [] then None else Some(hits[0])
    }

    /** `remove(id)`: only like `id` goes. */
    method Remove(id: Id) returns (r: Outcome<()>)
      requires Valid()
      modifies this
      ensures Valid()
      ensures id !in old(likes) ==> r == NotFound && likes == old(likes)
      ensures id in old(likes) ==> r == Ok(()) && likes == old(likes) - {id}
    {
      if id !in likes {
        return NotFound;
      }
      RemoveKeepsUnique(likes, PairOf, {id});
      likes := likes - {id};
      r := Ok(());
    }

    /** `removeLike(userId, postId)`: the one like of that user on that post
        goes, or NotFound when there is none. */
    method RemoveLike(userId: Id, postId: Id) returns (r: Outcome<()>)
      requires Valid()
      modifies this
      ensures Valid()
      ensures !HeldBy(old(likes), PairOf, (userId, postId), {}) ==> r == NotFound && likes == old(likes)
      ensures HeldBy(old(likes), PairOf, (userId, postId), {}) ==>
        r == Ok(()) && !HeldBy(likes, PairOf, (userId, postId), {}) &&
        exists id :: id in old(likes) && old(likes)[id] == Like(userId, postId) && likes == old(likes) - {id}
    {
      var found := FindUserLike(userId, postId);
      if found.None? {
        return NotFound;
      }
      var id := found.value.0;
      RemoveKeepsUnique(likes, PairOf, {id});
      likes := likes - {id};
      r := Ok(());
    }

    /** `countLikes(postId)`: the number of likes of the post. */
    function CountLikes(postId: Id): (r: nat)
      reads this
      requires Valid()
      ensures r == |LikersOf(likes, postId)|
    {
      var keep := (l: Like) => l.postId == postId;
      SelectCount(likes, keep, nextId);
      assert Matching(likes, keep, nextId) == LikersOf(likes, postId);
      |Select(likes, keep, nextId)|
    }

    /** Controller `like(postId)`: the like is always the caller's own. */
    method HandleLike(caller: Principal, postId: Id) returns (r: Outcome<(Id, Like)>)
      requires Valid()
      modifies this
      ensures Valid()
      ensures HeldBy(old(likes), PairOf, (caller.userId, postId), {}) ==> r == Conflict && likes == old(likes)
      ensures !HeldBy(old(likes), PairOf, (caller.userId, postId), {}) ==>
        r.Ok? && r.value.0 !in old(likes) && likes == old(likes)[r.value.0 := Like(caller.userId, postId)]
    {
      r := Create(Like(caller.userId, postId));
    }

    /** Controller `findAll(postId?, userId?)`: by post first, then by user,
        else every like. */
    function HandleFindAll(postId: Option<Id>, userId: Option<Id>): (r: seq<(Id, Like)>)
      reads this
      requires Valid()
      ensures forall id, l :: (id, l) in r <==>
        (id in likes && likes[id] == l &&
         (postId.Some? ==> l.postId == postId.value) &&
         (postId.None? && userId.Some? ==> l.userId == userId.value))
    {
      if postId.Some? then FindByPostId(postId.value)
      else if userId.Some? then FindByUserId(userId.value)
      else FindAll()
    }

    /** Controller `checkUserLike(postId)`: whether the caller likes the
        post. */
    function HandleCheckUserLike(caller: Principal, postId: Id): (hasLiked: bool)
      reads this
      requires Valid()
      ensures hasLiked <==> exists id :: id in likes && likes[id] == Like(caller.userId, postId)
    {
      FindUserLike(caller.userId, postId).Some?
    }

    /** Controller `unlike(postId)`: removes the caller's own like of the
        post and no one else's. */
    method HandleUnlike(caller: Principal, postId: Id) returns (r: Outcome<()>)
      requires Valid()
      modifies this
      ensures Valid()
      ensures !HeldBy(old(likes), PairOf, (caller.userId, postId), {}) ==> r == NotFound && likes == old(likes)
      ensures HeldBy(old(likes), PairOf, (caller.userId, postId), {}) ==>
        r == Ok(()) &&
        exists id :: id in old(likes) && old(likes)[id] == Like(caller.userId, postId) && likes == old(likes) - {id}
    {
      r := RemoveLike(caller.userId, postId);
    }

    /** Controller `remove(id)`: NotFound, then the owner-or-admin gate, then
        the deletion. */
    method HandleRemove(caller: Principal, id: Id) returns (r: Outcome<()>)
      requires Valid()
      modifies this
      ensures Valid()
      ensures id !in old(likes) ==> r == NotFound && likes == old(likes)
      ensures id in old(likes) && !OwnerOrAdmin(caller, old(likes)[id].userId) ==>
        r == Forbidden && likes == old(likes)
      ensures id in old(likes) && OwnerOrAdmin(caller, old(likes)[id].userId) ==>
        r == Ok(()) && likes == old(likes) - {id}
    {
      var found := FindOne(id);
      if !found.Ok? {
        return NotFound;
      }
      if !OwnerOrAdmin(caller, found.value.userId) {
        return Forbidden;
      }
      r := Remove(id);
    }
  }
}
