/** The Comment collection: the comments service, whose update and remove
    apply the ownership rule themselves, and the handlers of the comments
    controller, which stamp the caller on new comments and keep moderation
    to admins. */
module Comments {
  import opened Common
  import opened Tables

  /** A stored comment. A comment is pending until `isApproved` is true. */
  datatype Comment = Comment(postId: Id, userId: Id, commentText: string, isApproved: bool)

  /** The create payload; the controller overwrites `userId`. */
  datatype CommentDraft = CommentDraft(postId: Id, userId: Option<Id>, commentText: string, isApproved: Option<bool>)

  /** The update payload: each field optional. */
  datatype CommentPatch = CommentPatch(postId: Option<Id>, userId: Option<Id>, commentText: Option<string>,
                                       isApproved: Option<bool>)

  /** The schema's `required` validators, which `save()` runs. */
  predicate Storable(d: CommentDraft) {
    d.userId.Some? && d.commentText != ""
  }

  /** The document `new commentModel(dto)` builds: `isApproved` defaults to
      false. */
  function Built(d: CommentDraft): Comment
    requires d.userId.Some?
  {
    Comment(d.postId, d.userId.value, d.commentText, d.isApproved.GetOr(false))
  }

  /** An admin's update: each field the payload carries replaces the stored
      one. */
  function Patched(c: Comment, u: CommentPatch): Comment {
    Comment(u.postId.GetOr(c.postId), u.userId.GetOr(c.userId), u.commentText.GetOr(c.commentText),
            u.isApproved.GetOr(c.isApproved))
  }

  /** A non-admin owner's update: only `commentText` is taken from the
      payload, the other fields are dropped. */
  function TextOnly(c: Comment, u: CommentPatch): (r: Comment)
    ensures r.(commentText := c.commentText) == c
    ensures r == Patched(c, CommentPatch(None, None, u.commentText, None))
  {
    c.(commentText := u.commentText.GetOr(c.commentText))
  }

  /** The payload the create handler passes on: the caller as author, and a
      non-admin's `isApproved: true` turned into false. */
  function Stamped(d: CommentDraft, caller: Principal): (r: CommentDraft)
    ensures r.userId == Some(caller.userId)
    ensures caller.role == User ==> r.isApproved.GetOr(false) == false
    ensures caller.role == Admin ==> r.isApproved == d.isApproved
    ensures r.postId == d.postId && r.commentText == d.commentText
  {
    var approved := if d.isApproved == Some(true) && caller.role != Admin then Some(false) else d.isApproved;
    d.(userId := Some(caller.userId), isApproved := approved)
  }

  /** The effect of `create`: Rejected when a required field is missing,
      otherwise exactly one new comment. */
  ghost predicate Created(before: map<Id, Comment>, after: map<Id, Comment>, d: CommentDraft, r: Outcome<(Id, Comment)>) {
    if !Storable(d) then r == Rejected && after == before
    else r.Ok? && r.value.0 !in before && r.value.1 == Built(d) && after == before[r.value.0 := r.value.1]
  }

  class CommentTable {
    var comments: map<Id, Comment>
    var nextId: Id

    /** Every id was handed out. */
    ghost predicate Valid()
      reads this
    {
      forall id :: id in comments ==> id < nextId
    }

    constructor ()
      ensures Valid() && comments == map[]
    {
      comments := map[];
      nextId := 0;
    }

    /** `create(dto)`: store the comment as given. */
    method Create(dto: CommentDraft) returns (r: Outcome<(Id, Comment)>)
      requires Valid()
      modifies this
      ensures Valid()
      ensures Created(old(comments), comments, dto, r)
    {
      if !Storable(dto) {
        return Rejected;
      }
      var c := Built(dto);
      var id := nextId;
      comments := comments[id := c];
      nextId := nextId + 1;
      r := Ok((id, c));
    }

    /** `findAll()`: every comment, approved or not. */
    function FindAll(): (r: seq<(Id, Comment)>)
      reads this
      requires Valid()
      ensures forall id, c :: (id, c) in r <==> id in comments && comments[id] == c
    {
      var keep := (c: Comment) => true;
      SelectMembers(comments, keep, nextId);
      Select(comments, keep, nextId)
    }

    /** `findByPostId(postId)`: the approved comments on the post, newest
        first. */
    function FindByPostId(postId: Id): (r: seq<(Id, Comment)>)
      reads this
      requires Valid()
      ensures forall id, c :: (id, c) in r <==> id in comments && comments[id] == c && c.postId == postId && c.isApproved
      ensures NewestFirst(r)
    {
      var keep := (c: Comment) => c.postId == postId && c.isApproved;
      SelectMembers(comments, keep, nextId);
      SelectOrdered(comments, keep, nextId);
      Select(comments, keep, nextId)
    }

    /** `getPendingComments()`: exactly the comments not yet approved, newest
        first. */
    function GetPendingComments(): (r: seq<(Id, Comment)>)
      reads this
      requires Valid()
      ensures forall id, c :: (id, c) in r <==> id in comments && comments[id] == c && !c.isApproved
      ensures NewestFirst(r)
    {
      var keep := (c: Comment) => !c.isApproved;
      SelectMembers(comments, keep, nextId);
      SelectOrdered(comments, keep, nextId);
      Select(comments, keep, nextId)
    }

    /** `findOne(id)`: the comment, or NotFound. */
    function FindOne(id: Id): (r: Outcome<Comment>)
      reads this
      ensures r.Ok? <==> id in comments
      ensures r.Ok? ==> r.value == comments[id]
      ensures !r.Ok? ==> r == NotFound
    {
      if id in comments then Ok(comments[id]) else NotFound
    }

    /** `update(id, dto, userId, role)`: NotFound, then the owner-or-admin
        gate; a non-admin owner changes only the text, an admin applies the
        payload verbatim. */
    method Update(id: Id, patch: CommentPatch, caller: Principal) returns (r: Outcome<Comment>)
      requires Valid()
      modifies this
      ensures Valid()
      ensures id !in old(comments) ==> r == NotFound && comments == old(comments)
      ensures id in old(comments) && !OwnerOrAdmin(caller, old(comments)[id].userId) ==>
        r == Forbidden && comments == old(comments)
      ensures id in old(comments) && OwnerOrAdmin(caller, old(comments)[id].userId) ==>
        r.Ok? && comments == old(comments)[id := r.value] &&
        r.value == (if caller.role == Admin then Patched(old(comments)[id], patch) else TextOnly(old(comments)[id], patch))
    {
      var found := FindOne(id);
      if !found.Ok? {
        return NotFound;
      }
      if !OwnerOrAdmin(caller, found.value.userId) {
        return Forbidden;
      }
      var c := if caller.role == Admin then Patched(found.value, patch) else TextOnly(found.value, patch);
      comments := comments[id := c];
      r := Ok(c);
    }

    /** `remove(id, userId, role)`: NotFound, then the owner-or-admin gate,
        then the deletion of that comment alone. */
    method Remove(id: Id, caller: Principal) returns (r: Outcome<()>)
      requires Valid()
      modifies this
      ensures Valid()
      ensures id !in old(comments) ==> r == NotFound && comments == old(comments)
      ensures id in old(comments) && !OwnerOrAdmin(caller, old(comments)[id].userId) ==>
        r == Forbidden && comments == old(comments)
      ensures id in old(comments) && OwnerOrAdmin(caller, old(comments)[id].userId) ==>
        r == Ok(()) && comments == old(comments) - {id}
    {
      var found := FindOne(id);
      if !found.Ok? {
        return NotFound;
      }
      if !OwnerOrAdmin(caller, found.value.userId) {
        return Forbidden;
      }
      comments := comments - {id};
      r := Ok(());
    }

    /** `approveComment(id)`: the comment becomes approved; approving an
        approved comment changes nothing. */
    method ApproveComment(id: Id) returns (r: Outcome<Comment>)
      requires Valid()
      modifies this
      ensures Valid()
      ensures id !in old(comments) ==> r == NotFound && comments == old(comments)
      ensures id in old(comments) ==>
        r == Ok(old(comments)[id].(isApproved := true)) && comments == old(comments)[id := r.value]
      ensures id in old(comments) && old(comments)[id].isApproved ==> comments == old(comments)
    {
      if id !in comments {
        return NotFound;
      }
      var c := comments[id].(isApproved := true);
      comments := comments[id := c];
      r := Ok(c);
    }

    /** Controller `create`: the caller is the author whatever the payload
        says, and a non-admin's comment starts pending; nothing is refused
        for asking to be approved. */
    method HandleCreate(caller: Principal, dto: CommentDraft) returns (r: Outcome<(Id, Comment)>)
      requires Valid()
      modifies this
      ensures Valid()
      ensures Created(old(comments), comments, Stamped(dto, caller), r)
      ensures r.Ok? <==> dto.commentText != ""
      ensures r.Ok? ==> r.value.1.userId == caller.userId && r.value.1.postId == dto.postId
      ensures r.Ok? && caller.role == User ==> !r.value.1.isApproved
      ensures r.Ok? && caller.role == Admin ==> r.value.1.isApproved == dto.isApproved.GetOr(false)
    {
      r := Create(Stamped(dto, caller));
    }

    /** Controller `findAll(postId?)`: with a post id, the approved view of
        that post; without one, every comment. */
    function HandleFindAll(postId: Option<Id>): (r: seq<(Id, Comment)>)
      reads this
      requires Valid()
      ensures postId.Some? ==> forall id, c :: (id, c) in r <==>
        id in comments && comments[id] == c && c.postId == postId.value && c.isApproved
      ensures postId.None? ==> forall id, c :: (id, c) in r <==> id in comments && comments[id] == c
      ensures postId.Some? ==> NewestFirst(r)
    {
      if postId.Some? then FindByPostId(postId.value) else FindAll()
    }

    /** Controller `getPendingComments()`: admins only. */
    function HandleGetPending(caller: Principal): (r: Outcome<seq<(Id, Comment)>>)
      reads this
      requires Valid()
      ensures r.Forbidden? <==> caller.role != Admin
      ensures r.Ok? ==> forall id, c :: (id, c) in r.value <==> id in comments && comments[id] == c && !c.isApproved
      ensures r.Ok? || r.Forbidden?
    {
      if caller.role != Admin then Forbidden else Ok(GetPendingComments())
    }

    /** Controller `approveComment(id)`: admins only; for anyone else the
        comment is left as it was. */
    method HandleApprove(caller: Principal, id: Id) returns (r: Outcome<Comment>)
      requires Valid()
      modifies this
      ensures Valid()
      ensures caller.role != Admin ==> r == Forbidden && comments == old(comments)
      ensures caller.role == Admin && id !in old(comments) ==> r == NotFound && comments == old(comments)
      ensures caller.role == Admin && id in old(comments) ==>
        r == Ok(old(comments)[id].(isApproved := true)) && comments == old(comments)[id := r.value]
    {
      if caller.role != Admin {
        return Forbidden;
      }
      r := ApproveComment(id);
    }
  }
}
