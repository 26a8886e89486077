/** The Post collection: the posts service over a table with a unique slug
    index, and the handlers of the posts controller as methods of the same
    table. */
module Posts {
  import opened Common
  import opened Tables
  import Slugs

  /** A stored post. Its creation time is the order of its id. */
  datatype Post = Post(
    title: string,
    slug: string,
    content: string,
    thumbnail: Option<string>,
    authorId: Id,
    categoryId: Option<Id>,
    isPublished: bool,
    viewsCount: nat)

  /** The create payload. */
  datatype PostDraft = PostDraft(
    title: string,
    slug: Option<string>,
    content: string,
    thumbnail: Option<string>,
    authorId: Option<Id>,
    categoryId: Option<Id>,
    isPublished: Option<bool>)

  /** The update payload: the fields of the create payload, each optional.
      Nothing keeps `authorId` out of it. */
  datatype PostPatch = PostPatch(
    title: Option<string>,
    slug: Option<string>,
    content: Option<string>,
    thumbnail: Option<string>,
    authorId: Option<Id>,
    categoryId: Option<Id>,
    isPublished: Option<bool>)

  /** The key of the unique index on `slug`. */
  function SlugOf(p: Post): string {
    p.slug
  }

  /** The schema's `required` validators, which `save()` runs on a new post. */
  predicate Storable(d: PostDraft, slug: string) {
    d.title != "" && slug != "" && d.content != "" && d.authorId.Some?
  }

  /** The document `new postModel(dto)` builds once the slug is settled:
      `isPublished` and `viewsCount` take their schema defaults. */
  function Built(d: PostDraft, slug: string): Post
    requires d.authorId.Some?
  {
    Post(d.title, slug, d.content, d.thumbnail, d.authorId.value, d.categoryId,
         d.isPublished.GetOr(false), 0)
  }

  /** `findByIdAndUpdate(id, dto)`: each field the payload carries replaces
      the stored one; the view counter is not part of the payload. */
  function Patched(p: Post, u: PostPatch): Post {
    Post(u.title.GetOr(p.title), u.slug.GetOr(p.slug), u.content.GetOr(p.content),
         if u.thumbnail.Some? then u.thumbnail else p.thumbnail,
         u.authorId.GetOr(p.authorId),
         if u.categoryId.Some? then u.categoryId else p.categoryId,
         u.isPublished.GetOr(p.isPublished), p.viewsCount)
  }

  /** `{ $inc: { viewsCount: 1 } }`. */
  function Viewed(p: Post): Post {
    p.(viewsCount := p.viewsCount + 1)
  }

  /** The create handler fills in the caller as author when the payload
      names none; a supplied author is kept. */
  function WithAuthor(d: PostDraft, caller: Principal): (r: PostDraft)
    ensures r.authorId == Some(d.authorId.GetOr(caller.userId))
    ensures r.(authorId := d.authorId) == d
  {
    if d.authorId.None? then d.(authorId := Some(caller.userId)) else d
  }

  /** The effect of `create` with the slug it settled on: Conflict while any
      post holds that slug, Rejected when a required field is empty,
      otherwise exactly one new post under a fresh id. */
  ghost predicate Created(before: map<Id, Post>, after: map<Id, Post>, d: PostDraft, slug: string,
                          r: Outcome<(Id, Post)>)
  {
    if HeldBy(before, SlugOf, slug, {}) then r == Conflict && after == before
    else if !Storable(d, slug) then r == Rejected && after == before
    else r.Ok? && r.value.0 !in before && r.value.1 == Built(d, slug) && after == before[r.value.0 := r.value.1]
  }

  /** The effect of `update`. The slug check comes first and ignores the post
      itself, so it fails with Conflict even when `id` is absent. An empty
      slug skips that check; the unique index then refuses the write if
      another post holds the empty slug. */
  ghost predicate Updated(before: map<Id, Post>, after: map<Id, Post>, id: Id, u: PostPatch, r: Outcome<Post>) {
    if Slugs.Supplied(u.slug) && HeldBy(before, SlugOf, u.slug.value, {id}) then r == Conflict && after == before
    else if id !in before then r == NotFound && after == before
    else if HeldBy(before, SlugOf, Patched(before[id], u).slug, {id}) then r == Rejected && after == before
    else r == Ok(Patched(before[id], u)) && after == before[id := r.value]
  }

  /** The effect of `remove`: only post `id` goes. */
  ghost predicate Removed(before: map<Id, Post>, after: map<Id, Post>, id: Id, r: Outcome<()>) {
    if id in before then r == Ok(()) && after == before - {id}
    else r == NotFound && after == before
  }

  /** A post may be updated to the slug it already has: only other posts
      count against it. */
  lemma KeepOwnSlug(rows: map<Id, Post>, id: Id)
    requires Unique(rows, SlugOf) && id in rows
    ensures !HeldBy(rows, SlugOf, rows[id].slug, {id})
  {
  }

  class PostTable {
    var posts: map<Id, Post>
    var nextId: Id

    /** Every id was handed out, and the slug index is unique. */
    ghost predicate Valid()
      reads this
    {
      (forall id :: id in posts ==> id < nextId) && Unique(posts, SlugOf)
    }

    constructor ()
      ensures Valid() && posts == map[] && nextId == 0
    {
      posts := map[];
      nextId := 0;
    }

    /** `save()` of a new document under a fresh id. */
    method Insert(p: Post) returns (id: Id)
      requires Valid() && !HeldBy(posts, SlugOf, p.slug, {})
      modifies this
      ensures Valid() && id == old(nextId) && id !in old(posts) && posts == old(posts)[id := p]
    {
      id := nextId;
      WriteKeepsUnique(posts, SlugOf, id, p);
      posts := posts[id := p];
      nextId := nextId + 1;
    }

    /** `create`: derive the slug when none is supplied, refuse a slug that
        is taken, then store the post. */
    method Create(dto: PostDraft, slugify: string -> string) returns (r: Outcome<(Id, Post)>)
      requires Valid()
      modifies this
      ensures Valid()
      ensures Created(old(posts), posts, dto, Slugs.Resolve(dto.slug, dto.title, slugify), r)
      ensures r.Ok? ==> r.value.0 == old(nextId)
    {
      var slug := Slugs.Resolve(dto.slug, dto.title, slugify);
      if HeldBy(posts, SlugOf, slug, {}) {
        return Conflict;
      }
      if !Storable(dto, slug) {
        return Rejected;
      }
      var p := Built(dto, slug);
      var id := Insert(p);
      r := Ok((id, p));
    }

    /** `findAll()`: every post. */
    function FindAll(): (r: seq<(Id, Post)>)
      reads this
      requires Valid()
      ensures forall id, p :: (id, p) in r <==> id in posts && posts[id] == p
    {
      var keep := (p: Post) => true;
      SelectMembers(posts, keep, nextId);
      Select(posts, keep, nextId)
    }

    /** `findPublished()`: exactly the published posts. */
    function FindPublished(): (r: seq<(Id, Post)>)
      reads this
      requires Valid()
      ensures forall id, p :: (id, p) in r <==> id in posts && posts[id] == p && p.isPublished
    {
      var keep := (p: Post) => p.isPublished;
      SelectMembers(posts, keep, nextId);
      Select(posts, keep, nextId)
    }

    /** `findOne(id)`: the post, or NotFound. */
    function FindOne(id: Id): (r: Outcome<Post>)
      reads this
      ensures r.Ok? <==> id in posts
      ensures r.Ok? ==> r.value == posts[id]
      ensures !r.Ok? ==> r == NotFound
    {
      if id in posts then Ok(posts[id]) else NotFound
    }

    /** `findBySlug(slug)`: the post holding the slug, or NotFound. */
    function FindBySlug(slug: string): (r: Outcome<(Id, Post)>)
      reads this
      requires Valid()
      ensures r.Ok? <==> HeldBy(posts, SlugOf, slug, {})
      ensures r.Ok? ==> r.value.0 in posts && posts[r.value.0] == r.value.1 && r.value.1.slug == slug
      ensures !r.Ok? ==> r == NotFound
    {
      var keep := (p: Post) => p.slug == slug;
      SelectMembers(posts, keep, nextId);
      var hits := Select(posts, keep, nextId);
      assert HeldBy(posts, SlugOf, slug, {}) ==> hits != [] by {
        if HeldBy(posts, SlugOf, slug, {}) {
          var i :| i in posts && posts[i].slug == slug;
          assert (i, posts[i]) in hits;
        }
      }
      assert hits != [] ==> SlugOf(posts[hits[0].0]) == slug by {
        if hits != [] {
          assert hits[0] in hits;
        }
      }
      if hits == [] then NotFound else Ok(hits[0])
    }

    /** `incrementViews(id)`: one more view on post `id` and nothing else;
        returns the updated post. */
    method IncrementViews(id: Id) returns (r: Outcome<Post>)
      requires Valid()
      modifies this
      ensures Valid() && nextId == old(nextId)
      ensures id !in old(posts) ==> r == NotFound && posts == old(posts)
      ensures id in old(posts) ==> r == Ok(Viewed(old(posts)[id])) && posts == old(posts)[id := r.value]
    {
      if id !in posts {
        return NotFound;
      }
      var p := Viewed(posts[id]);
      WriteKeepsUnique(posts, SlugOf, id, p);
      posts := posts[id := p];
      r := Ok(p);
    }

    /** `update(id, dto)`. */
    method Update(id: Id, patch: PostPatch) returns (r: Outcome<Post>)
      requires Valid()
      modifies this
      ensures Valid() && nextId == old(nextId)
      ensures Updated(old(posts), posts, id, patch, r)
    {
      if Slugs.Supplied(patch.slug) && HeldBy(posts, SlugOf, patch.slug.value, {id}) {
        return Conflict;
      }
      if id !in posts {
        return NotFound;
      }
      var p := Patched(posts[id], patch);
      if HeldBy(posts, SlugOf, p.slug, {id}) {
        return Rejected;
      }
      WriteKeepsUnique(posts, SlugOf, id, p);
      posts := posts[id := p];
      r := Ok(p);
    }

    /** `remove(id)`. */
    method Remove(id: Id) returns (r: Outcome<()>)
      requires Valid()
      modifies this
      ensures Valid() && nextId == old(nextId)
      ensures Removed(old(posts), posts, id, r)
    {
      if id !in posts {
        return NotFound;
      }
      RemoveKeepsUnique(posts, SlugOf, {id});
      posts := posts - {id};
      r := Ok(());
    }

    /** Controller `create`: the caller becomes the author unless the
        payload names one. */
    method HandleCreate(caller: Principal, dto: PostDraft, slugify: string -> string)
      returns (r: Outcome<(Id, Post)>)
      requires Valid()
      modifies this
      ensures Valid()
      ensures Created(old(posts), posts, WithAuthor(dto, caller), Slugs.Resolve(dto.slug, dto.title, slugify), r)
      ensures r.Ok? ==> r.value.1.authorId == dto.authorId.GetOr(caller.userId)
    {
      r := Create(WithAuthor(dto, caller), slugify);
    }

    /** Controller `findAll(published)`: the query value arrives as text, so
        any non-empty value, "false" included, selects the published posts. */
    function HandleFindAll(published: Option<string>): (r: seq<(Id, Post)>)
      reads this
      requires Valid()
      ensures forall id, p :: (id, p) in r <==>
        (id in posts && posts[id] == p && (published.Some? && published.value != "" ==> p.isPublished))
    {
      if published.Some? && published.value != "" then FindPublished() else FindAll()
    }

    /** Controller `findOne(id)`: fetch the post, then count one view of it.
        The post is returned as it was before the increment. */
    method HandleFindOne(id: Id) returns (r: Outcome<Post>)
      requires Valid()
      modifies this
      ensures Valid()
      ensures id !in old(posts) ==> r == NotFound && posts == old(posts)
      ensures id in old(posts) ==> r == Ok(old(posts)[id]) && posts == old(posts)[id := Viewed(old(posts)[id])]
    {
      r := FindOne(id);
      if r.Ok? {
        var _ := IncrementViews(id);
      }
    }

    /** Controller `findBySlug(slug)` as written: the view is counted on the
        document whose id is the post's `authorId`, and a NotFound from that
        increment fails the whole request. */
    method HandleFindBySlug(slug: string) returns (r: Outcome<Post>)
      requires Valid()
      modifies this
      ensures Valid()
      ensures old(FindBySlug(slug)).NotFound? ==> r == NotFound && posts == old(posts)
      ensures old(FindBySlug(slug)).Ok? ==>
        var p := old(FindBySlug(slug)).value.1;
        if p.authorId in old(posts) then
          r == Ok(p) && posts == old(posts)[p.authorId := Viewed(old(posts)[p.authorId])]
        else
          r == NotFound && posts == old(posts)
    {
      var found := FindBySlug(slug);
      if !found.Ok? {
        return NotFound;
      }
      var bumped := IncrementViews(found.value.1.authorId);
      if !bumped.Ok? {
        return NotFound;
      }
      r := Ok(found.value.1);
    }

    /** `findBySlug` as evidently intended: the view is counted on the post
        that was found. */
    method HandleFindBySlugIntended(slug: string) returns (r: Outcome<Post>)
      requires Valid()
      modifies this
      ensures Valid()
      ensures old(FindBySlug(slug)).NotFound? ==> r == NotFound && posts == old(posts)
      ensures old(FindBySlug(slug)).Ok? ==>
        var (id, p) := old(FindBySlug(slug)).value;
        r == Ok(p) && posts == old(posts)[id := Viewed(p)]
    {
      var found := FindBySlug(slug);
      if !found.Ok? {
        return NotFound;
      }
      var _ := IncrementViews(found.value.0);
      r := Ok(found.value.1);
    }

    /** Controller `update(id)`: NotFound, then the owner-or-admin gate,
        then the service update. */
    method HandleUpdate(caller: Principal, id: Id, patch: PostPatch) returns (r: Outcome<Post>)
      requires Valid()
      modifies this
      ensures Valid()
      ensures id !in old(posts) ==> r == NotFound && posts == old(posts)
      ensures id in old(posts) && !OwnerOrAdmin(caller, old(posts)[id].authorId) ==>
        r == Forbidden && posts == old(posts)
      ensures id in old(posts) && OwnerOrAdmin(caller, old(posts)[id].authorId) ==>
        Updated(old(posts), posts, id, patch, r)
    {
      var found := FindOne(id);
      if !found.Ok? {
        return NotFound;
      }
      if !OwnerOrAdmin(caller, found.value.authorId) {
        return Forbidden;
      }
      r := Update(id, patch);
    }

    /** Controller `update(id)` as written: the gate compares the populated
        author document, so only an admin gets past it, the author included
        among those refused. */
    method HandleUpdateAsWritten(caller: Principal, id: Id, patch: PostPatch) returns (r: Outcome<Post>)
      requires Valid()
      modifies this
      ensures Valid()
      ensures id !in old(posts) ==> r == NotFound && posts == old(posts)
      ensures id in old(posts) && !PopulatedGate(caller) ==> r == Forbidden && posts == old(posts)
      ensures id in old(posts) && PopulatedGate(caller) ==> Updated(old(posts), posts, id, patch, r)
    {
      var found := FindOne(id);
      if !found.Ok? {
        return NotFound;
      }
      if !PopulatedGate(caller) {
        return Forbidden;
      }
      r := Update(id, patch);
    }

    /** Controller `remove(id)`: NotFound, then the owner-or-admin gate, then
        the deletion. */
    method HandleRemove(caller: Principal, id: Id) returns (r: Outcome<()>)
      requires Valid()
      modifies this
      ensures Valid()
      ensures id !in old(posts) ==> r == NotFound && posts == old(posts)
      ensures id in old(posts) && !OwnerOrAdmin(caller, old(posts)[id].authorId) ==>
        r == Forbidden && posts == old(posts)
      ensures id in old(posts) && OwnerOrAdmin(caller, old(posts)[id].authorId) ==>
        r == Ok(()) && posts == old(posts) - {id}
    {
      var found := FindOne(id);
      if !found.Ok? {
        return NotFound;
      }
      if !OwnerOrAdmin(caller, found.value.authorId) {
        return Forbidden;
      }
      r := Remove(id);
    }
  }
}
