/** The Category collection: the categories service over a table with a
    unique slug index. The categories controller only delegates, so the
    service methods are the whole behaviour. */
module Categories {
  import opened Common
  import opened Tables
  import Slugs

  /** A stored category: a name and the slug derived from it. */
  datatype Category = Category(name: string, slug: string)

  /** The create payload. */
  datatype CategoryDraft = CategoryDraft(name: string, slug: Option<string>)

  /** The update payload: each field optional. */
  datatype CategoryPatch = CategoryPatch(name: Option<string>, slug: Option<string>)

  /** The key of the unique index on `slug`. */
  function SlugOf(c: Category): string {
    c.slug
  }

  /** `findByIdAndUpdate(id, dto)`: each field the payload carries replaces
      the stored one. */
  function Patched(c: Category, u: CategoryPatch): Category {
    Category(u.name.GetOr(c.name), u.slug.GetOr(c.slug))
  }

  /** The effect of `create` with the slug it settled on: Conflict while any
      category holds it, otherwise exactly one new category. */
  ghost predicate Created(before: map<Id, Category>, after: map<Id, Category>, d: CategoryDraft, slug: string,
                          r: Outcome<(Id, Category)>)
  {
    if HeldBy(before, SlugOf, slug, {}) then r == Conflict && after == before
    else r.Ok? && r.value.0 !in before && r.value.1 == Category(d.name, slug)
         && after == before[r.value.0 := r.value.1]
  }

  /** The effect of `update`: the slug check (which excludes the category
      itself) precedes the lookup, so a taken slug yields Conflict even for
      an absent id. An empty slug skips the check and meets the unique
      index instead. */
  ghost predicate Updated(before: map<Id, Category>, after: map<Id, Category>, id: Id, u: CategoryPatch,
                          r: Outcome<Category>)
  {
    if Slugs.Supplied(u.slug) && HeldBy(before, SlugOf, u.slug.value, {id}) then r == Conflict && after == before
    else if id !in before then r == NotFound && after == before
    else if HeldBy(before, SlugOf, Patched(before[id], u).slug, {id}) then r == Rejected && after == before
    else r == Ok(Patched(before[id], u)) && after == before[id := r.value]
  }

  class CategoryTable {
    var categories: map<Id, Category>
    var nextId: Id

    /** Every id was handed out, and the slug index is unique. */
    ghost predicate Valid()
      reads this
    {
      (forall id :: id in categories ==> id < nextId) && Unique(categories, SlugOf)
    }

    constructor ()
      ensures Valid() && categories == map[]
    {
      categories := map[];
      nextId := 0;
    }

    /** `create`: derive the slug from the name when none is supplied,
        refuse a slug that is taken, then store the category. */
    method Create(dto: CategoryDraft, slugify: string -> string) returns (r: Outcome<(Id, Category)>)
      requires Valid()
      modifies this
      ensures Valid()
      ensures Created(old(categories), categories, dto, Slugs.Resolve(dto.slug, dto.name, slugify), r)
    {
      var slug := Slugs.Resolve(dto.slug, dto.name, slugify);
      if HeldBy(categories, SlugOf, slug, {}) {
        return Conflict;
      }
      var c := Category(dto.name, slug);
      var id := nextId;
      WriteKeepsUnique(categories, SlugOf, id, c);
      categories := categories[id := c];
      nextId := nextId + 1;
      r := Ok((id, c));
    }

    /** `findAll()`: every category. */
    function FindAll(): (r: seq<(Id, Category)>)
      reads this
      requires Valid()
      ensures forall id, c :: (id, c) in r <==> id in categories && categories[id] == c
    {
      var keep := (c: Category) => true;
      SelectMembers(categories, keep, nextId);
      Select(categories, keep, nextId)
    }

    /** `findOne(id)`: the category, or NotFound. */
    function FindOne(id: Id): (r: Outcome<Category>)
      reads this
      ensures r.Ok? <==> id in categories
      ensures r.Ok? ==> r.value == categories[id]
      ensures !r.Ok? ==> r == NotFound
    {
      if id in categories then Ok(categories[id]) else NotFound
    }

    /** `findBySlug(slug)`: the category holding the slug, or NotFound. */
    function FindBySlug(slug: string): (r: Outcome<(Id, Category)>)
      reads this
      requires Valid()
      ensures r.Ok? <==> HeldBy(categories, SlugOf, slug, {})
      ensures r.Ok? ==> r.value.0 in categories && categories[r.value.0] == r.value.1 && r.value.1.slug == slug
      ensures !r.Ok? ==> r == NotFound
    {
      var keep := (c: Category) => c.slug == slug;
      SelectMembers(categories, keep, nextId);
      var hits := Select(categories, keep, nextId);
      assert HeldBy(categories, SlugOf, slug, {}) ==> hits != [] by {
        if HeldBy(categories, SlugOf, slug, {}) {
          var i :| i in categories && categories[i].slug == slug;
          assert (i, categories[i]) in hits;
        }
      }
      assert hits != [] ==> SlugOf(categories[hits[0].0]) == slug by {
        if hits != [] {
          assert hits[0] in hits;
        }
      }
      if hits == [] then NotFound else Ok(hits[0])
    }

    /** `update(id, dto)`. */
    method Update(id: Id, patch: CategoryPatch) returns (r: Outcome<Category>)
      requires Valid()
      modifies this
      ensures Valid()
      ensures Updated(old(categories), categories, id, patch, r)
    {
      if Slugs.Supplied(patch.slug) && HeldBy(categories, SlugOf, patch.slug.value, {id}) {
        return Conflict;
      }
      if id !in categories {
        return NotFound;
      }
      var c := Patched(categories[id], patch);
      if HeldBy(categories, SlugOf, c.slug, {id}) {
        return Rejected;
      }
      WriteKeepsUnique(categories, SlugOf, id, c);
      categories := categories[id := c];
      r := Ok(c);
    }

    /** `remove(id)`: only category `id` goes. */
    method Remove(id: Id) returns (r: Outcome<()>)
      requires Valid()
      modifies this
      ensures Valid()
      ensures id !in old(categories) ==> r == NotFound && categories == old(categories)
      ensures id in old(categories) ==> r == Ok(()) && categories == old(categories) - {id}
    {
      if id !in categories {
        return NotFound;
      }
      RemoveKeepsUnique(categories, SlugOf, {id});
      categories := categories - {id};
      r := Ok(());
    }
  }
}
