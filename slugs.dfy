/** The slug policy shared by posts and categories. The `slugify` library is
    not modelled: every operation that derives a slug takes it as a
    parameter, so nothing is assumed about it. */
module Slugs {
  import opened Common

  /** `if (dto.slug)`: a slug counts as supplied only when it is present and
      not the empty string. */
  predicate Supplied(slug: Option<string>) {
    slug.Some? && slug.value != ""
  }

  /** The slug a create stores: the supplied one, otherwise
      `slugify(name, { lower: true })`. */
  function Resolve(slug: Option<string>, name: string, slugify: string -> string): string {
    if Supplied(slug) then slug.value else slugify(name)
  }
}
