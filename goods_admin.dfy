/** The `products` row the admin goods page (app/admin/goods/page.tsx) builds from the add-product form. */
module GoodsAdmin {
  import opened Wrappers
  import Slug
  import BlogAdmin

  /** The submitted `tags` value: an array, or anything else. */
  datatype TagsValue = TagList(tags: seq<string>) | NotAList

  /** The form's values; text fields that may be missing are optional. */
  datatype NewGood = NewGood(
    name: string, description: Option<string>, image: Option<string>,
    category: string, status: string, tags: TagsValue)

  /** The row sent to the backend (prices are not part of this model). */
  datatype ProductRow = ProductRow(
    name: string, slug: string, description: string, images: seq<string>, category: string,
    divisionId: Option<string>, inStock: bool, featured: bool, tags: seq<string>)

  const ActiveStatus: string := "Active"

  /** JavaScript truthiness of an optional string: present and non-empty. */
  predicate Truthy(s: Option<string>)
  {
    s.Some? && s.value != ""
  }

  /**
   * `productData`: name and category copied, slug derived from the name, a missing
   * description becomes empty, at most the one given image, in stock iff the status
   * is exactly `Active`, never featured, no division, and tags kept only when a list.
   */
  function ProductRecord(g: NewGood): (r: ProductRow)
    ensures r.name == g.name && r.category == g.category
    ensures r.slug == Slug.Slugify(g.name)
    ensures Truthy(g.description) ==> r.description == g.description.value
    ensures !Truthy(g.description) ==> r.description == ""
    ensures Truthy(g.image) ==> r.images == [g.image.value]
    ensures !Truthy(g.image) ==> r.images == []
    ensures r.inStock <==> g.status == ActiveStatus
    ensures !r.featured && r.divisionId == None
    ensures g.tags.TagList? ==> r.tags == g.tags.tags
    ensures g.tags.NotAList? ==> r.tags == []
  {
    ProductRow(
      g.name, Slug.Slugify(g.name),
      if Truthy(g.description) then g.description.value else "",
      if Truthy(g.image) then [g.image.value] else [],
      g.category, None, g.status == ActiveStatus, false,
      match g.tags { case TagList(ts) => ts case NotAList => [] })
  }

  /** A product and a blog post with the same name and title get the same slug. */
  lemma SlugSharedWithBlog(g: NewGood, form: BlogAdmin.BlogForm, now: string)
    requires g.name == form.title
    ensures ProductRecord(g).slug == BlogAdmin.BlogRecord(form, now).slug
  {
  }
}
