/**
 * The admin blog page (app/admin/Blog/page.tsx): the form state, its change
 * handler, and the `blog_posts` row built from the form on submit.
 */
module BlogAdmin {
  import opened Wrappers
  import Text
  import Slug

  /** The editor form. */
  datatype BlogForm = BlogForm(
    title: string, category: string, excerpt: string, content: string,
    author: string, image: string, status: string)

  /** The form's initial value, to which it is also reset after a successful insert. */
  const InitialForm: BlogForm := BlogForm("", "", "", "", "", "", "draft")

  /** The form's keys, as the inputs' `name` attributes. */
  datatype Field = Title | Category | Excerpt | Content | Author | Image | Status

  /** `form[field]`. */
  function Get(form: BlogForm, field: Field): string
  {
    match field
    case Title => form.title
    case Category => form.category
    case Excerpt => form.excerpt
    case Content => form.content
    case Author => form.author
    case Image => form.image
    case Status => form.status
  }

  /** `{ ...form, [field]: value }`: the named field takes the value, every other field is kept. */
  function SetField(form: BlogForm, field: Field, value: string): (r: BlogForm)
    ensures Get(r, field) == value
    ensures forall f :: f != field ==> Get(r, f) == Get(form, f)
  {
    match field
    case Title => form.(title := value)
    case Category => form.(category := value)
    case Excerpt => form.(excerpt := value)
    case Content => form.(content := value)
    case Author => form.(author := value)
    case Image => form.(image := value)
    case Status => form.(status := value)
  }

  /** A `blog_posts` row as sent to the backend; `publishedAt` is an opaque timestamp. */
  datatype BlogRow = BlogRow(
    title: string, slug: string, excerpt: string, content: string, author: string,
    featuredImage: string, category: string, tags: seq<string>,
    published: bool, publishedAt: Option<string>)

  const ExcerptLength: nat := 150
  const DefaultAuthor: string := "Admin"
  const PublishedStatus: string := "published"

  /** `form.excerpt || form.content.substring(0, 150)`. */
  function ExcerptOf(form: BlogForm): (r: string)
    ensures form.excerpt != "" ==> r == form.excerpt
    ensures form.excerpt == "" ==> Text.StartsWith(form.content, r)
    ensures form.excerpt == "" ==> |r| == if |form.content| < ExcerptLength then |form.content| else ExcerptLength
  {
    if form.excerpt != "" then form.excerpt else Text.Take(form.content, ExcerptLength)
  }

  /**
   * The row built on submit, at time `now`: title, content, category and image copied,
   * the slug derived from the title, the excerpt defaulted from the content, the author
   * defaulted to `Admin`, no tags, and published (with a timestamp) iff the status is `published`.
   */
  function BlogRecord(form: BlogForm, now: string): (r: BlogRow)
    ensures r.title == form.title && r.content == form.content
    ensures r.category == form.category && r.featuredImage == form.image
    ensures r.slug == Slug.Slugify(form.title)
    ensures r.excerpt == ExcerptOf(form)
    ensures r.author == if form.author != "" then form.author else DefaultAuthor
    ensures r.tags == []
    ensures r.published <==> form.status == PublishedStatus
    ensures r.publishedAt.None? <==> !r.published
    ensures r.publishedAt.Some? ==> r.publishedAt.value == now
  {
    var published := form.status == PublishedStatus;
    BlogRow(
      form.title, Slug.Slugify(form.title), ExcerptOf(form), form.content,
      if form.author != "" then form.author else DefaultAuthor,
      form.image, form.category, [],
      published, if published then Some(now) else None)
  }

  /** A post with no excerpt and short content takes the whole content as its excerpt. */
  lemma ShortContentExcerpt(form: BlogForm)
    requires form.excerpt == "" && |form.content| <= ExcerptLength
    ensures ExcerptOf(form) == form.content
  {
  }

  /** The draft the form starts with is inserted unpublished, by `Admin`. */
  lemma InitialFormIsDraft(now: string)
    ensures !BlogRecord(InitialForm, now).published
    ensures BlogRecord(InitialForm, now).publishedAt == None
    ensures BlogRecord(InitialForm, now).author == DefaultAuthor
  {
  }

  class BlogAdminPage {
    var form: BlogForm
    /** The image preview (a data URL). */
    var preview: string
    var loading: bool

    constructor ()
      ensures form == InitialForm && preview == "" && loading
    {
      form := InitialForm;
      preview := "";
      loading := true;
    }

    /** `handleChange`: only the named field changes. */
    method HandleChange(field: Field, value: string)
      modifies this`form
      ensures form == SetField(old(form), field, value)
    {
      form := SetField(form, field, value);
    }

    /**
     * `handleAddBlog`: sends the row built from the form; after a successful insert the
     * form and the preview are reset, after a failed one both are left as they were.
     */
    method HandleAddBlog(now: string, insertCall: Call<()>) returns (sent: BlogRow)
      modifies this`form, this`preview, this`loading
      ensures sent == BlogRecord(old(form), now)
      ensures insertCall.Done? ==> form == InitialForm && preview == ""
      ensures insertCall.Threw? ==> form == old(form) && preview == old(preview)
      ensures !loading
    {
      loading := true;
      sent := BlogRecord(form, now);
      if insertCall.Done? {
        form := InitialForm;
        preview := "";
      }
      loading := false;
    }
  }
}
