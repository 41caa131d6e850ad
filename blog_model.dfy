/** The blog schema: defaults, the slug pre-save hook, the `softDelete`
    and `restore` document methods and the `notDeleted` query helper. */
module BlogSchema {
  import opened Collections
  import opened Text
  import opened Domain

  /** The fields a `Blog.create` call supplies; absent ones take the
      schema default. */
  datatype NewBlogFields = NewBlogFields(
    title: string,
    content: string,
    author: Id,
    excerpt: string,
    tags: seq<string>,
    coverImage: Option<string>,
    status: Option<Status>)

  /** A new blog document before its first save: status `published`,
      `views` 0, not deleted, no `deletedAt`, empty `coverImage` unless
      supplied. The slug is set by the pre-save hook. */
  function NewBlog(id: Id, f: NewBlogFields, now: nat): (b: Blog)
    ensures b.id == id && b.title == f.title && b.content == f.content && b.author == f.author
    ensures b.excerpt == f.excerpt && b.tags == f.tags && b.createdAt == now
    ensures b.status == (if f.status.Some? then f.status.value else Published)
    ensures b.coverImage == (if f.coverImage.Some? then f.coverImage.value else "")
    ensures b.views == 0 && !b.isDeleted && b.deletedAt.None?
    ensures b.slug == ""
  {
    Blog(id, f.title, "", f.content, f.author, f.excerpt, f.tags,
         match f.coverImage case Some(c) => c case None => "",
         false, None, 0,
         match f.status case Some(s) => s case None => Published,
         now)
  }

  /** `softDelete`: the two flags change, nothing else does. */
  function SoftDeleted(b: Blog, now: nat): (r: Blog)
    ensures r.isDeleted && r.deletedAt == Some(now)
    ensures r.(isDeleted := b.isDeleted, deletedAt := b.deletedAt) == b
  {
    b.(isDeleted := true, deletedAt := Some(now))
  }

  /** `restore`: the two flags return to their defaults, nothing else changes. */
  function Restored(b: Blog): (r: Blog)
    ensures !r.isDeleted && r.deletedAt.None?
    ensures r.(isDeleted := b.isDeleted, deletedAt := b.deletedAt) == b
  {
    b.(isDeleted := false, deletedAt := None)
  }

  /** Restoring a soft-deleted post gives back the post as it was before,
      when it had never been deleted. */
  lemma RestoreUndoesSoftDelete(b: Blog, now: nat)
    requires !b.isDeleted && b.deletedAt.None?
    ensures Restored(SoftDeleted(b, now)) == b
  {
  }

  /** `query.notDeleted()`: only documents with `isDeleted: false`. */
  function NotDeleted(blogs: seq<Blog>): (r: seq<Blog>)
    ensures forall i :: 0 <= i < |r| ==> !r[i].isDeleted && r[i] in blogs
    ensures forall i :: 0 <= i < |blogs| && !blogs[i].isDeleted ==> blogs[i] in r
  {
    Filter(blogs, (b: Blog) => !b.isDeleted)
  }

  /** The hook's query `{ slug, _id: { $ne: id } }`: another document,
      deleted or not, already has `slug`. */
  predicate SlugTaken(blogs: seq<Blog>, slug: string, self: Id) {
    exists k :: 0 <= k < |blogs| && blogs[k].slug == slug && blogs[k].id != self
  }

  /** The slug the pre-save hook leaves on a document: recomputed only
      when the title was modified; on a collision the base slug gets a
      `-<timestamp>` suffix, and that suffixed slug is not checked again.
      Each assignment to `slug` goes through the `lowercase` setter. */
  function SavedSlug(b: Blog, titleModified: bool, blogs: seq<Blog>, slugify: string -> string, now: nat): (r: string)
    ensures !titleModified ==> r == b.slug
    ensures titleModified && !SlugTaken(blogs, Lower(slugify(b.title)), b.id) ==> r == Lower(slugify(b.title))
    ensures titleModified && SlugTaken(blogs, Lower(slugify(b.title)), b.id)
            ==> r == Lower(slugify(b.title) + "-" + NatToString(now))
  {
    if !titleModified then b.slug
    else
      var base := slugify(b.title);
      if SlugTaken(blogs, Lower(base), b.id) then Lower(base + "-" + NatToString(now)) else Lower(base)
  }

  /** A fresh slug is never taken by another document. */
  lemma FreshSlugIsFree(b: Blog, blogs: seq<Blog>, slugify: string -> string, now: nat)
    requires !SlugTaken(blogs, Lower(slugify(b.title)), b.id)
    ensures !SlugTaken(blogs, SavedSlug(b, true, blogs, slugify, now), b.id)
  {
  }

  /** Only one collision check is made: when `base-<now>` is also taken,
      the hook still saves it (and the unique index then rejects the save). */
  lemma SuffixIsNotRechecked(b: Blog, blogs: seq<Blog>, slugify: string -> string, now: nat)
    requires SlugTaken(blogs, Lower(slugify(b.title)), b.id)
    requires SlugTaken(blogs, Lower(slugify(b.title) + "-" + NatToString(now)), b.id)
    ensures SlugTaken(blogs, SavedSlug(b, true, blogs, slugify, now), b.id)
  {
  }

  /** A suffixed slug always differs from its base. */
  lemma SuffixChangesSlug(base: string, now: nat)
    ensures Lower(base + "-" + NatToString(now)) != Lower(base)
  {
    assert |Lower(base + "-" + NatToString(now))| > |Lower(base)|;
  }

  /** A blog document as Mongoose holds it between `findOne` and `save`:
      fields assigned in place, plus whether `title` was modified. */
  class BlogDoc {
    var id: Id
    var title: string
    var slug: string
    var content: string
    var author: Id
    var excerpt: string
    var tags: seq<string>
    var coverImage: string
    var isDeleted: bool
    var deletedAt: Option<nat>
    var views: nat
    var status: Status
    var createdAt: nat
    var titleModified: bool

    /** The document's current field values. */
    function Value(): Blog
      reads this
    {
      Blog(id, title, slug, content, author, excerpt, tags, coverImage,
           isDeleted, deletedAt, views, status, createdAt)
    }

    /** A document hydrated from the collection: nothing is modified yet. */
    constructor Hydrate(b: Blog)
      ensures Value() == b && !titleModified
    {
      id, title, slug, content, author := b.id, b.title, b.slug, b.content, b.author;
      excerpt, tags, coverImage := b.excerpt, b.tags, b.coverImage;
      isDeleted, deletedAt, views, status, createdAt := b.isDeleted, b.deletedAt, b.views, b.status, b.createdAt;
      titleModified := false;
    }

    /** A new document: every supplied path, `title` included, counts as modified. */
    constructor Create(b: Blog)
      ensures Value() == b && titleModified
    {
      id, title, slug, content, author := b.id, b.title, b.slug, b.content, b.author;
      excerpt, tags, coverImage := b.excerpt, b.tags, b.coverImage;
      isDeleted, deletedAt, views, status, createdAt := b.isDeleted, b.deletedAt, b.views, b.status, b.createdAt;
      titleModified := true;
    }

    /** `this.isDeleted = true; this.deletedAt = new Date()`. */
    method SoftDelete(now: nat)
      modifies this
      ensures Value() == SoftDeleted(old(Value()), now)
      ensures titleModified == old(titleModified)
    {
      isDeleted := true;
      deletedAt := Some(now);
    }

    /** `this.isDeleted = false; this.deletedAt = null`. */
    method Restore()
      modifies this
      ensures Value() == Restored(old(Value()))
      ensures titleModified == old(titleModified)
    {
      isDeleted := false;
      deletedAt := None;
    }

    /** `blog.views += 1`. */
    method IncrementViews()
      modifies this
      ensures Value() == old(Value()).(views := old(views) + 1)
      ensures titleModified == old(titleModified)
    {
      views := views + 1;
    }

    /** `save()`: runs the pre-save hook against the collection, after
        which no path counts as modified. Returns the saved value. */
    method Save(blogs: seq<Blog>, slugify: string -> string, now: nat) returns (saved: Blog)
      modifies this
      ensures saved == Value()
      ensures Value() == old(Value()).(slug := SavedSlug(old(Value()), old(titleModified), blogs, slugify, now))
      ensures !titleModified
    {
      if titleModified {
        var baseSlug := slugify(title);
        slug := Lower(baseSlug);
        if SlugTaken(blogs, slug, id) {
          slug := Lower(baseSlug + "-" + NatToString(now));
        }
      }
      titleModified := false;
      saved := Value();
    }
  }
}
