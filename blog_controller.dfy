/** The blog handlers: create, list with the visibility rule, fetch by id
    or slug with the draft rule and the view counter, update, soft
    delete, restore, the requester's own posts and the trending list. */
module BlogController {
  import opened Collections
  import opened Text
  import opened Domain
  import opened BlogSchema
  import opened CommentSchema
  import opened Database
  import opened Cache
  import opened Sockets
  import opened Ranking
  import CommentController

  /** The cache keys every change to a post invalidates. */
  const BlogPatterns: seq<string> := ["cache:/api/blogs"]

  /** The request body of `createBlog` and `updateBlog`; `None` is a
      field the client did not send. */
  datatype BlogBody = BlogBody(
    title: Option<string>,
    content: Option<string>,
    excerpt: Option<string>,
    tags: Option<seq<string>>,
    coverImage: Option<string>,
    status: Option<string>)

  /** Each tag through the schema's `trim` setter. */
  function TrimTags(tags: seq<string>): (r: seq<string>)
    ensures |r| == |tags| && forall i :: 0 <= i < |r| ==> r[i] == Trim(tags[i])
  {
    MapSeq(tags, Trim)
  }

  /** `excerpt || content.substring(0, 200)`: the sent excerpt, else the
      start of the content, 200 UTF-16 code units at most. */
  function DefaultExcerpt(excerpt: Option<string>, content: string): (r: string)
    ensures Truthy(excerpt) ==> r == excerpt.value
    ensures !Truthy(excerpt) ==> r == Utf16Prefix(content, 200) && Utf16Length(r) <= 200
  {
    if Truthy(excerpt) then excerpt.value else Utf16Prefix(content, 200)
  }

  /** The document `createBlog` passes to `Blog.create`, once the schema
      has cast and validated it: a title of 1 to 200 UTF-16 code units
      after trimming, non-empty content, an excerpt of at most 300 code
      units and a status from the enum. A missing field, or a missing content
      with no excerpt (the `substring` call throws), makes it `None`. */
  function CreateFields(body: BlogBody, author: Id): (r: Option<NewBlogFields>)
    ensures r.Some? <==>
              body.title.Some? && Trim(body.title.value) != "" && Utf16Length(Trim(body.title.value)) <= 200
              && body.content.Some? && body.content.value != ""
              && Utf16Length(DefaultExcerpt(body.excerpt, body.content.value)) <= 300
              && (Truthy(body.status) ==> ParseStatus(body.status.value).Some?)
    ensures r.Some? ==>
              && r.value.title == Trim(body.title.value)
              && r.value.content == body.content.value
              && r.value.author == author
              && r.value.excerpt == DefaultExcerpt(body.excerpt, body.content.value)
              && r.value.tags == TrimTags(if body.tags.Some? then body.tags.value else [])
              && r.value.coverImage == Some(if Truthy(body.coverImage) then body.coverImage.value else "")
              && r.value.status == Some(if Truthy(body.status) then ParseStatus(body.status.value).value else Published)
  {
    if body.title.None? || body.content.None? then None
    else
      var title := Trim(body.title.value);
      var content := body.content.value;
      var excerpt := DefaultExcerpt(body.excerpt, content);
      var status := if Truthy(body.status) then ParseStatus(body.status.value) else Some(Published);
      if title == "" || Utf16Length(title) > 200 || content == "" || Utf16Length(excerpt) > 300 || status.None? then None
      else Some(NewBlogFields(title, content, author, excerpt,
                              TrimTags(if body.tags.Some? then body.tags.value else []),
                              Some(if Truthy(body.coverImage) then body.coverImage.value else ""),
                              status))
  }

  /** A created post is by the requester, excerpted from its content when
      no excerpt is sent, untagged when no tags are sent, and published
      when no status is sent. */
  lemma CreateDefaults(body: BlogBody, author: Id, id: Id, now: nat)
    requires CreateFields(body, author).Some?
    requires !Truthy(body.excerpt) && body.tags.None? && !Truthy(body.status)
    ensures var b := NewBlog(id, CreateFields(body, author).value, now);
            && b.author == author && b.tags == [] && b.status == Published
            && b.excerpt == Utf16Prefix(body.content.value, 200)
            && b.views == 0 && !b.isDeleted
  {
  }

  /** `createBlog`: the schema cast, the slug hook, then the unique index
      on `slug` (a final slug another post already has fails the insert).
      The broadcast is sent only when the request said `published`, not
      when the status was defaulted. */
  method CreateBlog(st: Store, cache: CacheService<string>, io: SocketService, me: User,
                    body: BlogBody, slugify: string -> string)
    returns (r: Reply<Blog>)
    requires st.Valid()
    modifies st, cache, io
    ensures st.Valid()
    ensures var f := CreateFields(body, me.id);
      && (f.None? ==>
            r.status == 500 && st.blogs == old(st.blogs) && st.clock == old(st.clock)
            && cache.entries == old(cache.entries) && io.sent == old(io.sent))
      && (f.Some? ==>
            var b := NewBlog(NewId(old(st.clock)), f.value, old(st.clock));
            var saved := b.(slug := SavedSlug(b, true, old(st.blogs), slugify, old(st.clock)));
            && (SlugTaken(old(st.blogs), saved.slug, saved.id) ==>
                  r.status == 500 && st.blogs == old(st.blogs) && st.clock == old(st.clock)
                  && cache.entries == old(cache.entries) && io.sent == old(io.sent))
            && (!SlugTaken(old(st.blogs), saved.slug, saved.id) ==>
                  && r == Reply(201, "Blog post created successfully", Some(saved))
                  && st.blogs == old(st.blogs) + [saved]
                  && cache.entries == InvalidateAll(old(cache.entries), BlogPatterns)
                  && io.sent == old(io.sent)
                                + (if body.status == Some("published") then NewBlogEvents(old(io.io), saved.title) else [])))
    ensures st.users == old(st.users) && st.comments == old(st.comments) && st.logs == old(st.logs)
  {
    var f := CreateFields(body, me.id);
    if f.None? {
      return Fail(500, "Error creating blog post");
    }
    r := InsertNewBlog(st, cache, io, f.value, body.status == Some("published"), slugify);
  }

  /** The insert of a cast post: the slug hook, the unique index on
      `slug`, then the cache invalidation and, when `announce`, the
      broadcast. */
  method InsertNewBlog(st: Store, cache: CacheService<string>, io: SocketService, fields: NewBlogFields,
                       announce: bool, slugify: string -> string)
    returns (r: Reply<Blog>)
    requires st.Valid()
    modifies st, cache, io
    ensures st.Valid()
    ensures var b := NewBlog(NewId(old(st.clock)), fields, old(st.clock));
            var saved := b.(slug := SavedSlug(b, true, old(st.blogs), slugify, old(st.clock)));
            && (SlugTaken(old(st.blogs), saved.slug, saved.id) ==>
                  r.status == 500 && st.blogs == old(st.blogs) && st.clock == old(st.clock)
                  && cache.entries == old(cache.entries) && io.sent == old(io.sent))
            && (!SlugTaken(old(st.blogs), saved.slug, saved.id) ==>
                  && r == Reply(201, "Blog post created successfully", Some(saved))
                  && st.blogs == old(st.blogs) + [saved]
                  && cache.entries == InvalidateAll(old(cache.entries), BlogPatterns)
                  && io.sent == old(io.sent) + (if announce then NewBlogEvents(old(io.io), saved.title) else []))
    ensures st.users == old(st.users) && st.comments == old(st.comments) && st.logs == old(st.logs)
  {
    var now := st.clock;
    var doc := new BlogDoc.Create(NewBlog(NewId(now), fields, now));
    var saved := doc.Save(st.blogs, slugify, now);
    if SlugTaken(st.blogs, saved.slug, saved.id) {
      // E11000 duplicate key on the unique slug index
      return Fail(500, "Error creating blog post");
    }
    st.InsertBlog(saved);
    cache.InvalidateCache(BlogPatterns);
    if announce {
      io.EmitNewBlog(saved.title);
    }
    r := Reply(201, "Blog post created successfully", Some(saved));
  }

  /** The query string of `getAllBlogs`, after the pagination defaults. */
  datatype BlogQuery = BlogQuery(
    page: int,
    limit: int,
    status: Option<string>,
    author: Option<string>,
    tag: Option<string>,
    search: Option<string>,
    order: Option<string>)

  /** A listed post with `Comment.countDocuments({ post })`. */
  datatype Listed = Listed(blog: Blog, commentCount: nat)

  function OnPost(postId: Id): Comment -> bool {
    (c: Comment) => c.post == postId
  }

  /** The number of comments on a post, replies included. */
  function CommentCount(comments: seq<Comment>, postId: Id): (n: nat)
    ensures n <= |comments|
    ensures n == 0 <==> forall i :: 0 <= i < |comments| ==> comments[i].post != postId
  {
    var on := Filter(comments, OnPost(postId));
    if on != [] then assert on[0] in comments; |on| else |on|
  }

  /** The count is the number of comments on the post: none in an empty
      store, and one more exactly when the added comment is on the post. */
  lemma CommentCountCounts(comments: seq<Comment>, c: Comment, postId: Id)
    ensures CommentCount([], postId) == 0
    ensures CommentCount(comments + [c], postId) == CommentCount(comments, postId) + (if c.post == postId then 1 else 0)
  {
    FilterConcat(comments, [c], OnPost(postId));
    assert Filter([c], OnPost(postId)) == if c.post == postId then [c] else [];
  }

  function ListedOf(comments: seq<Comment>): Blog -> Listed {
    (b: Blog) => Listed(b, CommentCount(comments, b.id))
  }

  /** The visibility rule: the status filter is forced to `published`
      unless the viewer is an admin or filters by their own id. A viewer
      who is not signed in and filters by an author is not forced. */
  predicate ForcedPublished(viewer: Option<User>, author: Option<string>) {
    (viewer.None? || viewer.value.role != AdminRole)
    && (!Truthy(author) || (viewer.Some? && author.value != viewer.value.id))
  }

  /** The status the query asks for, after the visibility rule. */
  function StatusFilter(viewer: Option<User>, q: BlogQuery): (r: Option<string>)
    ensures ForcedPublished(viewer, q.author) ==> r == Some("published")
    ensures !ForcedPublished(viewer, q.author) ==> (r.Some? <==> Truthy(q.status)) && (r.Some? ==> r == q.status)
  {
    if ForcedPublished(viewer, q.author) then Some("published")
    else if Truthy(q.status) then q.status
    else None
  }

  /** One post against the whole query: not deleted, then each truthy
      filter; the tag is compared after the schema's `trim` setter, and
      `search` goes to the regular-expression matcher on title or content. */
  predicate ListMatch(q: BlogQuery, status: Option<string>, matches: (string, string) -> bool, b: Blog) {
    && !b.isDeleted
    && (status.Some? ==> StatusName(b.status) == status.value)
    && (Truthy(q.author) ==> b.author == Lower(q.author.value))
    && (Truthy(q.tag) ==> Trim(q.tag.value) in b.tags)
    && (Truthy(q.search) ==> matches(b.title, q.search.value) || matches(b.content, q.search.value))
  }

  /** Blanks around the tag asked for do not change which posts match. */
  lemma TagQueryIgnoresPadding(q: BlogQuery, status: Option<string>, matches: (string, string) -> bool, b: Blog)
    requires q.tag.Some? && Trim(q.tag.value) != ""
    ensures ListMatch(q, status, matches, b) == ListMatch(q.(tag := Some(Trim(q.tag.value))), status, matches, b)
  {
    TrimIdempotent(q.tag.value);
  }

  function ListMatcher(q: BlogQuery, status: Option<string>, matches: (string, string) -> bool): Blog -> bool {
    (b: Blog) => ListMatch(q, status, matches, b)
  }

  /** The posts `getAllBlogs` counts, in natural order. */
  function ListedPosts(blogs: seq<Blog>, viewer: Option<User>, q: BlogQuery, matches: (string, string) -> bool): (r: seq<Blog>)
    ensures forall i :: 0 <= i < |r| ==> r[i] in blogs && ListMatch(q, StatusFilter(viewer, q), matches, r[i])
    ensures ForcedPublished(viewer, q.author) ==> forall i :: 0 <= i < |r| ==> r[i].status == Published
    ensures forall k :: 0 <= k < |blogs| && ListMatch(q, StatusFilter(viewer, q), matches, blogs[k]) ==> blogs[k] in r
  {
    var r := Filter(blogs, ListMatcher(q, StatusFilter(viewer, q), matches));
    assert forall i :: 0 <= i < |r| ==> StatusFilter(viewer, q).Some? ==> StatusName(r[i].status) == StatusFilter(viewer, q).value;
    r
  }

  /** Position `i` of the matching posts oldest first when `ascending`, newest first otherwise. */
  function OrderedAt(xs: seq<Blog>, ascending: bool, i: nat): Blog
    requires i < |xs|
  {
    if ascending then xs[i] else xs[|xs| - 1 - i]
  }

  /** The matching posts oldest first for `order=asc`, newest first otherwise. */
  function Ordered(xs: seq<Blog>, ascending: bool): (r: seq<Blog>)
    requires Increasing(xs, BlogTime)
    ensures |r| == |xs| && forall i :: 0 <= i < |r| ==> r[i] in xs && r[i] == OrderedAt(xs, ascending, i)
    ensures ascending ==> Increasing(r, BlogTime)
    ensures !ascending ==> Decreasing(r, BlogTime)
  {
    if ascending then xs
    else
      var r := NewestFirst(xs, BlogTime);
      assert forall i :: 0 <= i < |r| ==> r[i] == xs[|xs| - 1 - i];
      r
  }

  /** `getAllBlogs`, sorted on `createdAt`. An author filter that is not
      ObjectId text fails the cast. */
  function GetAllBlogs(blogs: seq<Blog>, comments: seq<Comment>, viewer: Option<User>, q: BlogQuery,
                       matches: (string, string) -> bool): (r: Reply<Page<Listed>>)
    requires q.page >= 1 && q.limit >= 1
    requires Increasing(blogs, BlogTime)
    ensures r.status == 500 <==> Truthy(q.author) && !IsObjectIdText(q.author.value)
    ensures r.status != 500 ==> r.status == 200 && r.data.Some?
    ensures r.data.Some? ==> |r.data.value.items| <= q.limit
    ensures r.data.Some? ==> |r.data.value.items| == PageSize(|ListedPosts(blogs, viewer, q, matches)|, q.page, q.limit)
    ensures r.data.Some? ==> forall i :: 0 <= i < |r.data.value.items| ==>
              Skip(q.page, q.limit) + i < |ListedPosts(blogs, viewer, q, matches)|
              && r.data.value.items[i].blog
                 == OrderedAt(ListedPosts(blogs, viewer, q, matches), q.order == Some("asc"), Skip(q.page, q.limit) + i)
    ensures r.data.Some? ==>
              r.data.value.pagination == MakePagination(|ListedPosts(blogs, viewer, q, matches)|, q.page, q.limit)
    ensures r.data.Some? ==> forall i :: 0 <= i < |r.data.value.items| ==>
              r.data.value.items[i].blog in ListedPosts(blogs, viewer, q, matches)
              && r.data.value.items[i].commentCount == CommentCount(comments, r.data.value.items[i].blog.id)
    ensures r.data.Some? && q.order == Some("asc") ==> Increasing(r.data.value.items, ListedTime)
    ensures r.data.Some? && q.order != Some("asc") ==> Decreasing(r.data.value.items, ListedTime)
  {
    if Truthy(q.author) && !IsObjectIdText(q.author.value) then Fail(500, "Error fetching blogs")
    else
      var found := ListedPosts(blogs, viewer, q, matches);
      assert Increasing(found, BlogTime) by {
        FilterKeepsIncreasing(blogs, ListMatcher(q, StatusFilter(viewer, q), matches), BlogTime);
      }
      var items := ListPage(found, comments, q.order == Some("asc"), q.page, q.limit);
      Reply(200, "", Some(Page(items, MakePagination(|found|, q.page, q.limit))))
  }

  function ListedTime(l: Listed): int { l.blog.createdAt }

  /** One page of the matching posts in the requested order. */
  function OrderedPage(found: seq<Blog>, ascending: bool, page: int, limit: int): (shown: seq<Blog>)
    requires page >= 1 && limit >= 1
    requires Increasing(found, BlogTime)
    ensures |shown| <= limit && |shown| == PageSize(|found|, page, limit)
    ensures forall i :: 0 <= i < |shown| ==> shown[i] in found
    ensures |shown| > 0 ==> Skip(page, limit) + |shown| <= |found|
    ensures forall i :: 0 <= i < |shown| ==> shown[i] == OrderedAt(found, ascending, Skip(page, limit) + i)
    ensures ascending ==> Increasing(shown, BlogTime)
    ensures !ascending ==> Decreasing(shown, BlogTime)
  {
    var ordered := Ordered(found, ascending);
    var shown := Paginate(ordered, page, limit);
    assert ascending ==> Increasing(shown, BlogTime) by {
      if ascending { WindowKeepsIncreasing(ordered, Skip(page, limit), limit, BlogTime); }
    }
    assert !ascending ==> Decreasing(shown, BlogTime) by {
      if !ascending { WindowKeepsDecreasing(ordered, Skip(page, limit), limit, BlogTime); }
    }
    assert forall i :: 0 <= i < |shown| ==> shown[i] in found by {
      forall i | 0 <= i < |shown| ensures shown[i] in found {
        assert shown[i] == ordered[Skip(page, limit) + i];
      }
    }
    shown
  }

  /** That page with the comment counts. */
  function ListPage(found: seq<Blog>, comments: seq<Comment>, ascending: bool, page: int, limit: int): (items: seq<Listed>)
    requires page >= 1 && limit >= 1
    requires Increasing(found, BlogTime)
    ensures |items| <= limit && |items| == PageSize(|found|, page, limit)
    ensures |items| > 0 ==> Skip(page, limit) + |items| <= |found|
    ensures forall i :: 0 <= i < |items| ==> items[i].blog == OrderedAt(found, ascending, Skip(page, limit) + i)
    ensures forall i :: 0 <= i < |items| ==> items[i].blog in found
                                             && items[i].commentCount == CommentCount(comments, items[i].blog.id)
    ensures ascending ==> Increasing(items, ListedTime)
    ensures !ascending ==> Decreasing(items, ListedTime)
  {
    var shown := OrderedPage(found, ascending, page, limit);
    var items := MapSeq(shown, ListedOf(comments));
    forall i | 0 <= i < |items|
      ensures items[i].blog == shown[i] && items[i].commentCount == CommentCount(comments, shown[i].id)
    {
      assert items[i] == ListedOf(comments)(shown[i]);
    }
    assert forall i :: 0 <= i < |items| ==> ListedTime(items[i]) == BlogTime(shown[i]);
    items
  }

  /** `GET /api/blogs` behind the cache middleware, with the reply
      rendered to the stored body by `render`. The key is the URL alone:
      once a body is stored, every viewer asking for that URL receives
      it, whatever `getAllBlogs` would have shown them. */
  method CachedListBlogs(st: Store, cache: CacheService<string>, viewer: Option<User>, url: string, q: BlogQuery,
                         matches: (string, string) -> bool, render: Reply<Page<Listed>> -> string)
    returns (status: nat, body: string)
    requires st.Valid() && q.page >= 1 && q.limit >= 1
    modifies cache
    ensures CacheKey(url) in old(cache.entries) ==>
              status == 200 && body == old(cache.entries)[CacheKey(url)] && cache.entries == old(cache.entries)
    ensures CacheKey(url) !in old(cache.entries) ==>
              var r := GetAllBlogs(st.blogs, st.comments, viewer, q, matches);
              && status == r.status && body == render(r)
              && cache.entries == (if r.status == 200 then old(cache.entries)[CacheKey(url) := body] else old(cache.entries))
  {
    var step := cache.Lookup("GET", url);
    if step.Hit? {
      return 200, step.body;
    }
    var r := GetAllBlogs(st.blogs, st.comments, viewer, q, matches);
    status, body := r.status, render(r);
    cache.Record(step.key, status, body);
  }

  /** A viewer who is not signed in and names an author, with no other
      filter, is not forced to published posts: every live post by that
      author is listed, drafts included. */
  lemma AnonymousAuthorFilterShowsDrafts(blogs: seq<Blog>, q: BlogQuery, matches: (string, string) -> bool)
    requires Truthy(q.author) && !Truthy(q.status) && !Truthy(q.tag) && !Truthy(q.search)
    ensures forall k :: 0 <= k < |blogs| && !blogs[k].isDeleted && blogs[k].author == Lower(q.author.value)
                        ==> blogs[k] in ListedPosts(blogs, None, q, matches)
  {
    assert !ForcedPublished(None, q.author);
    assert StatusFilter(None, q) == None;
    forall k | 0 <= k < |blogs| && !blogs[k].isDeleted && blogs[k].author == Lower(q.author.value)
      ensures ListMatch(q, None, matches, blogs[k])
    {
    }
  }

  /** A signed-in viewer who is not an admin and names another author
      sees only published posts. */
  lemma OtherAuthorsDraftsStayHidden(blogs: seq<Blog>, comments: seq<Comment>, me: User, q: BlogQuery,
                                     matches: (string, string) -> bool)
    requires q.page >= 1 && q.limit >= 1 && Increasing(blogs, BlogTime)
    requires me.role == UserRole && Truthy(q.author) && q.author.value != me.id
    ensures var r := GetAllBlogs(blogs, comments, Some(me), q, matches);
            r.data.Some? ==> forall i :: 0 <= i < |r.data.value.items| ==> r.data.value.items[i].blog.status == Published
  {
    assert ForcedPublished(Some(me), q.author);
    var r := GetAllBlogs(blogs, comments, Some(me), q, matches);
    if r.data.Some? {
      var found := ListedPosts(blogs, Some(me), q, matches);
      forall i | 0 <= i < |r.data.value.items| ensures r.data.value.items[i].blog.status == Published {
        var k :| 0 <= k < |found| && found[k] == r.data.value.items[i].blog;
      }
    }
  }

  /** A post with its top-level comments newest first, each with its replies. */
  datatype BlogView = BlogView(blog: Blog, comments: seq<CommentController.Thread>)

  function AllThreads(comments: seq<Comment>, postId: Id): (ts: seq<CommentController.Thread>)
    requires Increasing(comments, CommentTime)
    ensures |ts| == |TopLevel(comments, postId)|
    ensures forall i :: 0 <= i < |ts| ==> ts[i].comment in TopLevel(comments, postId)
    ensures forall i :: 0 <= i < |ts| ==> IsTopLevelOf(postId, ts[i].comment)
                                          && ts[i].replies == Replies(comments, ts[i].comment)
    ensures forall i, j :: 0 <= i < j < |ts| ==> ts[i].comment.createdAt > ts[j].comment.createdAt
  {
    var top := TopLevel(comments, postId);
    var newest := NewestFirst(top, CommentTime);
    CommentController.WithReplies(comments, newest)
  }

  /** What `getBlogById` decides: a draft is shown only to its author or
      an admin. With a signed-in viewer the test reads the populated
      author's id, which throws when the author's account is gone. */
  datatype ReadPlan = Hidden(status: nat, message: string) | Shown(index: nat)

  function PlanRead(users: seq<User>, blogs: seq<Blog>, viewer: Option<User>, identifier: string): (r: ReadPlan)
    ensures FindLivePost(blogs, identifier).None? ==> r == Hidden(404, "Blog post not found")
    ensures r.Shown? ==> FindLivePost(blogs, identifier) == Some(r.index)
    ensures FindLivePost(blogs, identifier).Some? && blogs[FindLivePost(blogs, identifier).value].status == Published
            ==> r == Shown(FindLivePost(blogs, identifier).value)
    ensures r.Shown? && blogs[r.index].status == Draft ==>
              viewer.Some? && OwnerOrAdmin(viewer.value, blogs[r.index].author)
    ensures r == Hidden(403, "Access denied") <==>
              FindLivePost(blogs, identifier).Some? && blogs[FindLivePost(blogs, identifier).value].status == Draft
              && (viewer.None?
                  || (UserById(users, blogs[FindLivePost(blogs, identifier).value].author).Some?
                      && !OwnerOrAdmin(viewer.value, blogs[FindLivePost(blogs, identifier).value].author)))
  {
    match FindLivePost(blogs, identifier)
    case None => Hidden(404, "Blog post not found")
    case Some(k) =>
      if blogs[k].status == Draft then
        if viewer.None? then Hidden(403, "Access denied")
        else if UserById(users, blogs[k].author).None? then Hidden(500, "Error fetching blog post")
        else if !OwnerOrAdmin(viewer.value, blogs[k].author) then Hidden(403, "Access denied")
        else Shown(k)
      else Shown(k)
  }

  /** A post with one more view counted. */
  function Viewed(b: Blog): (v: Blog)
    ensures v.views == b.views + 1 && v.(views := b.views) == b
  {
    b.(views := b.views + 1)
  }

  /** `getBlogById`: a refused read changes nothing; a shown one counts
      exactly one more view and leaves the slug alone (the title is not
      modified, so the hook does not run). */
  method GetBlogById(st: Store, viewer: Option<User>, identifier: string, slugify: string -> string)
    returns (r: Reply<BlogView>)
    requires st.Valid()
    modifies st
    ensures st.Valid()
    ensures var plan := PlanRead(old(st.users), old(st.blogs), viewer, identifier);
      && (plan.Hidden? ==> r.status == plan.status && r.data.None? && st.blogs == old(st.blogs))
      && (plan.Shown? ==> st.blogs == old(st.blogs)[plan.index := Viewed(old(st.blogs)[plan.index])])
      && (plan.Shown? ==>
            r == Reply(200, "", Some(BlogView(Viewed(old(st.blogs)[plan.index]),
                                              AllThreads(old(st.comments), old(st.blogs)[plan.index].id)))))
    ensures st.users == old(st.users) && st.comments == old(st.comments) && st.logs == old(st.logs)
    ensures st.clock == old(st.clock)
  {
    var plan := PlanRead(st.users, st.blogs, viewer, identifier);
    if plan.Hidden? {
      return Fail(plan.status, plan.message);
    }
    ghost var b := st.blogs[plan.index];
    var doc := new BlogDoc.Hydrate(st.blogs[plan.index]);
    doc.IncrementViews();
    var saved := doc.Save(st.blogs, slugify, st.clock);
    assert saved == Viewed(b);
    var threads := AllThreads(st.comments, saved.id);
    assert st.blogs == old(st.blogs) && st.comments == old(st.comments);
    st.PutBlog(plan.index, saved);
    assert st.blogs == old(st.blogs)[plan.index := Viewed(b)];
    r := Reply(200, "", Some(BlogView(saved, threads)));
  }

  /** What update and delete decide before writing. */
  datatype OwnPlan = Refused(status: nat, message: string) | Owned(index: nat)

  function PlanOwnPost(blogs: seq<Blog>, me: User, identifier: string, deniedMessage: string): (r: OwnPlan)
    ensures FindLivePost(blogs, identifier).None? <==> r == Refused(404, "Blog post not found")
    ensures r.Owned? ==> FindLivePost(blogs, identifier) == Some(r.index) && OwnerOrAdmin(me, blogs[r.index].author)
    ensures r == Refused(403, deniedMessage) <==>
              FindLivePost(blogs, identifier).Some? && !OwnerOrAdmin(me, blogs[FindLivePost(blogs, identifier).value].author)
  {
    match FindLivePost(blogs, identifier)
    case None => Refused(404, "Blog post not found")
    case Some(k) => if !OwnerOrAdmin(me, blogs[k].author) then Refused(403, deniedMessage) else Owned(k)
  }

  /** The update validators of `findByIdAndUpdate(…, { runValidators })`
      on the fields sent. */
  predicate PatchValid(p: BlogBody) {
    && (p.title.Some? ==> Trim(p.title.value) != "" && Utf16Length(Trim(p.title.value)) <= 200)
    && (p.content.Some? ==> p.content.value != "")
    && (p.excerpt.Some? ==> Utf16Length(p.excerpt.value) <= 300)
    && (p.status.Some? ==> ParseStatus(p.status.value).Some?)
  }

  /** The post after the update: each field sent replaces the stored one
      (through the `trim` setters), every other field, the slug included,
      stays as it was. */
  function Patched(b: Blog, p: BlogBody): (r: Blog)
    requires PatchValid(p)
    ensures r.title == (if p.title.Some? then Trim(p.title.value) else b.title)
    ensures r.content == (if p.content.Some? then p.content.value else b.content)
    ensures r.excerpt == (if p.excerpt.Some? then p.excerpt.value else b.excerpt)
    ensures r.tags == (if p.tags.Some? then TrimTags(p.tags.value) else b.tags)
    ensures r.coverImage == (if p.coverImage.Some? then p.coverImage.value else b.coverImage)
    ensures r.status == (if p.status.Some? then ParseStatus(p.status.value).value else b.status)
    ensures r.(title := b.title, content := b.content, excerpt := b.excerpt, tags := b.tags,
               coverImage := b.coverImage, status := b.status) == b
  {
    b.(title := if p.title.Some? then Trim(p.title.value) else b.title,
       content := if p.content.Some? then p.content.value else b.content,
       excerpt := if p.excerpt.Some? then p.excerpt.value else b.excerpt,
       tags := if p.tags.Some? then TrimTags(p.tags.value) else b.tags,
       coverImage := if p.coverImage.Some? then p.coverImage.value else b.coverImage,
       status := if p.status.Some? then ParseStatus(p.status.value).value else b.status)
  }

  /** A new title does not give a new slug: the update bypasses the hook. */
  lemma RetitleKeepsSlug(b: Blog, title: string)
    requires Trim(title) != "" && Utf16Length(Trim(title)) <= 200
    ensures PatchValid(BlogBody(Some(title), None, None, None, None, None))
    ensures var r := Patched(b, BlogBody(Some(title), None, None, None, None, None));
            r.title == Trim(title) && r.slug == b.slug
  {
  }

  /** An empty update changes nothing. */
  lemma EmptyPatchIsIdentity(b: Blog)
    ensures PatchValid(BlogBody(None, None, None, None, None, None))
    ensures Patched(b, BlogBody(None, None, None, None, None, None)) == b
  {
  }

  /** `updateBlog`. */
  method UpdateBlog(st: Store, cache: CacheService<string>, io: SocketService, me: User,
                    identifier: string, p: BlogBody)
    returns (r: Reply<Blog>)
    requires st.Valid()
    modifies st, cache, io
    ensures st.Valid()
    ensures var plan := PlanOwnPost(old(st.blogs), me, identifier, "Access denied. You can only edit your own posts.");
      && (plan.Refused? ==>
            r.status == plan.status && st.blogs == old(st.blogs)
            && cache.entries == old(cache.entries) && io.sent == old(io.sent))
      && (plan.Owned? && !PatchValid(p) ==>
            r.status == 500 && st.blogs == old(st.blogs)
            && cache.entries == old(cache.entries) && io.sent == old(io.sent))
      && (plan.Owned? && PatchValid(p) ==>
            var b := Patched(old(st.blogs)[plan.index], p);
            && st.blogs == old(st.blogs)[plan.index := b]
            && r == Reply(200, "Blog post updated successfully", Some(b))
            && cache.entries == InvalidateAll(old(cache.entries), BlogPatterns)
            && io.sent == old(io.sent) + BlogUpdateEvents(old(io.io), b.id))
    ensures st.users == old(st.users) && st.comments == old(st.comments) && st.logs == old(st.logs)
  {
    var plan := PlanOwnPost(st.blogs, me, identifier, "Access denied. You can only edit your own posts.");
    if plan.Refused? {
      return Fail(plan.status, plan.message);
    }
    if !PatchValid(p) {
      return Fail(500, "Error updating blog post");
    }
    var b := Patched(st.blogs[plan.index], p);
    st.PutBlog(plan.index, b);
    cache.InvalidateCache(BlogPatterns);
    io.EmitBlogUpdate(b.id);
    r := Reply(200, "Blog post updated successfully", Some(b));
  }

  /** `deleteBlog`: the post is soft-deleted, stamped now; nothing else
      about it changes. */
  method DeleteBlog(st: Store, cache: CacheService<string>, io: SocketService, me: User,
                    identifier: string, slugify: string -> string)
    returns (r: Reply<Blog>)
    requires st.Valid()
    modifies st, cache, io
    ensures st.Valid()
    ensures var plan := PlanOwnPost(old(st.blogs), me, identifier, "Access denied. You can only delete your own posts.");
      && (plan.Refused? ==>
            r.status == plan.status && st.blogs == old(st.blogs)
            && cache.entries == old(cache.entries) && io.sent == old(io.sent))
      && (plan.Owned? ==>
            var b := old(st.blogs)[plan.index];
            && st.blogs == old(st.blogs)[plan.index := SoftDeleted(b, old(st.clock))]
            && r == Reply(200, "Blog post deleted successfully", None)
            && cache.entries == InvalidateAll(old(cache.entries), BlogPatterns)
            && io.sent == old(io.sent) + BlogDeleteEvents(old(io.io), b.id))
    ensures st.users == old(st.users) && st.comments == old(st.comments) && st.logs == old(st.logs)
  {
    var plan := PlanOwnPost(st.blogs, me, identifier, "Access denied. You can only delete your own posts.");
    if plan.Refused? {
      return Fail(plan.status, plan.message);
    }
    var now := st.Tick();
    var doc := new BlogDoc.Hydrate(st.blogs[plan.index]);
    doc.SoftDelete(now);
    var saved := doc.Save(st.blogs, slugify, now);
    st.PutBlog(plan.index, saved);
    cache.InvalidateCache(BlogPatterns);
    io.EmitBlogDelete(saved.id);
    r := Reply(200, "Blog post deleted successfully", None);
  }

  /** The query `{ _id: id, isDeleted: true }` of `restoreBlog`. */
  function FindDeletedPost(blogs: seq<Blog>, id: string): (r: Option<nat>)
    ensures r.Some? ==> r.value < |blogs| && blogs[r.value].isDeleted && blogs[r.value].id == Lower(id)
    ensures r.None? <==> forall k :: 0 <= k < |blogs| ==> !(blogs[k].isDeleted && blogs[k].id == Lower(id))
  {
    FirstIndex(blogs, (b: Blog) => b.isDeleted && b.id == Lower(id))
  }

  /** `restoreBlog` (admin only): a slug in the id place fails the cast;
      only a soft-deleted post is found, and restoring it resets the two
      flags and nothing else. */
  method RestoreBlog(st: Store, cache: CacheService<string>, id: string, slugify: string -> string)
    returns (r: Reply<Blog>)
    requires st.Valid()
    modifies st, cache
    ensures st.Valid()
    ensures !IsObjectIdText(id) ==> r.status == 500 && st.blogs == old(st.blogs) && cache.entries == old(cache.entries)
    ensures IsObjectIdText(id) && FindDeletedPost(old(st.blogs), id).None? ==>
              r.status == 404 && st.blogs == old(st.blogs) && cache.entries == old(cache.entries)
    ensures IsObjectIdText(id) && FindDeletedPost(old(st.blogs), id).Some? ==>
              var k := FindDeletedPost(old(st.blogs), id).value;
              && st.blogs == old(st.blogs)[k := Restored(old(st.blogs)[k])]
              && r == Reply(200, "Blog post restored successfully", Some(Restored(old(st.blogs)[k])))
              && cache.entries == InvalidateAll(old(cache.entries), BlogPatterns)
    ensures st.users == old(st.users) && st.comments == old(st.comments) && st.logs == old(st.logs)
  {
    if !IsObjectIdText(id) {
      return Fail(500, "Error restoring blog post");
    }
    var found := FindDeletedPost(st.blogs, id);
    if found.None? {
      return Fail(404, "Deleted blog post not found");
    }
    var k := found.value;
    var doc := new BlogDoc.Hydrate(st.blogs[k]);
    doc.Restore();
    var saved := doc.Save(st.blogs, slugify, st.clock);
    st.PutBlog(k, saved);
    cache.InvalidateCache(BlogPatterns);
    r := Reply(200, "Blog post restored successfully", Some(saved));
  }

  predicate MineMatch(me: User, status: Option<string>, b: Blog) {
    b.author == me.id && !b.isDeleted && (Truthy(status) ==> StatusName(b.status) == status.value)
  }

  function MineMatcher(me: User, status: Option<string>): Blog -> bool {
    (b: Blog) => MineMatch(me, status, b)
  }

  /** The query `getMyBlogs` runs: the requester's live posts, with the
      given status when one is asked for, in natural order. */
  function MyPosts(blogs: seq<Blog>, me: User, status: Option<string>): (r: seq<Blog>)
    ensures forall i :: 0 <= i < |r| ==> r[i] in blogs && MineMatch(me, status, r[i])
    ensures forall k :: 0 <= k < |blogs| && MineMatch(me, status, blogs[k]) ==> blogs[k] in r
    ensures Increasing(blogs, BlogTime) ==> Increasing(r, BlogTime)
  {
    assert Increasing(blogs, BlogTime) ==> Increasing(Filter(blogs, MineMatcher(me, status)), BlogTime) by {
      if Increasing(blogs, BlogTime) {
        FilterKeepsIncreasing(blogs, MineMatcher(me, status), BlogTime);
      }
    }
    Filter(blogs, MineMatcher(me, status))
  }

  /** `getMyBlogs`: the requester's live posts, newest first, one page. */
  function GetMyBlogs(blogs: seq<Blog>, me: User, status: Option<string>, page: int, limit: int): (r: Page<Blog>)
    requires page >= 1 && limit >= 1
    requires Increasing(blogs, BlogTime)
    ensures |r.items| <= limit && |r.items| == PageSize(|MyPosts(blogs, me, status)|, page, limit)
    ensures |r.items| > 0 ==> Skip(page, limit) + |r.items| <= |MyPosts(blogs, me, status)|
    ensures forall i :: 0 <= i < |r.items| ==>
              r.items[i] == MyPosts(blogs, me, status)[|MyPosts(blogs, me, status)| - 1 - (Skip(page, limit) + i)]
    ensures forall i :: 0 <= i < |r.items| ==> r.items[i] in blogs && MineMatch(me, status, r.items[i])
    ensures forall i, j :: 0 <= i < j < |r.items| ==> r.items[i].createdAt > r.items[j].createdAt
    ensures r.pagination == MakePagination(|MyPosts(blogs, me, status)|, page, limit)
  {
    var mine := MyPosts(blogs, me, status);
    Page(NewestPage(mine, BlogTime, page, limit), MakePagination(|mine|, page, limit))
  }

  predicate TrendingMatch(b: Blog) {
    !b.isDeleted && b.status == Published
  }

  /** The posts `getTrendingBlogs` lists: the live published ones, most
      viewed first, newest first among equals, the first `limit` of them
      (`limit` zero lists all); every live published post left out ranks
      below every one listed. */
  function TrendingPosts(blogs: seq<Blog>, limit: nat): (r: seq<Blog>)
    ensures limit > 0 ==> |r| == Min(limit, |Filter(blogs, TrendingMatch)|)
    ensures limit == 0 ==> |r| == |Filter(blogs, TrendingMatch)|
    ensures forall i :: 0 <= i < |r| ==> r[i] in blogs && TrendingMatch(r[i])
    ensures forall i, j :: 0 <= i < j < |r| ==> RanksAbove(r[i], r[j])
    ensures forall k :: 0 <= k < |blogs| && TrendingMatch(blogs[k]) && blogs[k] !in r
                        ==> forall i :: 0 <= i < |r| ==> RanksAbove(r[i], blogs[k])
    ensures multiset(r) <= multiset(Filter(blogs, TrendingMatch))
    ensures limit == 0 ==> multiset(r) == multiset(Filter(blogs, TrendingMatch))
  {
    TrendingDrawnFromBlogs(blogs, limit);
    Top(Filter(blogs, TrendingMatch), limit)
  }

  /** The top eligible posts are live published posts of the collection,
      ranked above every live published post left out. */
  lemma TrendingDrawnFromBlogs(blogs: seq<Blog>, limit: nat)
    ensures var top := Top(Filter(blogs, TrendingMatch), limit);
            && (forall i :: 0 <= i < |top| ==> top[i] in blogs && TrendingMatch(top[i]))
            && (forall k :: 0 <= k < |blogs| && TrendingMatch(blogs[k]) && blogs[k] !in top
                  ==> forall i :: 0 <= i < |top| ==> RanksAbove(top[i], blogs[k]))
  {
    var eligible := Filter(blogs, TrendingMatch);
    var top := Top(eligible, limit);
    forall i | 0 <= i < |top| ensures top[i] in blogs && TrendingMatch(top[i]) {
      var e :| 0 <= e < |eligible| && eligible[e] == top[i];
    }
    assert forall k :: 0 <= k < |blogs| && TrendingMatch(blogs[k]) ==> blogs[k] in eligible;
  }

  /** `getTrendingBlogs`: the trending posts with their comment counts. */
  function GetTrendingBlogs(blogs: seq<Blog>, comments: seq<Comment>, limit: nat): (r: seq<Listed>)
    ensures |r| == |TrendingPosts(blogs, limit)|
    ensures forall i :: 0 <= i < |r| ==> r[i].blog == TrendingPosts(blogs, limit)[i]
                                         && r[i].commentCount == CommentCount(comments, r[i].blog.id)
  {
    MapSeq(TrendingPosts(blogs, limit), ListedOf(comments))
  }
}
