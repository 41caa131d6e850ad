/** The records the backend stores (users, blog posts, comments, activity
    log entries), the shape of an HTTP reply, and the small rules several
    handlers share: the id-or-slug lookup, ownership, and pagination. */
module Domain {
  import opened Collections
  import opened Text

  /** The text of an ObjectId, as it appears in URLs and documents. */
  type Id = string

  datatype Role = UserRole | AdminRole

  function RoleName(r: Role): string {
    match r
    case UserRole => "user"
    case AdminRole => "admin"
  }

  /** The `enum: ['user', 'admin']` cast of the user schema. */
  function ParseRole(s: string): (r: Option<Role>)
    ensures r.Some? <==> s == "user" || s == "admin"
    ensures r.Some? ==> RoleName(r.value) == s
  {
    if s == "user" then Some(UserRole) else if s == "admin" then Some(AdminRole) else None
  }

  datatype Status = Draft | Published

  function StatusName(s: Status): string {
    match s
    case Draft => "draft"
    case Published => "published"
  }

  /** The `enum: ['draft', 'published']` cast of the blog schema. */
  function ParseStatus(s: string): (r: Option<Status>)
    ensures r.Some? <==> s == "draft" || s == "published"
    ensures r.Some? ==> StatusName(r.value) == s
  {
    if s == "draft" then Some(Draft) else if s == "published" then Some(Published) else None
  }

  /** Casting the name of a status gives the status back. */
  lemma StatusRoundTrip(s: Status)
    ensures ParseStatus(StatusName(s)) == Some(s)
  {
  }

  /** A user account. `password` holds the bcrypt hash and is absent for
      accounts created by an OAuth provider. */
  datatype User = User(
    id: Id,
    username: string,
    name: string,
    email: string,
    password: Option<string>,
    role: Role,
    isActive: bool,
    googleId: Option<string>,
    facebookId: Option<string>,
    avatar: string,
    refreshToken: Option<string>,
    createdAt: nat)

  /** A blog post. `deletedAt` is the time of the soft delete, if any. */
  datatype Blog = Blog(
    id: Id,
    title: string,
    slug: string,
    content: string,
    author: Id,
    excerpt: string,
    tags: seq<string>,
    coverImage: string,
    isDeleted: bool,
    deletedAt: Option<nat>,
    views: nat,
    status: Status,
    createdAt: nat)

  /** A comment; a reply names its parent comment. */
  datatype Comment = Comment(
    id: Id,
    content: string,
    author: Id,
    post: Id,
    parentComment: Option<Id>,
    isEdited: bool,
    editedAt: Option<nat>,
    createdAt: nat)

  /** One activity-log document. */
  datatype LogEntry = LogEntry(
    user: Id,
    action: string,
    resourceType: string,
    resourceId: Option<Id>,
    details: Option<string>,
    ipAddress: string,
    userAgent: string,
    createdAt: nat)

  /** An HTTP reply: status code, message and an optional payload. */
  datatype Reply<T> = Reply(status: nat, message: string, data: Option<T>)

  function Fail<T>(status: nat, message: string): (r: Reply<T>)
    ensures r.status == status && r.data.None?
  {
    Reply(status, message, None)
  }

  function UserTime(u: User): int { u.createdAt }
  function BlogTime(b: Blog): int { b.createdAt }
  function CommentTime(c: Comment): int { c.createdAt }
  function LogTime(e: LogEntry): int { e.createdAt }

  /** JavaScript truthiness of a string value that may be absent. */
  predicate Truthy(s: Option<string>) {
    s.Some? && s.value != ""
  }

  /** The ownership rule of the comment and blog handlers: the requester
      is the owner, or an admin. */
  predicate OwnerOrAdmin(me: User, owner: Id) {
    me.id == owner || me.role == AdminRole
  }

  /** `/^[0-9a-fA-F]{24}$/.test(identifier)` decides how a post is looked up. */
  predicate LooksLikeId(identifier: string) {
    IsObjectIdText(identifier)
  }

  /** The query `{ _id: identifier }` or `{ slug: identifier }`: an id is
      compared after the ObjectId cast, which reads hex case-insensitively,
      and a slug after the schema's `lowercase` setter. */
  predicate MatchesIdentifier(b: Blog, identifier: string) {
    if LooksLikeId(identifier) then b.id == Lower(identifier) else b.slug == Lower(identifier)
  }

  /** The lookup `{ …, isDeleted: false }` by id or slug. */
  predicate LiveMatch(identifier: string, b: Blog) {
    !b.isDeleted && MatchesIdentifier(b, identifier)
  }

  function LiveMatcher(identifier: string): Blog -> bool {
    b => LiveMatch(identifier, b)
  }

  /** `Blog.findOne` with that query: the first live match in natural order. */
  function FindLivePost(blogs: seq<Blog>, identifier: string): (r: Option<nat>)
    ensures r.Some? ==> r.value < |blogs| && !blogs[r.value].isDeleted
                        && MatchesIdentifier(blogs[r.value], identifier)
    ensures r.None? <==> forall k :: 0 <= k < |blogs| ==> !LiveMatch(identifier, blogs[k])
  {
    FirstIndex(blogs, LiveMatcher(identifier))
  }

  /** A 24-hex identifier finds a post by its id, whatever the slugs say. */
  lemma IdentifierAsId(blogs: seq<Blog>, identifier: string, k: nat)
    requires LooksLikeId(identifier)
    requires k < |blogs| && blogs[k].id == Lower(identifier) && !blogs[k].isDeleted
    requires forall j :: 0 <= j < k ==> blogs[j].id != Lower(identifier) || blogs[j].isDeleted
    ensures FindLivePost(blogs, identifier) == Some(k)
  {
    assert LiveMatch(identifier, blogs[k]);
  }

  /** The lookup ignores the case of the identifier: an id through the
      ObjectId cast, a slug through the `lowercase` setter. */
  lemma LookupIgnoresCase(blogs: seq<Blog>, identifier: string)
    ensures FindLivePost(blogs, identifier) == FindLivePost(blogs, Lower(identifier))
  {
    LowerIdempotent(identifier);
    LowerKeepsObjectIdText(identifier);
    FirstIndexAgrees(blogs, LiveMatcher(identifier), LiveMatcher(Lower(identifier)));
  }

  /** Any other identifier finds a post by its slug only, written in any
      case: the first live post whose slug is the lower-cased identifier,
      and none when there is no such post. */
  lemma IdentifierAsSlug(blogs: seq<Blog>, identifier: string, k: nat)
    requires !LooksLikeId(identifier)
    requires k <= |blogs|
    requires forall j :: 0 <= j < k ==> blogs[j].slug != Lower(identifier) || blogs[j].isDeleted
    requires k < |blogs| ==> blogs[k].slug == Lower(identifier) && !blogs[k].isDeleted
    ensures FindLivePost(blogs, identifier) == if k < |blogs| then Some(k) else None
  {
    if k < |blogs| {
      assert LiveMatch(identifier, blogs[k]);
    }
  }

  /** `findById(id)`: the first document whose id equals the cast of `id`. */
  function UserById(users: seq<User>, id: Id): (r: Option<nat>)
    ensures r.Some? ==> r.value < |users| && users[r.value].id == Lower(id)
    ensures r.Some? ==> forall j :: 0 <= j < r.value ==> users[j].id != Lower(id)
    ensures r.None? <==> forall k :: 0 <= k < |users| ==> users[k].id != Lower(id)
  {
    FirstIndex(users, (u: User) => u.id == Lower(id))
  }

  function BlogById(blogs: seq<Blog>, id: Id): (r: Option<nat>)
    ensures r.Some? ==> r.value < |blogs| && blogs[r.value].id == Lower(id)
    ensures r.Some? ==> forall j :: 0 <= j < r.value ==> blogs[j].id != Lower(id)
    ensures r.None? <==> forall k :: 0 <= k < |blogs| ==> blogs[k].id != Lower(id)
  {
    FirstIndex(blogs, (b: Blog) => b.id == Lower(id))
  }

  function CommentById(comments: seq<Comment>, id: Id): (r: Option<nat>)
    ensures r.Some? ==> r.value < |comments| && comments[r.value].id == Lower(id)
    ensures r.Some? ==> forall j :: 0 <= j < r.value ==> comments[j].id != Lower(id)
    ensures r.None? <==> forall k :: 0 <= k < |comments| ==> comments[k].id != Lower(id)
  {
    FirstIndex(comments, (c: Comment) => c.id == Lower(id))
  }

  /** `(page - 1) * limit`, the number of documents a page skips. */
  function Skip(page: int, limit: int): nat
    requires page >= 1 && limit >= 1
  {
    (page - 1) * limit
  }

  /** How many of `n` documents page `page` holds. */
  function PageSize(n: nat, page: int, limit: int): nat
    requires page >= 1 && limit >= 1
  {
    if Skip(page, limit) >= n then 0 else Min(limit, n - Skip(page, limit))
  }

  /** `Math.ceil(total / limit)`: the fewest pages of `limit` holding `total`. */
  function Pages(total: nat, limit: nat): (r: nat)
    requires limit >= 1
    ensures r * limit >= total
    ensures r == 0 || (r - 1) * limit < total
  {
    (total + limit - 1) / limit
  }

  /** Page `page` of a list already in its final order. */
  function Paginate<T>(xs: seq<T>, page: int, limit: int): (r: seq<T>)
    requires page >= 1 && limit >= 1
    ensures |r| <= limit
    ensures forall i :: 0 <= i < |r| ==> Skip(page, limit) + i < |xs| && r[i] == xs[Skip(page, limit) + i]
    ensures |r| == limit <==> Skip(page, limit) + limit <= |xs|
    ensures |r| == PageSize(|xs|, page, limit)
  {
    Window(xs, Skip(page, limit), limit)
  }

  /** `sort({ createdAt: -1 })` of documents kept in creation order. */
  function NewestFirst<T>(xs: seq<T>, key: T -> int): (r: seq<T>)
    requires Increasing(xs, key)
    ensures Decreasing(r, key) && |r| == |xs|
    ensures forall i :: 0 <= i < |r| ==> r[i] == xs[|xs| - 1 - i]
  {
    ReverseOfIncreasing(xs, key);
    Reverse(xs)
  }

  /** Page `page` of a list kept in creation order, newest first: at most
      `limit` of its documents, strictly newest to oldest. */
  function NewestPage<T>(xs: seq<T>, key: T -> int, page: int, limit: int): (r: seq<T>)
    requires page >= 1 && limit >= 1
    requires Increasing(xs, key)
    ensures |r| <= limit && Decreasing(r, key)
    ensures forall i :: 0 <= i < |r| ==> r[i] in xs
    ensures forall i :: 0 <= i < |r| ==> Skip(page, limit) + i < |xs| && r[i] == NewestFirst(xs, key)[Skip(page, limit) + i]
    ensures |r| == PageSize(|xs|, page, limit)
    ensures forall i :: 0 <= i < |r| ==> r[i] == xs[|xs| - 1 - (Skip(page, limit) + i)]
  {
    var newest := NewestFirst(xs, key);
    WindowKeepsDecreasing(newest, Skip(page, limit), limit, key);
    var r := Paginate(newest, page, limit);
    forall i | 0 <= i < |r| ensures r[i] in xs {
      assert r[i] == newest[Skip(page, limit) + i] == xs[|xs| - 1 - (Skip(page, limit) + i)];
    }
    r
  }

  /** Consecutive pages tile the list: page `p + 1` starts where page `p` ends. */
  lemma PagesAreConsecutive<T>(xs: seq<T>, page: int, limit: int)
    requires page >= 1 && limit >= 1
    requires Skip(page, limit) + limit <= |xs|
    ensures Paginate(xs, page, limit) + Paginate(xs, page + 1, limit)
            == Window(xs, Skip(page, limit), 2 * limit)
  {
    assert Skip(page + 1, limit) == Skip(page, limit) + limit by {
      assert page * limit == (page - 1) * limit + limit;
    }
  }

  /** The pagination object of the list replies. */
  datatype Pagination = Pagination(total: nat, page: int, limit: int, pages: nat)

  /** A listing: the documents of one page and the pagination object. */
  datatype Page<T> = Page(items: seq<T>, pagination: Pagination)

  function MakePagination(total: nat, page: int, limit: int): (r: Pagination)
    requires page >= 1 && limit >= 1
    ensures r.total == total && r.page == page && r.limit == limit
    ensures r.pages * limit >= total && (r.pages == 0 || (r.pages - 1) * limit < total)
  {
    Pagination(total, page, limit, Pages(total, limit))
  }
}
