/** The admin handlers: partial user update, user deletion with the
    soft deletion of their posts, the unfiltered blog list, permanent
    blog deletion with its comments, and clearing the cache. */
module AdminController {
  import opened Collections
  import opened Text
  import opened Domain
  import opened BlogSchema
  import opened Database
  import opened UserSchema
  import opened Cache
  import BlogController

  /** The body of `updateUser`; `None` is a field the client did not send. */
  datatype UserPatch = UserPatch(
    name: Option<string>,
    username: Option<string>,
    email: Option<string>,
    role: Option<string>,
    isActive: Option<bool>)

  /** The update validators of the user schema on the fields sent: name
      and email required, a username of at least 3 code units after the
      `trim` setter, and a role from the enum exactly as sent (the `role`
      path has no setter). */
  predicate UserPatchValid(p: UserPatch) {
    && (p.name.Some? ==> Trim(p.name.value) != "")
    && (p.username.Some? ==> Utf16Length(Trim(p.username.value)) >= 3)
    && (p.email.Some? ==> Trim(p.email.value) != "")
    && (p.role.Some? ==> ParseRole(p.role.value).Some?)
  }

  /** The user after the update: each field sent replaces the stored one,
      every other field stays as it was. */
  function PatchedUser(u: User, p: UserPatch): (r: User)
    requires UserPatchValid(p)
    ensures r.name == (if p.name.Some? then Trim(p.name.value) else u.name)
    ensures r.username == (if p.username.Some? then Trim(p.username.value) else u.username)
    ensures r.email == (if p.email.Some? then StoredEmail(p.email.value) else u.email)
    ensures r.role == (if p.role.Some? then ParseRole(p.role.value).value else u.role)
    ensures r.isActive == (if p.isActive.Some? then p.isActive.value else u.isActive)
    ensures r.(name := u.name, username := u.username, email := u.email, role := u.role, isActive := u.isActive) == u
  {
    u.(name := if p.name.Some? then Trim(p.name.value) else u.name,
       username := if p.username.Some? then Trim(p.username.value) else u.username,
       email := if p.email.Some? then StoredEmail(p.email.value) else u.email,
       role := if p.role.Some? then ParseRole(p.role.value).value else u.role,
       isActive := if p.isActive.Some? then p.isActive.value else u.isActive)
  }

  /** The query `{ username, _id: { $ne: id } }`: another account already
      has that username. */
  predicate UsernameTaken(users: seq<User>, username: string, id: Id) {
    exists k :: 0 <= k < |users| && users[k].username == Trim(username) && users[k].id != Lower(id)
  }

  /** Another account already has that (stored) email: the unique index. */
  predicate EmailTaken(users: seq<User>, email: string, id: Id) {
    exists k :: 0 <= k < |users| && users[k].email == StoredEmail(email) && users[k].id != Lower(id)
  }

  /** What `updateUser` decides. The username check comes before the
      lookup, so a taken username gives 400 even for an unknown id. */
  datatype UserPlan = Reject(status: nat, message: string) | Update(index: nat, user: User)

  function PlanUpdateUser(users: seq<User>, id: Id, p: UserPatch): (r: UserPlan)
    ensures !IsObjectIdText(id) ==> r.Reject? && r.status == 500
    ensures r == Reject(400, "Username already taken") <==>
              IsObjectIdText(id) && p.username.Some? && UsernameTaken(users, p.username.value, id)
    ensures r.Reject? && r.status == 404 ==> UserById(users, id).None?
    ensures r.Update? ==>
              && IsObjectIdText(id) && UserPatchValid(p)
              && UserById(users, id) == Some(r.index)
              && r.user == PatchedUser(users[r.index], p)
              && (p.username.Some? ==> !UsernameTaken(users, p.username.value, id))
              && (p.email.Some? ==> !EmailTaken(users, p.email.value, id))
    ensures IsObjectIdText(id) && UserPatchValid(p) && UserById(users, id).Some?
            && (p.username.Some? ==> !UsernameTaken(users, p.username.value, id))
            && (p.email.Some? ==> !EmailTaken(users, p.email.value, id))
            ==> r.Update?
  {
    if !IsObjectIdText(id) then Reject(500, "Error updating user")
    else if p.username.Some? && UsernameTaken(users, p.username.value, id) then Reject(400, "Username already taken")
    else if !UserPatchValid(p) then Reject(500, "Error updating user")
    else match UserById(users, id)
      case None => Reject(404, "User not found")
      case Some(k) =>
        if p.email.Some? && EmailTaken(users, p.email.value, id) then Reject(500, "Error updating user")
        else Update(k, PatchedUser(users[k], p))
  }

  /** `updateUser`: only the planned user changes. */
  method UpdateUser(st: Store, id: Id, p: UserPatch) returns (r: Reply<User>)
    requires st.Valid()
    modifies st
    ensures st.Valid()
    ensures var plan := PlanUpdateUser(old(st.users), id, p);
      && (plan.Reject? ==> r.status == plan.status && r.data.None? && st.users == old(st.users))
      && (plan.Update? ==> st.users == old(st.users)[plan.index := plan.user]
                           && r == Reply(200, "User updated successfully", Some(Projected(plan.user))))
    ensures st.blogs == old(st.blogs) && st.comments == old(st.comments) && st.logs == old(st.logs)
  {
    var plan := PlanUpdateUser(st.users, id, p);
    if plan.Reject? {
      return Fail(plan.status, plan.message);
    }
    st.PutUser(plan.index, plan.user);
    r := Reply(200, "User updated successfully", Some(Projected(plan.user)));
  }

  /** What `deleteUser` decides: the lookup first, then the self-check,
      which compares the requester's id with the raw path parameter. */
  datatype DeletePlan = Keep(status: nat, message: string) | Remove(index: nat)

  function PlanDeleteUser(users: seq<User>, me: User, id: Id): (r: DeletePlan)
    ensures !IsObjectIdText(id) ==> r == Keep(500, "Error deleting user")
    ensures IsObjectIdText(id) && UserById(users, id).None? ==> r == Keep(404, "User not found")
    ensures IsObjectIdText(id) && UserById(users, id).Some? && me.id == id
            ==> r == Keep(400, "Cannot delete your own account")
    ensures r.Remove? <==> IsObjectIdText(id) && UserById(users, id).Some? && me.id != id
    ensures r.Remove? ==> UserById(users, id) == Some(r.index)
  {
    if !IsObjectIdText(id) then Keep(500, "Error deleting user")
    else match UserById(users, id)
      case None => Keep(404, "User not found")
      case Some(k) => if me.id == id then Keep(400, "Cannot delete your own account") else Remove(k)
  }

  /** The self-check compares text: an admin who spells their own id with
      upper-case hex digits passes it and deletes their own account. */
  lemma SelfDeletionBySpelling(users: seq<User>, me: User, id: Id, k: nat)
    requires k < |users| && users[k] == me && IsObjectIdText(id)
    requires Lower(id) == me.id && id != me.id
    requires forall j :: 0 <= j < k ==> users[j].id != me.id
    ensures PlanDeleteUser(users, me, id) == Remove(k)
    ensures users[PlanDeleteUser(users, me, id).index] == me
  {
    assert UserById(users, id) == Some(k);
  }

  /** The change `updateMany({ author }, { isDeleted: true, deletedAt })` makes to a post. */
  function SoftDeleteAt(now: nat): Blog -> Blog {
    b => SoftDeleted(b, now)
  }

  function ByAuthor(author: Id): Blog -> bool {
    (b: Blog) => b.author == author
  }

  /** `deleteUser`: every post by the user is soft-deleted with the same
      timestamp, already deleted ones included, then the account is
      removed. Comments and the cache are left alone. */
  method DeleteUser(st: Store, me: User, id: Id) returns (r: Reply<User>)
    requires st.Valid()
    modifies st
    ensures st.Valid()
    ensures var plan := PlanDeleteUser(old(st.users), me, id);
      && (plan.Keep? ==> r.status == plan.status && st.users == old(st.users) && st.blogs == old(st.blogs))
      && (plan.Remove? ==>
            var gone := old(st.users)[plan.index];
            && st.users == RemoveAt(old(st.users), plan.index)
            && st.blogs == MapWhere(old(st.blogs), ByAuthor(gone.id), SoftDeleteAt(old(st.clock)))
            && r == Reply(200, "User and their posts deleted successfully", None))
    ensures st.comments == old(st.comments) && st.logs == old(st.logs)
  {
    var plan := PlanDeleteUser(st.users, me, id);
    if plan.Keep? {
      return Fail(plan.status, plan.message);
    }
    var gone := st.users[plan.index];
    var now := st.Tick();
    assert forall i :: 0 <= i < |st.blogs| ==> SoftDeleteAt(now)(st.blogs[i]).createdAt == st.blogs[i].createdAt;
    st.UpdateBlogsWhere(ByAuthor(gone.id), SoftDeleteAt(now));
    st.RemoveUser(plan.index);
    r := Reply(200, "User and their posts deleted successfully", None);
  }

  /** After `deleteUser`, every post by the removed user is soft-deleted,
      and every other post is as it was. */
  lemma DeletedUsersPostsAreDeleted(blogs: seq<Blog>, author: Id, now: nat)
    ensures var r := MapWhere(blogs, ByAuthor(author), SoftDeleteAt(now));
            && |r| == |blogs|
            && (forall i :: 0 <= i < |r| && blogs[i].author == author ==> r[i].isDeleted && r[i].deletedAt == Some(now))
            && (forall i :: 0 <= i < |r| && blogs[i].author != author ==> r[i] == blogs[i])
  {
    var r := MapWhere(blogs, ByAuthor(author), SoftDeleteAt(now));
    assert forall i :: 0 <= i < |r| ==> r[i] == if blogs[i].author == author then SoftDeleted(blogs[i], now) else blogs[i];
  }

  /** The query string of `getAllBlogsAdmin`, after the pagination defaults. */
  datatype AdminBlogQuery = AdminBlogQuery(
    page: int,
    limit: int,
    status: Option<string>,
    author: Option<string>,
    isDeleted: Option<string>,
    order: Option<string>)

  /** No implicit `isDeleted` filter: deleted posts are listed unless the
      query asks otherwise, and any value other than `true` asks for live ones. */
  predicate AdminMatch(q: AdminBlogQuery, b: Blog) {
    && (Truthy(q.status) ==> StatusName(b.status) == q.status.value)
    && (Truthy(q.author) ==> b.author == Lower(q.author.value))
    && (q.isDeleted.Some? ==> b.isDeleted == (q.isDeleted.value == "true"))
  }

  function AdminMatcher(q: AdminBlogQuery): Blog -> bool {
    (b: Blog) => AdminMatch(q, b)
  }

  /** The posts `getAllBlogsAdmin` counts, in natural order. */
  function AdminListedPosts(blogs: seq<Blog>, q: AdminBlogQuery): (r: seq<Blog>)
    ensures forall i :: 0 <= i < |r| ==> r[i] in blogs && AdminMatch(q, r[i])
    ensures forall k :: 0 <= k < |blogs| && AdminMatch(q, blogs[k]) ==> blogs[k] in r
  {
    Filter(blogs, AdminMatcher(q))
  }

  /** With no filter the admin list counts every post, deleted or not. */
  lemma AdminListsDeletedPosts(blogs: seq<Blog>, page: int, limit: int, order: Option<string>)
    ensures AdminListedPosts(blogs, AdminBlogQuery(page, limit, None, None, None, order)) == blogs
  {
    FilterAll(blogs, AdminMatcher(AdminBlogQuery(page, limit, None, None, None, order)));
  }

  /** `getAllBlogsAdmin`, sorted on `createdAt`. */
  function GetAllBlogsAdmin(blogs: seq<Blog>, comments: seq<Comment>, q: AdminBlogQuery): (r: Reply<Page<BlogController.Listed>>)
    requires q.page >= 1 && q.limit >= 1
    requires Increasing(blogs, BlogTime)
    ensures r.status == 500 <==> Truthy(q.author) && !IsObjectIdText(q.author.value)
    ensures r.status != 500 ==> r.status == 200 && r.data.Some?
    ensures r.data.Some? ==> |r.data.value.items| <= q.limit
    ensures r.data.Some? ==> |r.data.value.items| == PageSize(|AdminListedPosts(blogs, q)|, q.page, q.limit)
    ensures r.data.Some? ==> forall i :: 0 <= i < |r.data.value.items| ==>
              Skip(q.page, q.limit) + i < |AdminListedPosts(blogs, q)|
              && r.data.value.items[i].blog
                 == BlogController.OrderedAt(AdminListedPosts(blogs, q), q.order == Some("asc"), Skip(q.page, q.limit) + i)
    ensures r.data.Some? ==>
              r.data.value.pagination == MakePagination(|AdminListedPosts(blogs, q)|, q.page, q.limit)
    ensures r.data.Some? ==> forall i :: 0 <= i < |r.data.value.items| ==>
              r.data.value.items[i].blog in AdminListedPosts(blogs, q)
              && r.data.value.items[i].commentCount == BlogController.CommentCount(comments, r.data.value.items[i].blog.id)
    ensures r.data.Some? && q.order == Some("asc") ==> Increasing(r.data.value.items, BlogController.ListedTime)
    ensures r.data.Some? && q.order != Some("asc") ==> Decreasing(r.data.value.items, BlogController.ListedTime)
  {
    if Truthy(q.author) && !IsObjectIdText(q.author.value) then Fail(500, "Error fetching blogs")
    else
      var found := AdminListedPosts(blogs, q);
      assert Increasing(found, BlogTime) by {
        FilterKeepsIncreasing(blogs, AdminMatcher(q), BlogTime);
      }
      var items := BlogController.ListPage(found, comments, q.order == Some("asc"), q.page, q.limit);
      Reply(200, "", Some(Page(items, MakePagination(|found|, q.page, q.limit))))
  }

  function NotOnPost(postId: Id): Comment -> bool {
    (c: Comment) => c.post != postId
  }

  /** `permanentlyDeleteBlog`: found by id whether deleted or not; its
      comments go (every one on the post, replies included), then the post. */
  method PermanentlyDeleteBlog(st: Store, cache: CacheService<string>, id: Id) returns (r: Reply<Blog>)
    requires st.Valid()
    modifies st, cache
    ensures st.Valid()
    ensures !IsObjectIdText(id) ==>
              r.status == 500 && st.blogs == old(st.blogs) && st.comments == old(st.comments)
              && cache.entries == old(cache.entries)
    ensures IsObjectIdText(id) && BlogById(old(st.blogs), id).None? ==>
              r.status == 404 && st.blogs == old(st.blogs) && st.comments == old(st.comments)
              && cache.entries == old(cache.entries)
    ensures IsObjectIdText(id) && BlogById(old(st.blogs), id).Some? ==>
              var k := BlogById(old(st.blogs), id).value;
              && st.blogs == RemoveAt(old(st.blogs), k)
              && st.comments == Filter(old(st.comments), NotOnPost(old(st.blogs)[k].id))
              && (forall c :: c in st.comments ==> c.post != old(st.blogs)[k].id)
              && (forall c :: c in old(st.comments) && c.post != old(st.blogs)[k].id ==> c in st.comments)
              && cache.entries == InvalidateAll(old(cache.entries), BlogController.BlogPatterns)
              && r == Reply(200, "Blog post and its comments permanently deleted", None)
    ensures st.users == old(st.users) && st.logs == old(st.logs)
  {
    if !IsObjectIdText(id) {
      return Fail(500, "Error deleting blog post");
    }
    var found := BlogById(st.blogs, id);
    if found.None? {
      return Fail(404, "Blog post not found");
    }
    var k := found.value;
    var postId := st.blogs[k].id;
    st.KeepCommentsWhere(NotOnPost(postId));
    st.RemoveBlog(k);
    cache.InvalidateCache(BlogController.BlogPatterns);
    r := Reply(200, "Blog post and its comments permanently deleted", None);
  }

  /** `clearCache`. */
  method ClearCache(cache: CacheService<string>) returns (r: Reply<Blog>)
    modifies cache
    ensures cache.entries == map[]
    ensures r == Reply(200, "Cache cleared successfully", None)
  {
    cache.Flush();
    r := Reply(200, "Cache cleared successfully", None);
  }
}
