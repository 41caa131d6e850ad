/** The comment handlers: create, list by post, fetch one, update,
    delete (with its direct replies) and list the requester's own. */
module CommentController {
  import opened Collections
  import opened Text
  import opened Domain
  import opened CommentSchema
  import opened Database
  import opened Cache
  import opened Sockets

  /** The cache keys a change to a post's comments invalidates. They are
      built from the post's id, so responses cached under the post's slug
      are not cleared. */
  function CommentPatterns(postId: Id): (ps: seq<string>)
    ensures |ps| == 2
    ensures ps[0] == "cache:/api/blogs/" + postId && ps[1] == "cache:/api/comments/post/" + postId
  {
    ["cache:/api/blogs/" + postId, "cache:/api/comments/post/" + postId]
  }

  /** A comment list cached under a short slug URL survives the
      invalidation that follows a new comment, because both patterns are
      longer than its key. */
  lemma SlugKeyedCommentsSurvive<V>(m: map<string, V>, slug: string, postId: Id)
    requires |slug| < 16 && IsObjectIdText(postId)
    requires CacheKey("/api/comments/post/" + slug) in m
    ensures CacheKey("/api/comments/post/" + slug) in InvalidateAll(m, CommentPatterns(postId))
  {
    var key := CacheKey("/api/comments/post/" + slug);
    var ps := CommentPatterns(postId);
    ShorterExcludes(key, ps[0]);
    ShorterExcludes(key, ps[1]);
    InvalidateAllSpec(m, ps);
  }

  /** What `createComment` decides before it writes anything. */
  datatype CreatePlan =
    | Refuse(status: nat, message: string)
    | Insert(post: Blog, parent: Option<Id>, content: string)

  /** The checks of `createComment`, in order: the post (by id or slug,
      not deleted), then a truthy parent id (a malformed one fails the
      ObjectId cast), which must exist and belong to the same post, then
      the schema's cast of the content. */
  function PlanCreateComment(blogs: seq<Blog>, comments: seq<Comment>, identifier: string,
                             content: string, parent: Option<string>): (r: CreatePlan)
    ensures FindLivePost(blogs, identifier).None? ==> r == Refuse(404, "Blog post not found")
    ensures r.Refuse? && r.status == 404 && r.message == "Parent comment not found"
            <==> FindLivePost(blogs, identifier).Some? && Truthy(parent) && IsObjectIdText(parent.value)
                 && (CommentById(comments, parent.value).None?
                     || comments[CommentById(comments, parent.value).value].post
                        != blogs[FindLivePost(blogs, identifier).value].id)
    ensures r.Insert? ==> FindLivePost(blogs, identifier).Some?
                          && r.post == blogs[FindLivePost(blogs, identifier).value]
                          && CastContent(content) == Some(r.content)
    ensures r.Insert? && Truthy(parent) ==>
              r.parent == Some(Lower(parent.value)) && CommentById(comments, parent.value).Some?
              && comments[CommentById(comments, parent.value).value].post == r.post.id
    ensures r.Insert? && !Truthy(parent) ==> r.parent.None?
    ensures r.Refuse? ==> r.status in {404, 500}
  {
    match FindLivePost(blogs, identifier)
    case None => Refuse(404, "Blog post not found")
    case Some(k) =>
      var post := blogs[k];
      if Truthy(parent) && !IsObjectIdText(parent.value) then Refuse(500, "Error creating comment")
      else if Truthy(parent) && (CommentById(comments, parent.value).None?
                                 || comments[CommentById(comments, parent.value).value].post != post.id)
      then Refuse(404, "Parent comment not found")
      else match CastContent(content)
        case None => Refuse(500, "Error creating comment")
        case Some(text) => Insert(post, if Truthy(parent) then Some(Lower(parent.value)) else None, text)
  }

  /** The steps `createComment` takes once the comment is built: store
      it, clear the post's cached page and comments, and tell the room. */
  method StoreComment(st: Store, cache: CacheService<string>, io: SocketService, c: Comment)
    requires st.Valid() && c.createdAt == st.clock
    modifies st, cache, io
    ensures st.Valid() && st.comments == old(st.comments) + [c]
    ensures st.users == old(st.users) && st.blogs == old(st.blogs) && st.logs == old(st.logs)
    ensures cache.entries == InvalidateAll(old(cache.entries), CommentPatterns(c.post))
    ensures io.sent == old(io.sent) + NewCommentEvents(old(io.io), c.post, c.id)
    ensures io.io == old(io.io) && io.users == old(io.users) && io.connected == old(io.connected)
    ensures io.socketUser == old(io.socketUser) && io.rooms == old(io.rooms)
  {
    st.InsertComment(c);
    cache.InvalidateCache(CommentPatterns(c.post));
    io.EmitNewComment(c.post, c.id);
  }

  /** `createComment`. After the comment is stored, the cache cleared and
      the room notified, the personal notification for a post author who
      is not the commenter reads the undeclared `postId`: the handler then
      replies 500 although the comment exists, and no notification is sent. */
  method CreateComment(st: Store, cache: CacheService<string>, io: SocketService, me: User,
                       identifier: string, content: string, parent: Option<string>)
    returns (r: Reply<Comment>)
    requires st.Valid()
    modifies st, cache, io
    ensures st.Valid()
    ensures var plan := PlanCreateComment(old(st.blogs), old(st.comments), identifier, content, parent);
      && (plan.Refuse? ==>
            r.status == plan.status && r.data.None?
            && st.comments == old(st.comments) && st.clock == old(st.clock)
            && cache.entries == old(cache.entries) && io.sent == old(io.sent))
      && (plan.Insert? ==>
            var c := NewComment(NewId(old(st.clock)), plan.content, me.id, plan.post.id, plan.parent, old(st.clock));
            && st.comments == old(st.comments) + [c]
            && cache.entries == InvalidateAll(old(cache.entries), CommentPatterns(plan.post.id))
            && io.sent == old(io.sent) + NewCommentEvents(old(io.io), plan.post.id, c.id)
            && (plan.post.author == me.id ==> r == Reply(201, "Comment created successfully", Some(c)))
            && (plan.post.author != me.id ==> r.status == 500 && r.data.None?))
    ensures st.users == old(st.users) && st.blogs == old(st.blogs) && st.logs == old(st.logs)
    ensures io.users == old(io.users) && io.connected == old(io.connected) && io.rooms == old(io.rooms)
  {
    var plan := PlanCreateComment(st.blogs, st.comments, identifier, content, parent);
    if plan.Refuse? {
      return Fail(plan.status, plan.message);
    }
    var now := st.clock;
    var c := NewComment(NewId(now), plan.content, me.id, plan.post.id, plan.parent, now);
    StoreComment(st, cache, io, c);
    if plan.post.author != me.id {
      // ReferenceError: postId is not defined
      return Fail(500, "Error creating comment");
    }
    r := Reply(201, "Comment created successfully", Some(c));
  }

  /** The text of the personal notification about a new comment. */
  function CommentNotice(commenter: User, post: Blog): string {
    commenter.name + " commented on your post \"" + post.title + "\""
  }

  /** `createComment` as evidently intended, with the post's id in place
      of the undeclared `postId`: every stored comment is answered with
      201, and a comment on someone else's post also notifies its author. */
  method CreateCommentIntended(st: Store, cache: CacheService<string>, io: SocketService, me: User,
                               identifier: string, content: string, parent: Option<string>)
    returns (r: Reply<Comment>)
    requires st.Valid()
    modifies st, cache, io
    ensures st.Valid()
    ensures var plan := PlanCreateComment(old(st.blogs), old(st.comments), identifier, content, parent);
      && (plan.Refuse? ==>
            r.status == plan.status && r.data.None?
            && st.comments == old(st.comments) && st.clock == old(st.clock)
            && cache.entries == old(cache.entries) && io.sent == old(io.sent))
      && (plan.Insert? ==>
            var c := NewComment(NewId(old(st.clock)), plan.content, me.id, plan.post.id, plan.parent, old(st.clock));
            && r == Reply(201, "Comment created successfully", Some(c))
            && st.comments == old(st.comments) + [c]
            && cache.entries == InvalidateAll(old(cache.entries), CommentPatterns(plan.post.id))
            && io.sent == old(io.sent) + NewCommentEvents(old(io.io), plan.post.id, c.id)
                          + (if plan.post.author != me.id
                             then NotifyEvents(old(io.io), old(io.users), plan.post.author, CommentNotice(me, plan.post))
                             else []))
    ensures st.users == old(st.users) && st.blogs == old(st.blogs) && st.logs == old(st.logs)
    ensures io.users == old(io.users) && io.connected == old(io.connected) && io.rooms == old(io.rooms)
  {
    var plan := PlanCreateComment(st.blogs, st.comments, identifier, content, parent);
    if plan.Refuse? {
      return Fail(plan.status, plan.message);
    }
    var now := st.clock;
    var c := NewComment(NewId(now), plan.content, me.id, plan.post.id, plan.parent, now);
    StoreComment(st, cache, io, c);
    if plan.post.author != me.id {
      io.NotifyUser(plan.post.author, CommentNotice(me, plan.post));
    }
    r := Reply(201, "Comment created successfully", Some(c));
  }

  /** With the intended handler, the post's author hears of a comment by
      someone else exactly on the socket the author is mapped to, while
      that socket is connected. */
  lemma IntendedNoticeReachesAuthor(io: bool, users: map<string, SocketId>, commenter: User, post: Blog,
                                    s: SocketId, connected: set<SocketId>, rooms: map<SocketId, set<string>>)
    requires post.author != commenter.id
    ensures Copies(NotifyEvents(io, users, post.author, CommentNotice(commenter, post)), s, connected, rooms) == 1
            <==> io && post.author in users && s == users[post.author] && s in connected
  {
    NotifyReachesOnlyMappedSocket(io, users, post.author, CommentNotice(commenter, post), s, connected, rooms);
  }

  /** A comment with its replies, as `populate('replies')` returns it. */
  datatype Thread = Thread(comment: Comment, replies: seq<Comment>)

  function ThreadOf(comments: seq<Comment>): Comment -> Thread {
    c => Thread(c, Replies(comments, c))
  }

  /** Each comment of `shown` with its replies, oldest first. */
  function WithReplies(comments: seq<Comment>, shown: seq<Comment>): (ts: seq<Thread>)
    requires Increasing(comments, CommentTime)
    ensures |ts| == |shown|
    ensures forall i :: 0 <= i < |ts| ==> ts[i].comment == shown[i]
    ensures forall i :: 0 <= i < |ts| ==> ts[i].replies == Replies(comments, ts[i].comment)
                                          && Increasing(ts[i].replies, CommentTime)
  {
    var ts := MapSeq(shown, ThreadOf(comments));
    forall i | 0 <= i < |ts| ensures Increasing(ts[i].replies, CommentTime) {
      FilterKeepsIncreasing(comments, ReplyMatcher(ts[i].comment.id), CommentTime);
    }
    ts
  }

  /** `getCommentsByPost`: the post's top-level comments newest first,
      one page of them, each with its replies oldest first; `total`
      counts top-level comments only. */
  function GetCommentsByPost(blogs: seq<Blog>, comments: seq<Comment>, identifier: string,
                             page: int, limit: int): (r: Reply<Page<Thread>>)
    requires page >= 1 && limit >= 1
    requires Increasing(comments, CommentTime)
    ensures r.status == 404 <==> FindLivePost(blogs, identifier).None?
    ensures r.status != 404 ==> r.status == 200 && r.data.Some?
    ensures r.data.Some? ==> FindLivePost(blogs, identifier).Some?
    ensures r.data.Some? && FindLivePost(blogs, identifier).Some? ==>
              r.data.value.items == Threads(comments, blogs[FindLivePost(blogs, identifier).value].id, page, limit)
    ensures r.data.Some? && FindLivePost(blogs, identifier).Some? ==>
              r.data.value.pagination
                == MakePagination(|TopLevel(comments, blogs[FindLivePost(blogs, identifier).value].id)|, page, limit)
  {
    match FindLivePost(blogs, identifier)
    case None => Fail(404, "Blog post not found")
    case Some(k) =>
      var ts := Threads(comments, blogs[k].id, page, limit);
      Reply(200, "", Some(Page(ts, MakePagination(|TopLevel(comments, blogs[k].id)|, page, limit))))
  }

  /** The top-level comments shown on one page of a post, newest first. */
  function TopLevelPage(comments: seq<Comment>, postId: Id, page: int, limit: int): (shown: seq<Comment>)
    requires page >= 1 && limit >= 1
    requires Increasing(comments, CommentTime)
    ensures |shown| <= limit && |shown| == PageSize(|TopLevel(comments, postId)|, page, limit)
    ensures |shown| > 0 ==> Skip(page, limit) + |shown| <= |TopLevel(comments, postId)|
    ensures forall i :: 0 <= i < |shown| ==>
              shown[i] == TopLevel(comments, postId)[|TopLevel(comments, postId)| - 1 - (Skip(page, limit) + i)]
    ensures forall i :: 0 <= i < |shown| ==> shown[i] in comments && IsTopLevelOf(postId, shown[i])
    ensures forall i, j :: 0 <= i < j < |shown| ==> shown[i].createdAt > shown[j].createdAt
  {
    var top := TopLevel(comments, postId);
    NewestPage(top, CommentTime, page, limit)
  }

  /** The threads shown on one page of a post's comments. */
  function Threads(comments: seq<Comment>, postId: Id, page: int, limit: int): (ts: seq<Thread>)
    requires page >= 1 && limit >= 1
    requires Increasing(comments, CommentTime)
    ensures |ts| <= limit && |ts| == PageSize(|TopLevel(comments, postId)|, page, limit)
    ensures |ts| > 0 ==> Skip(page, limit) + |ts| <= |TopLevel(comments, postId)|
    ensures forall i :: 0 <= i < |ts| ==>
              ts[i].comment == TopLevel(comments, postId)[|TopLevel(comments, postId)| - 1 - (Skip(page, limit) + i)]
    ensures forall i :: 0 <= i < |ts| ==> ts[i].comment in comments && IsTopLevelOf(postId, ts[i].comment)
    ensures forall i, j :: 0 <= i < j < |ts| ==> ts[i].comment.createdAt > ts[j].comment.createdAt
    ensures forall i :: 0 <= i < |ts| ==> ts[i].replies == Replies(comments, ts[i].comment)
                                          && Increasing(ts[i].replies, CommentTime)
  {
    WithReplies(comments, TopLevelPage(comments, postId, page, limit))
  }

  /** `getCommentById`: a malformed id fails the cast, an unknown one is
      404; the replies come in natural order. */
  function GetCommentById(comments: seq<Comment>, id: Id): (r: Reply<Thread>)
    ensures !IsObjectIdText(id) ==> r.status == 500
    ensures IsObjectIdText(id) ==> (r.status == 404 <==> CommentById(comments, id).None?)
    ensures r.data.Some? <==> r.status == 200
    ensures r.data.Some? ==> r.data.value.comment.id == Lower(id) && r.data.value.comment in comments
                             && r.data.value.replies == Replies(comments, r.data.value.comment)
  {
    if !IsObjectIdText(id) then Fail(500, "Error fetching comment")
    else match CommentById(comments, id)
      case None => Fail(404, "Comment not found")
      case Some(k) => Reply(200, "", Some(Thread(comments[k], Replies(comments, comments[k]))))
  }

  /** The edit `updateComment` applies: content, `isEdited` and
      `editedAt` change, nothing else. */
  function Edited(c: Comment, content: string, now: nat): (r: Comment)
    ensures r.content == content && r.isEdited && r.editedAt == Some(now)
    ensures r.(content := c.content, isEdited := c.isEdited, editedAt := c.editedAt) == c
  {
    c.(content := content, isEdited := true, editedAt := Some(now))
  }

  /** What `updateComment` and `deleteComment` decide before writing. */
  datatype CommentPlan = Deny(status: nat, message: string) | Allow(index: nat)

  /** The shared lookup and ownership check of update and delete. */
  function PlanOwnComment(comments: seq<Comment>, me: User, id: Id, errorMessage: string, deniedMessage: string): (r: CommentPlan)
    ensures !IsObjectIdText(id) ==> r == Deny(500, errorMessage)
    ensures IsObjectIdText(id) && CommentById(comments, id).None? ==> r == Deny(404, "Comment not found")
    ensures r.Allow? ==> CommentById(comments, id) == Some(r.index) && OwnerOrAdmin(me, comments[r.index].author)
    ensures r.Deny? && r.status == 403 <==>
              IsObjectIdText(id) && CommentById(comments, id).Some?
              && !OwnerOrAdmin(me, comments[CommentById(comments, id).value].author)
    ensures r.Deny? && r.status == 403 ==> r.message == deniedMessage
  {
    if !IsObjectIdText(id) then Deny(500, errorMessage)
    else match CommentById(comments, id)
      case None => Deny(404, "Comment not found")
      case Some(k) =>
        if !OwnerOrAdmin(me, comments[k].author) then Deny(403, deniedMessage) else Allow(k)
  }

  /** `updateComment`: refused with 403 and no change unless the
      requester wrote the comment or is an admin; content that fails the
      schema cast makes `save` reject (500) and nothing changes. */
  method UpdateComment(st: Store, cache: CacheService<string>, io: SocketService, me: User,
                       id: Id, content: string)
    returns (r: Reply<Comment>)
    requires st.Valid()
    modifies st, cache, io
    ensures st.Valid()
    ensures var plan := PlanOwnComment(old(st.comments), me, id, "Error updating comment",
                                       "Access denied. You can only edit your own comments.");
      && (plan.Deny? ==>
            r.status == plan.status && st.comments == old(st.comments)
            && cache.entries == old(cache.entries) && io.sent == old(io.sent))
      && (plan.Allow? && CastContent(content).None? ==>
            r.status == 500 && st.comments == old(st.comments)
            && cache.entries == old(cache.entries) && io.sent == old(io.sent))
      && (plan.Allow? && CastContent(content).Some? ==>
            var c := old(st.comments)[plan.index];
            var c' := Edited(c, CastContent(content).value, old(st.clock));
            && st.comments == old(st.comments)[plan.index := c']
            && r == Reply(200, "Comment updated successfully", Some(c'))
            && cache.entries == InvalidateAll(old(cache.entries), CommentPatterns(c.post))
            && io.sent == old(io.sent) + CommentUpdateEvents(old(io.io), c.post, c.id))
    ensures st.users == old(st.users) && st.blogs == old(st.blogs) && st.logs == old(st.logs)
  {
    var plan := PlanOwnComment(st.comments, me, id, "Error updating comment",
                               "Access denied. You can only edit your own comments.");
    if plan.Deny? {
      return Fail(plan.status, plan.message);
    }
    var cast := CastContent(content);
    if cast.None? {
      return Fail(500, "Error updating comment");
    }
    var c := st.comments[plan.index];
    var now := st.Tick();
    var c' := Edited(c, cast.value, now);
    st.PutComment(plan.index, c');
    cache.InvalidateCache(CommentPatterns(c.post));
    io.EmitCommentUpdate(c.post, c.id);
    r := Reply(200, "Comment updated successfully", Some(c'));
  }

  /** The filter of `deleteMany({ parentComment: id })`, negated. */
  function NotReplyOf(id: Id): Comment -> bool {
    (c: Comment) => !IsReplyTo(id, c)
  }

  /** The filter of `deleteOne()` on the document with this id, negated. */
  function NotComment(id: Id): Comment -> bool {
    (c: Comment) => c.id != id
  }

  /** The comments left by `deleteComment` on `target`: its direct
      replies and itself go, one level only. */
  function AfterDeleteComment(comments: seq<Comment>, target: Comment): (r: seq<Comment>)
    ensures forall i :: 0 <= i < |r| ==> r[i] in comments && r[i].parentComment != Some(target.id) && r[i].id != target.id
    ensures forall i :: 0 <= i < |comments| && comments[i].parentComment != Some(target.id) && comments[i].id != target.id
                        ==> comments[i] in r
  {
    Filter(Filter(comments, NotReplyOf(target.id)), NotComment(target.id))
  }

  /** A reply to a reply is not deleted with the top comment. */
  lemma GrandchildrenRemain(comments: seq<Comment>, target: Comment, reply: Comment, grandchild: Comment)
    requires grandchild in comments && grandchild.id != target.id
    requires reply.parentComment == Some(target.id) && reply.id != target.id
    requires grandchild.parentComment == Some(reply.id)
    ensures grandchild in AfterDeleteComment(comments, target)
  {
    var k :| 0 <= k < |comments| && comments[k] == grandchild;
  }

  /** `deleteComment`: the same refusals as update; otherwise
      `deleteMany({ parentComment })` and then `deleteOne()`. */
  method DeleteComment(st: Store, cache: CacheService<string>, io: SocketService, me: User, id: Id)
    returns (r: Reply<Comment>)
    requires st.Valid()
    modifies st, cache, io
    ensures st.Valid()
    ensures var plan := PlanOwnComment(old(st.comments), me, id, "Error deleting comment",
                                       "Access denied. You can only delete your own comments.");
      && (plan.Deny? ==>
            r.status == plan.status && st.comments == old(st.comments)
            && cache.entries == old(cache.entries) && io.sent == old(io.sent))
      && (plan.Allow? ==>
            var c := old(st.comments)[plan.index];
            && st.comments == AfterDeleteComment(old(st.comments), c)
            && r == Reply(200, "Comment deleted successfully", None)
            && cache.entries == InvalidateAll(old(cache.entries), CommentPatterns(c.post))
            && io.sent == old(io.sent) + CommentDeleteEvents(old(io.io), c.post, c.id))
    ensures st.users == old(st.users) && st.blogs == old(st.blogs) && st.logs == old(st.logs)
  {
    var plan := PlanOwnComment(st.comments, me, id, "Error deleting comment",
                               "Access denied. You can only delete your own comments.");
    if plan.Deny? {
      return Fail(plan.status, plan.message);
    }
    var c := st.comments[plan.index];
    var postId := c.post;
    st.KeepCommentsWhere(NotReplyOf(c.id));
    st.KeepCommentsWhere(NotComment(c.id));
    cache.InvalidateCache(CommentPatterns(postId));
    io.EmitCommentDelete(postId, c.id);
    r := Reply(200, "Comment deleted successfully", None);
  }

  /** `getMyComments`: the requester's comments newest first, one page. */
  function GetMyComments(comments: seq<Comment>, me: User, page: int, limit: int): (r: Page<Comment>)
    requires page >= 1 && limit >= 1
    requires Increasing(comments, CommentTime)
    ensures |r.items| <= limit && |r.items| == PageSize(|AuthoredBy(comments, me.id)|, page, limit)
    ensures |r.items| > 0 ==> Skip(page, limit) + |r.items| <= |AuthoredBy(comments, me.id)|
    ensures forall i :: 0 <= i < |r.items| ==>
              r.items[i] == AuthoredBy(comments, me.id)[|AuthoredBy(comments, me.id)| - 1 - (Skip(page, limit) + i)]
    ensures forall i :: 0 <= i < |r.items| ==> r.items[i] in comments && r.items[i].author == me.id
    ensures forall i, j :: 0 <= i < j < |r.items| ==> r.items[i].createdAt > r.items[j].createdAt
    ensures r.pagination == MakePagination(|AuthoredBy(comments, me.id)|, page, limit)
  {
    var mine := AuthoredBy(comments, me.id);
    Page(NewestPage(mine, CommentTime, page, limit), MakePagination(|mine|, page, limit))
  }
}
