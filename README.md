# Blog platform backend, modelled in Dafny

This project models the server of a small blogging platform and two
pieces of its React client. The server is an Express and Mongoose
application with these parts:

- user accounts, with local and social (Google, Facebook) sign-in;
- JWT access and refresh tokens;
- blog posts with slugs, drafts, soft deletion and view counts;
- threaded comments;
- an admin console;
- an activity log kept by wrapping `res.json`;
- an in-memory response cache;
- Socket.io notifications sent to rooms and users.

The client parts modelled are the tag fields of the create and edit
forms, and the notification list and room guards of the socket context.

The model keeps the source's own structure:

- One module per source file: `UserSchema`, `BlogSchema`,
  `CommentSchema`, `Cache`, `Sockets`, `AuthMiddleware`, `Validators`,
  `ActivityLogger`, `AuthController`, `BlogController`,
  `CommentController`, `AdminController`, `ClientForms`.
- Shared modules:
  - `Collections`: filter, map, window, first match.
  - `Text`: JavaScript's `trim`, `split`, `includes` and lower-casing.
  - `Domain`: documents, id and slug lookup, pagination.
  - `Database`: the collections.
  - `Ranking`: the trending sort.
- The cache service, the socket service and a Mongoose blog document
  are objects whose fields change in place. They are modelled as classes
  whose methods state their whole new state.
- A controller handler that writes is modelled in two parts:
  - a pure plan function, which decides the status code, the message and
    which document is touched;
  - a method on the `Database.Store` class, which performs the writes
    and states the new collections in terms of that plan.
- Read-only handlers are functions.

Modelling choices that apply throughout:

- **Collections and time.** Collections are sequences in natural
  (insertion) order. A logical clock stands for `Date.now()` and for
  ObjectId generation, so natural order is also `createdAt` order.
  `Store.Valid` keeps that fact on every write, and every `sort({
  createdAt })` and page is computed from it.
- **Lookups.** `findById` and `findOne` return the first match in
  natural order. An id is compared after the ObjectId cast, so in lower
  case. A string that is not 24 hex digits makes the cast throw, and
  each handler's `catch` turns that into its 500 reply.
- **External libraries.** bcrypt, `jwt.sign` and `jwt.verify`,
  `slugify`, `validator.isEmail` and the search regular expression are
  parameters of the functions that use them. They are uninterpreted
  functions, or the values they produce, such as the issued tokens.
- **Setters.** Mongoose `trim` and `lowercase` setters are applied
  wherever a value is stored or queried: the slug lookups lower-case the
  identifier, the tag filter trims the tag, and the pre-save hook's slug
  is lower-cased.
  `.select('-password -refreshToken')` is `UserSchema.Projected`.

## Model

| member | source | states |
|---|---|---|
| Domain.ParseRole | server/models/Users.js:28-32 | exactly "user" and "admin" are roles, and each parses back to its own name |
| Domain.ParseStatus | server/models/Blogs.js:49-53 | exactly "draft" and "published" are statuses, and each parses back to its own name |
| Domain.StatusRoundTrip | server/models/Blogs.js:49-53 | every status survives rendering and parsing |
| Domain.FindLivePost | server/controller/blogController.js:126-132 | the post found is not deleted; nothing is found exactly when no live post matches the identifier as an id or, lower-cased by the `lowercase` setter, as a slug |
| Domain.IdentifierAsId | server/controller/blogController.js:126-130 | a 24-hex identifier finds the first live post with that id, whatever its case |
| Domain.IdentifierAsSlug | server/controller/blogController.js:126-130 | any other identifier finds the first live post whose slug is the identifier lower-cased, and nothing when there is none |
| Domain.LookupIgnoresCase | server/controller/commentController.js:10-20 | the id-or-slug lookup gives the same post for an identifier and its lower-cased form, so `My-Post` finds the post with slug `my-post` |
| Domain.UserById | server/middleware/authMiddleware.js:23 | `findById`: the first user whose id equals the cast id; nothing exactly when no user has it |
| Domain.BlogById | server/controller/adminController.js:391 | `findById` on posts: the first post with the cast id; nothing exactly when none has it |
| Domain.CommentById | server/controller/commentController.js:149 | `findById` on comments: the first comment with the cast id; nothing exactly when none has it |
| Domain.Pages | server/controller/adminController.js:176 | `Math.ceil(total / limit)`: the fewest pages of `limit` that hold `total` |
| Domain.Paginate | server/controller/adminController.js:145 | `skip((page-1)*limit).limit(limit)`: exactly the elements after the skipped ones, as many as remain up to `limit` |
| Domain.PagesAreConsecutive | server/controller/adminController.js:145 | page p+1 starts where a full page p ends |
| Domain.NewestFirst | server/controller/commentController.js:289 | `sort({ createdAt: -1 })` of a creation-ordered list is its reverse, strictly newest to oldest |
| Domain.NewestPage | server/controller/commentController.js:284-291 | one page of the newest-first order: its size and, position by position, which documents it holds |
| Domain.MakePagination | server/controller/blogController.js:104-109 | the pagination object carries total, page and limit, and the ceiling page count |
| BlogSchema.NewBlog | server/models/Blogs.js:33-53 | a new post has the given fields, status `published` and an empty cover image by default, 0 views, and is not deleted |
| BlogSchema.SoftDeleted | server/models/Blogs.js:90-94 | `softDelete` sets the deleted flag and time and changes nothing else |
| BlogSchema.Restored | server/models/Blogs.js:97-101 | `restore` clears the deleted flag and time and changes nothing else |
| BlogSchema.RestoreUndoesSoftDelete | server/models/Blogs.js:90-101 | restoring a soft-deleted live post gives back the original post |
| BlogSchema.NotDeleted | server/models/Blogs.js:104-106 | `findNotDeleted` keeps exactly the live posts |
| BlogSchema.SavedSlug | server/models/Blogs.js:65-80 | the pre-save hook keeps the slug unless the title changed; a free slugified title is used as is; a taken one gets `-<time>` appended; each assignment is lower-cased by the `lowercase` setter |
| BlogSchema.FreshSlugIsFree | server/models/Blogs.js:71-78 | when the slugified title is free, the saved slug is free |
| BlogSchema.SuffixIsNotRechecked | server/models/Blogs.js:71-78 | the suffixed slug is not checked again, so it can clash with an existing slug |
| BlogSchema.SuffixChangesSlug | server/models/Blogs.js:77 | the suffixed slug, once lower-cased, always differs from the lower-cased base slug |
| BlogSchema.BlogDoc.Hydrate | server/models/Blogs.js:65-66 | a loaded document holds the stored post, with the title not marked modified |
| BlogSchema.BlogDoc.Create | server/models/Blogs.js:65-66 | a new document holds the post, with the title marked modified |
| BlogSchema.BlogDoc.SoftDelete | server/models/Blogs.js:90-94 | the document becomes `SoftDeleted` of its old value |
| BlogSchema.BlogDoc.Restore | server/models/Blogs.js:97-101 | the document becomes `Restored` of its old value |
| BlogSchema.BlogDoc.IncrementViews | server/controller/blogController.js:167 | views go up by one and nothing else changes |
| BlogSchema.BlogDoc.Save | server/models/Blogs.js:65-80 | saving changes only the slug, to `SavedSlug`, and clears the modified mark |
| CommentSchema.CastContent | server/models/Comment.js:4-9 | content is accepted exactly when its trimmed form is non-empty and at most 1000 UTF-16 code units (JavaScript `length`); what is stored is trimmed and made of the input's characters |
| CommentSchema.WhiteContentRejected | server/models/Comment.js:4-9 | all-white content is refused |
| CommentSchema.CastContentIgnoresPadding | server/models/Comment.js:7 | a leading space does not change what is stored |
| CommentSchema.NewComment | server/models/Comment.js:20-28 | a new comment carries its fields and is not edited |
| CommentSchema.Replies | server/models/Comment.js:41-45 | the replies of a comment are exactly the comments whose parent it is |
| CommentSchema.RepliesAreNotTopLevel | server/models/Comment.js:41-45 | no reply is a top-level comment |
| CommentSchema.TopLevel | server/controller/commentController.js:108-111 | exactly the post's comments that have no parent |
| UserSchema.StoredEmail | server/models/Users.js:17-23 | the stored email is the trimmed input in lower case |
| UserSchema.SavedPassword | server/models/Users.js:57-62 | the pre-save hook hashes a non-empty password and leaves a missing one alone |
| UserSchema.ComparePassword | server/models/Users.js:65-67 | comparison throws exactly when no hash is loaded, and matches exactly when bcrypt accepts the candidate |
| UserSchema.Projected | server/middleware/authMiddleware.js:23 | the attached user has no password and no refresh token; all else is the stored account |
| UserSchema.AppendKeepsDistinct | server/models/Users.js:4-23 | adding an account whose email and username are both unused keeps both unique |
| Cache.WithoutPattern | server/services/cacheService.js:27-31 | `delByPattern` removes exactly the keys containing the pattern and keeps the others' values |
| Cache.InvalidateAllSpec | server/services/cacheService.js:75-79 | after invalidating a list of patterns, exactly the keys that contain none of them remain, unchanged |
| Cache.CacheKey | server/services/cacheService.js:51 | the key is `cache:` followed by the original URL |
| Cache.CacheService.constructor | server/services/cacheService.js:4-8 | the cache starts empty |
| Cache.CacheService.Get | server/services/cacheService.js:12-14 | a lookup finds a value exactly when the key is stored, and returns that value |
| Cache.CacheService.Set | server/services/cacheService.js:17-19 | the key is bound to the value and all other keys are unchanged |
| Cache.CacheService.Del | server/services/cacheService.js:22-24 | only the key is removed |
| Cache.CacheService.DelByPattern | server/services/cacheService.js:27-31 | the entries become `WithoutPattern` of the old ones |
| Cache.CacheService.Flush | server/services/cacheService.js:34-36 | the cache becomes empty |
| Cache.CacheService.InvalidateCache | server/services/cacheService.js:75-79 | the entries become the old ones with every pattern removed |
| Cache.CacheService.Lookup | server/services/cacheService.js:44-56 | a non-GET request passes through; a GET is served from the cache exactly when its key is stored |
| Cache.CacheService.Record | server/services/cacheService.js:58-68 | only a 200 reply is stored, under the request's key |
| Sockets.BlogRoom | server/services/socketService.js:31 | a post's room is `blog-<id>` |
| Sockets.Reached | server/services/socketService.js:54-144 | a broadcast reaches every connected socket, a room message reaches the connected sockets in that room, and a direct message reaches that socket if it is connected |
| Sockets.Copies | server/services/socketService.js:54-160 | the number of messages that reach a socket, never more than were sent |
| Sockets.CopiesAppend | server/services/socketService.js:55-160 | the copies a socket receives from two runs of emits add up, so each emit helper's deliveries can be counted on their own |
| Sockets.NewBlogEvents | server/services/socketService.js:55-65 | nothing is sent before the server is initialised; after, one `new-blog` message to everyone, which `NewBlogReachesEveryone` proves reaches each connected socket exactly once |
| Sockets.NewCommentEvents | server/services/socketService.js:68-79 | `new-comment` goes to the post's room only |
| Sockets.CommentUpdateEvents | server/services/socketService.js:82-91 | nothing before initialisation; after, one `comment-updated` message to the post's room, which `CommentUpdateStaysInRoom` proves reaches exactly the room's connected members |
| Sockets.CommentDeleteEvents | server/services/socketService.js:94-103 | nothing before initialisation; after, one `comment-deleted` message to the post's room, which `CommentDeleteStaysInRoom` proves reaches exactly the room's connected members |
| Sockets.BlogUpdateEvents | server/services/socketService.js:106-120 | `blog-updated` goes both to everyone and to the post's room |
| Sockets.BlogDeleteEvents | server/services/socketService.js:123-131 | nothing before initialisation; after, one `blog-deleted` message to everyone, which `BlogDeleteReachesEveryone` proves reaches each connected socket exactly once |
| Sockets.NotifyEvents | server/services/socketService.js:134-144 | nothing without a server or a mapping for the user; otherwise one message to the mapped socket, which `NotifyReachesOnlyMappedSocket` proves reaches that socket alone, while it is connected |
| Sockets.UserActionEvents | server/services/socketService.js:147-160 | nothing before initialisation; after, one `user-action` message to everyone, which `UserActionReachesEveryone` proves reaches each connected socket exactly once |
| Sockets.BlogUpdateCopies | server/services/socketService.js:106-120 | a socket in the post's room receives a blog update twice; any other connected socket receives it once |
| Sockets.CommentEventsStayInRoom | server/services/socketService.js:68-79 | a comment event reaches a socket exactly once when it is in the room, and not at all otherwise |
| Sockets.NewBlogReachesEveryone | server/services/socketService.js:55-65 | `new-blog` reaches every connected socket exactly once and no other socket |
| Sockets.CommentUpdateStaysInRoom | server/services/socketService.js:82-91 | `comment-updated` reaches each connected member of the post's room once and no other socket |
| Sockets.CommentDeleteStaysInRoom | server/services/socketService.js:94-103 | `comment-deleted` reaches each connected member of the post's room once and no other socket |
| Sockets.BlogDeleteReachesEveryone | server/services/socketService.js:123-131 | `blog-deleted` reaches every connected socket exactly once and no other socket |
| Sockets.NotifyReachesOnlyMappedSocket | server/services/socketService.js:134-144 | a notification reaches a socket, once, exactly when the server exists, the user is mapped to that socket and it is connected |
| Sockets.UserActionReachesEveryone | server/services/socketService.js:147-160 | `user-action` reaches every connected socket exactly once and no other socket |
| Sockets.SocketService.constructor | server/services/socketService.js:4-7 | no server, no users, no sockets, nothing sent |
| Sockets.SocketService.Initialize | server/services/socketService.js:9-15 | the server exists and nothing else changes |
| Sockets.SocketService.Connect | server/services/socketService.js:17-18 | the socket is connected with no rooms |
| Sockets.SocketService.Join | server/services/socketService.js:21-27 | a non-empty user id is mapped to this socket, replacing an earlier one |
| Sockets.SocketService.JoinBlog | server/services/socketService.js:30-33 | the socket enters the post's room |
| Sockets.SocketService.LeaveBlog | server/services/socketService.js:36-39 | the socket leaves the post's room |
| Sockets.SocketService.Disconnect | server/services/socketService.js:42-48 | the socket and its rooms go, and its user's entry is deleted even when that entry names a newer socket |
| Sockets.SocketService.EmitNewBlog | server/services/socketService.js:55-65 | the messages sent grow by `NewBlogEvents` |
| Sockets.SocketService.EmitNewComment | server/services/socketService.js:68-79 | the messages sent grow by `NewCommentEvents` |
| Sockets.SocketService.EmitCommentUpdate | server/services/socketService.js:82-91 | the messages sent grow by `CommentUpdateEvents` |
| Sockets.SocketService.EmitCommentDelete | server/services/socketService.js:94-103 | the messages sent grow by `CommentDeleteEvents` |
| Sockets.SocketService.EmitBlogUpdate | server/services/socketService.js:106-120 | the messages sent grow by `BlogUpdateEvents` |
| Sockets.SocketService.EmitBlogDelete | server/services/socketService.js:123-131 | the messages sent grow by `BlogDeleteEvents` |
| Sockets.SocketService.NotifyUser | server/services/socketService.js:134-144 | the messages sent grow by `NotifyEvents` |
| Sockets.SocketService.BroadcastUserAction | server/services/socketService.js:147-160 | the messages sent grow by `UserActionEvents` |
| Sockets.SocketService.GetIO | server/services/socketService.js:162-167 | the server is returned exactly when initialised; otherwise the "not initialized" error |
| Sockets.StaleDisconnect | server/services/socketService.js:42-46 | for any user mapped to a newer, still connected socket, the older socket's disconnect deletes the mapping: a notification that reached the newer socket before reaches no socket after |
| Ranking.HeadRanksAboveAll | server/controller/blogController.js:381 | an element ranked above a list and a new element ranks above any rearrangement of them |
| Ranking.InsertRanked | server/controller/blogController.js:381 | insertion keeps the views-then-newest order and adds exactly one element |
| Ranking.SortRanked | server/controller/blogController.js:381 | `sort({ views: -1, createdAt: -1 })`: ranked and a permutation of the input |
| Ranking.RankedPrefix | server/controller/blogController.js:381-382 | a prefix of the ranking is ranked, a sub-multiset of the input, and ranks above every element it leaves out |
| Ranking.Top | server/controller/blogController.js:381-382 | ranked, at most `limit` elements drawn from the input without repeats (a sub-multiset), the whole input for 0; every element left out ranks below every one kept |
| BlogController.TrimTags | server/models/Blogs.js:29-32 | every tag is trimmed and none is dropped |
| BlogController.DefaultExcerpt | server/controller/blogController.js:14 | a sent excerpt is kept; an empty one becomes the content's longest prefix of at most 200 UTF-16 code units, which is its first 200 characters for BMP text |
| BlogController.CreateFields | server/controller/blogController.js:11-19 | the body is accepted exactly when the schema accepts it, with `maxlength` counted in UTF-16 code units (title 200, excerpt 300), and gives the fields of the new post |
| BlogController.CreateDefaults | server/controller/blogController.js:11-19 | a body with only title and content gives a published post by the requester, without tags, with the first 200 code units of the content as excerpt |
| BlogController.CreateBlog | server/controller/blogController.js:7-45 | a valid body whose saved slug is free appends exactly one post with that slug, clears every cached blog URL and announces it when published; otherwise 500 and nothing changes |
| BlogController.CommentCount | server/controller/blogController.js:94 | the count is 0 exactly when no comment is on the post, and never more than the comments stored |
| BlogController.CommentCountCounts | server/controller/blogController.js:94 | `countDocuments({ post })` is 0 for no comments and grows by one exactly for each added comment on the post: it is the number of comments on the post |
| BlogController.StatusFilter | server/controller/blogController.js:74-79 | a viewer naming another author, unless an admin, sees only published posts; otherwise the query's status applies |
| BlogController.ListedPosts | server/controller/blogController.js:61-79 | exactly the posts that match the query, with the tag compared after the `trim` setter |
| BlogController.TagQueryIgnoresPadding | server/controller/blogController.js:66 | blanks around the tag asked for (`?tag=react%20`) match the same posts as the bare tag |
| BlogController.Ordered | server/controller/blogController.js:82-86 | oldest first for `order=asc`, newest first otherwise, position by position |
| BlogController.OrderedPage | server/controller/blogController.js:81-88 | the page in the requested order: its size and each position |
| BlogController.ListPage | server/controller/blogController.js:84-97 | that page with each post's comment count |
| BlogController.GetAllBlogs | server/controller/blogController.js:48-118 | 500 exactly for a malformed author; otherwise the page of matching posts in order, with comment counts and pagination |
| BlogController.CachedListBlogs | server/routes/blogRoutes.js:26-31 | a cached URL is answered from the cache whoever asks; otherwise the reply is computed, and only a 200 is stored |
| BlogController.AnonymousAuthorFilterShowsDrafts | server/controller/blogController.js:74-79 | for any collection, a viewer who is not signed in and names an author, with no other filter, gets every live post by that author, drafts included |
| BlogController.OtherAuthorsDraftsStayHidden | server/controller/blogController.js:74-79 | a signed-in user who names another author sees only published posts |
| BlogController.AllThreads | server/controller/blogController.js:132-145 | all of the post's top-level comments, newest first, each with its replies |
| BlogController.PlanRead | server/controller/blogController.js:121-164 | 404 without a live post; a published post is shown; a draft is shown only to its author or an admin, 403 otherwise |
| BlogController.Viewed | server/controller/blogController.js:167 | one more view is counted and no other field of the post changes |
| BlogController.GetBlogById | server/controller/blogController.js:121-181 | a refused read changes nothing; a shown post gains exactly one view and keeps its slug |
| BlogController.PlanOwnPost | server/controller/blogController.js:186-209 | 404 exactly without a live post, 403 exactly when the requester neither is the author nor is an admin |
| BlogController.Patched | server/controller/blogController.js:211-225 | each field sent replaces the stored one (title and tags trimmed); nothing else changes |
| BlogController.RetitleKeepsSlug | server/controller/blogController.js:221-225 | a new title changes the title only; the slug is recomputed only on save |
| BlogController.EmptyPatchIsIdentity | server/controller/blogController.js:211-220 | an empty update leaves the post as it was |
| BlogController.UpdateBlog | server/controller/blogController.js:184-245 | an allowed valid update replaces exactly that post by `Patched`, clears every cached blog URL and announces it; a refusal or an invalid patch changes nothing |
| BlogController.DeleteBlog | server/controller/blogController.js:248-294 | an allowed delete soft-deletes exactly that post now, clears every cached blog URL and announces it; a refusal changes nothing |
| BlogController.FindDeletedPost | server/controller/blogController.js:299-302 | the first deleted post with the cast id; nothing exactly when there is none |
| BlogController.RestoreBlog | server/controller/blogController.js:297-328 | 500 for a malformed id, 404 for no deleted post, else that post restored |
| BlogController.MyPosts | server/controller/blogController.js:335-340 | exactly the requester's live posts (with the asked-for status), kept in creation order |
| BlogController.GetMyBlogs | server/controller/blogController.js:331-369 | the page of the requester's live posts newest first: its size and each position |
| BlogController.TrendingPosts | server/controller/blogController.js:376-383 | live published posts only, without repeats (a sub-multiset of them), most viewed first then newest, as many as the limit allows and all for 0; everything left out ranks lower |
| BlogController.GetTrendingBlogs | server/controller/blogController.js:372-403 | the trending posts with their comment counts |
| CommentController.CommentPatterns | server/controller/commentController.js:49-52 | a comment write clears the post's page and its comment listing |
| CommentController.SlugKeyedCommentsSurvive | server/controller/commentController.js:49-52 | a comment listing cached under a slug URL survives that invalidation |
| CommentController.PlanCreateComment | server/controller/commentController.js:13-37 | 404 without a live post (its slug matched in any case) or a parent on it; otherwise the comment to insert, with its content cast |
| CommentController.CreateComment | server/controller/commentController.js:7-81 | an insert appends exactly that comment, clears the post's cached page and comments and notifies the room; a comment on someone else's post then fails with 500 (the author notification reads an undefined variable), although it is stored; a refusal changes nothing |
| CommentController.CreateCommentIntended | server/controller/commentController.js:55-70 | the corrected handler: every stored comment answers 201, and a comment on someone else's post also sends its author the personal notification |
| CommentController.IntendedNoticeReachesAuthor | server/controller/commentController.js:55-63 | with the correction, the post's author receives the notice exactly on their mapped, connected socket |
| CommentController.GetCommentsByPost | server/controller/commentController.js:84-144 | 404 exactly without a live post; otherwise that post's page of threads (see Threads) and the pagination counting its top-level comments |
| CommentController.TopLevelPage | server/controller/commentController.js:105-111 | the page of top-level comments newest first: its size and each position |
| CommentController.Threads | server/controller/commentController.js:105-120 | those comments, each with all of its replies, oldest first |
| CommentController.GetCommentById | server/controller/commentController.js:147-174 | 500 for a malformed id, 404 exactly when no comment has it, else that comment with its replies |
| CommentController.Edited | server/controller/commentController.js:199-202 | the new content, marked edited at the current time; nothing else changes |
| CommentController.PlanOwnComment | server/controller/commentController.js:179-195 | 500 for a malformed id, 404 for no comment, 403 exactly when the requester neither is the author nor is an admin |
| CommentController.UpdateComment | server/controller/commentController.js:177-227 | an allowed edit replaces exactly that comment with `Edited`; a refusal changes nothing |
| CommentController.AfterDeleteComment | server/controller/commentController.js:250-256 | delete removes the comment and its direct replies, and keeps every other comment |
| CommentController.GrandchildrenRemain | server/controller/commentController.js:253-256 | a reply to a reply survives the deletion of the top comment |
| CommentController.DeleteComment | server/controller/commentController.js:230-278 | an allowed delete leaves `AfterDeleteComment`; a refusal changes nothing |
| CommentSchema.AuthoredBy | server/controller/commentController.js:286 | exactly the comments the requester wrote, kept in creation order |
| CommentController.GetMyComments | server/controller/commentController.js:281-312 | the page of the requester's comments newest first: its size and each position |
| AdminController.PatchedUser | server/controller/adminController.js:239-245 | each field sent replaces the stored one, through the setters; nothing else changes |
| AdminController.PlanUpdateUser | server/controller/adminController.js:237-287 | 500 for a malformed id, 400 exactly for a username taken by someone else (a taken email is a 500, the duplicate-key error), 404 for no user |
| AdminController.UpdateUser | server/controller/adminController.js:237-287 | an allowed update replaces that user by `PatchedUser`; a refusal changes nothing |
| AdminController.PlanDeleteUser | server/controller/adminController.js:290-307 | 500 for a malformed id, 404 for no user, 400 for the requester's own id as written, removal otherwise |
| AdminController.SelfDeletionBySpelling | server/controller/adminController.js:302-307 | an admin who writes their own id in upper case deletes their own account |
| AdminController.DeleteUser | server/controller/adminController.js:290-329 | removal drops exactly that user and soft-deletes all of the user's posts, already deleted ones included; a refusal changes nothing |
| AdminController.DeletedUsersPostsAreDeleted | server/controller/adminController.js:309-316 | after that, every post by the user is deleted, and all other posts are unchanged |
| AdminController.AdminListedPosts | server/controller/adminController.js:344-348 | exactly the posts matching the admin query, deleted ones included |
| AdminController.AdminListsDeletedPosts | server/controller/adminController.js:344-348 | with no filter every post is counted, deleted or not |
| AdminController.GetAllBlogsAdmin | server/controller/adminController.js:332-386 | 500 exactly for a malformed author; otherwise the page in order, with comment counts and pagination |
| AdminController.PermanentlyDeleteBlog | server/controller/adminController.js:389-420 | 500 for a malformed id, 404 for no post; otherwise exactly that post is removed, no comment on it remains and every other comment does, and every cached blog URL is cleared |
| AdminController.ClearCache | server/controller/adminController.js:462-477 | the cache is emptied and the reply says so |
| AuthMiddleware.BearerWord | server/middleware/authMiddleware.js:8-17 | the second space-separated word of the header, if there is one |
| AuthMiddleware.TokenOf | server/middleware/authMiddleware.js:8-17 | the header word, else the cookie, else (for `authenticate`) the query token; none exactly when all are empty |
| AuthMiddleware.HeaderWins | server/middleware/authMiddleware.js:8-17 | a `Bearer <token>` header wins over the cookie and the query |
| AuthMiddleware.Authenticate | server/middleware/authMiddleware.js:5-47 | admitted exactly with a verified token naming an existing active user, who is attached without secrets; every refusal is a 401 with its message |
| AuthMiddleware.InactiveAccountRefused | server/middleware/authMiddleware.js:25-30 | a deactivated account is refused even with a valid token |
| AuthMiddleware.IsAdmin | server/middleware/authMiddleware.js:50-59 | passes exactly for an admin, else 403 |
| AuthMiddleware.IsOwnerOrAdmin | server/middleware/authMiddleware.js:62-77 | passes exactly for an admin or for the owner named by the resource, else by the route parameter; else 403 |
| AuthMiddleware.GateAgreesWithOwnership | server/middleware/authMiddleware.js:62-77 | with the resource's owner known, the gate is the handlers' owner-or-admin rule |
| AuthMiddleware.OptionalAuth | server/middleware/authMiddleware.js:80-96 | never refuses; without a header or cookie token nobody is attached; anyone attached is active and has no secrets |
| AuthMiddleware.OptionalAuthIsLenientAuthenticate | server/middleware/authMiddleware.js:80-96 | it attaches exactly whom `authenticate` would admit with the query token ignored |
| AuthMiddleware.OptionalAuthIgnoresQuery | server/middleware/authMiddleware.js:80-96 | the query string never changes the result |
| AuthController.NewAccount | server/controller/authController.js:22-72 | a registered account gets the next id and time, the trimmed names, the stored email, the hashed password, the refresh token and the active `user` role |
| AuthController.PlanRegister | server/controller/authController.js:22-72 | 400 exactly when the email or the username is already used, with the message naming which |
| AuthController.Register | server/controller/authController.js:22-72 | a success appends exactly the new account; a refusal changes nothing |
| AuthController.RegisterKeepsAccountsDistinct | server/controller/authController.js:22-72 | registration keeps emails and usernames unique |
| AuthController.PlanLogin | server/controller/authController.js:75-129 | the same 401 for an unknown email or a wrong password, 403 for a deactivated account, 500 without a hash, success exactly for a matching password |
| AuthController.Login | server/controller/authController.js:75-129 | a success stores the issued refresh token on that account only |
| AuthController.Logout | server/controller/authController.js:132-149 | the requester's stored refresh token becomes null |
| AuthController.Refresh | server/controller/authController.js:152-193 | a new access token exactly for a verified refresh token equal to the one stored on its account; otherwise 401 |
| AuthController.LookupIgnoresToken | server/controller/authController.js:156-186 | changing an account's refresh token does not change which account an id finds |
| AuthController.StoredTokenRefreshes | server/controller/authController.js:156-186 | the stored token refreshes |
| AuthController.LogoutRevokes | server/controller/authController.js:156-186 | after logout the old token is refused |
| AuthController.NewLoginRevokesOldToken | server/controller/authController.js:106-111 | a new login makes the previous refresh token fail |
| AuthController.ProfileUpdated | server/controller/authController.js:212-252 | name and username (trimmed) and avatar replace the stored ones when sent; nothing else changes |
| AuthController.PlanUpdateProfile | server/controller/authController.js:212-252 | 400 exactly for a username another account has; a valid update of an existing account is saved |
| AuthController.UpdateProfile | server/controller/authController.js:212-252 | a saved update replaces exactly the requester's account |
| AuthController.ChangePasswordAsWritten | server/controller/authController.js:255-283 | as written: a user without a loaded hash gets 500; success only when the password compares |
| AuthController.ChangePasswordAlwaysFails | server/controller/authController.js:260 | every user `authenticate` attaches gets that 500 |
| AuthController.PlanChangePassword | server/controller/authController.js:255-283 | checked against the stored hash: 401 for a wrong current password; saved exactly when it matches and the new one has 6 or more UTF-16 code units (the schema's `minlength`) |
| AuthController.ChangePassword | server/controller/authController.js:255-283 | a saved change stores the hash of the new password on that account only |
| AuthController.NewPasswordLogsIn | server/controller/authController.js:255-283 | after the change the new password logs in |
| AuthController.Linked | server/controller/authController.js:300-306 | an existing account found by email gets the provider id, and the photo when it has no avatar |
| AuthController.SocialUsername | server/controller/authController.js:313 | the generated username has no `@` |
| AuthController.SocialAccount | server/controller/authController.js:309-316 | a new social account has the next id, the provider id, the `user` role and no password |
| AuthController.PlanSocialSignIn | server/controller/authController.js:294-318 | the account with the provider id, else the one with the email, else a new account exactly when it passes the schema and neither its username nor its email (Facebook's placeholder included) is taken |
| AuthController.SocialSignIn | server/controller/authController.js:292-323 | the users change exactly as the plan says: nothing, one linked account, or one appended account; when account creation throws, the users are unchanged and the reply is the error handler's 500 with the error's own message |
| AuthController.ErrorReply | server/server.js:95-102 | an error without a status is answered 500 with no data, carrying its message, or "Internal server error" when the message is empty |
| AuthController.ReturningUserMatchedByProviderId | server/controller/authController.js:294 | a returning user is found by provider id even when the email changed |
| AuthController.SocialAuthCallback | server/controller/authController.js:371-388 | the refresh token is stored and the browser is sent to the front end with both tokens, or to the error page |
| Validators.Rule | server/middleware/validators.js:4-14 | a rule reports an error exactly when its check fails |
| Validators.UsernameErrors | server/middleware/validators.js:18-23 | no error exactly for a trimmed username of 3 to 30 word characters |
| Validators.PaddedUsernameAccepted | server/middleware/validators.js:18-23 | leading blanks do not make a username fail |
| Validators.NameErrors | server/middleware/validators.js:24-29 | no error exactly for a non-empty trimmed name of at most 100 characters |
| Validators.EmailErrors | server/middleware/validators.js:30-34 | no error exactly when the trimmed text is an email |
| Validators.PasswordErrors | server/middleware/validators.js:35-39 | no error exactly for 6 or more characters whose first line (before any line break) holds a lower-case letter, an upper-case letter and a digit |
| Validators.ClassesAfterLineBreakRefused | server/middleware/validators.js:38 | a password with no upper-case letter before its first line break is refused, whatever follows, e.g. `abcdef\nABC123` |
| Validators.RegisterErrors | server/middleware/validators.js:17-41 | no error exactly when every field passes |
| Validators.LoginErrors | server/middleware/validators.js:43-53 | no error exactly for an email and a non-empty password |
| Validators.TitleErrors | server/middleware/validators.js:57-62 | no error exactly for a non-empty trimmed title of at most 200 characters |
| Validators.ContentErrors | server/middleware/validators.js:63-68 | no error exactly for non-empty trimmed content of at least 10 characters |
| Validators.StatusErrors | server/middleware/validators.js:78-81 | no error exactly for no status, "draft" or "published" |
| Validators.ExcerptErrors | server/middleware/validators.js:69-73 | no error exactly for no excerpt or one of at most 300 characters |
| Validators.CreateBlogErrors | server/middleware/validators.js:56-83 | no error exactly when every create rule passes |
| Validators.CreateValidationSuffices | server/middleware/validators.js:56-83 | a body that passes, with BMP title and excerpt, is accepted by the schema |
| Validators.AstralTitlePassesValidationOnly | server/middleware/validators.js:56-61 | a title of 101 to 200 emoji passes the 200-character rule but exceeds the schema's 200 code units, so `createBlog` fails |
| Validators.UpdateBlogErrors | server/middleware/validators.js:85-110 | no error exactly when every optional update rule passes |
| Validators.UpdateValidationSuffices | server/middleware/validators.js:85-110 | a passing update with a non-blank title, if any, and BMP title and excerpt, is a valid patch |
| Validators.BlankTitleSlipsThroughUpdate | server/middleware/validators.js:85-110 | a blank title passes the update rules but not the schema |
| Validators.CommentErrors | server/middleware/validators.js:113-125 | no error exactly for trimmed content of 1 to 1000 characters and a parent that passes `isMongoId`, if given |
| Validators.CommentValidationSuffices | server/middleware/validators.js:113-125 | BMP content that passes is stored as is |
| Validators.AstralCommentPassesValidationOnly | server/middleware/validators.js:113-119 | 501 to 1000 emoji pass the 1000-character rule but exceed the schema's 1000 code units, so the comment is not stored |
| Validators.WhiteCommentRefused | server/middleware/validators.js:113-125 | all-white content is refused |
| Validators.MongoIdErrors | server/middleware/validators.js:138-143 | no error exactly for 24 characters that are hex digits, optionally after a `0x` or `0h` prefix (`isHexadecimal` on length 24) |
| Validators.MongoIdExtendsObjectId | server/middleware/validators.js:138-143 | every ObjectId text passes `isMongoId`, and a passing id without the prefix is ObjectId text |
| Validators.PrefixedIdPassesValidationOnly | server/middleware/validators.js:120-123 | `0x` and 22 hex digits pass `mongoIdValidation` and the parent check, yet are not ObjectId text, so the handler's cast answers 500 |
| Validators.IdOrSlugErrors | server/middleware/validators.js:146-158 | no error exactly for an ObjectId or a non-empty slug of lower-case letters, digits and hyphens |
| Validators.UpperCaseSlugRefused | server/middleware/validators.js:146-158 | a slug with an upper-case letter that is not hex is refused |
| Validators.PaginationErrors | server/middleware/validators.js:161-171 | no error exactly when page is an integer of at least 1 and limit an integer from 1 to 100 |
| Validators.Validate | server/middleware/validators.js:4-14 | the request proceeds exactly when there is no error; otherwise 400 with every error |
| ActivityLogger.ResourceIdOf | server/middleware/activityLogger.js:21-26 | the `:id` parameter when set, else the id of the reply's data, else none |
| ActivityLogger.DetailsOf | server/middleware/activityLogger.js:28-31 | `METHOD url` exactly when both are set |
| ActivityLogger.BuildEntry | server/middleware/activityLogger.js:13-31 | the entry carries the user, the action, the resource, the details and the time |
| ActivityLogger.Cast | server/middleware/activityLogger.js:33-37 | the stored entry has its resource id cast to lower case and nothing else changed |
| ActivityLogger.LogActivity | server/middleware/activityLogger.js:4-46 | an entry is appended exactly for a reply below 400 to a signed-in user when the entry is storable; a failed create is swallowed |
| ActivityLogger.SlugParameterNotLogged | server/middleware/activityLogger.js:21-33 | any `:id` parameter that is not an ObjectId, a slug on the blog routes say, makes the create fail, so nothing is logged |
| ActivityLogger.MatchingLogs | server/middleware/activityLogger.js:51-55 | exactly the entries matching the user and action filters, in time order |
| ActivityLogger.GetUserActivityLogs | server/middleware/activityLogger.js:49-81 | 500 for a malformed user id or a negative skip; otherwise the matching entries newest first, the whole list for limit 0, or the exact page |
| ClientForms.ParsedTagsAreClean | client/src/pages/CreateBlog.jsx:34 | every parsed tag is non-empty, trimmed and comma-free |
| ClientForms.BlankInputHasNoTags | client/src/pages/CreateBlog.jsx:34 | commas and blanks alone give no tags |
| ClientForms.ParseAcrossComma | client/src/pages/CreateBlog.jsx:34 | parsing splits at each comma independently |
| ClientForms.ParseSingle | client/src/pages/CreateBlog.jsx:34 | a clean tag parses to itself |
| ClientForms.InitialForm | client/src/pages/CreateBlog.jsx:9-16 | the empty form, with status draft |
| ClientForms.Submitted | client/src/pages/CreateBlog.jsx:32-35 | the request carries the parsed tags, all clean, and every other field as typed |
| ClientForms.OrEmpty | client/src/pages/EditBlog.jsx:29-36 | a missing field shows as empty |
| ClientForms.LoadForm | client/src/pages/EditBlog.jsx:29-36 | the edit form shows the post, its tags joined by `, ` |
| ClientForms.CleanTagsRoundTrip | client/src/pages/EditBlog.jsx:34 | clean tags survive joining and parsing |
| ClientForms.RoundTripExactlyForCleanTags | client/src/pages/EditBlog.jsx:34 | tags survive joining and parsing exactly when they are all clean |
| ClientForms.ParseIgnoresLeadingSpace | client/src/pages/EditBlog.jsx:34 | a leading blank does not change the tags |
| ClientForms.ReparseIsStable | client/src/pages/EditBlog.jsx:34 | parsing again what was joined gives the same tags |
| ClientForms.UnchangedEditKeepsPost | client/src/pages/EditBlog.jsx:29-61 | saving an untouched edit form sends the post's own fields back |
| ClientForms.AddNotification | client/src/context/SocketContext.jsx:102-104 | the newest notification first, the older ones after it, at most 50 |
| ClientForms.ReceivedIsNewestFifty | client/src/context/SocketContext.jsx:102-104 | after any run of notifications the list holds the newest 50, newest first |
| ClientForms.ClearNotifications | client/src/context/SocketContext.jsx:106-108 | the list becomes empty |
| ClientForms.JoinBlogRoom | client/src/context/SocketContext.jsx:110-115 | `join-blog` is sent only when a socket exists |
| ClientForms.LeaveBlogRoom | client/src/context/SocketContext.jsx:117-122 | `leave-blog` is sent only when a socket exists |

## Left out

- Express routing and the order of middleware on each route. Handlers
  are given what the route's middleware produced (the attached user,
  the parsed page and limit). This is why several members take
  `page >= 1 && limit >= 1` as a precondition: `paginationValidation`
  refuses other values first. Likewise, `mongoIdValidation` answers 400
  on the admin and comment routes before the handler's own 500 for a
  malformed id, which the model keeps; an id with the `0x` or `0h`
  prefix passes it and reaches that 500.
- `getDashboardStats`, `getAllUsers`, `getUserById`,
  `getAllCommentsAdmin`, `getCurrentUser` and the cache `getStats`.
  These are read-only reports or counters with nothing to prove beyond
  their queries.
- Cache entry lifetimes: the TTL and the periodic sweep depend on a wall
  clock. In the model an entry stays until it is deleted.
- Sorting keys other than `createdAt` in the list handlers. The search
  regular expression is an uninterpreted matcher.
- bcrypt, `jwt.sign` and `jwt.verify`, `slugify`, `validator.isEmail`
  and `normalizeEmail`. These are uninterpreted parameters. Issued
  tokens are given values.
- Case folding beyond ASCII: JavaScript's `toLowerCase` also folds
  non-ASCII letters; the model folds only ASCII. Ids are compared after
  ASCII lower-casing, which is exact for ObjectId text. The `lowercase`
  setters are modelled as ASCII lower-casing: the email setter, and the
  slug setter applied to a slug lookup (`MatchesIdentifier`,
  `SavedSlug`). A slug or identifier with non-ASCII capitals can
  therefore differ from the source; the comment routes under
  `/post/:postId` pass such identifiers without validation.
- `populate` of authors and posts. The model keeps ids. The one place a
  populated author matters, a draft whose author account is gone, is
  modelled as the 500 it causes.
- A Google profile without an email. The profile email is a string
  (Facebook's placeholder email is modelled).
- `Date.now()` is a logical tick, and `updatedAt` timestamps are not
  modelled.
- Concurrency between requests, the asynchrony of the `res.json`
  override, and the Socket.io transport. Deliveries are computed from
  the connection state.
- Request parsing: non-numeric or negative page and limit values
  reaching a handler unvalidated, and the `isArray` check on tags,
  which are typed as a sequence.
- In the client: `handleChange` plumbing, API calls, toasts, navigation,
  rendering, and the socket connection lifecycle. Only the tag fields,
  the notification list and the room guards are modelled.

- Validators.CreateValidationSuffices: proved only for a title and excerpt
  in the Basic Multilingual Plane. `isLength` counts code points but the
  schema's `maxlength` counts UTF-16 code units, so emoji text can pass
  one and fail the other (`Validators.AstralTitlePassesValidationOnly`).
- Validators.UpdateValidationSuffices: proved only for BMP title and
  excerpt, for the same reason.
- Validators.CommentValidationSuffices: proved only for BMP content, for
  the same reason (`Validators.AstralCommentPassesValidationOnly`).
- BlogController.DefaultExcerpt: a surrogate pair that `substring` cuts in
  half is stored as U+FFFD, since a string here holds code points and
  cannot hold a lone surrogate.
- `isLength` is modelled as counting code points; newer releases of the
  validator library also skip the variation selectors U+FE0E and U+FE0F.

## Findings

| source | as written | input that shows it | evidently intended | confidence | as-written member | corrected member |
|---|---|---|---|---|---|---|
| server/controller/authController.js:260 | `changePassword` compares the current password with `req.user`, which `authenticate` loads without its password hash (server/middleware/authMiddleware.js:23), so `comparePassword` throws | any authenticated change-password request | compare against the stored account's hash | not executed | AuthController.ChangePasswordAlwaysFails | AuthController.PlanChangePassword |
| server/controller/commentController.js:62 | the author notification in `createComment` reads `blogId: postId`, and no `postId` is declared, so a ReferenceError answers 500 after the comment is stored, the caches are cleared and the room is told | any comment on a post written by another user | 201 and a notification to the post's author | not executed | CommentController.CreateComment | CommentController.CreateCommentIntended |
