/** The MongoDB collections the handlers read and write, held in natural
    (insertion) order, and an abstract clock. The clock stands for
    `Date.now()` and for ObjectId generation: every new document takes
    the current tick as its `createdAt` and `Hex24(tick)` as its id, so
    natural order is also `createdAt` order. */
module Database {
  import opened Collections
  import opened Text
  import opened Domain

  /** The id a document created at tick `now` receives. */
  function NewId(now: nat): (id: Id)
    ensures IsObjectIdText(id) && Lower(id) == id
  {
    LowerOfLowerHex(Hex24(now));
    Hex24(now)
  }

  class Store {
    var users: seq<User>
    var blogs: seq<Blog>
    var comments: seq<Comment>
    var logs: seq<LogEntry>
    var clock: nat

    /** Natural order agrees with creation time, and all of it is in the past. */
    ghost predicate Valid()
      reads this
    {
      Increasing(users, UserTime) && Below(users, UserTime, clock)
      && Increasing(blogs, BlogTime) && Below(blogs, BlogTime, clock)
      && Increasing(comments, CommentTime) && Below(comments, CommentTime, clock)
      && Increasing(logs, LogTime) && Below(logs, LogTime, clock)
    }

    constructor ()
      ensures Valid() && users == [] && blogs == [] && comments == [] && logs == [] && clock == 0
    {
      users, blogs, comments, logs, clock := [], [], [], [], 0;
    }

    /** Reads the clock and moves it on. */
    method Tick() returns (now: nat)
      requires Valid()
      modifies this
      ensures Valid() && now == old(clock) && clock == old(clock) + 1
      ensures users == old(users) && blogs == old(blogs) && comments == old(comments) && logs == old(logs)
    {
      now := clock;
      clock := clock + 1;
      BelowGrows(users, UserTime, now, clock);
      BelowGrows(blogs, BlogTime, now, clock);
      BelowGrows(comments, CommentTime, now, clock);
      BelowGrows(logs, LogTime, now, clock);
    }

    /** `User.create`, stamped with the current tick. */
    method InsertUser(u: User)
      requires Valid() && u.createdAt == clock
      modifies this
      ensures Valid() && users == old(users) + [u] && clock == old(clock) + 1
      ensures blogs == old(blogs) && comments == old(comments) && logs == old(logs)
    {
      AppendKeepsIncreasing(users, u, UserTime, clock);
      users := users + [u];
      clock := clock + 1;
      BelowGrows(blogs, BlogTime, clock - 1, clock);
      BelowGrows(comments, CommentTime, clock - 1, clock);
      BelowGrows(logs, LogTime, clock - 1, clock);
    }

    /** `Blog.create`, stamped with the current tick. */
    method InsertBlog(b: Blog)
      requires Valid() && b.createdAt == clock
      modifies this
      ensures Valid() && blogs == old(blogs) + [b] && clock == old(clock) + 1
      ensures users == old(users) && comments == old(comments) && logs == old(logs)
    {
      AppendKeepsIncreasing(blogs, b, BlogTime, clock);
      blogs := blogs + [b];
      clock := clock + 1;
      BelowGrows(users, UserTime, clock - 1, clock);
      BelowGrows(comments, CommentTime, clock - 1, clock);
      BelowGrows(logs, LogTime, clock - 1, clock);
    }

    /** `Comment.create`, stamped with the current tick. */
    method InsertComment(c: Comment)
      requires Valid() && c.createdAt == clock
      modifies this
      ensures Valid() && comments == old(comments) + [c] && clock == old(clock) + 1
      ensures users == old(users) && blogs == old(blogs) && logs == old(logs)
    {
      AppendKeepsIncreasing(comments, c, CommentTime, clock);
      comments := comments + [c];
      clock := clock + 1;
      BelowGrows(users, UserTime, clock - 1, clock);
      BelowGrows(blogs, BlogTime, clock - 1, clock);
      BelowGrows(logs, LogTime, clock - 1, clock);
    }

    /** `ActivityLog.create`, stamped with the current tick. */
    method AppendLog(e: LogEntry)
      requires Valid() && e.createdAt == clock
      modifies this
      ensures Valid() && logs == old(logs) + [e] && clock == old(clock) + 1
      ensures users == old(users) && blogs == old(blogs) && comments == old(comments)
    {
      AppendKeepsIncreasing(logs, e, LogTime, clock);
      logs := logs + [e];
      clock := clock + 1;
      BelowGrows(users, UserTime, clock - 1, clock);
      BelowGrows(blogs, BlogTime, clock - 1, clock);
      BelowGrows(comments, CommentTime, clock - 1, clock);
    }

    /** Saving a changed user document in place. */
    method PutUser(i: nat, u: User)
      requires Valid() && i < |users| && u.createdAt == users[i].createdAt
      modifies this
      ensures Valid() && users == old(users)[i := u]
      ensures blogs == old(blogs) && comments == old(comments) && logs == old(logs) && clock == old(clock)
    {
      UpdateKeepsIncreasing(users, i, u, UserTime, clock);
      users := users[i := u];
    }

    /** Saving a changed blog document in place. */
    method PutBlog(i: nat, b: Blog)
      requires Valid() && i < |blogs| && b.createdAt == blogs[i].createdAt
      modifies this
      ensures Valid() && blogs == old(blogs)[i := b]
      ensures users == old(users) && comments == old(comments) && logs == old(logs) && clock == old(clock)
    {
      UpdateKeepsIncreasing(blogs, i, b, BlogTime, clock);
      blogs := blogs[i := b];
    }

    /** Saving a changed comment document in place. */
    method PutComment(i: nat, c: Comment)
      requires Valid() && i < |comments| && c.createdAt == comments[i].createdAt
      modifies this
      ensures Valid() && comments == old(comments)[i := c]
      ensures users == old(users) && blogs == old(blogs) && logs == old(logs) && clock == old(clock)
    {
      UpdateKeepsIncreasing(comments, i, c, CommentTime, clock);
      comments := comments[i := c];
    }

    /** `deleteOne` on a user document. */
    method RemoveUser(i: nat)
      requires Valid() && i < |users|
      modifies this
      ensures Valid() && users == RemoveAt(old(users), i)
      ensures blogs == old(blogs) && comments == old(comments) && logs == old(logs) && clock == old(clock)
    {
      RemoveAtKeepsIncreasing(users, i, UserTime);
      users := RemoveAt(users, i);
    }

    /** `deleteOne` on a blog document. */
    method RemoveBlog(i: nat)
      requires Valid() && i < |blogs|
      modifies this
      ensures Valid() && blogs == RemoveAt(old(blogs), i)
      ensures users == old(users) && comments == old(comments) && logs == old(logs) && clock == old(clock)
    {
      RemoveAtKeepsIncreasing(blogs, i, BlogTime);
      blogs := RemoveAt(blogs, i);
    }

    /** `Comment.deleteMany(filter)`: the comments `keep` accepts (those
        not matching the filter) stay, in order. */
    method KeepCommentsWhere(keep: Comment -> bool)
      requires Valid()
      modifies this
      ensures Valid() && comments == Filter(old(comments), keep)
      ensures users == old(users) && blogs == old(blogs) && logs == old(logs) && clock == old(clock)
    {
      FilterKeepsIncreasing(comments, keep, CommentTime);
      FilterKeepsBelow(comments, keep, CommentTime, clock);
      comments := Filter(comments, keep);
    }

    /** `Blog.updateMany(filter, change)` for a change that keeps `createdAt`. */
    method UpdateBlogsWhere(p: Blog -> bool, f: Blog -> Blog)
      requires Valid()
      requires forall i :: 0 <= i < |blogs| ==> f(blogs[i]).createdAt == blogs[i].createdAt
      modifies this
      ensures Valid() && blogs == MapWhere(old(blogs), p, f)
      ensures users == old(users) && comments == old(comments) && logs == old(logs) && clock == old(clock)
    {
      MapWhereKeepsIncreasing(blogs, p, f, BlogTime, clock);
      blogs := MapWhere(blogs, p, f);
    }
  }
}
