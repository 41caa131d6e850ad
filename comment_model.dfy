/** The comment schema: the cast of `content`, the defaults of a new
    comment, and the `replies` relation. */
module CommentSchema {
  import opened Collections
  import opened Text
  import opened Domain

  const MaxContentLength := 1000

  /** The `content` path: trimmed on assignment, then `required` (a
      non-empty string) and `maxlength: 1000`, counted in UTF-16 code
      units. `None` is the validation
      error that makes `create` and `save` reject. */
  function CastContent(content: string): (r: Option<string>)
    ensures r.Some? <==> Trim(content) != "" && Utf16Length(Trim(content)) <= MaxContentLength
    ensures r.Some? ==> r.value != [] && |r.value| <= MaxContentLength && Trim(r.value) == r.value
    ensures r.Some? ==> forall k :: 0 <= k < |r.value| ==> r.value[k] in content
  {
    var t := Trim(content);
    TrimIdempotent(content);
    if t != "" && Utf16Length(t) <= MaxContentLength then Some(t) else None
  }

  /** Content made only of white space is rejected. */
  lemma WhiteContentRejected(content: string)
    requires forall k :: 0 <= k < |content| ==> IsWhite(content[k])
    ensures CastContent(content).None?
  {
    TrimOfWhite(content);
  }

  /** Surrounding white space is not stored. */
  lemma CastContentIgnoresPadding(content: string)
    ensures CastContent(" " + content) == CastContent(content)
  {
    TrimLeadingSpace(content);
  }

  /** `Comment.create({...})` without `isEdited`/`editedAt`: the schema
      defaults apply, and `parentComment` is null unless one is given. */
  function NewComment(id: Id, content: string, author: Id, post: Id, parent: Option<Id>, now: nat): (c: Comment)
    ensures c.id == id && c.content == content && c.author == author && c.post == post
    ensures c.parentComment == parent
    ensures !c.isEdited && c.editedAt.None?
    ensures c.createdAt == now
  {
    Comment(id, content, author, post, parent, false, None, now)
  }

  predicate IsReplyTo(parentId: Id, c: Comment) {
    c.parentComment == Some(parentId)
  }

  function ReplyMatcher(parentId: Id): Comment -> bool {
    c => IsReplyTo(parentId, c)
  }

  /** The `replies` virtual of comment `c`: the comments whose
      `parentComment` is `c`'s id, in natural order. */
  function Replies(comments: seq<Comment>, c: Comment): (r: seq<Comment>)
    ensures forall i :: 0 <= i < |r| ==> r[i] in comments && r[i].parentComment == Some(c.id)
    ensures forall i :: 0 <= i < |comments| && comments[i].parentComment == Some(c.id) ==> comments[i] in r
  {
    Filter(comments, ReplyMatcher(c.id))
  }

  function AuthorMatcher(author: Id): Comment -> bool {
    (c: Comment) => c.author == author
  }

  /** The query `{ author }`: the comments `author` wrote, in natural order. */
  function AuthoredBy(comments: seq<Comment>, author: Id): (r: seq<Comment>)
    ensures forall i :: 0 <= i < |r| ==> r[i] in comments && r[i].author == author
    ensures forall k :: 0 <= k < |comments| && comments[k].author == author ==> comments[k] in r
    ensures Increasing(comments, CommentTime) ==> Increasing(r, CommentTime)
  {
    assert Increasing(comments, CommentTime) ==> Increasing(Filter(comments, AuthorMatcher(author)), CommentTime) by {
      if Increasing(comments, CommentTime) {
        FilterKeepsIncreasing(comments, AuthorMatcher(author), CommentTime);
      }
    }
    Filter(comments, AuthorMatcher(author))
  }

  predicate IsTopLevelOf(post: Id, c: Comment) {
    c.post == post && c.parentComment.None?
  }

  function TopLevelMatcher(post: Id): Comment -> bool {
    c => IsTopLevelOf(post, c)
  }

  /** The query `{ post, parentComment: null }`. */
  function TopLevel(comments: seq<Comment>, post: Id): (r: seq<Comment>)
    ensures forall i :: 0 <= i < |r| ==> r[i] in comments && r[i].post == post && r[i].parentComment.None?
    ensures forall i :: 0 <= i < |comments| && IsTopLevelOf(post, comments[i]) ==> comments[i] in r
    ensures Increasing(comments, CommentTime) ==> Increasing(r, CommentTime)
  {
    assert Increasing(comments, CommentTime) ==> Increasing(Filter(comments, TopLevelMatcher(post)), CommentTime) by {
      if Increasing(comments, CommentTime) {
        FilterKeepsIncreasing(comments, TopLevelMatcher(post), CommentTime);
      }
    }
    Filter(comments, TopLevelMatcher(post))
  }

  /** A reply is never top-level, so the two relations split the comments. */
  lemma RepliesAreNotTopLevel(comments: seq<Comment>, c: Comment, post: Id)
    ensures forall i, j :: 0 <= i < |Replies(comments, c)| && 0 <= j < |TopLevel(comments, post)|
                           ==> Replies(comments, c)[i] != TopLevel(comments, post)[j]
  {
  }
}
