/** The client's pure helpers: the comma-separated tag field of the
    create and edit forms, the data those forms submit and load, and the
    socket context's bounded list of notifications. */
module ClientForms {
  import opened Collections
  import opened Text

  /** `.filter(tag => tag)`: the empty string is the only falsy string. */
  function NonEmptyTag(): string -> bool {
    (t: string) => t != ""
  }

  /** `tags.split(',').map(tag => tag.trim()).filter(tag => tag)`. */
  function ParseTags(s: string): seq<string> {
    Filter(MapSeq(Split(s, ','), Trim), NonEmptyTag())
  }

  /** A tag the parser can hand back: non-empty, its own trim, comma-free. */
  predicate CleanTag(t: string) {
    t != "" && Trim(t) == t && ',' !in t
  }

  /** `tags.join(', ')`. */
  function JoinTags(tags: seq<string>): string {
    JoinWith(tags, ", ")
  }

  /** Every parsed tag is non-empty, trimmed and free of commas. */
  lemma ParsedTagsAreClean(s: string)
    ensures forall i :: 0 <= i < |ParseTags(s)| ==> CleanTag(ParseTags(s)[i])
  {
    var pieces := Split(s, ',');
    var trimmed := MapSeq(pieces, Trim);
    forall i | 0 <= i < |trimmed|
      ensures Trim(trimmed[i]) == trimmed[i] && ',' !in trimmed[i]
    {
      TrimIdempotent(pieces[i]);
      assert ',' !in pieces[i];
      assert forall k :: 0 <= k < |trimmed[i]| ==> trimmed[i][k] in pieces[i];
    }
  }

  /** Input made only of commas and white space (the empty input among
      them) gives no tags. */
  lemma BlankInputHasNoTags(s: string)
    requires forall k :: 0 <= k < |s| ==> s[k] == ',' || IsWhite(s[k])
    ensures ParseTags(s) == []
  {
    var pieces := Split(s, ',');
    var trimmed := MapSeq(pieces, Trim);
    forall i | 0 <= i < |trimmed| ensures trimmed[i] == "" {
      forall k | 0 <= k < |pieces[i]| ensures IsWhite(pieces[i][k]) {
        assert pieces[i][k] in s && pieces[i][k] != ',';
      }
      TrimOfWhite(pieces[i]);
    }
    FilterNone(trimmed, NonEmptyTag());
  }

  lemma {:induction false} MapSeqConcat<T, U>(a: seq<T>, b: seq<T>, f: T -> U)
    ensures MapSeq(a + b, f) == MapSeq(a, f) + MapSeq(b, f)
  {
    assert |MapSeq(a + b, f)| == |MapSeq(a, f) + MapSeq(b, f)|;
    forall i | 0 <= i < |a + b| ensures MapSeq(a + b, f)[i] == (MapSeq(a, f) + MapSeq(b, f))[i] {
      if i < |a| {
        assert (a + b)[i] == a[i];
      } else {
        assert (a + b)[i] == b[i - |a|];
      }
    }
  }

  /** Tags keep their input order: the text before a comma contributes
      its tags ahead of the text after it. */
  lemma ParseAcrossComma(a: string, b: string)
    ensures ParseTags(a + "," + b) == ParseTags(a) + ParseTags(b)
  {
    assert a + "," + b == a + [','] + b;
    SplitConcat(a, b, ',');
    MapSeqConcat(Split(a, ','), Split(b, ','), Trim);
    FilterConcat(MapSeq(Split(a, ','), Trim), MapSeq(Split(b, ','), Trim), NonEmptyTag());
  }

  /** The space that `join(', ')` puts after each comma is trimmed away. */
  lemma ParseIgnoresLeadingSpace(s: string)
    ensures ParseTags(" " + s) == ParseTags(s)
  {
    var p := Split(s, ',');
    assert (" " + s)[1..] == s;
    assert Split(" " + s, ',') == [" " + p[0]] + p[1..];
    TrimLeadingSpace(p[0]);
    assert MapSeq(Split(" " + s, ','), Trim) == MapSeq(p, Trim);
  }

  /** A clean tag on its own parses to itself. */
  lemma ParseSingle(t: string)
    requires CleanTag(t)
    ensures ParseTags(t) == [t]
  {
    SplitNoSeparator(t, ',');
    assert MapSeq([t], Trim) == [t];
  }

  lemma JoinTagsCons(tags: seq<string>)
    requires |tags| >= 2
    ensures JoinTags(tags) == tags[0] + "," + (" " + JoinTags(tags[1..]))
  {
  }

  /** Joining clean tags and parsing the result gives them back. */
  lemma {:induction false} CleanTagsRoundTrip(tags: seq<string>)
    requires forall i :: 0 <= i < |tags| ==> CleanTag(tags[i])
    ensures ParseTags(JoinTags(tags)) == tags
  {
    if |tags| == 0 {
      assert Split("", ',') == [""];
    } else if |tags| == 1 {
      ParseSingle(tags[0]);
    } else {
      var rest := JoinTags(tags[1..]);
      JoinTagsCons(tags);
      ParseAcrossComma(tags[0], " " + rest);
      ParseIgnoresLeadingSpace(rest);
      CleanTagsRoundTrip(tags[1..]);
      ParseSingle(tags[0]);
      assert [tags[0]] + tags[1..] == tags;
    }
  }

  /** The round trip holds for exactly the lists of clean tags. */
  lemma RoundTripExactlyForCleanTags(tags: seq<string>)
    ensures ParseTags(JoinTags(tags)) == tags <==> forall i :: 0 <= i < |tags| ==> CleanTag(tags[i])
  {
    if forall i :: 0 <= i < |tags| ==> CleanTag(tags[i]) {
      CleanTagsRoundTrip(tags);
    } else {
      ParsedTagsAreClean(JoinTags(tags));
    }
  }

  /** The create and edit forms: every field is the text of its input. */
  datatype BlogForm = BlogForm(
    title: string,
    excerpt: string,
    content: string,
    coverImage: string,
    tags: string,
    status: string)

  /** The body sent to the server: the form with the tag text parsed. */
  datatype BlogData = BlogData(
    title: string,
    excerpt: string,
    content: string,
    coverImage: string,
    tags: seq<string>,
    status: string)

  /** A fresh form: every field empty, except a status of draft. */
  function InitialForm(): (f: BlogForm)
    ensures f.status == "draft"
    ensures f.title == "" && f.excerpt == "" && f.content == "" && f.coverImage == "" && f.tags == ""
  {
    BlogForm("", "", "", "", "", "draft")
  }

  /** `handleSubmit` of both forms: `{...formData, tags: parsed}`. */
  function Submitted(f: BlogForm): (d: BlogData)
    ensures d.tags == ParseTags(f.tags)
    ensures forall i :: 0 <= i < |d.tags| ==> CleanTag(d.tags[i])
    ensures d.title == f.title && d.excerpt == f.excerpt && d.content == f.content
    ensures d.coverImage == f.coverImage && d.status == f.status
  {
    ParsedTagsAreClean(f.tags);
    BlogData(f.title, f.excerpt, f.content, f.coverImage, ParseTags(f.tags), f.status)
  }

  /** The post as the edit page fetches it; the optional fields may be
      missing from the payload. */
  datatype FetchedBlog = FetchedBlog(
    title: string,
    excerpt: Option<string>,
    content: string,
    coverImage: Option<string>,
    tags: Option<seq<string>>,
    status: string)

  /** `o || ''` for an optional string. */
  function OrEmpty(o: Option<string>): (r: string)
    ensures o.Some? ==> r == o.value
    ensures o.None? ==> r == ""
  {
    if o.Some? then o.value else ""
  }

  /** `fetchBlog`: the form filled from the post, tags joined with ", ". */
  function LoadForm(b: FetchedBlog): (f: BlogForm)
    ensures f.title == b.title && f.content == b.content && f.status == b.status
    ensures f.excerpt == OrEmpty(b.excerpt) && f.coverImage == OrEmpty(b.coverImage)
    ensures b.tags.None? ==> f.tags == ""
    ensures b.tags.Some? ==> f.tags == JoinTags(b.tags.value)
  {
    BlogForm(b.title, OrEmpty(b.excerpt), b.content, OrEmpty(b.coverImage),
             if b.tags.Some? then JoinTags(b.tags.value) else "", b.status)
  }

  /** Saving the edit form untouched sends back the post's own fields and
      tags, as long as those tags are clean. */
  lemma UnchangedEditKeepsPost(b: FetchedBlog)
    requires b.tags.Some? ==> forall i :: 0 <= i < |b.tags.value| ==> CleanTag(b.tags.value[i])
    ensures var d := Submitted(LoadForm(b));
            && d.title == b.title && d.content == b.content && d.status == b.status
            && d.excerpt == OrEmpty(b.excerpt) && d.coverImage == OrEmpty(b.coverImage)
            && d.tags == (if b.tags.Some? then b.tags.value else [])
  {
    if b.tags.Some? {
      CleanTagsRoundTrip(b.tags.value);
    } else {
      assert Split("", ',') == [""];
    }
  }

  /** Saving a form twice over its own output does not change the tags:
      parsing the joined parsed tags gives the parsed tags. */
  lemma ReparseIsStable(s: string)
    ensures ParseTags(JoinTags(ParseTags(s))) == ParseTags(s)
  {
    ParsedTagsAreClean(s);
    CleanTagsRoundTrip(ParseTags(s));
  }

  /** The size of the notification list. */
  const MaxNotifications: nat := 50

  /** `addNotification`: `[notification, ...prev].slice(0, 50)`; the new
      one goes first, the others move down one place, and only the
      oldest beyond 50 is lost. */
  function AddNotification<T>(prev: seq<T>, n: T): (r: seq<T>)
    ensures |r| == Min(|prev| + 1, MaxNotifications)
    ensures r[0] == n
    ensures forall i :: 0 <= i < |r| - 1 ==> r[i + 1] == prev[i]
  {
    ([n] + prev)[..Min(|prev| + 1, MaxNotifications)]
  }

  /** `clearNotifications`. */
  function ClearNotifications<T>(prev: seq<T>): (r: seq<T>)
    ensures |r| == 0
  {
    []
  }

  /** The list after notifications arrive one by one, from `prev`. */
  function Received<T>(prev: seq<T>, ns: seq<T>): seq<T>
    decreases |ns|
  {
    if ns == [] then prev else Received(AddNotification(prev, ns[0]), ns[1..])
  }

  /** From an empty list, the list holds the 50 latest notifications,
      newest first. */
  lemma {:induction false} ReceivedIsNewestFifty<T>(ns: seq<T>)
    ensures Received([], ns) == Reverse(ns)[..Min(|ns|, MaxNotifications)]
  {
    ReceivedFrom([], ns);
    assert Reverse(ns) + [] == Reverse(ns);
  }

  lemma {:induction false} ReceivedFrom<T>(prev: seq<T>, ns: seq<T>)
    requires |prev| <= MaxNotifications
    ensures Received(prev, ns) == (Reverse(ns) + prev)[..Min(|ns| + |prev|, MaxNotifications)]
    decreases |ns|
  {
    if ns != [] {
      var next := AddNotification(prev, ns[0]);
      ReceivedFrom(next, ns[1..]);
      var m := Min(|ns| + |prev|, MaxNotifications);
      var lhs := (Reverse(ns[1..]) + next)[..Min(|ns| - 1 + |next|, MaxNotifications)];
      var rhs := (Reverse(ns) + prev)[..m];
      assert |lhs| == m;
      forall i | 0 <= i < m ensures lhs[i] == rhs[i] {
        var k := |ns| - 1;
        if i < k {
          assert lhs[i] == Reverse(ns[1..])[i] == ns[1..][k - 1 - i];
          assert rhs[i] == Reverse(ns)[i] == ns[k - i];
        } else if i == k {
          assert lhs[i] == next[0];
          assert rhs[i] == Reverse(ns)[k] == ns[0];
        } else {
          assert lhs[i] == next[i - k];
          assert rhs[i] == prev[i - k - 1];
        }
      }
    }
  }

  /** A message the client sends over its socket. */
  datatype Outgoing = Outgoing(event: string, payload: string)

  /** `joinBlogRoom`: a `join-blog` message when a socket exists, and
      nothing otherwise. */
  function JoinBlogRoom(hasSocket: bool, blogId: string): (sent: seq<Outgoing>)
    ensures !hasSocket ==> sent == []
    ensures hasSocket ==> sent == [Outgoing("join-blog", blogId)]
  {
    if hasSocket then [Outgoing("join-blog", blogId)] else []
  }

  /** `leaveBlogRoom`: a `leave-blog` message when a socket exists, and
      nothing otherwise. */
  function LeaveBlogRoom(hasSocket: bool, blogId: string): (sent: seq<Outgoing>)
    ensures !hasSocket ==> sent == []
    ensures hasSocket ==> sent == [Outgoing("leave-blog", blogId)]
  {
    if hasSocket then [Outgoing("leave-blog", blogId)] else []
  }
}
