/** The request validator chains. Each chain reports every rule a field
    breaks, in order; `validate` answers 400 with the list when it is not
    empty. The `trim` sanitizer rewrites the body before the handler
    runs. `isEmail` is an uninterpreted predicate passed in. */
module Validators {
  import opened Collections
  import opened Text
  import opened Domain
  import opened CommentSchema
  import BlogController

  datatype FieldError = FieldError(field: string, message: string)

  /** A field express-validator reads: an absent one reads as empty. */
  function Read(v: Option<string>): string {
    if v.Some? then v.value else ""
  }

  /** `[a-zA-Z0-9_]` */
  predicate IsWordChar(c: char) {
    ('a' <= c <= 'z') || ('A' <= c <= 'Z') || ('0' <= c <= '9') || c == '_'
  }

  /** `[a-z0-9-]` */
  predicate IsSlugChar(c: char) {
    ('a' <= c <= 'z') || ('0' <= c <= '9') || c == '-'
  }

  predicate AllWordChars(s: string) {
    forall k :: 0 <= k < |s| ==> IsWordChar(s[k])
  }

  predicate AllSlugChars(s: string) {
    forall k :: 0 <= k < |s| ==> IsSlugChar(s[k])
  }

  /** The characters a regular expression's `.` does not match without the
      `s` flag: the ECMAScript line terminators. */
  predicate IsLineTerminator(c: char) {
    c == '\n' || c == '\r' || c == '\U{2028}' || c == '\U{2029}'
  }

  /** The text before the first line terminator: all that a lookahead
      `(?=.*X)` anchored at `^` can scan. */
  function FirstLine(s: string): (r: string)
    ensures |r| <= |s| && r == s[..|r|]
    ensures forall k :: 0 <= k < |r| ==> !IsLineTerminator(r[k])
    ensures |r| < |s| ==> IsLineTerminator(s[|r|])
  {
    if s == [] || IsLineTerminator(s[0]) then "" else [s[0]] + FirstLine(s[1..])
  }

  predicate HasLower(s: string) { exists k :: 0 <= k < |s| && 'a' <= s[k] <= 'z' }
  predicate HasUpper(s: string) { exists k :: 0 <= k < |s| && 'A' <= s[k] <= 'Z' }
  predicate HasDigit(s: string) { exists k :: 0 <= k < |s| && '0' <= s[k] <= '9' }

  /** One rule of a chain: its error when the rule fails. */
  function Rule(ok: bool, field: string, message: string): (r: seq<FieldError>)
    ensures r == [] <==> ok
  {
    if ok then [] else [FieldError(field, message)]
  }

  // ------------------------------------------------------------ register

  function UsernameErrors(username: string): (r: seq<FieldError>)
    ensures r == [] <==> 3 <= |Trim(username)| <= 30 && AllWordChars(Trim(username))
  {
    var t := Trim(username);
    Rule(3 <= |t| <= 30, "username", "Username must be between 3 and 30 characters")
    + Rule(t != "" && AllWordChars(t), "username", "Username can only contain letters, numbers, and underscores")
  }

  /** `/^(?=.*[a-z])(?=.*[A-Z])(?=.*\d)/`: the three classes must all
      occur before the first line break. */
  predicate PasswordClasses(password: string) {
    var line := FirstLine(password);
    HasLower(line) && HasUpper(line) && HasDigit(line)
  }

  /** The classes the first line holds, the whole password holds. */
  lemma PasswordClassesOccur(password: string)
    ensures PasswordClasses(password) ==> HasLower(password) && HasUpper(password) && HasDigit(password)
  {
    var line := FirstLine(password);
    if PasswordClasses(password) {
      var a :| 0 <= a < |line| && 'a' <= line[a] <= 'z';
      var b :| 0 <= b < |line| && 'A' <= line[b] <= 'Z';
      var c :| 0 <= c < |line| && '0' <= line[c] <= '9';
      assert password[a] == line[a] && password[b] == line[b] && password[c] == line[c];
    }
  }

  function PasswordErrors(password: string): (r: seq<FieldError>)
    ensures r == [] <==> |password| >= 6 && PasswordClasses(password)
    ensures r == [] ==> HasLower(password) && HasUpper(password) && HasDigit(password)
  {
    PasswordClassesOccur(password);
    Rule(|password| >= 6, "password", "Password must be at least 6 characters long")
    + Rule(PasswordClasses(password), "password",
           "Password must contain at least one uppercase letter, one lowercase letter, and one number")
  }

  /** The first line of a text with a line break is what precedes it. */
  lemma {:induction false} FirstLineBeforeBreak(first: string, rest: string)
    requires forall k :: 0 <= k < |first| ==> !IsLineTerminator(first[k])
    ensures FirstLine(first + "\n" + rest) == first
  {
    if first != [] {
      assert (first + "\n" + rest)[1..] == first[1..] + "\n" + rest;
      FirstLineBeforeBreak(first[1..], rest);
      assert [first[0]] + first[1..] == first;
    } else {
      assert first + "\n" + rest == "\n" + rest;
    }
  }

  /** A password whose first line has no upper-case letter is refused,
      whatever follows the line break: `abcdef\nABC123` holds all three
      classes and still fails the pattern. */
  lemma ClassesAfterLineBreakRefused(first: string, rest: string)
    requires forall k :: 0 <= k < |first| ==> !IsLineTerminator(first[k])
    requires !HasUpper(first)
    ensures PasswordErrors(first + "\n" + rest) != []
  {
    FirstLineBeforeBreak(first, rest);
  }

  function NameErrors(name: string): (r: seq<FieldError>)
    ensures r == [] <==> Trim(name) != "" && |Trim(name)| <= 100
  {
    var t := Trim(name);
    Rule(t != "", "name", "Name is required") + Rule(|t| <= 100, "name", "Name must not exceed 100 characters")
  }

  function EmailErrors(email: string, isEmail: string -> bool): (r: seq<FieldError>)
    ensures r == [] <==> isEmail(Trim(email))
  {
    Rule(isEmail(Trim(email)), "email", "Please provide a valid email")
  }

  /** `registerValidation`. */
  function RegisterErrors(username: Option<string>, name: Option<string>, email: Option<string>, password: Option<string>,
                          isEmail: string -> bool): (r: seq<FieldError>)
    ensures r == [] <==>
              && 3 <= |Trim(Read(username))| <= 30 && AllWordChars(Trim(Read(username)))
              && Trim(Read(name)) != "" && |Trim(Read(name))| <= 100
              && isEmail(Trim(Read(email)))
              && |Read(password)| >= 6 && PasswordClasses(Read(password))
  {
    UsernameErrors(Read(username)) + NameErrors(Read(name)) + EmailErrors(Read(email), isEmail) + PasswordErrors(Read(password))
  }

  /** A username padded with spaces is judged, and stored, trimmed. */
  lemma PaddedUsernameAccepted(u: string)
    requires 3 <= |u| <= 30 && AllWordChars(u)
    ensures UsernameErrors(" " + u) == []
  {
    WordCharNotWhite(u[0]);
    WordCharNotWhite(u[|u| - 1]);
    TrimOfTrimmed(u);
    TrimLeadingSpace(u);
    assert Trim(" " + u) == u;
  }

  lemma WordCharNotWhite(c: char)
    requires IsWordChar(c)
    ensures !IsWhite(c)
  {
  }

  /** `loginValidation`. */
  function LoginErrors(email: Option<string>, password: Option<string>, isEmail: string -> bool): (r: seq<FieldError>)
    ensures r == [] <==> isEmail(Trim(Read(email))) && Read(password) != ""
  {
    EmailErrors(Read(email), isEmail) + Rule(Read(password) != "", "password", "Password is required")
  }

  // ---------------------------------------------------------------- blogs

  /** The body after the `trim` sanitizers of the blog chains. */
  function SanitizedBlog(b: BlogController.BlogBody): BlogController.BlogBody {
    b.(title := if b.title.Some? then Some(Trim(b.title.value)) else None,
       content := if b.content.Some? then Some(Trim(b.content.value)) else None,
       excerpt := if b.excerpt.Some? then Some(Trim(b.excerpt.value)) else None)
  }

  function StatusErrors(status: Option<string>): (r: seq<FieldError>)
    ensures r == [] <==> status.None? || status.value == "draft" || status.value == "published"
  {
    Rule(status.None? || status.value == "draft" || status.value == "published", "status",
         "Status must be either draft or published")
  }

  function ExcerptErrors(excerpt: Option<string>): (r: seq<FieldError>)
    ensures r == [] <==> excerpt.None? || |Trim(excerpt.value)| <= 300
  {
    Rule(excerpt.None? || |Trim(excerpt.value)| <= 300, "excerpt", "Excerpt must not exceed 300 characters")
  }

  /** `createBlogValidation` (a `tags` value is always an array here). */
  function CreateBlogErrors(b: BlogController.BlogBody): (r: seq<FieldError>)
    ensures r == [] <==>
              && Trim(Read(b.title)) != "" && |Trim(Read(b.title))| <= 200
              && Trim(Read(b.content)) != "" && |Trim(Read(b.content))| >= 10
              && (b.excerpt.None? || |Trim(b.excerpt.value)| <= 300)
              && (b.status.None? || b.status.value == "draft" || b.status.value == "published")
  {
    TitleErrors(Trim(Read(b.title)))
    + ContentErrors(Trim(Read(b.content)))
    + ExcerptErrors(b.excerpt)
    + StatusErrors(b.status)
  }

  /** The title rules of `createBlogValidation`, on the trimmed title. */
  function TitleErrors(title: string): (r: seq<FieldError>)
    ensures r == [] <==> title != "" && |title| <= 200
  {
    Rule(title != "", "title", "Title is required")
    + Rule(|title| <= 200, "title", "Title must not exceed 200 characters")
  }

  /** The content rules of `createBlogValidation`, on the trimmed content. */
  function ContentErrors(content: string): (r: seq<FieldError>)
    ensures r == [] <==> content != "" && |content| >= 10
  {
    Rule(content != "", "content", "Content is required")
    + Rule(|content| >= 10, "content", "Content must be at least 10 characters long")
  }

  /** A body that passes `createBlogValidation` is one `createBlog`
      accepts, when its title and excerpt are BMP text: `isLength` counts
      characters, the schema's `maxlength` counts UTF-16 code units. */
  lemma CreateValidationSuffices(b: BlogController.BlogBody, author: Id)
    requires CreateBlogErrors(b) == []
    requires InBmp(Read(b.title)) && (b.excerpt.Some? ==> InBmp(b.excerpt.value))
    ensures BlogController.CreateFields(SanitizedBlog(b), author).Some?
  {
    var s := SanitizedBlog(b);
    TitleWithinSchema(b.title.value);
    ExcerptWithinSchema(b.excerpt, s.content.value);
    SchemaAccepts(s, author);
  }

  /** The schema's checks, met field by field, let `createBlog` build
      the post; an enum status value parses. */
  lemma SchemaAccepts(s: BlogController.BlogBody, author: Id)
    requires s.title.Some? && Trim(s.title.value) != "" && Utf16Length(Trim(s.title.value)) <= 200
    requires s.content.Some? && s.content.value != ""
    requires Utf16Length(BlogController.DefaultExcerpt(s.excerpt, s.content.value)) <= 300
    requires s.status.None? || s.status.value == "draft" || s.status.value == "published"
    ensures BlogController.CreateFields(s, author).Some?
  {
    StatusRoundTrip(Draft);
    StatusRoundTrip(Published);
  }

  /** A BMP title within the 200-character rule is within the schema's
      200 code units once trimmed, and trimming it again changes nothing. */
  lemma TitleWithinSchema(title: string)
    requires InBmp(title) && |Trim(title)| <= 200
    ensures Trim(Trim(title)) == Trim(title) && Utf16Length(Trim(title)) <= 200
  {
    TrimIdempotent(title);
    TrimKeepsBmp(title);
    BmpLength(Trim(title));
  }

  /** A trimmed BMP excerpt within the 300-character rule, or the default
      taken from the content, is within the schema's 300 code units. */
  lemma ExcerptWithinSchema(excerpt: Option<string>, content: string)
    requires excerpt.Some? ==> InBmp(excerpt.value) && |Trim(excerpt.value)| <= 300
    ensures Utf16Length(BlogController.DefaultExcerpt(if excerpt.Some? then Some(Trim(excerpt.value)) else None, content)) <= 300
  {
    if excerpt.Some? {
      TrimKeepsBmp(excerpt.value);
      BmpLength(Trim(excerpt.value));
    }
  }

  /** A title of 101 to 200 characters outside the BMP (emoji, say)
      passes the 200-character rule but is over 200 UTF-16 code units,
      the schema's `maxlength`: `createBlog` then fails with 500 instead
      of answering 400. */
  lemma AstralTitlePassesValidationOnly(e: char, n: nat, content: string, author: Id)
    requires e as int >= 0x10000 && !IsWhite(e) && 100 < n <= 200
    requires |Trim(content)| >= 10
    ensures CreateBlogErrors(BlogController.BlogBody(Some(seq(n, _ => e)), Some(content), None, None, None, None)) == []
    ensures BlogController.CreateFields(
              SanitizedBlog(BlogController.BlogBody(Some(seq(n, _ => e)), Some(content), None, None, None, None)), author).None?
  {
    RunTrimmed(e, n);
    AstralRunLength(e, n);
    OverlongTitlePassesValidationOnly(seq(n, _ => e), content);
    OverlongTitleRefusedBySchema(seq(n, _ => e), content, author);
  }

  lemma OverlongTitlePassesValidationOnly(t: string, content: string)
    requires Trim(t) == t && t != "" && |t| <= 200
    requires |Trim(content)| >= 10
    ensures CreateBlogErrors(BlogController.BlogBody(Some(t), Some(content), None, None, None, None)) == []
  {
    var b := BlogController.BlogBody(Some(t), Some(content), None, None, None, None);
    assert Read(b.title) == t && Read(b.content) == content;
  }

  lemma OverlongTitleRefusedBySchema(t: string, content: string, author: Id)
    requires Trim(t) == t && Utf16Length(t) > 200
    ensures BlogController.CreateFields(SanitizedBlog(BlogController.BlogBody(Some(t), Some(content), None, None, None, None)), author).None?
  {
    assert SanitizedBlog(BlogController.BlogBody(Some(t), Some(content), None, None, None, None)).title == Some(t);
  }

  /** A run of one non-white character is its own trim. */
  lemma RunTrimmed(c: char, n: nat)
    requires n > 0 && !IsWhite(c)
    ensures Trim(seq(n, _ => c)) == seq(n, _ => c)
  {
    var s := seq(n, _ => c);
    assert s[0] == c && s[n - 1] == c;
    TrimOfTrimmed(s);
  }

  /** `updateBlogValidation`: every rule is optional. */
  function UpdateBlogErrors(b: BlogController.BlogBody): (r: seq<FieldError>)
    ensures r == [] <==>
              && (b.title.None? || |Trim(b.title.value)| <= 200)
              && (b.content.None? || |Trim(b.content.value)| >= 10)
              && (b.excerpt.None? || |Trim(b.excerpt.value)| <= 300)
              && (b.status.None? || b.status.value == "draft" || b.status.value == "published")
  {
    Rule(b.title.None? || |Trim(b.title.value)| <= 200, "title", "Title must not exceed 200 characters")
    + Rule(b.content.None? || |Trim(b.content.value)| >= 10, "content", "Content must be at least 10 characters long")
    + ExcerptErrors(b.excerpt)
    + StatusErrors(b.status)
  }

  /** A body that passes `updateBlogValidation` is one `updateBlog`
      accepts, as long as any title sent is not blank and the title and
      excerpt are BMP text. */
  lemma UpdateValidationSuffices(b: BlogController.BlogBody)
    requires UpdateBlogErrors(b) == []
    requires b.title.Some? ==> Trim(b.title.value) != ""
    requires (b.title.Some? ==> InBmp(b.title.value)) && (b.excerpt.Some? ==> InBmp(b.excerpt.value))
    ensures BlogController.PatchValid(SanitizedBlog(b))
  {
    if b.title.Some? {
      TrimIdempotent(b.title.value);
      TrimKeepsBmp(b.title.value);
      BmpLength(Trim(b.title.value));
    }
    if b.excerpt.Some? {
      TrimKeepsBmp(b.excerpt.value);
      BmpLength(Trim(b.excerpt.value));
    }
    assert b.status.Some? ==> ParseStatus(b.status.value).Some? by {
      if b.status.Some? {
        StatusRoundTrip(Draft);
        StatusRoundTrip(Published);
      }
    }
  }

  /** The update chain has no `notEmpty` on the title: a blank title
      passes validation and is refused only by the schema, with 500. */
  lemma BlankTitleSlipsThroughUpdate()
    ensures UpdateBlogErrors(BlogController.BlogBody(Some(" "), None, None, None, None, None)) == []
    ensures !BlogController.PatchValid(SanitizedBlog(BlogController.BlogBody(Some(" "), None, None, None, None, None)))
  {
    assert IsWhite(' ');
    TrimOfWhite(" ");
  }

  // ------------------------------------------------------------- comments

  /** `createCommentValidation`, or `updateCommentValidation` when no
      parent is sent (a parent is checked only when present). */
  function CommentErrors(content: Option<string>, parent: Option<string>): (r: seq<FieldError>)
    ensures r == [] <==>
              Trim(Read(content)) != "" && |Trim(Read(content))| <= 1000
              && (parent.None? || IsMongoIdText(parent.value))
  {
    var t := Trim(Read(content));
    Rule(t != "", "content", "Comment content is required")
    + Rule(1 <= |t| <= 1000, "content", "Comment must be between 1 and 1000 characters")
    + Rule(parent.None? || IsMongoIdText(parent.value), "parentComment", "Invalid parent comment ID")
  }

  /** BMP content that passes the comment chain is content the schema
      stores. */
  lemma CommentValidationSuffices(content: Option<string>, parent: Option<string>)
    requires CommentErrors(content, parent) == []
    requires InBmp(Read(content))
    ensures CastContent(Trim(Read(content))) == Some(Trim(Read(content)))
  {
    TrimIdempotent(Read(content));
    TrimKeepsBmp(Read(content));
    BmpLength(Trim(Read(content)));
  }

  /** 501 to 1000 characters outside the BMP pass the comment chain's
      1000-character rule but are over 1000 UTF-16 code units, the
      schema's `maxlength`: the insert fails and the handler answers 500
      instead of 400. */
  lemma AstralCommentPassesValidationOnly(e: char, n: nat)
    requires e as int >= 0x10000 && !IsWhite(e) && 500 < n <= 1000
    ensures CommentErrors(Some(seq(n, _ => e)), None) == []
    ensures CastContent(Trim(seq(n, _ => e))).None?
  {
    RunTrimmed(e, n);
    AstralRunLength(e, n);
  }

  /** A comment of white space only is refused. */
  lemma WhiteCommentRefused(content: string)
    requires forall k :: 0 <= k < |content| ==> IsWhite(content[k])
    ensures CommentErrors(Some(content), None) != []
  {
    TrimOfWhite(content);
  }

  // ------------------------------------------------------------- ids, pages

  /** The `isMongoId` check of the validator library: `isHexadecimal`,
      which allows a `0x` or `0h` prefix in either case, on exactly 24
      characters. */
  predicate IsMongoIdText(s: string) {
    && |s| == 24
    && (IsObjectIdText(s)
        || (s[0] == '0' && s[1] in "xXhH" && forall k :: 2 <= k < |s| ==> IsHexDigit(s[k])))
  }

  /** Every 24-hex-digit id passes `isMongoId`; an id passing it is 24
      hex digits unless it starts with the `0x` or `0h` prefix. */
  lemma MongoIdExtendsObjectId(s: string)
    ensures IsObjectIdText(s) ==> IsMongoIdText(s)
    ensures IsMongoIdText(s) && !(s[0] == '0' && s[1] in "xXhH") ==> IsObjectIdText(s)
  {
  }

  /** `mongoIdValidation`. */
  function MongoIdErrors(id: string): (r: seq<FieldError>)
    ensures r == [] <==> IsMongoIdText(id)
  {
    Rule(IsMongoIdText(id), "id", "Invalid ID format")
  }

  /** `0x` followed by 22 hex digits passes `mongoIdValidation` and the
      parent check of `createCommentValidation`, yet it is not ObjectId
      text: the handler's cast throws and it answers 500 instead of 400. */
  lemma PrefixedIdPassesValidationOnly(digits: string, content: Option<string>)
    requires |digits| == 22 && forall k :: 0 <= k < |digits| ==> IsHexDigit(digits[k])
    ensures MongoIdErrors("0x" + digits) == []
    ensures CommentErrors(content, Some("0x" + digits)) == CommentErrors(content, None)
    ensures !IsObjectIdText("0x" + digits)
  {
    var id := "0x" + digits;
    assert id[1] == 'x' && !IsHexDigit(id[1]);
    assert forall k :: 2 <= k < |id| ==> id[k] == digits[k - 2];
  }

  /** `idOrSlugValidation`: 24 hex digits, or a non-empty run of
      lower-case letters, digits and hyphens. */
  function IdOrSlugErrors(v: string): (r: seq<FieldError>)
    ensures r == [] <==> IsObjectIdText(v) || (v != "" && AllSlugChars(v))
  {
    Rule(IsObjectIdText(v) || (v != "" && AllSlugChars(v)), "id", "Invalid ID or slug format")
  }

  /** An upper-case slug is refused before the handler sees it. */
  lemma UpperCaseSlugRefused(v: string)
    requires exists k :: 0 <= k < |v| && 'A' <= v[k] <= 'Z'
    requires exists k :: 0 <= k < |v| && 'g' <= v[k] <= 'z'
    ensures IdOrSlugErrors(v) != []
  {
    var k :| 0 <= k < |v| && 'A' <= v[k] <= 'Z';
    var j :| 0 <= j < |v| && 'g' <= v[j] <= 'z';
    assert !IsSlugChar(v[k]);
    assert !IsHexDigit(v[j]);
  }

  predicate IsDigit(c: char) { '0' <= c <= '9' }

  /** The value of a run of decimal digits. */
  function DigitsValue(s: string): (n: nat)
    requires forall k :: 0 <= k < |s| ==> IsDigit(s[k])
  {
    if s == [] then 0
    else
      var d := s[|s| - 1] as int - '0' as int;
      assert 0 <= d by {
        assert IsDigit(s[|s| - 1]);
      }
      DigitsValue(s[..|s| - 1]) * 10 + d
  }

  /** `isInt`: an optional sign and at least one digit. */
  predicate IsIntText(s: string) {
    if s != [] && (s[0] == '+' || s[0] == '-') then
      |s| >= 2 && forall k :: 1 <= k < |s| ==> IsDigit(s[k])
    else
      s != [] && forall k :: 0 <= k < |s| ==> IsDigit(s[k])
  }

  function IntValue(s: string): int
    requires IsIntText(s)
  {
    if s[0] == '-' then -(DigitsValue(s[1..]) as int)
    else if s[0] == '+' then DigitsValue(s[1..])
    else DigitsValue(s)
  }

  /** `paginationValidation`: each parameter is checked only when sent. */
  function PaginationErrors(page: Option<string>, limit: Option<string>): (r: seq<FieldError>)
    ensures r == [] <==>
              (page.None? || (IsIntText(page.value) && IntValue(page.value) >= 1))
              && (limit.None? || (IsIntText(limit.value) && 1 <= IntValue(limit.value) <= 100))
  {
    Rule(page.None? || (IsIntText(page.value) && IntValue(page.value) >= 1), "page", "Page must be a positive integer")
    + Rule(limit.None? || (IsIntText(limit.value) && 1 <= IntValue(limit.value) <= 100), "limit",
           "Limit must be between 1 and 100")
  }

  datatype Outcome = Proceed | Rejected(status: nat, message: string, errors: seq<FieldError>)

  /** `validate`: the handler runs only when no rule failed. */
  function Validate(errors: seq<FieldError>): (r: Outcome)
    ensures r == Proceed <==> errors == []
    ensures r != Proceed ==> r == Rejected(400, "Validation failed", errors)
  {
    if errors == [] then Proceed else Rejected(400, "Validation failed", errors)
  }
}
