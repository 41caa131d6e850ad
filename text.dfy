/** String helpers with JavaScript's meaning: `trim`, `includes`,
    `split` on one character, `join`, decimal and hexadecimal rendering. */
module Text {

  /** The characters `String.prototype.trim` removes: the WhiteSpace and
      LineTerminator code points of ECMAScript. */
  predicate IsWhite(c: char) {
    c == ' ' || c == '\t' || c == '\n' || c == '\r' || c == '\U{000B}' || c == '\U{000C}'
    || c == '\U{00A0}' || c == '\U{1680}' || ('\U{2000}' <= c <= '\U{200A}')
    || c == '\U{2028}' || c == '\U{2029}' || c == '\U{202F}' || c == '\U{205F}'
    || c == '\U{3000}' || c == '\U{FEFF}'
  }

  /** Drops the leading white space, and only that. */
  function TrimStart(s: string): (r: string)
    ensures |r| <= |s| && r == s[|s| - |r|..]
    ensures forall k :: 0 <= k < |s| - |r| ==> IsWhite(s[k])
    ensures r == [] || !IsWhite(r[0])
  {
    if s != [] && IsWhite(s[0]) then TrimStart(s[1..]) else s
  }

  /** Drops the trailing white space, and only that. */
  function TrimEnd(s: string): (r: string)
    ensures |r| <= |s| && r == s[..|r|]
    ensures forall k :: |r| <= k < |s| ==> IsWhite(s[k])
    ensures r == [] || !IsWhite(r[|r| - 1])
  {
    if s != [] && IsWhite(s[|s| - 1]) then TrimEnd(s[..|s| - 1]) else s
  }

  /** `s.trim()`: neither end of the result is white space, and every
      character of the result comes from `s`. */
  function Trim(s: string): (r: string)
    ensures |r| <= |s|
    ensures r == [] || (!IsWhite(r[0]) && !IsWhite(r[|r| - 1]))
    ensures forall k :: 0 <= k < |r| ==> r[k] in s
  {
    var a := TrimStart(s);
    var r := TrimEnd(a);
    assert r == s[|s| - |a|..][..|r|];
    r
  }

  /** A string with no white space at either end is its own trim. */
  lemma TrimOfTrimmed(t: string)
    requires t == [] || (!IsWhite(t[0]) && !IsWhite(t[|t| - 1]))
    ensures Trim(t) == t
  {
  }

  lemma TrimIdempotent(s: string)
    ensures Trim(Trim(s)) == Trim(s)
  {
    TrimOfTrimmed(Trim(s));
  }

  /** A white-space-only string trims to the empty string. */
  lemma TrimOfWhite(s: string)
    requires forall k :: 0 <= k < |s| ==> IsWhite(s[k])
    ensures Trim(s) == ""
  {
  }

  /** One more leading space does not change the trim. */
  lemma TrimLeadingSpace(t: string)
    ensures Trim(" " + t) == Trim(t)
  {
    assert (" " + t)[1..] == t;
    assert TrimStart(" " + t) == TrimStart(t);
  }

  /** The UTF-16 code units of a character: two for one outside the
      Basic Multilingual Plane (a surrogate pair), one otherwise. */
  function Utf16Units(c: char): (n: nat)
    ensures n == 1 || n == 2
  {
    if c as int >= 0x10000 then 2 else 1
  }

  /** Every character of `s` is one UTF-16 code unit. */
  predicate InBmp(s: string) {
    forall k :: 0 <= k < |s| ==> s[k] as int < 0x10000
  }

  /** JavaScript's `s.length`, which Mongoose's `maxlength` compares:
      UTF-16 code units, not characters. */
  function Utf16Length(s: string): (n: nat)
    ensures |s| <= n <= 2 * |s|
  {
    if s == [] then 0 else Utf16Units(s[0]) + Utf16Length(s[1..])
  }

  /** In the BMP, code units and characters agree. */
  lemma {:induction false} BmpLength(s: string)
    requires InBmp(s)
    ensures Utf16Length(s) == |s|
  {
    if s != [] {
      BmpLength(s[1..]);
    }
  }

  /** `s.substring(0, n)`, as stored: every character whose code units
      all lie among the first `n`. A surrogate pair cut in half leaves a
      lone surrogate, which the database driver's UTF-8 encoding writes
      as U+FFFD. */
  function Utf16Prefix(s: string, n: nat): (r: string)
    ensures Utf16Length(r) <= n
    ensures Utf16Length(s) <= n ==> r == s
    ensures InBmp(s) ==> r == if n <= |s| then s[..n] else s
  {
    assert InBmp(s) ==> Utf16Length(s) == |s| by {
      if InBmp(s) {
        BmpLength(s);
      }
    }
    if s == [] || n == 0 then ""
    else if Utf16Units(s[0]) <= n then [s[0]] + Utf16Prefix(s[1..], n - Utf16Units(s[0]))
    else "\U{FFFD}"
  }

  /** Trimming keeps a BMP text in the BMP. */
  lemma TrimKeepsBmp(s: string)
    requires InBmp(s)
    ensures InBmp(Trim(s))
  {
    var t := Trim(s);
    forall k | 0 <= k < |t| ensures t[k] as int < 0x10000 {
      assert t[k] in s;
      var j :| 0 <= j < |s| && s[j] == t[k];
    }
  }

  /** `n` copies of a character outside the BMP are `2 * n` code units. */
  lemma {:induction false} AstralRunLength(c: char, n: nat)
    requires c as int >= 0x10000
    ensures Utf16Length(seq(n, _ => c)) == 2 * n
  {
    if n > 0 {
      var s := seq(n, _ => c);
      assert s[1..] == seq(n - 1, _ => c);
      AstralRunLength(c, n - 1);
    }
  }

  /** `p` occurs in `s` starting at index `i`. */
  predicate OccursAt(s: string, p: string, i: nat) {
    i + |p| <= |s| && s[i..i + |p|] == p
  }

  /** `s.includes(p)`. */
  predicate Includes(s: string, p: string) {
    exists i: nat | i <= |s| :: OccursAt(s, p, i)
  }

  lemma IncludesPrefix(p: string, rest: string)
    ensures Includes(p + rest, p)
  {
    assert OccursAt(p + rest, p, 0) by {
      assert (p + rest)[0..|p|] == p;
    }
  }

  /** A string shorter than the pattern cannot include it. */
  lemma ShorterExcludes(s: string, p: string)
    requires |s| < |p|
    ensures !Includes(s, p)
  {
  }

  /** `s.split(d)` for a one-character separator `d`. */
  function Split(s: string, d: char): (r: seq<string>)
    ensures |r| >= 1
    ensures forall i :: 0 <= i < |r| ==> d !in r[i]
    ensures forall i, k :: 0 <= i < |r| && 0 <= k < |r[i]| ==> r[i][k] in s
  {
    if s == [] then [""]
    else
      var rest := Split(s[1..], d);
      if s[0] == d then [""] + rest
      else
        assert forall k :: 0 <= k < |rest[0]| ==> rest[0][k] in s[1..];
        [[s[0]] + rest[0]] + rest[1..]
  }

  /** Without a separator there is a single piece. */
  lemma {:induction false} SplitNoSeparator(t: string, d: char)
    requires d !in t
    ensures Split(t, d) == [t]
  {
    if t != [] {
      SplitNoSeparator(t[1..], d);
      assert [t[0]] + t[1..] == t;
    }
  }

  /** Splitting at one separator splits each side separately. */
  lemma {:induction false} SplitConcat(a: string, b: string, d: char)
    ensures Split(a + [d] + b, d) == Split(a, d) + Split(b, d)
  {
    if a == [] {
      assert a + [d] + b == [d] + b;
      assert ([d] + b)[1..] == b;
    } else {
      var s := a + [d] + b;
      assert s[0] == a[0];
      assert s[1..] == a[1..] + [d] + b;
      SplitConcat(a[1..], b, d);
    }
  }

  /** `ts.join(sep)`. */
  function JoinWith(ts: seq<string>, sep: string): string {
    if |ts| == 0 then ""
    else if |ts| == 1 then ts[0]
    else ts[0] + sep + JoinWith(ts[1..], sep)
  }

  function DecimalDigit(d: nat): (c: char)
    requires d < 10
    ensures '0' <= c <= '9'
  {
    "0123456789"[d]
  }

  /** `String(n)` for a non-negative integer. */
  function NatToString(n: nat): (r: string)
    ensures r != []
    ensures forall k :: 0 <= k < |r| ==> '0' <= r[k] <= '9'
  {
    if n < 10 then [DecimalDigit(n)] else NatToString(n / 10) + [DecimalDigit(n % 10)]
  }

  predicate IsHexDigit(c: char) {
    '0' <= c <= '9' || 'a' <= c <= 'f' || 'A' <= c <= 'F'
  }

  predicate IsLowerHexDigit(c: char) {
    '0' <= c <= '9' || 'a' <= c <= 'f'
  }

  /** The regular expression `/^[0-9a-fA-F]{24}$/`: the text of a MongoDB
      ObjectId. */
  predicate IsObjectIdText(s: string) {
    |s| == 24 && forall k :: 0 <= k < |s| ==> IsHexDigit(s[k])
  }

  function HexDigit(d: nat): (c: char)
    requires d < 16
    ensures IsLowerHexDigit(c)
  {
    "0123456789abcdef"[d]
  }

  /** The low `width` hexadecimal digits of `n`, most significant first. */
  function HexDigits(n: nat, width: nat): (r: string)
    ensures |r| == width
    ensures forall k :: 0 <= k < |r| ==> IsLowerHexDigit(r[k])
  {
    if width == 0 then "" else HexDigits(n / 16, width - 1) + [HexDigit(n % 16)]
  }

  /** The 24 lowercase hex digits an ObjectId is printed as. */
  function Hex24(n: nat): (r: string)
    ensures IsObjectIdText(r)
    ensures forall k :: 0 <= k < |r| ==> IsLowerHexDigit(r[k])
  {
    HexDigits(n, 24)
  }

  function LowerChar(c: char): char {
    if 'A' <= c <= 'Z' then (c as int + 32) as char else c
  }

  /** ASCII lower-casing: how a hex ObjectId text compares once cast. */
  function Lower(s: string): (r: string)
    ensures |r| == |s|
    ensures forall k :: 0 <= k < |s| ==> r[k] == LowerChar(s[k])
  {
    if s == [] then [] else [LowerChar(s[0])] + Lower(s[1..])
  }

  /** Lower-casing twice is lower-casing once. */
  lemma LowerIdempotent(s: string)
    ensures Lower(Lower(s)) == Lower(s)
  {
    assert forall k :: 0 <= k < |s| ==> Lower(Lower(s))[k] == Lower(s)[k];
  }

  /** Lower-casing neither makes nor breaks ObjectId text. */
  lemma LowerKeepsObjectIdText(s: string)
    ensures IsObjectIdText(Lower(s)) <==> IsObjectIdText(s)
  {
    assert forall k :: 0 <= k < |s| ==> (IsHexDigit(Lower(s)[k]) <==> IsHexDigit(s[k]));
  }

  lemma {:induction false} LowerOfLowerHex(s: string)
    requires forall k :: 0 <= k < |s| ==> IsLowerHexDigit(s[k])
    ensures Lower(s) == s
  {
    if s != [] {
      LowerOfLowerHex(s[1..]);
      assert [s[0]] + s[1..] == s;
    }
  }
}
