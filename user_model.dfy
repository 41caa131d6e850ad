/** The user schema: the setters applied to stored fields, the
    validators a new account must pass, the password hashing hook and
    the projections handed to clients. bcrypt is a pair of
    uninterpreted functions passed in by the caller. */
module UserSchema {
  import opened Collections
  import opened Text
  import opened Domain

  /** The stored form of an email: the `trim` then `lowercase` setters. */
  function StoredEmail(email: string): (r: string)
    ensures |r| == |Trim(email)|
    ensures forall k :: 0 <= k < |r| ==> r[k] == LowerChar(Trim(email)[k])
  {
    Lower(Trim(email))
  }

  /** The schema validators for a new account: a username of at least 3
      UTF-16 code units and a name and email after trimming; a password,
      when there is one, of at least 6 code units (checked before hashing). */
  predicate NewUserValid(username: string, name: string, email: string, password: Option<string>) {
    && Utf16Length(Trim(username)) >= 3
    && Trim(name) != ""
    && Trim(email) != ""
    && (password.Some? ==> Utf16Length(password.value) >= 6)
  }

  /** The `pre('save')` hook for a password that was just set: a truthy
      one is replaced by its hash, an empty one is kept as it is. */
  function SavedPassword(plain: Option<string>, hash: string -> string): (r: Option<string>)
    ensures Truthy(plain) ==> r == Some(hash(plain.value))
    ensures !Truthy(plain) ==> r == plain
  {
    if Truthy(plain) then Some(hash(plain.value)) else plain
  }

  /** What `comparePassword` does: bcrypt throws when the account has no
      password; otherwise it says whether the candidate matches the hash. */
  datatype Comparison = Match | NoMatch | Throws

  function ComparePassword(u: User, candidate: string, check: (string, string) -> bool): (r: Comparison)
    ensures r == Throws <==> u.password.None?
    ensures r == Match <==> u.password.Some? && check(candidate, u.password.value)
  {
    if u.password.None? then Throws
    else if check(candidate, u.password.value) then Match
    else NoMatch
  }

  /** `toPublicJSON`. */
  datatype PublicUser = PublicUser(
    id: Id,
    username: string,
    name: string,
    email: string,
    role: Role,
    avatar: string,
    createdAt: nat)

  function ToPublic(u: User): PublicUser {
    PublicUser(u.id, u.username, u.name, u.email, u.role, u.avatar, u.createdAt)
  }

  /** A user read with `.select('-password -refreshToken')`. */
  function Projected(u: User): (r: User)
    ensures r.password.None? && r.refreshToken.None?
    ensures r.(password := u.password, refreshToken := u.refreshToken) == u
  {
    u.(password := None, refreshToken := None)
  }

  /** The unique indexes on `email` and `username`. */
  ghost predicate DistinctAccounts(users: seq<User>) {
    forall i, j :: 0 <= i < j < |users| ==>
      users[i].email != users[j].email && users[i].username != users[j].username
  }

  /** Appending an account whose email and username no one has keeps the
      accounts distinct. */
  lemma AppendKeepsDistinct(users: seq<User>, u: User)
    requires DistinctAccounts(users)
    requires forall k :: 0 <= k < |users| ==> users[k].email != u.email && users[k].username != u.username
    ensures DistinctAccounts(users + [u])
  {
    var r := users + [u];
    forall i, j | 0 <= i < j < |r| ensures r[i].email != r[j].email && r[i].username != r[j].username {
      if j == |users| {
        assert r[i] == users[i];
      } else {
        assert r[i] == users[i] && r[j] == users[j];
      }
    }
  }
}
