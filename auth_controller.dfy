/** The account handlers: registration, login, logout, token refresh,
    profile and password changes, and the OAuth sign-in and callback.
    They keep one refresh token per account: registering, logging in
    and the OAuth callback store the issued one, logging out clears it,
    and a refresh succeeds only for the token stored. Tokens are values
    issued by the caller; `jwt.verify`, `bcrypt.hash` and
    `bcrypt.compare` are uninterpreted functions passed in. */
module AuthController {
  import opened Collections
  import opened Text
  import opened Domain
  import opened UserSchema
  import opened Database
  import opened AuthMiddleware

  /** The payload of a successful register or login. */
  datatype Session = Session(user: PublicUser, token: string, refreshToken: string)

  // ---------------------------------------------------------------- register

  datatype RegisterBody = RegisterBody(username: string, name: string, email: string, password: string)

  /** `findOne({ $or: [{ email }, { username }] })`, with the schema
      setters applied to the query values. */
  function ClashWith(b: RegisterBody): User -> bool {
    (u: User) => u.email == StoredEmail(b.email) || u.username == Trim(b.username)
  }

  /** The account `register` stores at tick `now`, refresh token included. */
  function NewAccount(b: RegisterBody, now: nat, hash: string -> string, refresh: string): (u: User)
    ensures u.id == NewId(now) && u.createdAt == now
    ensures u.username == Trim(b.username) && u.name == Trim(b.name) && u.email == StoredEmail(b.email)
    ensures u.password == SavedPassword(Some(b.password), hash) && u.refreshToken == Some(refresh)
    ensures u.role == UserRole && u.isActive && u.googleId.None? && u.facebookId.None?
  {
    User(NewId(now), Trim(b.username), Trim(b.name), StoredEmail(b.email), SavedPassword(Some(b.password), hash),
         UserRole, true, None, None, "", Some(refresh), now)
  }

  datatype RegisterPlan = Taken(message: string) | Invalid | Create

  /** The duplicate check comes first; its message depends on whether
      the account found has the request's email. */
  function PlanRegister(users: seq<User>, b: RegisterBody): (r: RegisterPlan)
    ensures r.Taken? <==> exists k :: 0 <= k < |users| && ClashWith(b)(users[k])
    ensures r.Taken? ==>
              var k := FirstIndex(users, ClashWith(b)).value;
              r.message == if users[k].email == b.email then "Email already registered" else "Username already taken"
    ensures r == Create <==>
              (forall k :: 0 <= k < |users| ==> !ClashWith(b)(users[k]))
              && NewUserValid(b.username, b.name, b.email, Some(b.password))
  {
    match FirstIndex(users, ClashWith(b))
    case Some(k) => Taken(if users[k].email == b.email then "Email already registered" else "Username already taken")
    case None => if NewUserValid(b.username, b.name, b.email, Some(b.password)) then Create else Invalid
  }

  /** `register`: a new `user` account holding the hashed password and
      the issued refresh token, or nothing at all. */
  method Register(st: Store, b: RegisterBody, hash: string -> string, token: string, refresh: string)
    returns (r: Reply<Session>)
    requires st.Valid()
    modifies st
    ensures st.Valid()
    ensures var plan := PlanRegister(old(st.users), b);
      && (plan.Taken? ==> r == Fail(400, plan.message) && st.users == old(st.users))
      && (plan.Invalid? ==> r == Fail(500, "Error registering user") && st.users == old(st.users))
      && (plan.Create? ==>
            var u := NewAccount(b, old(st.clock), hash, refresh);
            && st.users == old(st.users) + [u]
            && r == Reply(201, "User registered successfully", Some(Session(ToPublic(u), token, refresh))))
    ensures st.blogs == old(st.blogs) && st.comments == old(st.comments) && st.logs == old(st.logs)
  {
    var plan := PlanRegister(st.users, b);
    if plan.Taken? {
      return Fail(400, plan.message);
    }
    if plan.Invalid? {
      return Fail(500, "Error registering user");
    }
    var u := NewAccount(b, st.clock, hash, refresh);
    st.InsertUser(u);
    r := Reply(201, "User registered successfully", Some(Session(ToPublic(u), token, refresh)));
  }

  /** An account `register` creates is a plain `user` with no provider
      link, and its email and username are new: the unique indexes hold. */
  lemma RegisterKeepsAccountsDistinct(users: seq<User>, b: RegisterBody, now: nat, hash: string -> string, refresh: string)
    requires DistinctAccounts(users)
    requires PlanRegister(users, b) == Create
    ensures var u := NewAccount(b, now, hash, refresh);
            && u.role == UserRole && u.isActive && u.googleId.None? && u.facebookId.None?
            && DistinctAccounts(users + [u])
  {
    var u := NewAccount(b, now, hash, refresh);
    forall k | 0 <= k < |users| ensures users[k].email != u.email && users[k].username != u.username {
      assert !ClashWith(b)(users[k]);
    }
    AppendKeepsDistinct(users, u);
  }

  // ------------------------------------------------------------------- login

  /** `findOne({ email })`, the query value through the setters. */
  function EmailIs(email: string): User -> bool {
    (u: User) => u.email == StoredEmail(email)
  }

  datatype LoginPlan = Refuse(status: nat, message: string) | Grant(index: nat)

  /** `login`: an unknown email and a wrong password look the same; a
      deactivated account is refused before its password is looked at. */
  function PlanLogin(users: seq<User>, email: string, password: string, check: (string, string) -> bool): (r: LoginPlan)
    ensures var f := FirstIndex(users, EmailIs(email));
      && (f.None? ==> r == Refuse(401, "Invalid email or password"))
      && (f.Some? && !users[f.value].isActive ==> r == Refuse(403, "Account is deactivated. Please contact admin."))
      && ((f.Some? && users[f.value].isActive && ComparePassword(users[f.value], password, check) == Throws)
            ==> r == Refuse(500, "Error logging in"))
      && ((f.Some? && users[f.value].isActive && ComparePassword(users[f.value], password, check) == NoMatch)
            ==> r == Refuse(401, "Invalid email or password"))
      && (r.Grant? <==> f.Some? && users[f.value].isActive && ComparePassword(users[f.value], password, check) == Match)
      && (r.Grant? ==> r.index == f.value)
  {
    match FirstIndex(users, EmailIs(email))
    case None => Refuse(401, "Invalid email or password")
    case Some(k) =>
      if !users[k].isActive then Refuse(403, "Account is deactivated. Please contact admin.")
      else match ComparePassword(users[k], password, check)
        case Throws => Refuse(500, "Error logging in")
        case NoMatch => Refuse(401, "Invalid email or password")
        case Match => Grant(k)
  }

  /** `login`: on success the issued refresh token replaces the stored one. */
  method Login(st: Store, email: string, password: string, check: (string, string) -> bool, token: string, refresh: string)
    returns (r: Reply<Session>)
    requires st.Valid()
    modifies st
    ensures st.Valid()
    ensures var plan := PlanLogin(old(st.users), email, password, check);
      && (plan.Refuse? ==> r == Fail(plan.status, plan.message) && st.users == old(st.users))
      && (plan.Grant? ==>
            && st.users == old(st.users)[plan.index := old(st.users)[plan.index].(refreshToken := Some(refresh))]
            && r == Reply(200, "Login successful", Some(Session(ToPublic(old(st.users)[plan.index]), token, refresh))))
    ensures st.blogs == old(st.blogs) && st.comments == old(st.comments) && st.logs == old(st.logs)
  {
    var plan := PlanLogin(st.users, email, password, check);
    if plan.Refuse? {
      return Fail(plan.status, plan.message);
    }
    var u := st.users[plan.index];
    st.PutUser(plan.index, u.(refreshToken := Some(refresh)));
    r := Reply(200, "Login successful", Some(Session(ToPublic(u), token, refresh)));
  }

  // ------------------------------------------------------------------ logout

  /** `logout`: the attached user's stored refresh token becomes null;
      saving a document that no longer exists fails. */
  method Logout(st: Store, me: User) returns (r: Reply<Session>)
    requires st.Valid()
    modifies st
    ensures st.Valid()
    ensures UserById(old(st.users), me.id).None? ==> r == Fail(500, "Error logging out") && st.users == old(st.users)
    ensures UserById(old(st.users), me.id).Some? ==>
              var k := UserById(old(st.users), me.id).value;
              st.users == old(st.users)[k := old(st.users)[k].(refreshToken := None)]
              && r == Reply(200, "Logout successful", None)
    ensures st.blogs == old(st.blogs) && st.comments == old(st.comments) && st.logs == old(st.logs)
  {
    var found := UserById(st.users, me.id);
    if found.None? {
      return Fail(500, "Error logging out");
    }
    var k := found.value;
    st.PutUser(k, st.users[k].(refreshToken := None));
    r := Reply(200, "Logout successful", None);
  }

  // ----------------------------------------------------------------- refresh

  /** `refreshToken`: a new access token for exactly the refresh token
      stored on the account it names. It changes nothing. */
  function Refresh(users: seq<User>, presented: Option<string>, verify: string -> Verdict, newToken: string): (r: Reply<string>)
    ensures r.status == 200 || r.status == 401
    ensures !Truthy(presented) ==> r == Fail(401, "Refresh token required")
    ensures Truthy(presented) && !verify(presented.value).Verified? ==> r == Fail(401, "Invalid or expired refresh token")
    ensures r.status == 200 <==>
              && Truthy(presented)
              && verify(presented.value).Verified?
              && IsObjectIdText(verify(presented.value).id)
              && UserById(users, verify(presented.value).id).Some?
              && users[UserById(users, verify(presented.value).id).value].refreshToken == presented
    ensures r.status == 200 ==> r.data == Some(newToken)
  {
    if !Truthy(presented) then Fail(401, "Refresh token required")
    else match verify(presented.value)
      case Expired => Fail(401, "Invalid or expired refresh token")
      case Malformed => Fail(401, "Invalid or expired refresh token")
      case Verified(id) =>
        if !IsObjectIdText(id) then Fail(401, "Invalid or expired refresh token")
        else match UserById(users, id)
          case None => Fail(401, "Invalid refresh token")
          case Some(k) =>
            if users[k].refreshToken != presented then Fail(401, "Invalid refresh token")
            else Reply(200, "", Some(newToken))
  }

  /** Changing one account's refresh token leaves every id lookup as it was. */
  lemma LookupIgnoresToken(users: seq<User>, k: nat, t: Option<string>, id: Id)
    requires k < |users|
    ensures UserById(users[k := users[k].(refreshToken := t)], id) == UserById(users, id)
  {
    var after := users[k := users[k].(refreshToken := t)];
    assert forall j :: 0 <= j < |users| ==> after[j].id == users[j].id;
    var a, b := UserById(after, id), UserById(users, id);
    if a.Some? && b.Some? {
      assert !(a.value < b.value) && !(b.value < a.value);
    }
  }

  /** Once a token is stored for an account (register, login, OAuth
      callback), presenting it refreshes. */
  lemma StoredTokenRefreshes(users: seq<User>, k: nat, t: string, verify: string -> Verdict, newToken: string)
    requires k < |users| && t != ""
    requires verify(t) == Verified(users[k].id) && IsObjectIdText(users[k].id)
    requires UserById(users, users[k].id) == Some(k)
    ensures Refresh(users[k := users[k].(refreshToken := Some(t))], Some(t), verify, newToken) == Reply(200, "", Some(newToken))
  {
    LookupIgnoresToken(users, k, Some(t), users[k].id);
  }

  /** After `logout`, no token refreshes that account. */
  lemma LogoutRevokes(users: seq<User>, k: nat, t: string, verify: string -> Verdict, newToken: string)
    requires k < |users|
    requires verify(t) == Verified(users[k].id)
    requires UserById(users, users[k].id) == Some(k)
    ensures Refresh(users[k := users[k].(refreshToken := None)], Some(t), verify, newToken) == Fail(401, "Invalid refresh token")
            || Refresh(users[k := users[k].(refreshToken := None)], Some(t), verify, newToken) == Fail(401, "Invalid or expired refresh token")
            || Refresh(users[k := users[k].(refreshToken := None)], Some(t), verify, newToken) == Fail(401, "Refresh token required")
  {
    LookupIgnoresToken(users, k, None, users[k].id);
  }

  /** A later login replaces the stored token, so the earlier one stops working. */
  lemma NewLoginRevokesOldToken(users: seq<User>, k: nat, previous: string, issued: string, verify: string -> Verdict, newToken: string)
    requires k < |users| && previous != issued
    requires verify(previous) == Verified(users[k].id)
    requires UserById(users, users[k].id) == Some(k)
    ensures Refresh(users[k := users[k].(refreshToken := Some(issued))], Some(previous), verify, newToken).status == 401
  {
    LookupIgnoresToken(users, k, Some(issued), users[k].id);
  }

  // ---------------------------------------------------------- update profile

  datatype ProfileBody = ProfileBody(name: Option<string>, username: Option<string>, avatar: Option<string>)

  /** The query `{ username, _id: { $ne: req.user._id } }`. */
  predicate UsernameTakenByOther(users: seq<User>, username: string, me: Id) {
    exists k :: 0 <= k < |users| && users[k].username == Trim(username) && users[k].id != me
  }

  /** Only truthy fields are applied; the email never changes. */
  function ProfileUpdated(u: User, b: ProfileBody): (r: User)
    ensures r.name == (if Truthy(b.name) then Trim(b.name.value) else u.name)
    ensures r.username == (if Truthy(b.username) then Trim(b.username.value) else u.username)
    ensures r.avatar == (if Truthy(b.avatar) then b.avatar.value else u.avatar)
    ensures r.(name := u.name, username := u.username, avatar := u.avatar) == u
  {
    u.(name := if Truthy(b.name) then Trim(b.name.value) else u.name,
       username := if Truthy(b.username) then Trim(b.username.value) else u.username,
       avatar := if Truthy(b.avatar) then b.avatar.value else u.avatar)
  }

  datatype ProfilePlan = ProfileRefused(status: nat, message: string) | ProfileSaved(index: nat, user: User)

  /** `updateProfile`: the username check, then the update validators
      on the fields sent, then the update of the requester's document. */
  function PlanUpdateProfile(users: seq<User>, me: User, b: ProfileBody): (r: ProfilePlan)
    ensures r == ProfileRefused(400, "Username already taken") <==>
              Truthy(b.username) && UsernameTakenByOther(users, b.username.value, me.id)
    ensures r.ProfileRefused? ==> r.status == 400 || r.status == 500
    ensures r.ProfileSaved? ==>
              && UserById(users, me.id) == Some(r.index)
              && r.user == ProfileUpdated(users[r.index], b)
              && (Truthy(b.name) ==> Trim(b.name.value) != "")
              && (Truthy(b.username) ==> Utf16Length(Trim(b.username.value)) >= 3 && !UsernameTakenByOther(users, b.username.value, me.id))
    ensures UserById(users, me.id).Some?
            && (Truthy(b.name) ==> Trim(b.name.value) != "")
            && (Truthy(b.username) ==> Utf16Length(Trim(b.username.value)) >= 3 && !UsernameTakenByOther(users, b.username.value, me.id))
            ==> r.ProfileSaved?
  {
    if Truthy(b.username) && UsernameTakenByOther(users, b.username.value, me.id) then ProfileRefused(400, "Username already taken")
    else if Truthy(b.name) && Trim(b.name.value) == "" then ProfileRefused(500, "Error updating profile")
    else if Truthy(b.username) && Utf16Length(Trim(b.username.value)) < 3 then ProfileRefused(500, "Error updating profile")
    else match UserById(users, me.id)
      case None => ProfileRefused(500, "Error updating profile")
      case Some(k) => ProfileSaved(k, ProfileUpdated(users[k], b))
  }

  method UpdateProfile(st: Store, me: User, b: ProfileBody) returns (r: Reply<PublicUser>)
    requires st.Valid()
    modifies st
    ensures st.Valid()
    ensures var plan := PlanUpdateProfile(old(st.users), me, b);
      && (plan.ProfileRefused? ==> r == Fail(plan.status, plan.message) && st.users == old(st.users))
      && (plan.ProfileSaved? ==>
            && st.users == old(st.users)[plan.index := plan.user]
            && r == Reply(200, "Profile updated successfully", Some(ToPublic(plan.user))))
    ensures st.blogs == old(st.blogs) && st.comments == old(st.comments) && st.logs == old(st.logs)
  {
    var plan := PlanUpdateProfile(st.users, me, b);
    if plan.ProfileRefused? {
      return Fail(plan.status, plan.message);
    }
    st.PutUser(plan.index, plan.user);
    r := Reply(200, "Profile updated successfully", Some(ToPublic(plan.user)));
  }

  // --------------------------------------------------------- change password

  /** `changePassword` as written: it compares the current password with
      the one on `req.user`. */
  function ChangePasswordAsWritten(attached: User, current: string, check: (string, string) -> bool): (r: Reply<PublicUser>)
    ensures attached.password.None? ==> r == Fail(500, "Error changing password")
    ensures r.status == 200 ==> ComparePassword(attached, current, check) == Match
  {
    match ComparePassword(attached, current, check)
    case Throws => Fail(500, "Error changing password")
    case NoMatch => Fail(401, "Current password is incorrect")
    case Match => Reply(200, "Password changed successfully", None)
  }

  /** `req.user` is the projected document `authenticate` attaches, which
      has no password, so as written the handler always fails with 500. */
  lemma ChangePasswordAlwaysFails(users: seq<User>, c: Credentials, verify: string -> Verdict, current: string, check: (string, string) -> bool)
    requires Authenticate(users, c, verify).Admit?
    ensures ChangePasswordAsWritten(Authenticate(users, c, verify).user, current, check) == Fail(500, "Error changing password")
  {
  }

  datatype PasswordPlan = PasswordRefused(status: nat, message: string) | PasswordSaved(index: nat)

  /** `changePassword` checking the stored account: a wrong current
      password gives 401; a new one shorter than 6 UTF-16 code units fails
      the schema validator. */
  function PlanChangePassword(users: seq<User>, me: User, current: string, next: string, check: (string, string) -> bool): (r: PasswordPlan)
    ensures UserById(users, me.id).None? ==> r == PasswordRefused(500, "Error changing password")
    ensures var f := UserById(users, me.id);
      && (f.Some? && ComparePassword(users[f.value], current, check) == NoMatch ==> r == PasswordRefused(401, "Current password is incorrect"))
      && (r.PasswordSaved? <==> f.Some? && ComparePassword(users[f.value], current, check) == Match && Utf16Length(next) >= 6)
      && (r.PasswordSaved? ==> r.index == f.value)
  {
    match UserById(users, me.id)
    case None => PasswordRefused(500, "Error changing password")
    case Some(k) =>
      match ComparePassword(users[k], current, check)
      case Throws => PasswordRefused(500, "Error changing password")
      case NoMatch => PasswordRefused(401, "Current password is incorrect")
      case Match => if Utf16Length(next) < 6 then PasswordRefused(500, "Error changing password") else PasswordSaved(k)
  }

  method ChangePassword(st: Store, me: User, current: string, next: string, check: (string, string) -> bool, hash: string -> string)
    returns (r: Reply<PublicUser>)
    requires st.Valid()
    modifies st
    ensures st.Valid()
    ensures var plan := PlanChangePassword(old(st.users), me, current, next, check);
      && (plan.PasswordRefused? ==> r == Fail(plan.status, plan.message) && st.users == old(st.users))
      && (plan.PasswordSaved? ==>
            && st.users == old(st.users)[plan.index := old(st.users)[plan.index].(password := Some(hash(next)))]
            && r == Reply(200, "Password changed successfully", None))
    ensures st.blogs == old(st.blogs) && st.comments == old(st.comments) && st.logs == old(st.logs)
  {
    var plan := PlanChangePassword(st.users, me, current, next, check);
    if plan.PasswordRefused? {
      return Fail(plan.status, plan.message);
    }
    var u := st.users[plan.index];
    assert SavedPassword(Some(next), hash) == Some(hash(next));
    st.PutUser(plan.index, u.(password := SavedPassword(Some(next), hash)));
    r := Reply(200, "Password changed successfully", None);
  }

  /** After a password change the new password logs in, for an active
      account whose hash bcrypt accepts. */
  lemma NewPasswordLogsIn(users: seq<User>, k: nat, email: string, next: string, hash: string -> string, check: (string, string) -> bool)
    requires k < |users| && users[k].isActive
    requires FirstIndex(users, EmailIs(email)) == Some(k)
    requires check(next, hash(next))
    ensures PlanLogin(users[k := users[k].(password := Some(hash(next)))], email, next, check) == Grant(k)
  {
    var after := users[k := users[k].(password := Some(hash(next)))];
    assert forall j :: 0 <= j < |users| ==> after[j].email == users[j].email;
    var f := FirstIndex(after, EmailIs(email));
    assert EmailIs(email)(after[k]);
    assert f.Some?;
    assert !(f.value < k);
    assert !(k < f.value);
  }

  // ----------------------------------------------------------------- OAuth

  datatype Provider = Google | Facebook

  /** The provider's profile: its id, first email, names and first photo. */
  datatype Profile = Profile(
    id: string,
    email: string,
    displayName: string,
    givenName: string,
    familyName: string,
    photo: Option<string>)

  function ProviderId(u: User, p: Provider): Option<string> {
    match p
    case Google => u.googleId
    case Facebook => u.facebookId
  }

  function LinkedTo(p: Provider, profileId: string): User -> bool {
    (u: User) => ProviderId(u, p) == Some(profileId)
  }

  /** Linking: the provider id is set, and the photo becomes the avatar
      only when the account has none. */
  function Linked(u: User, p: Provider, profile: Profile): (r: User)
    ensures ProviderId(r, p) == Some(profile.id)
    ensures r.avatar == (if u.avatar == "" && Truthy(profile.photo) then profile.photo.value else u.avatar)
    ensures r.(googleId := u.googleId, facebookId := u.facebookId, avatar := u.avatar) == u
  {
    var v := u.(avatar := if u.avatar == "" && Truthy(profile.photo) then profile.photo.value else u.avatar);
    match p
    case Google => v.(googleId := Some(profile.id))
    case Facebook => v.(facebookId := Some(profile.id))
  }

  /** The generated username: the part of the email before `@`, or
      `fb_user` for a Facebook profile where that part is empty, then `_`
      and the time. */
  function SocialUsername(p: Provider, email: string, now: nat): (r: string)
    ensures '@' !in r
  {
    var local := Split(email, '@')[0];
    var prefix := if p == Facebook && local == "" then "fb_user" else local;
    prefix + "_" + NatToString(now)
  }

  /** The email a new social account gets: Facebook substitutes a
      placeholder when the profile has none. */
  function SocialEmail(p: Provider, profile: Profile): string {
    if p == Facebook && profile.email == "" then "facebook_" + profile.id + "@temp.com" else profile.email
  }

  function SocialName(p: Provider, profile: Profile): string {
    match p
    case Google => profile.displayName
    case Facebook => profile.givenName + " " + profile.familyName
  }

  /** The `user` account created for a profile at tick `now`. */
  function SocialAccount(p: Provider, profile: Profile, now: nat): (u: User)
    ensures u.id == NewId(now) && u.createdAt == now
    ensures ProviderId(u, p) == Some(profile.id)
    ensures u.role == UserRole && u.password.None? && u.refreshToken.None?
  {
    var u := User(NewId(now), Trim(SocialUsername(p, profile.email, now)), Trim(SocialName(p, profile)),
                  StoredEmail(SocialEmail(p, profile)), None, UserRole, true, None, None,
                  if Truthy(profile.photo) then profile.photo.value else "", None, now);
    match p
    case Google => u.(googleId := Some(profile.id))
    case Facebook => u.(facebookId := Some(profile.id))
  }

  datatype SignInPlan = Known(index: nat) | Link(index: nat) | Open | SignInFailed

  /** `User.create` of a new account succeeds: the schema validators pass
      and neither its username nor its email is in the unique indexes. */
  predicate AccountAdmissible(users: seq<User>, u: User) {
    NewUserValid(u.username, u.name, u.email, u.password) && !UsernameInUse(users, u.username) && !EmailInUse(users, u.email)
  }

  predicate UsernameInUse(users: seq<User>, username: string) {
    exists k :: 0 <= k < |users| && users[k].username == username
  }

  predicate EmailInUse(users: seq<User>, email: string) {
    exists k :: 0 <= k < |users| && users[k].email == email
  }

  /** The strategy callbacks: the account linked to the provider id, else
      the account with the profile's email (to be linked), else a new one,
      which fails when the schema or the unique username or email index
      refuses it. */
  function PlanSocialSignIn(users: seq<User>, p: Provider, profile: Profile, now: nat): (r: SignInPlan)
    ensures r.Known? <==> FirstIndex(users, LinkedTo(p, profile.id)).Some?
    ensures r.Known? ==> r.index == FirstIndex(users, LinkedTo(p, profile.id)).value
    ensures r.Link? <==> FirstIndex(users, LinkedTo(p, profile.id)).None? && FirstIndex(users, EmailIs(profile.email)).Some?
    ensures r.Link? ==> r.index == FirstIndex(users, EmailIs(profile.email)).value
    ensures r.Open? ==>
              && (forall k :: 0 <= k < |users| ==> !LinkedTo(p, profile.id)(users[k]) && !EmailIs(profile.email)(users[k]))
              && (forall k :: 0 <= k < |users| ==> users[k].username != Trim(SocialUsername(p, profile.email, now)))
              && (forall k :: 0 <= k < |users| ==> users[k].email != SocialAccount(p, profile, now).email)
    ensures r.Open? <==>
              && FirstIndex(users, LinkedTo(p, profile.id)).None?
              && FirstIndex(users, EmailIs(profile.email)).None?
              && AccountAdmissible(users, SocialAccount(p, profile, now))
  {
    match FirstIndex(users, LinkedTo(p, profile.id))
    case Some(k) => Known(k)
    case None =>
      match FirstIndex(users, EmailIs(profile.email))
      case Some(k) => Link(k)
      case None =>
        var u := SocialAccount(p, profile, now);
        if !NewUserValid(u.username, u.name, u.email, u.password) then SignInFailed
        else if UsernameInUse(users, u.username) then SignInFailed
        // the unique email index: Facebook's placeholder email may already be taken
        else if EmailInUse(users, u.email) then SignInFailed
        else Open
  }

  /** The reply of the global error handler to an error passed to
      `next`: its `status`, which database errors lack, else 500, and its
      message, else "Internal server error". */
  function ErrorReply<T>(message: string): (r: Reply<T>)
    ensures r.status == 500 && r.data.None?
    ensures r.message == (if message != "" then message else "Internal server error")
  {
    Fail(500, if message != "" then message else "Internal server error")
  }

  /** The strategy callback: the account `done` receives, or the error it
      receives. Passport hands that error to `next` (`failureRedirect`
      covers only `done(null, false)`), so the global error handler
      replies. `createError` is the message of the error `User.create`
      throws, a validation or duplicate-key message of the database
      library. */
  method SocialSignIn(st: Store, p: Provider, profile: Profile, createError: string) returns (r: Reply<User>)
    requires st.Valid()
    modifies st
    ensures st.Valid()
    ensures var plan := PlanSocialSignIn(old(st.users), p, profile, old(st.clock));
      && (plan.Known? ==> st.users == old(st.users) && r == Reply(200, "", Some(old(st.users)[plan.index])))
      && (plan.Link? ==>
            var u := Linked(old(st.users)[plan.index], p, profile);
            st.users == old(st.users)[plan.index := u] && r == Reply(200, "", Some(u)))
      && (plan.Open? ==>
            var u := SocialAccount(p, profile, old(st.clock));
            st.users == old(st.users) + [u] && r == Reply(200, "", Some(u)))
      && (plan.SignInFailed? ==> st.users == old(st.users) && r == ErrorReply(createError))
    ensures st.blogs == old(st.blogs) && st.comments == old(st.comments) && st.logs == old(st.logs)
  {
    var plan := PlanSocialSignIn(st.users, p, profile, st.clock);
    match plan
    case Known(k) =>
      r := Reply(200, "", Some(st.users[k]));
    case Link(k) =>
      var u := Linked(st.users[k], p, profile);
      st.PutUser(k, u);
      r := Reply(200, "", Some(u));
    case Open =>
      var u := SocialAccount(p, profile, st.clock);
      st.InsertUser(u);
      r := Reply(200, "", Some(u));
    case SignInFailed =>
      r := ErrorReply(createError);
  }

  /** A returning user is matched by provider id even when the profile's
      email has changed, and nothing is stored. */
  lemma ReturningUserMatchedByProviderId(users: seq<User>, p: Provider, profile: Profile, now: nat, k: nat)
    requires k < |users| && ProviderId(users[k], p) == Some(profile.id)
    requires forall j :: 0 <= j < k ==> ProviderId(users[j], p) != Some(profile.id)
    ensures PlanSocialSignIn(users, p, profile, now) == Known(k)
  {
    assert LinkedTo(p, profile.id)(users[k]);
  }

  /** `socialAuthCallback`: the issued refresh token is stored and the
      browser is sent to the front end with both tokens. */
  method SocialAuthCallback(st: Store, me: User, token: string, refresh: string, frontend: Option<string>)
    returns (location: string)
    requires st.Valid()
    modifies st
    ensures st.Valid()
    ensures var base := if Truthy(frontend) then frontend.value else "http://localhost:5173";
      && (UserById(old(st.users), me.id).None? ==>
            st.users == old(st.users) && location == base + "/auth/error?message=Authentication failed")
      && (UserById(old(st.users), me.id).Some? ==>
            var k := UserById(old(st.users), me.id).value;
            && st.users == old(st.users)[k := old(st.users)[k].(refreshToken := Some(refresh))]
            && location == base + "/auth/callback?token=" + token + "&refreshToken=" + refresh)
    ensures st.blogs == old(st.blogs) && st.comments == old(st.comments) && st.logs == old(st.logs)
  {
    var base := if Truthy(frontend) then frontend.value else "http://localhost:5173";
    var found := UserById(st.users, me.id);
    if found.None? {
      return base + "/auth/error?message=Authentication failed";
    }
    var k := found.value;
    st.PutUser(k, st.users[k].(refreshToken := Some(refresh)));
    location := base + "/auth/callback?token=" + token + "&refreshToken=" + refresh;
  }
}
