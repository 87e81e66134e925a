/** The session state of lib/AuthContext.tsx. `AuthProvider` holds `user`,
    `token` and `loading`, and owns two keys of the browser's storage. The
    network reply of the login/register calls, the decoded token and the
    current time are inputs. */
module Auth {
  import opened Wrappers
  import opened Entities
  import Constants

  const TOKEN_KEY := "token"
  const USER_KEY := "user"

  /** What a storage key holds: a plain string, or the JSON text of a user
      (written by `JSON.stringify`, read back by `JSON.parse`). */
  datatype Stored = Text(text: string) | UserJson(user: User)

  /** What `jwtDecode` yields for the stored token: it throws, or gives the
      claims, whose `exp` (seconds since the epoch) may be missing. */
  datatype Decoded = DecodeFailed | Claims(exp: Option<int>)

  /** The backend's answer to `POST /auth/login` or `/auth/register`. */
  datatype ServerReply = Authenticated(token: string, data: User) | Rejected(message: Option<string>)

  datatype AuthResponse = AuthResponse(success: bool, data: Option<User>, message: Option<string>)

  /** `Partial<User>`: the fields to overwrite. */
  datatype UserPatch = UserPatch(
    id: Option<string>, name: Option<string>, email: Option<string>,
    role: Option<string>, phone: Option<string>)

  const NO_CHANGES := UserPatch(None, None, None, None, None)

  /** `{ ...user, ...patch }`. */
  function Merge(u: User, p: UserPatch): (m: User)
    ensures p.id.Some? ==> m.id == p.id.value
    ensures p.id.None? ==> m.id == u.id
    ensures p.name.Some? ==> m.name == p.name.value
    ensures p.name.None? ==> m.name == u.name
    ensures p.role.Some? ==> m.role == p.role.value
    ensures p.role.None? ==> m.role == u.role
    ensures p.email.Some? ==> m.email == p.email.value
    ensures p.email.None? ==> m.email == u.email
    ensures p.phone.Some? ==> m.phone == p.phone
    ensures p.phone.None? ==> m.phone == u.phone
  {
    User(p.id.GetOr(u.id), p.name.GetOr(u.name), p.email.GetOr(u.email), p.role.GetOr(u.role),
         if p.phone.Some? then p.phone else u.phone)
  }

  /** Merging nothing keeps the user, and merging the same fields twice is
      merging them once. */
  lemma MergeLaws(u: User, p: UserPatch)
    ensures Merge(u, NO_CHANGES) == u
    ensures Merge(Merge(u, p), p) == Merge(u, p)
  {
  }

  /** The strict expiry test `decoded.exp * 1000 < Date.now()`: a token whose
      `exp` is missing compares `NaN < now`, which is false, so it never
      expires; a token expiring exactly now is still accepted. */
  predicate Expired(exp: Option<int>, nowMillis: int) {
    exp.Some? && exp.value * 1000 < nowMillis
  }

  /** What the restore effect does with the stored entries. */
  datatype Restore = KeepEmpty | Resume(token: string, user: User) | ForceLogout

  /** The restore decision: state is touched only when both stored entries are
      truthy; a failed decode, an expired token or a user entry that is not
      user JSON logs out; otherwise both are restored. */
  function RestoreDecision(storedToken: Option<string>, storedUser: Option<Stored>, decoded: Decoded, nowMillis: int): (r: Restore)
    ensures !Truthy(storedToken) || storedUser.None? || storedUser == Some(Text("")) <==> r == KeepEmpty
    ensures r.Resume? <==>
      Truthy(storedToken) && storedUser.Some? && storedUser.value.UserJson? &&
      decoded.Claims? && !Expired(decoded.exp, nowMillis)
    ensures r.Resume? ==> r.token == storedToken.value && storedUser == Some(UserJson(r.user))
  {
    var userPresent := storedUser.Some? && storedUser != Some(Text(""));
    if !(Truthy(storedToken) && userPresent) then KeepEmpty
    else match decoded {
      case DecodeFailed => ForceLogout
      case Claims(exp) =>
        if Expired(exp, nowMillis) then ForceLogout
        else match storedUser.value {
          case UserJson(u) => Resume(storedToken.value, u)
          // JSON.parse throws on text that is not a user record
          case Text(_) => ForceLogout
        }
    }
  }

  datatype Flags = Flags(isAuthenticated: bool, isAdmin: bool, isManager: bool, isFieldWorker: bool)

  /** `!!user`, `user?.role === 'admin'`, ... */
  function DerivedFlags(user: Option<User>): (f: Flags)
    ensures f.isAuthenticated <==> user.Some?
    ensures f.isAdmin <==> user.Some? && user.value.role == Constants.Role.Admin.Value()
    ensures f.isManager <==> user.Some? && user.value.role == Constants.Role.Manager.Value()
    ensures f.isFieldWorker <==> user.Some? && user.value.role == Constants.Role.FieldWorker.Value()
  {
    Flags(user.Some?, user.Some? && user.value.role == "admin",
          user.Some? && user.value.role == "manager", user.Some? && user.value.role == "field_worker")
  }

  /** At most one role flag holds, and a role flag implies authentication. */
  lemma AtMostOneRoleFlag(user: Option<User>)
    ensures var f := DerivedFlags(user);
      (f.isAdmin || f.isManager || f.isFieldWorker ==> f.isAuthenticated) &&
      !(f.isAdmin && f.isManager) && !(f.isAdmin && f.isFieldWorker) && !(f.isManager && f.isFieldWorker)
  {
  }

  /** `useAuth()`: the context, or the error thrown outside a provider. */
  function UseAuth<C>(context: Option<C>): (r: Result<C, string>)
    ensures context.Some? <==> r.Ok?
    ensures context.Some? ==> r.value == context.value
    ensures context.None? ==> r.error == "useAuth must be used within AuthProvider"
  {
    match context
    case Some(c) => Ok(c)
    case None => Err("useAuth must be used within AuthProvider")
  }

  class AuthProvider {
    var user: Option<User>
    var token: Option<string>
    var loading: bool
    /** The two storage keys this provider reads and writes. */
    var storage: map<string, Stored>

    /** The token key only ever holds a plain string. */
    ghost predicate Valid()
      reads this
    {
      TOKEN_KEY in storage ==> storage[TOKEN_KEY].Text?
    }

    function StoredToken(): (t: Option<string>)
      reads this
      requires Valid()
      ensures t.Some? <==> TOKEN_KEY in storage
    {
      if TOKEN_KEY in storage then Some(storage[TOKEN_KEY].text) else None
    }

    function StoredUser(): Option<Stored>
      reads this
    {
      if USER_KEY in storage then Some(storage[USER_KEY]) else None
    }

    function CurrentFlags(): (f: Flags)
      reads this
      ensures f == DerivedFlags(user)
    {
      DerivedFlags(user)
    }

    /** The provider as first rendered over the browser's storage. */
    constructor (initialStorage: map<string, Stored>)
      requires TOKEN_KEY in initialStorage ==> initialStorage[TOKEN_KEY].Text?
      ensures Valid()
      ensures user == None && token == None && loading && storage == initialStorage
    {
      user, token, loading, storage := None, None, true, initialStorage;
    }

    /** `logout()`: both keys removed, token and user cleared. */
    method Logout()
      requires Valid()
      modifies this
      ensures Valid()
      ensures storage == old(storage) - {TOKEN_KEY, USER_KEY}
      ensures TOKEN_KEY !in storage && USER_KEY !in storage
      ensures token == None && user == None && loading == old(loading)
    {
      storage := storage - {TOKEN_KEY};
      storage := storage - {USER_KEY};
      token := None;
      user := None;
    }

    /** The mount effect: restore the session from storage, then stop loading. */
    method RestoreSession(decoded: Decoded, nowMillis: int)
      requires Valid()
      modifies this
      ensures Valid() && !loading
      ensures
        var d := RestoreDecision(old(StoredToken()), old(StoredUser()), decoded, nowMillis);
        match d
        case KeepEmpty => user == old(user) && token == old(token) && storage == old(storage)
        case Resume(t, u) => token == Some(t) && user == Some(u) && storage == old(storage)
        case ForceLogout => token == None && user == None && storage == old(storage) - {TOKEN_KEY, USER_KEY}
    {
      var storedToken := StoredToken();
      var storedUser := StoredUser();
      if Truthy(storedToken) && storedUser.Some? && storedUser != Some(Text("")) {
        match decoded {
          case DecodeFailed =>
            Logout();
          case Claims(exp) =>
            if exp.Some? && exp.value * 1000 < nowMillis {
              Logout();
            } else {
              token := storedToken;
              match storedUser.value {
                case UserJson(u) =>
                  user := Some(u);
                case Text(_) =>
                  Logout();
              }
            }
        }
      }
      loading := false;
    }

    /** The shared success/failure handling of `login` and `register`. */
    method Authenticate(reply: ServerReply, fallback: string) returns (r: AuthResponse)
      requires Valid()
      modifies this
      ensures Valid() && loading == old(loading)
      ensures r.success <==> reply.Authenticated?
      ensures reply.Authenticated? ==>
        && r == AuthResponse(true, Some(reply.data), None)
        && token == Some(reply.token) && user == Some(reply.data)
        && storage == old(storage)[TOKEN_KEY := Text(reply.token)][USER_KEY := UserJson(reply.data)]
      ensures reply.Rejected? ==>
        && r == AuthResponse(false, None, Some(MessageOr(reply.message, fallback)))
        && token == old(token) && user == old(user) && storage == old(storage)
    {
      match reply {
        case Authenticated(t, data) =>
          storage := storage[TOKEN_KEY := Text(t)];
          storage := storage[USER_KEY := UserJson(data)];
          token := Some(t);
          user := Some(data);
          r := AuthResponse(true, Some(data), None);
        case Rejected(message) =>
          r := AuthResponse(false, None, Some(MessageOr(message, fallback)));
      }
    }

    method Login(reply: ServerReply) returns (r: AuthResponse)
      requires Valid()
      modifies this
      ensures Valid() && loading == old(loading)
      ensures r.success <==> reply.Authenticated?
      ensures reply.Authenticated? ==>
        && token == Some(reply.token) && user == Some(reply.data)
        && storage == old(storage)[TOKEN_KEY := Text(reply.token)][USER_KEY := UserJson(reply.data)]
        && r.data == Some(reply.data)
      ensures reply.Rejected? ==>
        && token == old(token) && user == old(user) && storage == old(storage)
        && r.message == Some(MessageOr(reply.message, "Login failed"))
    {
      r := Authenticate(reply, "Login failed");
    }

    method Register(reply: ServerReply) returns (r: AuthResponse)
      requires Valid()
      modifies this
      ensures Valid() && loading == old(loading)
      ensures r.success <==> reply.Authenticated?
      ensures reply.Authenticated? ==>
        && token == Some(reply.token) && user == Some(reply.data)
        && storage == old(storage)[TOKEN_KEY := Text(reply.token)][USER_KEY := UserJson(reply.data)]
        && r.data == Some(reply.data)
      ensures reply.Rejected? ==>
        && token == old(token) && user == old(user) && storage == old(storage)
        && r.message == Some(MessageOr(reply.message, "Registration failed"))
    {
      r := Authenticate(reply, "Registration failed");
    }

    /** `updateUser(patch)`: merge and persist when signed in, else nothing. */
    method UpdateUser(patch: UserPatch)
      requires Valid()
      modifies this
      ensures Valid() && token == old(token) && loading == old(loading)
      ensures old(user).None? ==> user == None && storage == old(storage)
      ensures old(user).Some? ==>
        user == Some(Merge(old(user).value, patch)) &&
        storage == old(storage)[USER_KEY := UserJson(Merge(old(user).value, patch))]
    {
      if user.Some? {
        var updated := Merge(user.value, patch);
        user := Some(updated);
        storage := storage[USER_KEY := UserJson(updated)];
      }
    }
  }

  /** After a successful login the session survives a reload: the restore
      effect on the stored entries resumes the same token and user, as long
      as the token has not expired. */
  lemma LoginThenRestore(t: string, u: User, storage: map<string, Stored>, exp: Option<int>, nowMillis: int)
    requires t != ""
    requires !Expired(exp, nowMillis)
    ensures
      var s := storage[TOKEN_KEY := Text(t)][USER_KEY := UserJson(u)];
      RestoreDecision(Some(s[TOKEN_KEY].text), Some(s[USER_KEY]), Claims(exp), nowMillis) == Resume(t, u)
  {
  }
}
