/** The session provider: the signed-in user and the three local-storage keys
    `authToken`, `currentUser` and `rememberMe`, changed together by each
    operation. Backend replies and the current time are inputs. */
module Auth {
  import opened Base
  import opened Text
  import opened Js
  import opened Http

  // ---------------------------------------------------------------- users

  /** A user record as the provider keeps it; `None` is an `undefined` field. */
  datatype User = User(
    id: string, name: Option<string>, email: Option<string>, accountType: string,
    phone: Option<string>, barNumber: Option<string>, specialization: Option<string>,
    yearsOfExperience: Option<int>, address: Option<string>,
    isEmailVerified: Option<bool>, twoFactorEnabled: Option<bool>,
    createdAt: string, updatedAt: Option<string>)

  /** The user object of a backend reply. A missing `user_id` makes the
      provider throw while reading it. */
  datatype BackendUser = BackendUser(
    userId: Option<int>, fullName: Option<string>, name: Option<string>, email: Option<string>,
    accountType: Option<string>, userType: Option<string>,
    phoneNumber: Option<string>, barNumber: Option<string>, specialization: Option<string>,
    yearsOfExperience: Option<int>, address: Option<string>,
    createdAt: Option<string>, updatedAt: Option<string>)

  /** One key of an update object: absent, present with the value
      `undefined`, or present with a value. A spread copies the last two. */
  datatype Patch<T> = Keep | Unset | Put(value: T)

  /** `Partial<User>`: the keys of an update. `id`, `accountType` and
      `createdAt` are either absent or carry a value. */
  datatype UserUpdate = UserUpdate(
    id: Option<string>, name: Patch<string>, email: Patch<string>, accountType: Option<string>,
    phone: Patch<string>, barNumber: Patch<string>, specialization: Patch<string>,
    yearsOfExperience: Patch<int>, address: Patch<string>,
    isEmailVerified: Patch<bool>, twoFactorEnabled: Patch<bool>,
    createdAt: Option<string>, updatedAt: Patch<string>)

  /** `{ ...before, ...update }` for one optional field. */
  function Over<T>(p: Patch<T>, before: Option<T>): Option<T> {
    match p
    case Keep => before
    case Unset => None
    case Put(v) => Some(v)
  }

  /** A field after a spread: kept when the key is absent, `undefined` when the
      key carries `undefined`, the given value otherwise. */
  predicate PatchedTo<T(==)>(p: Patch<T>, before: Option<T>, after: Option<T>) {
    && (p.Keep? ==> after == before)
    && (p.Unset? ==> after == None)
    && (p.Put? ==> after == Some(p.value))
  }

  predicate TruthyText(o: Option<string>) { o.Some? && o.value != "" }

  /** `a || b` on two optional strings. */
  function OrText(a: Option<string>, b: Option<string>): (r: Option<string>)
    ensures TruthyText(a) ==> r == a
    ensures !TruthyText(a) ==> r == b
  {
    if TruthyText(a) then a else b
  }

  /** `accountType || user_type || "client"`, used after login and registration. */
  function SignInAccountType(b: BackendUser): (r: string)
    ensures r != ""
    ensures TruthyText(b.accountType) ==> r == b.accountType.value
    ensures !TruthyText(b.accountType) && TruthyText(b.userType) ==> r == b.userType.value
    ensures !TruthyText(b.accountType) && !TruthyText(b.userType) ==> r == "client"
  {
    GetOr(OrText(OrText(b.accountType, b.userType), Some("client")), "client")
  }

  /** `user_type || "client"`, used when the session is re-validated. */
  function InitAccountType(b: BackendUser): (r: string)
    ensures r != ""
    ensures TruthyText(b.userType) ==> r == b.userType.value
    ensures !TruthyText(b.userType) ==> r == "client"
  {
    GetOr(OrText(b.userType, Some("client")), "client")
  }

  /** The two normalisations differ: a reply that only carries `accountType`
      keeps it on login but falls back to "client" on re-validation. */
  lemma AccountTypeDiverges(b: BackendUser)
    requires TruthyText(b.accountType) && b.accountType.value != "client" && !TruthyText(b.userType)
    ensures SignInAccountType(b) != InitAccountType(b)
  {
  }

  /** `transformedUser`: the backend fields renamed, `full_name || name`, the
      timestamps defaulting to `now`, two-factor off. */
  function TransformUser(b: BackendUser, accountType: string, verified: bool, now: string): (u: User)
    requires b.userId.Some?
    ensures ParseInt(u.id) == b.userId
    ensures u.name == OrText(b.fullName, b.name) && u.accountType == accountType
    ensures u.isEmailVerified == Some(verified) && u.twoFactorEnabled == Some(false)
    ensures u.createdAt == (if TruthyText(b.createdAt) then b.createdAt.value else now)
    ensures u.updatedAt == Some(if TruthyText(b.updatedAt) then b.updatedAt.value else now)
    ensures u.email == b.email && u.phone == b.phoneNumber && u.barNumber == b.barNumber
  {
    ParseIntOfIntToString(b.userId.value);
    User(IntToString(b.userId.value), OrText(b.fullName, b.name), b.email, accountType,
      b.phoneNumber, b.barNumber, b.specialization, b.yearsOfExperience, b.address,
      Some(verified), Some(false),
      GetOr(OrText(b.createdAt, Some(now)), now), OrText(b.updatedAt, Some(now)))
  }

  /** `{ ...user, ...updates, updatedAt: now }` */
  function Merge(u: User, d: UserUpdate, now: string): (r: User)
    ensures r.updatedAt == Some(now)
    ensures r.id == GetOr(d.id, u.id) && r.accountType == GetOr(d.accountType, u.accountType)
    ensures r.createdAt == GetOr(d.createdAt, u.createdAt)
    ensures PatchedTo(d.name, u.name, r.name) && PatchedTo(d.email, u.email, r.email)
    ensures PatchedTo(d.phone, u.phone, r.phone) && PatchedTo(d.barNumber, u.barNumber, r.barNumber)
    ensures PatchedTo(d.specialization, u.specialization, r.specialization)
    ensures PatchedTo(d.yearsOfExperience, u.yearsOfExperience, r.yearsOfExperience)
    ensures PatchedTo(d.address, u.address, r.address)
    ensures PatchedTo(d.isEmailVerified, u.isEmailVerified, r.isEmailVerified)
    ensures PatchedTo(d.twoFactorEnabled, u.twoFactorEnabled, r.twoFactorEnabled)
  {
    User(GetOr(d.id, u.id), Over(d.name, u.name), Over(d.email, u.email), GetOr(d.accountType, u.accountType),
      Over(d.phone, u.phone), Over(d.barNumber, u.barNumber), Over(d.specialization, u.specialization),
      Over(d.yearsOfExperience, u.yearsOfExperience), Over(d.address, u.address),
      Over(d.isEmailVerified, u.isEmailVerified), Over(d.twoFactorEnabled, u.twoFactorEnabled),
      GetOr(d.createdAt, u.createdAt), Some(now))
  }

  /** An update whose reply lacked a field still carries that key as
      `undefined`, and the spread then drops the user's value. */
  lemma MergeUnsetDrops(u: User, d: UserUpdate, now: string)
    requires d.name.Unset? && d.email.Unset?
    ensures Merge(u, d, now).name == None && Merge(u, d, now).email == None
  {
  }

  /** An update that names no field only refreshes `updatedAt`. */
  lemma MergeNothing(u: User, now: string)
    ensures Merge(u, UserUpdate(None, Keep, Keep, None, Keep, Keep, Keep, Keep, Keep, Keep, Keep, None, Keep), now)
      == u.(updatedAt := Some(now))
  {
  }

  // ---------------------------------------------------------------- JSON text

  function HexDigit(d: nat): char
    requires d < 16
  {
    if d < 10 then ('0' as int + d) as char else ('a' as int + d - 10) as char
  }

  /** One character inside a JSON string literal. */
  function EscapeChar(c: char): string {
    if c == '"' then "\\\""
    else if c == '\\' then "\\\\"
    else if c == '\n' then "\\n"
    else if c == '\r' then "\\r"
    else if c == '\t' then "\\t"
    else if c == '\U{8}' then "\\b"
    else if c == '\U{C}' then "\\f"
    else if (c as int) < 0x20 then "\\u00" + [HexDigit(c as int / 16), HexDigit(c as int % 16)]
    else [c]
  }

  function Escape(s: string): string
    decreases |s|
  {
    if s == [] then "" else EscapeChar(s[0]) + Escape(s[1..])
  }

  function Quote(s: string): string { "\"" + Escape(s) + "\"" }

  /** A member `"key":value` given its quoted key with the colon, or nothing
      for an `undefined` value. */
  function Member(keyColon: string, value: Option<string>): seq<string> {
    match value case Some(v) => [keyColon + v] case None => []
  }

  function QuoteOpt(o: Option<string>): Option<string> {
    match o case Some(s) => Some(Quote(s)) case None => None
  }

  function JoinComma(parts: seq<string>): string
    decreases |parts|
  {
    if parts == [] then ""
    else if |parts| == 1 then parts[0]
    else parts[0] + "," + JoinComma(parts[1..])
  }

  /** `JSON.stringify(user)`: the members in the order the record is built,
      `undefined` fields omitted. */
  function Serialize(u: User): (r: string)
    ensures |r| >= 2 && r[0] == '{' && r[|r| - 1] == '}'
  {
    "{" + JoinComma(
      Member("\"id\":", Some(Quote(u.id)))
      + Member("\"name\":", QuoteOpt(u.name))
      + Member("\"email\":", QuoteOpt(u.email))
      + Member("\"accountType\":", Some(Quote(u.accountType)))
      + Member("\"phone\":", QuoteOpt(u.phone))
      + Member("\"barNumber\":", QuoteOpt(u.barNumber))
      + Member("\"specialization\":", QuoteOpt(u.specialization))
      + Member("\"yearsOfExperience\":", match u.yearsOfExperience case Some(n) => Some(IntToString(n)) case None => None)
      + Member("\"address\":", QuoteOpt(u.address))
      + Member("\"isEmailVerified\":", match u.isEmailVerified case Some(b) => Some(if b then "true" else "false") case None => None)
      + Member("\"twoFactorEnabled\":", match u.twoFactorEnabled case Some(b) => Some(if b then "true" else "false") case None => None)
      + Member("\"createdAt\":", Some(Quote(u.createdAt)))
      + Member("\"updatedAt\":", QuoteOpt(u.updatedAt))) + "}"
  }

  // ---------------------------------------------------------------- replies

  /** The body of a login or sign-up reply; `detail` is kept only when it is a string. */
  datatype AuthBody = AuthBody(user: Option<BackendUser>, accessToken: JsValue, detail: Option<string>)

  /** The exchange with the login or sign-up endpoint. `body` is `None` when it
      is not JSON or is `null`; reading it then throws. */
  datatype AuthReply = Unreachable | Reply(ok: bool, body: Option<AuthBody>)

  /** What a login or sign-up reply amounts to. */
  datatype SignIn = Accept(user: User, token: string) | Reject(error: string)

  /** The shared reading of a login or sign-up reply. Any throw inside the
      `try` becomes "Network error". The token is stored as `setItem` converts
      it: a missing `access_token` becomes the text "undefined", a `null` one "null". */
  function ReadSignIn(reply: AuthReply, verified: bool, fallback: string, now: string): (r: SignIn)
    ensures r.Accept? ==> (reply.Reply? && reply.ok && reply.body.Some?
      && reply.body.value.user.Some? && reply.body.value.user.value.userId.Some?)
    ensures r.Accept? ==> (r.user.isEmailVerified == Some(verified)
      && r.user.accountType == SignInAccountType(reply.body.value.user.value)
      && r.token == ToJsString(reply.body.value.accessToken))
    ensures (reply.Reply? && reply.ok && reply.body.Some? && reply.body.value.user.Some?
      && reply.body.value.user.value.userId.Some?) ==>
      var b := reply.body.value.user.value;
      r == Accept(TransformUser(b, SignInAccountType(b), verified, now), ToJsString(reply.body.value.accessToken))
    ensures (reply.Reply? && reply.ok && reply.body.Some?
      && (reply.body.value.user.None? || reply.body.value.user.value.userId.None?)) ==> r == Reject("Network error")
    ensures (reply.Unreachable? || (reply.Reply? && reply.body.None?)) ==> r == Reject("Network error")
    ensures reply.Reply? && !reply.ok && reply.body.Some? ==>
      r == Reject(if reply.body.value.detail.Some? then reply.body.value.detail.value else fallback)
  {
    match reply
    case Unreachable => Reject("Network error")
    case Reply(ok, body) =>
      match body
      case None => Reject("Network error")
      case Some(data) =>
        if !ok then Reject(GetOr(data.detail, fallback))
        else if data.user.None? || data.user.value.userId.None? then Reject("Network error")
        else
          var b := data.user.value;
          Accept(TransformUser(b, SignInAccountType(b), verified, now), ToJsString(data.accessToken))
  }

  /** Where a new account is sent after registration. */
  function RouteFor(accountType: string): (r: string)
    ensures accountType == "lawyer" ==> r == "/dashboard"
    ensures accountType == "client" ==> r == "/chat"
    ensures accountType == "admin" ==> r == "/admin"
    ensures accountType !in {"lawyer", "client", "admin"} ==> r == "/"
  {
    if accountType == "lawyer" then "/dashboard"
    else if accountType == "client" then "/chat"
    else if accountType == "admin" then "/admin"
    else "/"
  }

  /** The session re-validation call: `None` fields throw while being read. */
  datatype MeReply = MeUnreachable | MeReply(ok: bool, body: Option<BackendUser>)

  datatype AuthOutcome = AuthOutcome(success: bool, error: Option<string>)

  /** A stored value that is truthy: present and not empty. */
  predicate Stored(store: Store, key: string) { key in store && store[key] != "" }

  // ---------------------------------------------------------------- the provider

  class AuthProvider {
    var user: Option<User>
    var store: Store
    var loading: bool
    /** The last destination pushed to the router. */
    var route: Option<string>

    /** Whenever a user is signed in, the token is stored and `currentUser`
        holds that user's JSON. */
    ghost predicate Valid()
      reads this
    {
      user.Some? ==> "authToken" in store && "currentUser" in store && store["currentUser"] == Serialize(user.value)
    }

    constructor(initial: Store)
      ensures Valid()
      ensures user == None && store == initial && loading && route == None
    {
      user := None;
      store := initial;
      loading := true;
      route := None;
    }

    /** `initializeAuth`. With both keys truthy, the stored user must parse
        (`parses` stands for `JSON.parse` succeeding) and the token must be
        accepted; the fresh user then replaces `currentUser`. Any failure on
        that path removes both keys. With either key missing nothing is removed,
        so a lone token survives. */
    method InitializeAuth(parses: string -> bool, reply: MeReply, now: string)
      modifies this
      ensures Valid() && !loading && route == old(route)
      ensures !(Stored(old(store), "authToken") && Stored(old(store), "currentUser")) ==>
        user == None && store == old(store)
      ensures Stored(old(store), "authToken") && Stored(old(store), "currentUser") ==>
        if parses(old(store)["currentUser"]) && reply.MeReply? && reply.ok && reply.body.Some?
           && reply.body.value.userId.Some?
        then
          var u := TransformUser(reply.body.value, InitAccountType(reply.body.value), true, now);
          user == Some(u) && store == old(store)["currentUser" := Serialize(u)]
        else
          user == None && store == old(store) - {"authToken", "currentUser"}
    {
      if Stored(store, "authToken") && Stored(store, "currentUser") {
        if parses(store["currentUser"]) && reply.MeReply? && reply.ok && reply.body.Some?
           && reply.body.value.userId.Some? {
          var b := reply.body.value;
          var u := TransformUser(b, InitAccountType(b), true, now);
          user := Some(u);
          store := store["currentUser" := Serialize(u)];
        } else {
          store := store - {"authToken"};
          store := store - {"currentUser"};
          user := None;
        }
      } else {
        user := None;
      }
      loading := false;
    }

    /** `login`: on success the user and both keys are set, and `rememberMe` is
        written only when asked for (it is never cleared here); on failure
        nothing changes. */
    method Login(rememberMe: bool, reply: AuthReply, now: string) returns (outcome: AuthOutcome)
      requires Valid()
      modifies this
      ensures Valid() && !loading && route == old(route)
      ensures match ReadSignIn(reply, true, "Invalid credentials", now)
        case Accept(u, token) =>
          outcome == AuthOutcome(true, None) && user == Some(u)
          && store == (if rememberMe
                       then old(store)["authToken" := token]["currentUser" := Serialize(u)]["rememberMe" := "true"]
                       else old(store)["authToken" := token]["currentUser" := Serialize(u)])
        case Reject(e) =>
          outcome == AuthOutcome(false, Some(e)) && user == old(user) && store == old(store)
    {
      loading := true;
      var step := ReadSignIn(reply, true, "Invalid credentials", now);
      outcome := SignInWith(step, rememberMe);
      loading := false;
    }

    /** `register`: like login, with the e-mail not yet verified, no
        `rememberMe`, and a redirect chosen by account type. */
    method Register(reply: AuthReply, now: string) returns (outcome: AuthOutcome)
      requires Valid()
      modifies this
      ensures Valid() && !loading
      ensures match ReadSignIn(reply, false, "Registration failed", now)
        case Accept(u, token) =>
          outcome == AuthOutcome(true, None) && user == Some(u)
          && store == old(store)["authToken" := token]["currentUser" := Serialize(u)]
          && route == Some(RouteFor(u.accountType))
        case Reject(e) =>
          outcome == AuthOutcome(false, Some(e)) && user == old(user) && store == old(store) && route == old(route)
    {
      loading := true;
      var step := ReadSignIn(reply, false, "Registration failed", now);
      outcome := SignInWith(step, false);
      if step.Accept? {
        route := Some(RouteFor(step.user.accountType));
      }
      loading := false;
    }

    /** The part `login` and `register` share once the reply is read: an
        accepted sign-in sets the user, the token, `currentUser` and, when
        asked for, `rememberMe`; a rejected one changes nothing. */
    method SignInWith(step: SignIn, rememberMe: bool) returns (outcome: AuthOutcome)
      requires Valid()
      modifies this
      ensures Valid() && loading == old(loading) && route == old(route)
      ensures match step
        case Accept(u, token) =>
          outcome == AuthOutcome(true, None) && user == Some(u)
          && store == (if rememberMe
                       then old(store)["authToken" := token]["currentUser" := Serialize(u)]["rememberMe" := "true"]
                       else old(store)["authToken" := token]["currentUser" := Serialize(u)])
        case Reject(e) =>
          outcome == AuthOutcome(false, Some(e)) && user == old(user) && store == old(store)
    {
      match step {
        case Accept(u, token) =>
          assert "authToken" != "currentUser" && "authToken" != "rememberMe" && "currentUser" != "rememberMe";
          user := Some(u);
          store := store["authToken" := token];
          store := store["currentUser" := Serialize(u)];
          if rememberMe {
            store := store["rememberMe" := "true"];
          }
          outcome := AuthOutcome(true, None);
        case Reject(e) =>
          outcome := AuthOutcome(false, Some(e));
      }
    }

    /** `logout`: no user, the three keys removed, back to `/`. */
    method Logout()
      modifies this
      ensures Valid()
      ensures user == None && store == old(store) - {"authToken", "currentUser", "rememberMe"}
      ensures route == Some("/") && loading == old(loading)
    {
      user := None;
      store := store - {"authToken"};
      store := store - {"currentUser"};
      store := store - {"rememberMe"};
      route := Some("/");
    }

    /** `updateUser`: needs a user and a truthy token; `accepted` is the
        profile endpoint's `ok` (`None` when the request failed). */
    method UpdateUser(updates: UserUpdate, accepted: Option<bool>, now: string) returns (ok: bool)
      requires Valid()
      modifies this
      ensures Valid() && loading == old(loading) && route == old(route)
      ensures ok <==> old(user).Some? && Stored(old(store), "authToken") && accepted == Some(true)
      ensures ok ==> (user == Some(Merge(old(user).value, updates, now))
        && store == old(store)["currentUser" := Serialize(user.value)])
      ensures !ok ==> user == old(user) && store == old(store)
    {
      if user.None? {
        return false;
      }
      if !Stored(store, "authToken") {
        return false;
      }
      if accepted == Some(true) {
        var updated := Merge(user.value, updates, now);
        user := Some(updated);
        store := store["currentUser" := Serialize(updated)];
        return true;
      }
      return false;
    }

    /** `verifyEmail`: marks a signed-in user verified and persists it; always true. */
    method VerifyEmail() returns (r: bool)
      requires Valid()
      modifies this
      ensures Valid() && r && loading == old(loading) && route == old(route)
      ensures old(user).Some? ==> (user == Some(old(user).value.(isEmailVerified := Some(true)))
        && store == old(store)["currentUser" := Serialize(user.value)])
      ensures old(user).None? ==> user == None && store == old(store)
    {
      if user.Some? {
        var updated := user.value.(isEmailVerified := Some(true));
        user := Some(updated);
        store := store["currentUser" := Serialize(updated)];
      }
      r := true;
    }

    /** `changePassword` is a placeholder that always succeeds. */
    method ChangePassword(current: string, next: string) returns (r: bool)
      ensures r
    {
      r := true;
    }

    /** `refreshSession` is a placeholder that always succeeds. */
    method RefreshSession() returns (r: bool)
      ensures r
    {
      r := true;
    }

    /** `resetPassword`: the endpoint's `ok`, or false when the request fails. */
    method ResetPassword(status: Option<int>) returns (r: bool)
      ensures r <==> status.Some? && IsOk(status.value)
    {
      r := status.Some? && IsOk(status.value);
    }
  }
}
