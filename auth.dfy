/** The session: who is signed in, restored from browser storage on start,
    set by login and cleared by logout. Storage is a map from keys to text,
    the clock is a `now` parameter and the server's replies are inputs. */
module Auth {
  import opened Wrappers
  import opened JsText
  import opened JsNumber
  import opened UserJson
  import opened Storage

  /** `localStorage.getItem('max_age') || '0'`. */
  function StoredExpiry(store: Store): string {
    var m := Get(store, MaxAge);
    if Truthy(m) then m.value else "0"
  }

  /** A stored user exists and the stored expiry, read with `parseInt`, lies
      strictly after `now`. */
  predicate SessionLive(store: Store, now: int) {
    Truthy(Get(store, UserKey)) && Greater(ParseInt(StoredExpiry(store)), now)
  }

  /** The initial value of `user`: the parsed stored user while the session is
      live, no user otherwise; `JSON.parse` fails on unreadable text. */
  function InitialUser(store: Store, now: int): (r: Result<Option<User>, string>)
    ensures !SessionLive(store, now) ==> r == Ok(None)
    ensures r.Ok? && r.value.Some? ==>
      SessionLive(store, now) && DecodeUser(store[UserKey]) == r.value
    ensures SessionLive(store, now) && DecodeUser(store[UserKey]).Some? ==>
      r == Ok(DecodeUser(store[UserKey]))
    ensures SessionLive(store, now) && DecodeUser(store[UserKey]).None? ==> r.Err?
  {
    if SessionLive(store, now) then
      match DecodeUser(store[UserKey])
      case None => Err("SyntaxError")
      case Some(u) => Ok(Some(u))
    else Ok(None)
  }

  /** A JSON field that may hold text, hold `null`, or be missing. */
  datatype JsonText = Text(text: string) | Null | Missing

  /** The picture a reply field carries, if it is text. */
  function TextOf(o: JsonText): (r: Option<string>)
    ensures r.Some? <==> o.Text?
    ensures o.Text? ==> r.value == o.text
  {
    if o.Text? then Some(o.text) else None
  }

  /** A settled login call: not ok, ok with the user's fields, or thrown
      before any key is written (the request failed, the body was not JSON,
      or it had no `user`), with the error it threw. */
  datatype LoginReply =
    | Rejected
    | Accepted(id: int, name: string, profileImg: JsonText, token: string, maxAge: int)
    | Failed(error: string)

  /** A settled logout call: its JSON body, or the error it threw. */
  datatype LogoutReply = Replied(body: string) | Failed(error: string)

  const InvalidCredentials: string := "Credenciales Invalidas"
  const DemoName: string := "Usuario Demo"
  const DefaultAvatar: string := "https://ui-avatars.com/api/?name=Usuario+Demo&background=random"

  /** What `setItem` stores for a reply field: its text, "null" for `null`,
      or "undefined" when the field is missing. */
  function StorageText(o: JsonText): (r: string)
    ensures o.Text? ==> r == o.text
    ensures o.Null? ==> r == "null"
    ensures o.Missing? ==> r == "undefined"
  {
    match o
    case Text(t) => t
    case Null => "null"
    case Missing => "undefined"
  }

  /** The user a successful login signs in: id '1', the typed email, the demo
      name and the reply's picture, or the generated avatar when it has none. */
  function SessionUser(email: string, profileImg: Option<string>): (u: User)
    ensures u.id == "1" && u.email == email && u.name == DemoName
    ensures u.profileImg.Some? && u.profileImg.value != ""
    ensures Truthy(profileImg) ==> u.profileImg == profileImg
  {
    User("1", email, DemoName, Some(if Truthy(profileImg) then profileImg.value else DefaultAvatar))
  }

  /** The session keys a successful login leaves in storage: the reply's id,
      name, picture and token, the expiry time and the encoded user `u`. */
  predicate LoggedIn(s: Store, u: User, reply: LoginReply, now: int)
    requires reply.Accepted?
  {
    Id in s && s[Id] == IntToString(reply.id) &&
    Name in s && s[Name] == reply.name &&
    ProfileImg in s && s[ProfileImg] == StorageText(reply.profileImg) &&
    AuthToken in s && s[AuthToken] == reply.token &&
    MaxAge in s && s[MaxAge] == IntToString(now + reply.maxAge) &&
    UserKey in s && s[UserKey] == EncodeUser(u)
  }

  /** The storage after a successful login for reply `reply` signing in `u`:
      the five reply keys are written in turn, then the user. */
  function SessionStore(store: Store, reply: LoginReply, now: int, u: User): (s: Store)
    requires reply.Accepted?
    ensures LoggedIn(s, u, reply, now)
    ensures s.Keys == store.Keys + {Id, Name, ProfileImg, AuthToken, MaxAge, UserKey}
    ensures ThemeKey in store ==> s[ThemeKey] == store[ThemeKey]
  {
    store[Id := IntToString(reply.id)]
         [Name := reply.name]
         [ProfileImg := StorageText(reply.profileImg)]
         [AuthToken := reply.token]
         [MaxAge := IntToString(now + reply.maxAge)]
         [UserKey := EncodeUser(u)]
  }

  /** Reloading after a login restores the same user exactly while `now` is
      before the login time plus the reply's `maxAge`. */
  lemma ReloadAfterLogin(s: Store, u: User, reply: LoginReply, now: int, later: int)
    requires reply.Accepted? && LoggedIn(s, u, reply, now)
    ensures InitialUser(s, later) == if later < now + reply.maxAge then Ok(Some(u)) else Ok(None)
  {
    assert Truthy(Get(s, UserKey));
    LiveUntil(s, now + reply.maxAge, later);
    DecodeEncodeUser(u);
  }

  /** With a user stored, the session is live exactly before the stored expiry. */
  lemma LiveUntil(s: Store, expiry: int, later: int)
    requires Truthy(Get(s, UserKey))
    requires MaxAge in s && s[MaxAge] == IntToString(expiry)
    ensures SessionLive(s, later) <==> later < expiry
  {
    assert StoredExpiry(s) == IntToString(expiry);
    ParseIntRoundTrip(expiry);
  }

  /** The id the listing reads from storage after a login is the reply's id. */
  lemma StoredIdAfterLogin(s: Store, u: User, reply: LoginReply, now: int)
    requires reply.Accepted? && LoggedIn(s, u, reply, now)
    ensures Truthy(Get(s, Id)) && ToNumber(s[Id]) == Int(reply.id)
  {
    ToNumberRoundTrip(reply.id);
  }

  /** With nothing stored, or with no expiry stored, nobody is signed in. */
  lemma NoExpiryNoUser(store: Store, now: int)
    requires MaxAge !in store || store[MaxAge] == ""
    requires now >= 0
    ensures InitialUser(store, now) == Ok(None)
  {
    assert StoredExpiry(store) == "0";
    assert ParseInt("0") == Int(0) by {
      ParseIntRoundTrip(0);
      assert IntToString(0) == "0";
    }
  }

  class AuthProvider {
    var user: Option<User>
    /** The error that stopped the provider from mounting, if any. */
    var mountError: Option<string>
    const storage: LocalStorage

    /** Mounting reads the initial user from storage; when the stored user
        cannot be parsed, the error escapes and nobody is signed in. */
    constructor (storage: LocalStorage, now: int)
      ensures this.storage == storage
      ensures InitialUser(storage.items, now).Ok? ==>
        user == InitialUser(storage.items, now).value && mountError == None
      ensures InitialUser(storage.items, now).Err? ==>
        user == None && mountError == Some(InitialUser(storage.items, now).error)
      ensures Consistent()
    {
      this.storage := storage;
      var initial := InitialUser(storage.items, now);
      if initial.Ok? {
        user := initial.value;
        mountError := None;
      } else {
        user := None;
        mountError := Some(initial.error);
      }
    }

    /** `isAuthenticated`: a user is signed in. */
    function IsAuthenticated(): (r: bool)
      reads this
      ensures r <==> user != None
    {
      user.Some?
    }

    /** The user held in memory is the one stored under 'user'. */
    predicate Consistent()
      reads this, storage
    {
      user.Some? ==> UserKey in storage.items && DecodeUser(storage.items[UserKey]) == user
    }

    /** A rejected reply fails with 'Credenciales Invalidas' and a thrown call
        fails with its own error, both changing nothing; an accepted reply
        writes the session keys and signs the user in. */
    method Login(email: string, reply: LoginReply, now: int) returns (r: Result<(), string>)
      modifies this, storage
      ensures reply.Rejected? ==>
        r == Err(InvalidCredentials) && user == old(user) && storage.items == old(storage.items)
      ensures reply.Failed? ==>
        r == Err(reply.error) && user == old(user) && storage.items == old(storage.items)
      ensures reply.Accepted? ==>
        r.Ok? && user == Some(SessionUser(email, TextOf(reply.profileImg))) &&
        storage.items == SessionStore(old(storage.items), reply, now, user.value)
      ensures reply.Accepted? ==> Consistent()
      ensures mountError == old(mountError)
    {
      if reply.Rejected? {
        return Err(InvalidCredentials);
      } else if reply.Failed? {
        return Err(reply.error);
      }
      var signedIn := SessionUser(email, TextOf(reply.profileImg));
      user := Some(signedIn);
      storage.items := SessionStore(storage.items, reply, now, signedIn);
      DecodeEncodeUser(signedIn);
      r := Ok(());
    }

    /** Storage is cleared and the user signed out whether the call succeeds
        or fails; the body is returned, or the error rethrown. */
    method Logout(reply: LogoutReply) returns (r: Result<string, string>)
      modifies this, storage
      ensures storage.items == map[] && user == None
      ensures Consistent()
      ensures mountError == old(mountError)
      ensures reply.Replied? ==> r == Ok(reply.body)
      ensures reply.Failed? ==> r == Err(reply.error)
    {
      match reply
      case Replied(body) =>
        storage.items := map[];
        user := None;
        r := Ok(body);
      case Failed(error) =>
        storage.items := map[];
        user := None;
        r := Err(error);
    }
  }

  /** After a logout, a reload finds nobody signed in. */
  lemma ReloadAfterLogout(now: int)
    ensures InitialUser(map[], now) == Ok(None)
  {
  }

  const OutsideAuthProvider: string := "useAuth debe ser usado dentro de un AuthProvider"

  /** `useAuth`: the provider's context, or the error thrown outside one. */
  function UseAuth(context: Option<AuthProvider>): (r: Result<AuthProvider, string>)
    ensures r.Ok? <==> context.Some?
    ensures r.Ok? ==> r.value == context.value
    ensures r.Err? ==> r.error == OutsideAuthProvider
  {
    if context.None? then Err(OutsideAuthProvider) else Ok(context.value)
  }
}
