/**
 * The authentication context provider: the in-memory user, a `loading` flag cleared
 * once the persisted session has been read back on mount, and the operations that
 * write the session to storage and memory together (six sign-in variants, the bridge
 * for the third-party provider, logout). The pure functions over `Session` are the
 * specification; `AuthProvider` performs them step by step on its fields and on the
 * shared `LocalStorage`.
 */
module AuthContext {
  import opened Wrappers
  import opened Browser
  import opened Users

  /** The response body of every sign-in endpoint. */
  datatype AuthData = AuthData(token: string, user: User)

  /** How the server answered: with a body, or with an error whose body may carry a `message`. */
  datatype AuthReply = Accepted(data: AuthData) | Rejected(message: Option<string>)

  /** The six operations that open a session. */
  datatype SignInKind =
    | Login | LoginWithGoogle | LoginWithFacebook
    | Register | RegisterWithGoogle | RegisterWithFacebook

  /** The path each operation posts to, relative to the client's base URL. */
  function Endpoint(kind: SignInKind): string {
    match kind
    case Login => "/login"
    case LoginWithGoogle => "/auth/google"
    case LoginWithFacebook => "/auth/facebook"
    case Register => "/create"
    case RegisterWithGoogle => "/auth/google/register"
    case RegisterWithFacebook => "/auth/facebook/register"
  }

  /** The message thrown when the server gave none. */
  function FallbackMessage(kind: SignInKind): (m: string)
    ensures m != ""
  {
    match kind
    case Login => "Login failed"
    case LoginWithGoogle => "Google login failed"
    case LoginWithFacebook => "Facebook login failed"
    case Register => "Registration failed"
    case RegisterWithGoogle => "Google registration failed"
    case RegisterWithFacebook => "Facebook registration failed"
  }

  /** The in-memory user together with the persisted entries. */
  datatype Session = Session(user: Option<User>, entries: Entries)

  /** The mount effect: restore the user from a stored token and user; clear both if the user does not parse. */
  function Restore(s: Session): Session {
    var token := Lookup(s.entries, TokenKey);
    var data := Lookup(s.entries, UserKey);
    if Truthy(token) && Truthy(data) then
      match Decode(data.value)
      case Some(u) => Session(Some(u), s.entries)
      case None => Session(None, s.entries - {TokenKey, UserKey})
    else s
  }

  /** The user a fresh page load would restore from these entries. */
  function Reloaded(entries: Entries): Option<User> {
    Restore(Session(None, entries)).user
  }

  /** Memory and storage agree: reloading the page would restore the same user. */
  predicate Agrees(s: Session) {
    s.user == Reloaded(s.entries)
  }

  /** The session after a sign-in answer: on success both keys and the user are written; on failure nothing changes. */
  function SignedIn(s: Session, reply: AuthReply): Session {
    match reply
    case Accepted(d) => Session(Some(d.user), s.entries[TokenKey := d.token][UserKey := Encode(d.user)])
    case Rejected(_) => s
  }

  /** What a sign-in operation returns or throws. */
  function SignInResult(kind: SignInKind, reply: AuthReply): (r: Result<AuthData, string>)
    ensures reply.Accepted? <==> r.Ok?
    ensures reply.Accepted? ==> r.value == reply.data
    ensures reply.Rejected? ==> r.error != ""
    ensures reply.Rejected? && Truthy(reply.message) ==> r.error == reply.message.value
    ensures reply.Rejected? && !Truthy(reply.message) ==> r.error == FallbackMessage(kind)
  {
    match reply
    case Accepted(d) => Ok(d)
    case Rejected(m) => Err(OrElse(m, FallbackMessage(kind)))
  }

  /** The session after logout: no user, neither key. */
  function LoggedOut(s: Session): Session {
    Session(None, s.entries - {TokenKey, UserKey})
  }

  /** The third-party provider's profile, as sent to the bridge endpoint. */
  datatype ProviderProfile = ProviderProfile(email: string, name: string, sub: string)

  /** The bridge to the third-party provider: runs only for an authenticated profile; a failure is swallowed. */
  function Bridged(s: Session, providerAuthenticated: bool, profile: Option<ProviderProfile>, reply: AuthReply): Session {
    if providerAuthenticated && profile.Some? then SignedIn(s, reply) else s
  }

  /** The context's `isAuthenticated`: a user in memory, or the third-party provider says so. */
  function ContextIsAuthenticated(user: Option<User>, providerAuthenticated: bool): (r: bool)
    ensures r <==> user.Some? || providerAuthenticated
  {
    user.Some? || providerAuthenticated
  }

  /** `useAuth`: the provided context, or the error thrown outside a provider. */
  function UseAuth<T>(context: Option<T>): (r: Result<T, string>)
    ensures r.Err? <==> context.None?
    ensures context.Some? ==> r == Ok(context.value)
    ensures context.None? ==> r.error == "useAuth must be used within an AuthProvider"
  {
    match context
    case Some(c) => Ok(c)
    case None => Err("useAuth must be used within an AuthProvider")
  }

  /**
   * A successful sign-in writes the token and the serialised user and sets the user in
   * memory; the persisted user reads back as that user, so a reload agrees exactly
   * when the token is not empty.
   */
  lemma {:induction false} SignInPersists(s: Session, d: AuthData, providerAuthenticated: bool)
    ensures var t := SignedIn(s, Accepted(d));
      && t.user == Some(d.user)
      && TokenKey in t.entries && t.entries[TokenKey] == d.token
      && UserKey in t.entries && Decode(t.entries[UserKey]) == Some(d.user)
      && (forall k :: k in s.entries && k != TokenKey && k != UserKey ==> k in t.entries && t.entries[k] == s.entries[k])
      && ContextIsAuthenticated(t.user, providerAuthenticated)
      && (Agrees(t) <==> d.token != "")
  {
    DecodeEncode(d.user);
    var t := SignedIn(s, Accepted(d));
    assert Lookup(t.entries, UserKey) == Some(Encode(d.user));
    assert Lookup(t.entries, TokenKey) == Some(d.token);
  }

  /** A rejected sign-in, and a bridge call that fails, leave memory and storage as they were. */
  lemma RejectionChangesNothing(s: Session, m: Option<string>, providerAuthenticated: bool, profile: Option<ProviderProfile>)
    ensures SignedIn(s, Rejected(m)) == s
    ensures Bridged(s, providerAuthenticated, profile, Rejected(m)) == s
  {
  }

  /** Logout clears memory and both keys, agrees with storage, and is idempotent. */
  lemma LogoutClears(s: Session, providerAuthenticated: bool)
    ensures LoggedOut(s).user == None
    ensures TokenKey !in LoggedOut(s).entries && UserKey !in LoggedOut(s).entries
    ensures forall k :: k in s.entries && k != TokenKey && k != UserKey ==> k in LoggedOut(s).entries
    ensures Agrees(LoggedOut(s))
    ensures LoggedOut(LoggedOut(s)) == LoggedOut(s)
    ensures ContextIsAuthenticated(LoggedOut(s).user, providerAuthenticated) == providerAuthenticated
  {
  }

  /** Read back on mount from a fresh provider, the session agrees with storage; reading it back again changes nothing. */
  lemma RestoreAgrees(s: Session)
    requires s.user == None
    ensures Agrees(Restore(s))
    ensures Restore(Restore(s)) == Restore(s)
    ensures Restore(s).entries.Keys <= s.entries.Keys
  {
  }

  /** A stored user that does not parse is cleared with the token, so nothing is restored. */
  lemma RestoreClearsUnparsable(s: Session)
    requires TokenKey in s.entries && s.entries[TokenKey] != ""
    requires UserKey in s.entries && s.entries[UserKey] != "" && Decode(s.entries[UserKey]) == None
    ensures Restore(s) == LoggedOut(s)
  {
  }

  /** The mount effect's error path is reachable: a stored token next to a non-empty, unparsable user clears both. */
  lemma MountClearsCorruptUser()
    ensures Restore(Session(None, map[TokenKey := "t", UserKey := "x"])) == Session(None, map[])
  {
    DecodeCanFail();
  }

  class AuthProvider {
    var user: Option<User>
    var loading: bool
    const storage: LocalStorage

    constructor (storage: LocalStorage)
      ensures user == None && loading && this.storage == storage
      ensures !RendersChildren()
    {
      user := None;
      loading := true;
      this.storage := storage;
    }

    function Current(): Session
      reads this, storage
    {
      Session(user, storage.entries)
    }

    /** Children are rendered only once loading is over. */
    predicate RendersChildren()
      reads this
    {
      !loading
    }

    /** The mount effect: reads the session back, then stops loading. */
    method RestoreOnMount()
      modifies this, storage
      ensures Current() == Restore(old(Current()))
      ensures !Truthy(old(storage.GetItem(TokenKey))) ==> user == old(user) && storage.entries == old(storage.entries)
      ensures RendersChildren()
    {
      var token := storage.GetItem(TokenKey);
      if Truthy(token) {
        var data := storage.GetItem(UserKey);
        if Truthy(data) {
          match Decode(data.value) {
            case Some(u) =>
              user := Some(u);
            case None =>
              storage.RemoveItem(TokenKey);
              storage.RemoveItem(UserKey);
              user := None;
              assert storage.entries == old(storage.entries) - {TokenKey, UserKey};
          }
        }
      }
      loading := false;
    }

    /** Any of the six sign-in operations, given how the server answered. */
    method SignIn(kind: SignInKind, reply: AuthReply) returns (r: Result<AuthData, string>)
      modifies this, storage
      ensures r == SignInResult(kind, reply)
      ensures Current() == SignedIn(old(Current()), reply)
      ensures loading == old(loading)
    {
      match reply {
        case Accepted(d) =>
          storage.SetItem(TokenKey, d.token);
          storage.SetItem(UserKey, Encode(d.user));
          user := Some(d.user);
          r := Ok(d);
        case Rejected(m) =>
          r := Err(OrElse(m, FallbackMessage(kind)));
      }
    }

    /** The third-party bridge effect; an error is logged and swallowed. */
    method HandleProviderUser(providerAuthenticated: bool, profile: Option<ProviderProfile>, reply: AuthReply)
      modifies this, storage
      ensures Current() == Bridged(old(Current()), providerAuthenticated, profile, reply)
      ensures loading == old(loading)
    {
      if providerAuthenticated && profile.Some? {
        match reply {
          case Accepted(d) =>
            storage.SetItem(TokenKey, d.token);
            storage.SetItem(UserKey, Encode(d.user));
            user := Some(d.user);
          case Rejected(_) =>
        }
      }
    }

    method Logout()
      modifies this, storage
      ensures Current() == LoggedOut(old(Current()))
      ensures loading == old(loading)
    {
      storage.RemoveItem(TokenKey);
      storage.RemoveItem(UserKey);
      user := None;
      assert storage.entries == old(storage.entries) - {TokenKey, UserKey};
    }
  }
}
