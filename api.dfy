/**
 * The HTTP client shared by the auth services: the request rule that attaches the
 * bearer token, and the `authService` object's login (token persistence and type
 * back-fill), register (token persistence and error classification) and logout.
 */
module Api {
  import opened Wrappers
  import opened Browser
  import opened Users

  type Headers = map<string, string>

  const AuthorizationHeader := "Authorization"
  const NoResponseMessage := "No response from server. Please try again."
  const DefaultUserType := "employee"

  /** The request interceptor: `Authorization: Bearer <token>` is set exactly when a token is stored (and not empty). */
  function WithAuthorization(headers: Headers, entries: Entries): (r: Headers)
    ensures Truthy(Lookup(entries, TokenKey)) ==>
      r == headers[AuthorizationHeader := "Bearer " + entries[TokenKey]]
    ensures !Truthy(Lookup(entries, TokenKey)) ==> r == headers
  {
    var token := Lookup(entries, TokenKey);
    if Truthy(token) then headers[AuthorizationHeader := "Bearer " + token.value] else headers
  }

  /** For a request that starts without the header, it carries one exactly when a token is stored. */
  lemma BearerIffToken(headers: Headers, entries: Entries)
    requires AuthorizationHeader !in headers
    ensures AuthorizationHeader in WithAuthorization(headers, entries) <==> TokenKey in entries && entries[TokenKey] != ""
    ensures AuthorizationHeader in WithAuthorization(headers, entries) ==>
      WithAuthorization(headers, entries)[AuthorizationHeader] == "Bearer " + entries[TokenKey]
    ensures forall h :: h in headers ==> h in WithAuthorization(headers, entries) && WithAuthorization(headers, entries)[h] == headers[h]
  {
  }

  /** The body of a successful login or register response; either field may be missing. */
  datatype ResponseData = ResponseData(token: Option<string>, user: Option<User>)

  /** The body of an error response, as far as the client reads it. */
  datatype ErrorBody = ErrorBody(error: Option<string>, message: Option<string>)

  /** A failed request: the server's response if there was one, whether the request went out, and the error's message. */
  datatype HttpFailure = HttpFailure(response: Option<ErrorBody>, requestSent: bool, message: string)

  /** What login throws: the server's body when there was a response, otherwise the transport error itself. */
  datatype Thrown = ServerBody(body: ErrorBody) | Transport(failure: HttpFailure)

  /** The `message` property of a thrown value. */
  function MessageOf(t: Thrown): (m: Option<string>)
    ensures t.Transport? ==> m == Some(t.failure.message)
    ensures t.ServerBody? ==> m == t.body.message
  {
    match t
    case ServerBody(b) => b.message
    case Transport(f) => Some(f.message)
  }

  /** How the server answered a request: with a body, or not at all. */
  datatype Reply = Responded(data: ResponseData) | Threw(failure: HttpFailure)

  /** The first user in the list with the given e-mail, as `users.find(...)` returns it. */
  function FirstWithEmail(users: seq<User>, email: string): (r: Option<nat>)
    ensures r.Some? ==> r.value < |users| && users[r.value].email == email
    ensures r.Some? ==> forall j :: 0 <= j < r.value ==> users[j].email != email
    ensures r.None? ==> forall j :: 0 <= j < |users| ==> users[j].email != email
  {
    if users == [] then None
    else if users[0].email == email then Some(0)
    else match FirstWithEmail(users[1..], email)
      case None => None
      case Some(i) => Some(i + 1)
  }

  /**
   * The type back-fill: a user without a type takes it from the first listed user with
   * the login e-mail, `employee` when that one has none either. A failed listing
   * (`None`) or no match leaves the user as it is.
   */
  function Backfilled(user: User, email: string, listing: Option<seq<User>>): (r: User)
    ensures r.email == user.email && r.fullName == user.fullName
    ensures Truthy(user.userType) || listing.None? ==> r == user
    ensures !Truthy(user.userType) && listing.Some? && FirstWithEmail(listing.value, email).None? ==> r == user
    ensures !Truthy(user.userType) && listing.Some? && FirstWithEmail(listing.value, email).Some? ==>
      r.userType == Some(OrElse(listing.value[FirstWithEmail(listing.value, email).value].userType, DefaultUserType))
  {
    if Truthy(user.userType) || listing.None? then user
    else match FirstWithEmail(listing.value, email)
      case None => user
      case Some(i) => user.(userType := Some(OrElse(listing.value[i].userType, DefaultUserType)))
  }

  /** Once some listed user matches, the back-filled user has a non-empty type. */
  lemma BackfillGivesType(user: User, email: string, users: seq<User>, k: nat)
    requires k < |users| && users[k].email == email
    ensures Truthy(Backfilled(user, email, Some(users)).userType)
  {
  }

  /** The storage after a response: the token is written only when it is present and non-empty. */
  function StoreToken(entries: Entries, data: ResponseData): (r: Entries)
    ensures Truthy(data.token) ==> r == entries[TokenKey := data.token.value]
    ensures !Truthy(data.token) ==> r == entries
  {
    if Truthy(data.token) then entries[TokenKey := data.token.value] else entries
  }

  /** The login answer has a user without a type, so the client also sends `GET /getAll` before it resolves. */
  predicate NeedsListing(reply: Reply) {
    reply.Responded? && reply.data.user.Some? && !Truthy(reply.data.user.value.userType)
  }

  /** The listing's answer matters only when the listing is requested. */
  lemma ListingOnlyWhenRequested(email: string, reply: Reply, l1: Option<seq<User>>, l2: Option<seq<User>>)
    requires !NeedsListing(reply)
    ensures LoginResult(email, reply, l1) == LoginResult(email, reply, l2)
  {
  }

  /** What `authService.login` resolves or rejects with. */
  function LoginResult(email: string, reply: Reply, listing: Option<seq<User>>): (r: Result<ResponseData, Thrown>)
    ensures reply.Responded? <==> r.Ok?
    ensures reply.Responded? ==> r.value.token == reply.data.token
    ensures reply.Responded? ==> (r.value.user.Some? <==> reply.data.user.Some?)
    ensures reply.Responded? && reply.data.user.Some? ==> r.value.user == Some(Backfilled(reply.data.user.value, email, listing))
    ensures reply.Threw? && reply.failure.response.Some? ==> r == Err(ServerBody(reply.failure.response.value))
    ensures reply.Threw? && reply.failure.response.None? ==> r == Err(Transport(reply.failure))
  {
    match reply
    case Responded(data) =>
      if data.user.Some? then Ok(data.(user := Some(Backfilled(data.user.value, email, listing)))) else Ok(data)
    case Threw(f) =>
      if f.response.Some? then Err(ServerBody(f.response.value)) else Err(Transport(f))
  }

  /** The register error classification: the server's body, "no response", or the setup error's message. */
  function ClassifyRegisterError(f: HttpFailure): (b: ErrorBody)
    ensures f.response.Some? ==> b == f.response.value
    ensures f.response.None? && f.requestSent ==> b == ErrorBody(Some(NoResponseMessage), None)
    ensures f.response.None? && !f.requestSent ==> b == ErrorBody(Some(f.message), None)
  {
    if f.response.Some? then f.response.value
    else if f.requestSent then ErrorBody(Some(NoResponseMessage), None)
    else ErrorBody(Some(f.message), None)
  }

  /** What `authService.register` resolves or rejects with. */
  function RegisterResult(reply: Reply): (r: Result<ResponseData, ErrorBody>)
    ensures reply.Responded? ==> r == Ok(reply.data)
    ensures reply.Threw? ==> r == Err(ClassifyRegisterError(reply.failure))
  {
    match reply
    case Responded(data) => Ok(data)
    case Threw(f) => Err(ClassifyRegisterError(f))
  }

  /** `authService.login`: persists the token only, never the user, and returns the back-filled body. */
  method Login(storage: LocalStorage, email: string, password: string, reply: Reply, listing: Option<seq<User>>)
      returns (r: Result<ResponseData, Thrown>)
    modifies storage
    ensures r == LoginResult(email, reply, listing)
    ensures reply.Responded? ==> storage.entries == StoreToken(old(storage.entries), reply.data)
    ensures reply.Threw? ==> storage.entries == old(storage.entries)
  {
    match reply {
      case Responded(data) =>
        if Truthy(data.token) {
          storage.SetItem(TokenKey, data.token.value);
        }
        if NeedsListing(reply) {
          r := Ok(data.(user := Some(Backfilled(data.user.value, email, listing))));
        } else {
          r := Ok(data);
        }
      case Threw(f) =>
        r := Err(if f.response.Some? then ServerBody(f.response.value) else Transport(f));
    }
  }

  /** `authService.register`: persists the token when the body has one, and classifies failures. */
  method Register(storage: LocalStorage, reply: Reply) returns (r: Result<ResponseData, ErrorBody>)
    modifies storage
    ensures r == RegisterResult(reply)
    ensures reply.Responded? ==> storage.entries == StoreToken(old(storage.entries), reply.data)
    ensures reply.Threw? ==> storage.entries == old(storage.entries)
  {
    match reply {
      case Responded(data) =>
        if Truthy(data.token) {
          storage.SetItem(TokenKey, data.token.value);
        }
        r := Ok(data);
      case Threw(f) =>
        r := Err(ClassifyRegisterError(f));
    }
  }

  /** `authService.logout`: removes the token and nothing else; the persisted user stays. */
  method Logout(storage: LocalStorage)
    modifies storage
    ensures storage.entries == old(storage.entries) - {TokenKey}
    ensures UserKey in old(storage.entries) ==> UserKey in storage.entries && storage.entries[UserKey] == old(storage.entries)[UserKey]
  {
    storage.RemoveItem(TokenKey);
  }
}
