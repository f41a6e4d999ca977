/**
 * The thin service layer over the HTTP client's `authService`: login passes results and
 * errors through, register forwards exactly four fields of its input, logout delegates.
 */
module AuthService {
  import opened Wrappers
  import opened Browser
  import opened Users
  import Api

  /** A plain object passed by a caller: property name to text; an absent property is `undefined`. */
  type Fields = map<string, string>

  /** The object `register` forwards: exactly these four properties, each possibly `undefined`. */
  datatype Registration = Registration(fullName: Option<string>, email: Option<string>,
                                       password: Option<string>, userType: Option<string>)

  /** `{fullName, email, password, type}` copied from the input, and nothing else. */
  function RegistrationPayload(input: Fields): (r: Registration)
    ensures r.fullName == Lookup(input, "fullName") && r.email == Lookup(input, "email")
    ensures r.password == Lookup(input, "password") && r.userType == Lookup(input, "type")
  {
    Registration(Lookup(input, "fullName"), Lookup(input, "email"), Lookup(input, "password"), Lookup(input, "type"))
  }

  /** Any other property of the input (a `name`, a `confirmPassword`) has no influence on what is sent. */
  lemma PayloadIgnoresOtherFields(a: Fields, b: Fields)
    requires forall k :: k in {"fullName", "email", "password", "type"} ==> Lookup(a, k) == Lookup(b, k)
    ensures RegistrationPayload(a) == RegistrationPayload(b)
  {
    assert Lookup(a, "fullName") == Lookup(b, "fullName");
    assert Lookup(a, "email") == Lookup(b, "email");
    assert Lookup(a, "password") == Lookup(b, "password");
    assert Lookup(a, "type") == Lookup(b, "type");
  }

  /** `login`: the client's result, value or error, unchanged; storage as the client leaves it. */
  method Login(storage: LocalStorage, email: string, password: string, reply: Api.Reply, listing: Option<seq<User>>)
      returns (r: Result<Api.ResponseData, Api.Thrown>)
    modifies storage
    ensures r == Api.LoginResult(email, reply, listing)
    ensures reply.Responded? ==> storage.entries == Api.StoreToken(old(storage.entries), reply.data)
    ensures reply.Threw? ==> storage.entries == old(storage.entries)
  {
    r := Api.Login(storage, email, password, reply, listing);
  }

  /** `register`: forwards the four-field projection of the input, and the client's result unchanged. */
  method Register(storage: LocalStorage, input: Fields, reply: Api.Reply)
      returns (sent: Registration, r: Result<Api.ResponseData, Api.ErrorBody>)
    modifies storage
    ensures sent == RegistrationPayload(input)
    ensures r == Api.RegisterResult(reply)
    ensures reply.Responded? ==> storage.entries == Api.StoreToken(old(storage.entries), reply.data)
    ensures reply.Threw? ==> storage.entries == old(storage.entries)
  {
    sent := RegistrationPayload(input);
    r := Api.Register(storage, reply);
  }

  /** `logout`: the client's logout, so only the token goes. */
  method Logout(storage: LocalStorage)
    modifies storage
    ensures storage.entries == old(storage.entries) - {TokenKey}
  {
    Api.Logout(storage);
  }
}
