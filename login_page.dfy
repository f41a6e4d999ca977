/**
 * The login page: a three-field form whose portal type defaults to `employee`, and a
 * submit handler that dispatches the authentication slice's start action, calls the
 * auth service, then dispatches success and navigates to the chosen portal's dashboard,
 * or dispatches and shows the failure.
 */
module LoginPage {
  import opened Wrappers
  import opened Browser
  import opened Users
  import opened Ui
  import Api
  import AuthService

  const InitialForm: map<string, string> := map["email" := "", "password" := "", "portalType" := "employee"]
  const DefaultLoginError := "Login failed. Please try again."
  const AdminDashboard := "/admin-dashboard"
  const EmployeeDashboard := "/employee-dashboard"

  /** The portal chosen on the form decides the dashboard: the admin one exactly for `admin`. */
  function DashboardFor(portalType: string): (path: string)
    ensures path == AdminDashboard <==> portalType == "admin"
    ensures path != AdminDashboard ==> path == EmployeeDashboard
  {
    if portalType == "admin" then AdminDashboard else EmployeeDashboard
  }

  /** `err.message || 'Login failed. Please try again.'`: never empty. */
  function LoginErrorMessage(t: Api.Thrown): (m: string)
    ensures m != ""
    ensures Truthy(Api.MessageOf(t)) ==> m == Api.MessageOf(t).value
    ensures !Truthy(Api.MessageOf(t)) ==> m == DefaultLoginError
  {
    OrElse(Api.MessageOf(t), DefaultLoginError)
  }

  /**
   * The requests the service sends for one login: `POST /login`, then `GET /getAll`
   * exactly when the answer's user has no type.
   */
  function ServiceRequests(email: string, password: string, reply: Api.Reply): (rs: seq<Effect>)
    ensures |rs| >= 1 && rs[0] == Request("/login", map["email" := email, "password" := password])
    ensures Request("/getAll", map[]) in rs <==> Api.NeedsListing(reply)
    ensures |rs| == if Api.NeedsListing(reply) then 2 else 1
  {
    [Request("/login", map["email" := email, "password" := password])]
      + (if Api.NeedsListing(reply) then [Request("/getAll", map[])] else [])
  }

  /** What the handler does once the service has settled. */
  function Settled(email: string, portalType: string, r: Result<Api.ResponseData, Api.Thrown>): seq<Effect> {
    match r
    case Ok(_) => [Dispatch(LoginSuccess(User(email, None, None), portalType)), Navigate(DashboardFor(portalType))]
    case Err(t) => [Dispatch(LoginFailure(LoginErrorMessage(t)))]
  }

  /**
   * On success the dispatched user is the form's e-mail alone and the portal is the
   * form's choice: nothing the server returned (its user, its type) reaches the store or
   * the navigation.
   */
  lemma ServerDataIgnored(email: string, portalType: string, a: Api.ResponseData, b: Api.ResponseData)
    ensures Settled(email, portalType, Ok(a)) == Settled(email, portalType, Ok(b))
    ensures Settled(email, portalType, Ok(a))[0].action.portalType == portalType
    ensures Settled(email, portalType, Ok(a))[0].action.user == User(email, None, None)
  {
  }

  /** A failure dispatches its message and navigates nowhere. */
  lemma NoNavigationOnFailure(email: string, portalType: string, t: Api.Thrown)
    ensures Settled(email, portalType, Err(t)) == [Dispatch(LoginFailure(LoginErrorMessage(t)))]
    ensures forall e :: e in Settled(email, portalType, Err(t)) ==> !e.Navigate?
  {
  }

  /** A server error body without a `message`, or a transport error with an empty one, shows the fallback. */
  lemma FallbackWhenNoMessage(b: Api.ErrorBody, f: Api.HttpFailure)
    requires b.message.None? && f.message == ""
    ensures LoginErrorMessage(Api.ServerBody(b)) == DefaultLoginError
    ensures LoginErrorMessage(Api.Transport(f)) == DefaultLoginError
  {
  }

  class Login {
    var form: map<string, string>
    var error: string
    /** Dispatches, requests and navigations, oldest first. */
    var effects: seq<Effect>
    const storage: LocalStorage

    predicate Valid()
      reads this
    {
      "email" in form && "password" in form && "portalType" in form
    }

    constructor (storage: LocalStorage)
      ensures Valid() && form == InitialForm && error == "" && effects == [] && this.storage == storage
      ensures form["portalType"] == "employee"
    {
      form := InitialForm;
      error := "";
      effects := [];
      this.storage := storage;
    }

    /** `handleChange`: updates only the named field. */
    method HandleChange(name: string, value: string)
      requires Valid()
      modifies this`form
      ensures Valid() && form == Updated(old(form), name, value)
    {
      form := form[name := value];
    }

    /** `handleSubmit`: clear the error, dispatch the start, call the service (its requests are logged), then settle. */
    method HandleSubmit(reply: Api.Reply, listing: Option<seq<User>>)
      requires Valid()
      modifies this`error, this`effects, storage
      ensures var email, password := form["email"], form["password"];
        var r := Api.LoginResult(email, reply, listing);
        && effects == old(effects) + [Dispatch(LoginStart)] + ServiceRequests(email, password, reply)
                       + Settled(email, form["portalType"], r)
        && error == (if r.Ok? then "" else LoginErrorMessage(r.error))
      ensures reply.Responded? ==> storage.entries == Api.StoreToken(old(storage.entries), reply.data)
      ensures reply.Threw? ==> storage.entries == old(storage.entries)
    {
      error := "";
      var email, password, portalType := form["email"], form["password"], form["portalType"];
      effects := effects + [Dispatch(LoginStart)] + ServiceRequests(email, password, reply);
      var r := AuthService.Login(storage, email, password, reply, listing);
      match r {
        case Ok(_) =>
          effects := effects + [Dispatch(LoginSuccess(User(email, None, None), portalType))];
          effects := effects + [Navigate(DashboardFor(portalType))];
        case Err(t) =>
          var message := LoginErrorMessage(t);
          effects := effects + [Dispatch(LoginFailure(message))];
          error := message;
      }
    }
  }
}
