/**
 * The sign-up page: a four-field form and a submit handler that rejects mismatched
 * passwords before anything is sent, otherwise registers through the authentication
 * context and navigates to the job list, or shows the error.
 */
module SignupPage {
  import opened Wrappers
  import opened Ui
  import AuthContext

  const InitialForm: map<string, string> :=
    map["fullName" := "", "email" := "", "password" := "", "confirmPassword" := ""]
  const MismatchError := "Passwords do not match"
  const DefaultRegisterError := "Registration failed. Please try again."
  const AfterSignup := "/jobs"

  predicate HasFields(form: map<string, string>) {
    "fullName" in form && "email" in form && "password" in form && "confirmPassword" in form
  }

  /** The body handed to `register`: the full name under `name`, the e-mail and the password; no confirmation, no type. */
  function RegisterBody(form: map<string, string>): (body: map<string, string>)
    requires HasFields(form)
    ensures body.Keys == {"name", "email", "password"}
    ensures body["name"] == form["fullName"] && body["email"] == form["email"] && body["password"] == form["password"]
  {
    map["name" := form["fullName"], "email" := form["email"], "password" := form["password"]]
  }

  /** `err.message || 'Registration failed. Please try again.'`. */
  function SignupErrorMessage(message: string): (m: string)
    ensures message != "" ==> m == message
    ensures message == "" ==> m == DefaultRegisterError
  {
    if message != "" then message else DefaultRegisterError
  }

  /**
   * The context's register always throws a non-empty message (the server's or its own
   * fallback), so the page shows exactly that message and its own fallback is never used.
   */
  lemma ContextMessageShown(reply: AuthContext.AuthReply)
    requires reply.Rejected?
    ensures var thrown := AuthContext.SignInResult(AuthContext.Register, reply).error;
      SignupErrorMessage(thrown) == thrown
  {
  }

  class Signup {
    var form: map<string, string>
    var error: string
    /** Requests and navigations, oldest first. */
    var effects: seq<Effect>
    const auth: AuthContext.AuthProvider

    predicate Valid()
      reads this
    {
      HasFields(form)
    }

    constructor (auth: AuthContext.AuthProvider)
      ensures Valid() && form == InitialForm && error == "" && effects == [] && this.auth == auth
    {
      form := InitialForm;
      error := "";
      effects := [];
      this.auth := auth;
    }

    /** `handleChange`: updates only the named field. */
    method HandleChange(name: string, value: string)
      requires Valid()
      modifies this`form
      ensures Valid() && form == Updated(old(form), name, value)
    {
      form := form[name := value];
    }

    /** `handleSubmit`, given how the server answers the registration if it is sent. */
    method HandleSubmit(reply: AuthContext.AuthReply)
      requires Valid()
      modifies this`error, this`effects, auth, auth.storage
      ensures form["password"] != form["confirmPassword"] ==>
        && error == MismatchError
        && effects == old(effects)
        && auth.Current() == old(auth.Current()) && auth.loading == old(auth.loading)
      ensures form["password"] == form["confirmPassword"] ==>
        && effects == old(effects) + [Request(AuthContext.Endpoint(AuthContext.Register), RegisterBody(form))]
                       + (if reply.Accepted? then [Navigate(AfterSignup)] else [])
        && auth.Current() == AuthContext.SignedIn(old(auth.Current()), reply)
        && auth.loading == old(auth.loading)
        && error == (if reply.Accepted? then ""
                     else SignupErrorMessage(AuthContext.SignInResult(AuthContext.Register, reply).error))
    {
      error := "";
      if form["password"] != form["confirmPassword"] {
        error := MismatchError;
        return;
      }
      var body := RegisterBody(form);
      effects := effects + [Request(AuthContext.Endpoint(AuthContext.Register), body)];
      var r := auth.SignIn(AuthContext.Register, reply);
      match r {
        case Ok(_) =>
          effects := effects + [Navigate(AfterSignup)];
        case Err(message) =>
          error := SignupErrorMessage(message);
      }
    }
  }
}
