/**
 * What the page handlers do that is visible outside their own state: actions of the
 * authentication slice (whose reducer is not part of this model, so they are only
 * recorded), requests, and navigations. Also the object-spread field update that every
 * form's `handleChange` performs.
 */
module Ui {
  import opened Users

  /** Actions of the authentication slice, recorded as events only. */
  datatype AuthAction =
    | LoginStart
    | LoginSuccess(user: User, portalType: string)
    | LoginFailure(message: string)
    | Logout

  /** One externally visible step of a handler, in the order it happened. */
  datatype Effect =
    | Dispatch(action: AuthAction)
    | Request(endpoint: string, body: map<string, string>)
    | Navigate(path: string)

  /** `{...form, [name]: value}`: only the named field changes; a new name adds a field. */
  function Updated<V>(form: map<string, V>, name: string, value: V): (r: map<string, V>)
    ensures r.Keys == form.Keys + {name}
    ensures name in r && r[name] == value
    ensures forall k :: k in form && k != name ==> r[k] == form[k]
  {
    form[name := value]
  }
}
