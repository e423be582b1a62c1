/** The login form (`LoginSection`): a two-field draft with per-field error
    lists, and a submit that opens the session with the token the server returns. */
module Login {
  import opened Types
  import opened Effects

  datatype LoginField = Username | Password

  type LoginErrors = map<LoginField, seq<string>>

  const InitialData := LoginData("", "")
  const InitialErrors: LoginErrors := map[Username := [], Password := []]

  function FieldValue(d: LoginData, field: LoginField): string
  {
    match field
    case Username => d.username
    case Password => d.password
  }

  /** `{...prevState, [name]: value}` on the draft: the named field takes the
      value and the other field keeps its own. */
  function WithField(d: LoginData, field: LoginField, value: string): (r: LoginData)
    ensures FieldValue(r, field) == value
    ensures forall g :: g != field ==> FieldValue(r, g) == FieldValue(d, g)
  {
    match field
    case Username => d.(username := value)
    case Password => d.(password := value)
  }

  /** Writing a field back to the value it had restores the draft. */
  lemma WithFieldRevert(d: LoginData, field: LoginField, value: string)
    ensures WithField(WithField(d, field, value), field, FieldValue(d, field)) == d
  {
  }

  /** Every error list is empty. */
  predicate NoErrors(errors: LoginErrors)
  {
    forall f :: f in errors ==> errors[f] == []
  }

  class LoginSection {
    var loginData: LoginData
    var loginErrors: LoginErrors
    ghost var trace: seq<Event>

    /** Nothing in this component ever adds an error message. */
    ghost predicate Valid()
      reads this
    {
      loginErrors.Keys == {Username, Password} && NoErrors(loginErrors)
    }

    constructor ()
      ensures Valid()
      ensures loginData == InitialData && loginErrors == InitialErrors && trace == []
    {
      loginData := InitialData;
      loginErrors := InitialErrors;
      trace := [];
    }

    /** `handleInputChange` for the input named `field`. */
    method HandleInputChange(field: LoginField, value: string)
      requires Valid()
      modifies this
      ensures Valid()
      ensures loginErrors == old(loginErrors)[field := []]
      ensures loginData == WithField(old(loginData), field, value)
      ensures trace == old(trace)
    {
      loginErrors := loginErrors[field := []];
      loginData := WithField(loginData, field, value);
    }

    /** `handleFormSubmit`; `response` is the token `userLogin` returns, None
        standing for `success: false`. */
    method HandleFormSubmit(response: Option<string>)
      requires Valid()
      modifies this
      ensures Valid()
      ensures loginData == old(loginData) && loginErrors == old(loginErrors)
      ensures response.Some? ==>
        trace == old(trace) + [Remote(UserLogin(loginData)), Remote(CreateUserSession(response.value)),
                               Toast(Success, "Login realizado"), ScheduleReload]
      ensures response.None? ==>
        trace == old(trace) + [Remote(UserLogin(loginData)), Toast(Warning, "Usuário não encontrado")]
    {
      trace := trace + [Remote(UserLogin(loginData))];
      if response.Some? {
        trace := trace + [Remote(CreateUserSession(response.value))];
        trace := trace + [Toast(Success, "Login realizado")];
        trace := trace + [ScheduleReload];
      } else {
        trace := trace + [Toast(Warning, "Usuário não encontrado")];
      }
    }
  }
}
