/**
 Data model of the employee login / sign-up form: the component state, the
 events that reach its handlers, the outcome of the remote call and the effects
 the form emits towards its collaborators (the auth API, the session store and
 the router).
 */
module AuthTypes {

  /** A value that may be missing, as an optional JavaScript property. */
  datatype Option<+T> = None | Some(value: T)

  /** Which remote operation the form targets (`isLoginMode`). */
  datatype Mode = LoginMode | SignupMode {

    /** The other mode: what the toggle button switches to. */
    function Flip(): (m: Mode)
      ensures m != this
      ensures m == LoginMode <==> this == SignupMode
    {
      if LoginMode? then SignupMode else LoginMode
    }
  }

  /** The three controlled text inputs of the form. */
  datatype Field = Username | Password | ConfirmPassword

  /** Current values of the controlled inputs. */
  datatype Fields = Fields(username: string, password: string, confirmPassword: string) {

    function Get(f: Field): string {
      match f
      case Username => username
      case Password => password
      case ConfirmPassword => confirmPassword
    }

    /** The inputs after one of them is set to `v`; the other two keep their values. */
    function Set(f: Field, v: string): (r: Fields)
      ensures r.Get(f) == v
      ensures forall g :: g != f ==> r.Get(g) == Get(g)
      ensures r == this <==> Get(f) == v
    {
      match f
      case Username => this.(username := v)
      case Password => this.(password := v)
      case ConfirmPassword => this.(confirmPassword := v)
    }
  }

  /** All three inputs blank: the initial values and the values after a successful submit. */
  const Blank := Fields("", "", "")

  /** A request to the auth API, with the credentials it carries. */
  datatype Call =
    | LoginCall(username: string, password: string)
    | RegisterCall(username: string, password: string)

  /** Idle shows the form; Submitting shows only the loader while `pending` is in flight. */
  datatype Phase = Idle | Submitting(pending: Call)

  /**
   Local state of the form. `error` is the text of the live region; the empty
   string means no message is shown. `persist` is the "Trust This Device" flag.
   */
  datatype FormState = FormState(
    mode: Mode,
    fields: Fields,
    error: string,
    persist: bool,
    phase: Phase)

  /** A rejected call: the optional numeric HTTP status and the optional `data.message`. */
  datatype Failure = Failure(status: Option<int>, message: Option<string>)

  /**
   How the remote call settled. A login response carries the access token; the
   body of a register response is never read, so the token is ignored for it.
   */
  datatype Outcome = Succeeded(accessToken: string) | Failed(failure: Failure)

  /** Everything that can be dispatched to the form. */
  datatype Event =
    | Edit(field: Field, value: string)
    | ToggleMode
    | TogglePersist
    | Submit
    | Complete(outcome: Outcome)

  /** What the form asks of its collaborators. */
  datatype Effect =
    | RemoteCall(call: Call)
    | PublishToken(accessToken: string)
    | Navigate(path: string)

  /** The state after one or more events and the effects emitted, in order. */
  datatype Transition = Transition(state: FormState, effects: seq<Effect>)

  const DashboardPath := "/dash"
  const PasswordMismatch := "Passwords do not match"
  const SignupNotice := "Account created successfully. You can now log in."
  const InvalidCredentials := "Invalid username or password"
  const UnexpectedError := "An unexpected error occurred"
  const UnauthorizedStatus := 401
}
