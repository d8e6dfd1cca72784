/** Values shared by the login page and the navigation bar: what the identity
    provider hands back, and the effects the two components emit. */
module AuthTypes {

  datatype Option<T> = None | Some(value: T)

  /** The provider's user record, reduced to what the UI reads.
      The provider's type makes the email optional. */
  datatype User = User(id: string, email: Option<string>)

  /** A present session; an absent one is `None`. */
  datatype Session = Session(user: User)

  /** What a `catch` block receives: an `Error` object with its message,
      or any other thrown value. */
  datatype Thrown = ErrorObject(message: string) | OtherValue

  /** How a provider call settles when the caller turns an `{ error }`
      answer into a throw and catches it: success, or the caught value. */
  datatype CallOutcome = Succeeded | Rejected(reason: Thrown)

  /** How an awaited promise settles when the caller neither inspects its
      value nor catches: it fulfils (with any value, an `{ error }` answer
      included) or it rejects, which throws at the `await`. */
  datatype Settlement = Fulfilled | Threw(reason: Thrown)

  /** The effects the components emit, in order: the provider calls that
      change provider-side state, and the router calls. */
  datatype Effect =
    | SignInWithOtp(email: string, shouldCreateUser: bool)
    | VerifyOtp(email: string, token: string, otpType: string)
    | SignOut
    | Push(path: string)
    | Refresh

  /** `e instanceof Error ? e.message : fallback` */
  function MessageOr(reason: Thrown, fallback: string): (m: string)
    ensures reason.ErrorObject? ==> m == reason.message
    ensures reason.OtherValue? ==> m == fallback
  {
    match reason
    case ErrorObject(m) => m
    case OtherValue => fallback
  }
}
