/** The authentication flow as a state machine over screens. A route carries
    the parameters the screens pass forward (identifier, kind, context); the
    screen handlers in the other modules each take one edge of this graph. */
module Flow {
  import opened Common
  import Auth

  const RegisterContext := "register"
  const ForgotPasswordContext := "forgot-password"

  /** The screens of the flow, with the navigation parameters they receive.
      The OTP context is the loose string the screens pass along. */
  datatype Route =
    | Splash
    | Entry
    | Password(identifier: string, kind: IdKind)
    | OtpVerify(identifier: string, kind: IdKind, context: string)
    | Register(identifier: string, kind: IdKind)
    | ForgotPassword(identifier: string)
    | ResetPassword(identifier: string, token: string)
    | PostLogin

  /** A navigation: push onto the stack, replace the top, or dismiss the
      whole stack and replace. */
  datatype Nav = Push(to: Route) | Replace(to: Route) | ResetTo(to: Route)

  /** An adapter call a screen made, with the screen's `loading` flag at the
      moment of the call. */
  datatype Submission = Submission(request: Auth.Request, whileLoading: bool)

  /** The edges of the flow. The app starts at the splash, which goes on to
      the post-login screen or the entry screen; logging out of the
      post-login screen returns to the entry screen. Identifier and kind
      travel along every edge except into the forgot-password branch, whose
      OTP step re-derives the kind from the identifier by the `@` rule. */
  predicate Transition(from: Route, to: Route)
    // The splash is where the app starts: no edge leads back to it.
    ensures Transition(from, to) ==> to != Splash
    // The post-login screen is left only by logging out to the entry screen.
    ensures from == PostLogin ==> (Transition(from, to) <==> to == Entry)
    // Only the splash, a finished registration or reset, and a logout lead to the entry screen.
    ensures Transition(from, to) && to == Entry ==>
              from == Splash || from.Register? || from.ResetPassword? || from == PostLogin
    // The post-login screen is reached only from the splash or the password step.
    ensures Transition(from, to) && to == PostLogin ==> from == Splash || from.Password?
    // A code is asked for only from the entry and forgot-password screens.
    ensures Transition(from, to) && to.OtpVerify? ==> from == Entry || from.ForgotPassword?
    // Out of the password and OTP steps the identifier travels unchanged.
    ensures Transition(from, to) && (from.Password? || from.OtpVerify?) && to != PostLogin ==>
              to.identifier == from.identifier
  {
    match from
    case Splash =>
      to == PostLogin || to == Entry
    case Entry =>
      to.Password? || (to.OtpVerify? && to.context == RegisterContext)
    case Password(i, _) =>
      to == PostLogin || to == ForgotPassword(i)
    case OtpVerify(i, k, c) =>
      if c == RegisterContext then to == Register(i, k)
      else to.ResetPassword? && to.identifier == i
    case Register(_, _) =>
      to == Entry
    case ForgotPassword(_) =>
      to.OtpVerify? && to.context == ForgotPasswordContext && to.kind == KindOf(to.identifier)
    case ResetPassword(_, _) =>
      to == Entry
    case PostLogin =>
      to == Entry
  }

  /** A handler run from `here` either stays (the log is unchanged) or
      issues exactly one navigation, along an edge of the flow. */
  predicate StaysOrSteps(here: Route, before: seq<Nav>, after: seq<Nav>)
  {
    after == before
    || (|after| == |before| + 1 && after[..|before|] == before && Transition(here, after[|before|].to))
  }

  /** A run through the flow: consecutive routes are edges. */
  predicate IsPath(rs: seq<Route>)
  {
    forall j :: 0 < j < |rs| ==> Transition(rs[j - 1], rs[j])
  }

  /** Along any run, the screens that need a proof of identity are entered
      only from the step that provides it: the post-login screen only from
      the password step or from the splash (which goes there only with a
      stored session and profile, see `Splash.CheckSession`), registration
      only from a register-context OTP check on the same identifier and
      kind, and the reset screen only from an OTP check in another context
      on the same identifier. The splash is never re-entered. */
  lemma GuardedSteps(rs: seq<Route>, j: nat)
    requires IsPath(rs) && 0 < j < |rs|
    ensures rs[j] != Splash
    ensures rs[j] == PostLogin ==> rs[j - 1].Password? || rs[j - 1] == Splash
    ensures rs[j].Register? ==> rs[j - 1] == OtpVerify(rs[j].identifier, rs[j].kind, RegisterContext)
    ensures rs[j].ResetPassword? ==>
              rs[j - 1].OtpVerify? && rs[j - 1].context != RegisterContext
              && rs[j - 1].identifier == rs[j].identifier
  {
    // The step into rs[j] is an edge, and no edge ends at the splash.
    assert Transition(rs[j - 1], rs[j]);
  }
}
