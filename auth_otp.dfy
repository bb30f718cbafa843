/** The OTP verification screen: a four-character code is checked, and a
    verified identity goes on to registration or to the password reset,
    depending on the context it arrived with. */
module AuthOtp {
  import opened Common
  import opened Flow
  import Auth

  const CodeLength := 4
  const InvalidCode := "Invalid Code"

  class OtpScreen {
    /** The navigation parameters. */
    const identifier: string
    const kind: IdKind
    const context: string
    /** The code the digit boxes last reported. */
    var code: string
    var loading: bool
    /** Whether the boxes are drawn in the error colour. */
    var error: bool
    var alerts: seq<string>
    var navigations: seq<Nav>
    var submitted: seq<Submission>

    function Here(): Route
    {
      OtpVerify(identifier, kind, context)
    }

    constructor (identifier: string, kind: IdKind, context: string)
      ensures this.identifier == identifier && this.kind == kind && this.context == context
      ensures code == "" && !loading && !error
      ensures alerts == [] && navigations == [] && submitted == []
    {
      this.identifier := identifier;
      this.kind := kind;
      this.context := context;
      code := "";
      loading := false;
      error := false;
      alerts := [];
      navigations := [];
      submitted := [];
    }

    /** The verify button is disabled unless the code is complete. */
    predicate VerifyEnabled()
      reads this
      ensures VerifyEnabled() ==> |code| == CodeLength
    {
      |code| == CodeLength && !loading
    }

    /** The digit boxes report a new code. */
    method CodeChanged(newCode: string)
      modifies this`code
      ensures code == newCode
    {
      code := newCode;
    }

    /** The resend link asks for a new code, whatever the screen's state;
        its answer is not awaited, so nothing else changes. */
    method Resend()
      modifies this`submitted
      ensures submitted == old(submitted) + [Submission(Auth.SendOtpCall(identifier, kind), loading)]
    {
      submitted := submitted + [Submission(Auth.SendOtpCall(identifier, kind), loading)];
    }

    /** Verify: nothing happens unless the code has exactly four characters.
        Otherwise the code is checked once; success goes to registration in
        the register context and to the reset screen, carrying the code as
        token, in any other; a failure or a thrown error marks the boxes and
        stays. */
    method HandleVerify(reply: Reply<Auth.AuthResponse>)
      requires !loading
      modifies this`loading, this`error, this`alerts, this`navigations, this`submitted
      ensures |code| != CodeLength ==>
                error == old(error) && alerts == old(alerts) && navigations == old(navigations)
                && submitted == old(submitted)
      // The handler calls the backend exactly when the button was enabled.
      ensures old(VerifyEnabled()) <==> |submitted| == |old(submitted)| + 1
      ensures !old(VerifyEnabled()) ==> submitted == old(submitted)
      ensures !loading
      ensures |code| == CodeLength ==>
                submitted == old(submitted) + [Submission(Auth.VerifyOtpCall(identifier, code, kind), true)]
      ensures |code| == CodeLength && reply.Returned? && reply.value.success ==>
                && !error && alerts == old(alerts)
                && navigations == old(navigations) +
                     [Push(if context == RegisterContext then Register(identifier, kind)
                           else ResetPassword(identifier, code))]
      ensures |code| == CodeLength && reply.Returned? && !reply.value.success ==>
                error && navigations == old(navigations)
                && alerts == old(alerts) + [OrElse(reply.value.error, InvalidCode)]
      ensures |code| == CodeLength && reply.Threw? ==>
                error && navigations == old(navigations) && alerts == old(alerts)
      ensures StaysOrSteps(Here(), old(navigations), navigations)
    {
      if |code| != CodeLength {
        return;
      }
      loading := true;
      error := false;
      submitted := submitted + [Submission(Auth.VerifyOtpCall(identifier, code, kind), loading)];
      match reply {
        case Threw =>
          error := true;
        case Returned(res) =>
          if res.success {
            if context == RegisterContext {
              navigations := navigations + [Push(Register(identifier, kind))];
            } else {
              navigations := navigations + [Push(ResetPassword(identifier, code))];
            }
          } else {
            error := true;
            alerts := alerts + [OrElse(res.error, InvalidCode)];
          }
      }
      loading := false;
    }
  }
}
