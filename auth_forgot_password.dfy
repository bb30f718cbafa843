/** The forgot-password screen: the identifier typed here is classified by
    the `@` rule, a code is sent, and the flow continues at the OTP step in
    the forgot-password context. */
module AuthForgotPassword {
  import opened Common
  import opened Flow
  import Auth

  const FailedToSendCode := "Failed to send code"
  const ErrorAlert := "Error"

  class ForgotPasswordScreen {
    /** The navigation parameter the password step forwards. The screen
        never reads it. */
    const forwarded: string
    /** The identifier field. It starts empty rather than with the
        forwarded identifier. */
    var identifier: string
    var loading: bool
    var alerts: seq<string>
    var navigations: seq<Nav>
    var submitted: seq<Submission>

    function Here(): Route
    {
      ForgotPassword(forwarded)
    }

    constructor (forwarded: string)
      ensures this.forwarded == forwarded
      ensures identifier == "" && !loading
      ensures alerts == [] && navigations == [] && submitted == []
    {
      this.forwarded := forwarded;
      identifier := "";
      loading := false;
      alerts := [];
      navigations := [];
      submitted := [];
    }

    method SetIdentifier(s: string)
      modifies this`identifier
      ensures identifier == s
    {
      identifier := s;
    }

    /** Send: an empty identifier changes nothing. Otherwise one code is
        sent to the identifier's derived kind; success continues at the OTP
        step in the forgot-password context. */
    method HandleSend(reply: Reply<Auth.AuthResponse>)
      requires !loading
      modifies this`loading, this`alerts, this`navigations, this`submitted
      ensures !loading
      ensures identifier == "" ==>
                alerts == old(alerts) && navigations == old(navigations) && submitted == old(submitted)
      ensures identifier != "" ==>
                submitted == old(submitted) + [Submission(Auth.SendOtpCall(identifier, KindOf(identifier)), true)]
      ensures identifier != "" && reply.Returned? && reply.value.success ==>
                && alerts == old(alerts)
                && navigations == old(navigations) +
                     [Push(OtpVerify(identifier, KindOf(identifier), ForgotPasswordContext))]
      ensures identifier != "" && reply.Returned? && !reply.value.success ==>
                alerts == old(alerts) + [OrElse(reply.value.error, FailedToSendCode)] && navigations == old(navigations)
      ensures identifier != "" && reply.Threw? ==>
                alerts == old(alerts) + [ErrorAlert] && navigations == old(navigations)
      ensures StaysOrSteps(Here(), old(navigations), navigations)
    {
      if identifier == "" {
        return;
      }
      loading := true;
      var kind := if Includes(identifier, "@") then Email else Phone;
      assert kind == KindOf(identifier);
      submitted := submitted + [Submission(Auth.SendOtpCall(identifier, kind), loading)];
      match reply {
        case Threw =>
          alerts := alerts + [ErrorAlert];
        case Returned(res) =>
          if res.success {
            navigations := navigations + [Push(OtpVerify(identifier, kind, ForgotPasswordContext))];
          } else {
            alerts := alerts + [OrElse(res.error, FailedToSendCode)];
          }
      }
      loading := false;
    }
  }
}
