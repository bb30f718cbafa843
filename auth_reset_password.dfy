/** The reset-password screen, reached after an OTP check in the
    forgot-password context: ordered early-return checks, then one call of
    the adapter's reset. */
module AuthResetPassword {
  import opened Common
  import opened Flow
  import Auth
  import Validators

  const GenericError := "errors.generic"
  const ResetDone := "Password reset successful! Please login with your new password."

  class ResetPasswordScreen {
    /** The navigation parameters. */
    const identifier: string
    const token: string
    var password: string
    var confirm: string
    var loading: bool
    var alerts: seq<string>
    var navigations: seq<Nav>
    var submitted: seq<Submission>

    function Here(): Route
    {
      ResetPassword(identifier, token)
    }

    constructor (identifier: string, token: string)
      ensures this.identifier == identifier && this.token == token
      ensures password == "" && confirm == "" && !loading
      ensures alerts == [] && navigations == [] && submitted == []
    {
      this.identifier := identifier;
      this.token := token;
      password := "";
      confirm := "";
      loading := false;
      alerts := [];
      navigations := [];
      submitted := [];
    }

    method SetFields(p: string, c: string)
      modifies this`password, this`confirm
      ensures password == p && confirm == c
    {
      password, confirm := p, c;
    }

    /** Reset: the first failing check is alerted and nothing is called.
        Only when the fields are filled, equal and long enough is the reset
        called; success dismisses the stack back to the entry screen. */
    method HandleReset(reply: Reply<Auth.AuthResponse>)
      requires !loading
      modifies this`loading, this`alerts, this`navigations, this`submitted
      ensures !loading
      ensures Validators.ResetPasswordError(password, confirm).Some? ==>
                && alerts == old(alerts) + [Validators.ResetPasswordError(password, confirm).value]
                && navigations == old(navigations) && submitted == old(submitted)
      ensures Validators.ResetPasswordError(password, confirm).None? ==>
                submitted == old(submitted) + [Submission(Auth.ResetPasswordCall(password), true)]
      ensures Validators.ResetPasswordError(password, confirm).None? && reply.Returned? && reply.value.success ==>
                alerts == old(alerts) + [ResetDone] && navigations == old(navigations) + [ResetTo(Entry)]
      ensures Validators.ResetPasswordError(password, confirm).None? && reply.Returned? && !reply.value.success ==>
                alerts == old(alerts) + [OrElse(reply.value.error, GenericError)] && navigations == old(navigations)
      ensures Validators.ResetPasswordError(password, confirm).None? && reply.Threw? ==>
                alerts == old(alerts) + [GenericError] && navigations == old(navigations)
      ensures StaysOrSteps(Here(), old(navigations), navigations)
    {
      if password == "" || confirm == "" {
        alerts := alerts + ["errors.required"];
        return;
      }
      if password != confirm {
        alerts := alerts + ["errors.passwordMatch"];
        return;
      }
      if |password| < Validators.MinPasswordLength {
        alerts := alerts + ["errors.passwordShort"];
        return;
      }
      loading := true;
      submitted := submitted + [Submission(Auth.ResetPasswordCall(password), loading)];
      match reply {
        case Threw =>
          alerts := alerts + [GenericError];
        case Returned(res) =>
          if res.success {
            alerts := alerts + [ResetDone];
            navigations := navigations + [ResetTo(Entry)];
          } else {
            alerts := alerts + [OrElse(res.error, GenericError)];
          }
      }
      loading := false;
    }
  }
}
