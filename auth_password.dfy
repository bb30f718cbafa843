/** The password step for a known identifier: an empty password is refused
    on the spot; otherwise the adapter's login decides between the
    post-login screen and an inline error. */
module AuthPassword {
  import opened Common
  import opened Flow
  import Auth

  const RequiredError := "errors.required"
  const GenericError := "errors.generic"

  class PasswordScreen {
    /** The navigation parameters. */
    const identifier: string
    const kind: IdKind
    /** The password field. */
    var password: string
    var loading: bool
    /** The inline error under the password field; "" when there is none. */
    var error: string
    var navigations: seq<Nav>
    var submitted: seq<Submission>

    function Here(): Route
    {
      Password(identifier, kind)
    }

    constructor (identifier: string, kind: IdKind)
      ensures this.identifier == identifier && this.kind == kind
      ensures password == "" && !loading && error == ""
      ensures navigations == [] && submitted == []
    {
      this.identifier := identifier;
      this.kind := kind;
      password := "";
      loading := false;
      error := "";
      navigations := [];
      submitted := [];
    }

    method SetPassword(p: string)
      modifies this`password
      ensures password == p
    {
      password := p;
    }

    /** Log in: an empty password sets the required error and calls
        nothing. Otherwise the error is cleared, login is called once, and
        success replaces the screen by the post-login screen while a
        failure or thrown error shows the adapter's message or the generic
        one. */
    method HandleLogin(reply: Reply<Auth.AuthResponse>)
      requires !loading
      modifies this`loading, this`error, this`navigations, this`submitted
      ensures !loading
      ensures password == "" ==>
                error == RequiredError && navigations == old(navigations) && submitted == old(submitted)
      ensures password != "" ==>
                submitted == old(submitted) + [Submission(Auth.LoginCall(identifier, password), true)]
      ensures password != "" && reply.Returned? && reply.value.success ==>
                error == "" && navigations == old(navigations) + [Replace(PostLogin)]
      ensures password != "" && reply.Returned? && !reply.value.success ==>
                error == OrElse(reply.value.error, GenericError) && navigations == old(navigations)
      ensures password != "" && reply.Threw? ==>
                error == GenericError && navigations == old(navigations)
      ensures StaysOrSteps(Here(), old(navigations), navigations)
    {
      if password == "" {
        error := RequiredError;
        return;
      }
      loading := true;
      error := "";
      submitted := submitted + [Submission(Auth.LoginCall(identifier, password), loading)];
      match reply {
        case Threw =>
          error := GenericError;
        case Returned(res) =>
          if res.success {
            navigations := navigations + [Replace(PostLogin)];
          } else {
            error := OrElse(res.error, GenericError);
          }
      }
      loading := false;
    }

    /** The forgot-password link forwards the same identifier. */
    method ForgotPasswordLink()
      modifies this`navigations
      ensures navigations == old(navigations) + [Push(ForgotPassword(identifier))]
      ensures StaysOrSteps(Here(), old(navigations), navigations)
    {
      navigations := navigations + [Push(ForgotPassword(identifier))];
    }
  }
}
