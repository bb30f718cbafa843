/** The registration screen, reached after a register-context OTP check:
    the registration schema, then one call of the adapter's register with a
    payload built from the verified identifier. */
module AuthRegister {
  import opened Common
  import opened Flow
  import Auth
  import Validators

  const AccountCreated := "Account created! Please login."
  const RegistrationFailed := "Registration failed"
  const CreateError := "Error creating account"

  /** The payload: the identifier goes to the email field for the email
      kind and to the phone field for the phone kind, never to both; the
      user type is always tenant. */
  function Payload(identifier: string, kind: IdKind, form: Validators.RegisterForm): (p: Auth.RegisterPayload)
    ensures p.email.Some? <==> kind == Email
    ensures p.phone.Some? <==> kind == Phone
    ensures !(p.email.Some? && p.phone.Some?)
    ensures p.email.Some? ==> p.email.value == identifier
    ensures p.phone.Some? ==> p.phone.value == identifier
    ensures p.userType == Some(Auth.Tenant)
    ensures p.firstName == form.firstName && p.lastName == form.lastName && p.password == form.password
  {
    Auth.RegisterPayload(
      if kind == Email then Some(identifier) else None,
      if kind == Phone then Some(identifier) else None,
      form.password, form.firstName, form.lastName, Some(Auth.Tenant))
  }

  class RegisterScreen {
    /** The navigation parameters. */
    const identifier: string
    const kind: IdKind
    var loading: bool
    /** The schema's messages under the fields. */
    var fieldErrors: Validators.RegisterErrors
    var alerts: seq<string>
    var navigations: seq<Nav>
    var submitted: seq<Submission>

    function Here(): Route
    {
      Register(identifier, kind)
    }

    constructor (identifier: string, kind: IdKind)
      ensures this.identifier == identifier && this.kind == kind && !loading
      ensures Validators.NoErrors(fieldErrors)
      ensures alerts == [] && navigations == [] && submitted == []
    {
      this.identifier := identifier;
      this.kind := kind;
      loading := false;
      fieldErrors := Validators.RegisterErrors(None, None, None, None);
      alerts := [];
      navigations := [];
      submitted := [];
    }

    /** Submit: a form the schema rejects shows its field messages and calls
        nothing. Otherwise register is called once; success dismisses the
        stack back to the entry screen, a failure or a thrown error is
        alerted and the screen stays. */
    method Submit(form: Validators.RegisterForm, reply: Reply<Auth.AuthResponse>)
      requires !loading
      modifies this`loading, this`fieldErrors, this`alerts, this`navigations, this`submitted
      ensures !loading
      ensures fieldErrors == Validators.RegisterFormErrors(form)
      ensures !Validators.NoErrors(fieldErrors) ==>
                alerts == old(alerts) && navigations == old(navigations) && submitted == old(submitted)
      ensures Validators.NoErrors(fieldErrors) ==>
                submitted == old(submitted) + [Submission(Auth.RegisterCall(Payload(identifier, kind, form)), true)]
      ensures Validators.NoErrors(fieldErrors) && reply.Returned? && reply.value.success ==>
                alerts == old(alerts) + [AccountCreated] && navigations == old(navigations) + [ResetTo(Entry)]
      ensures Validators.NoErrors(fieldErrors) && reply.Returned? && !reply.value.success ==>
                alerts == old(alerts) + [OrElse(reply.value.error, RegistrationFailed)]
                && navigations == old(navigations)
      ensures Validators.NoErrors(fieldErrors) && reply.Threw? ==>
                alerts == old(alerts) + [CreateError] && navigations == old(navigations)
      ensures StaysOrSteps(Here(), old(navigations), navigations)
    {
      fieldErrors := Validators.RegisterFormErrors(form);
      if !Validators.NoErrors(fieldErrors) {
        return;
      }
      loading := true;
      var payload := Payload(identifier, kind, form);
      submitted := submitted + [Submission(Auth.RegisterCall(payload), loading)];
      match reply {
        case Threw =>
          alerts := alerts + [CreateError];
        case Returned(res) =>
          if res.success {
            alerts := alerts + [AccountCreated];
            navigations := navigations + [ResetTo(Entry)];
          } else {
            alerts := alerts + [OrElse(res.error, RegistrationFailed)];
          }
      }
      loading := false;
    }
  }
}
