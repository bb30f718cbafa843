/** The entry screen: the user picks phone or email, types an identifier and
    continues. A known identifier goes to the password step; an unknown one
    is sent a code and goes to OTP verification for registration. */
module AuthEntry {
  import opened Common
  import opened Flow
  import Auth
  import Validators

  const FailedToSendOtp := "Failed to send OTP"
  const GenericAlert := "An error occurred"

  /** The language toggle switches English to Arabic and everything else to
      English. */
  function NextLanguage(current: string): (next: string)
    ensures current == "en" ==> next == "ar"
    ensures current != "en" ==> next == "en"
  {
    if current == "en" then "ar" else "en"
  }

  class EntryScreen {
    /** The selected identifier kind; phone at first. */
    var kind: IdKind
    var loading: bool
    /** The schema's message under the identifier field. */
    var fieldError: Option<string>
    /** The alerts shown, oldest first. */
    var alerts: seq<string>
    /** The navigations issued, oldest first. */
    var navigations: seq<Nav>
    /** The adapter calls made, oldest first. */
    var submitted: seq<Submission>

    constructor ()
      ensures kind == Phone && !loading && fieldError.None?
      ensures alerts == [] && navigations == [] && submitted == []
    {
      kind := Phone;
      loading := false;
      fieldError := None;
      alerts := [];
      navigations := [];
      submitted := [];
    }

    /** The phone/email switch. */
    method SelectKind(k: IdKind)
      modifies this`kind
      ensures kind == k
    {
      kind := k;
    }

    /** Continue: the schema check, then the existence check, then, for an
        unknown identifier, code issuance. `known` and `sent` are what the
        two awaited adapter calls yield; `sent` is used only when the
        second call is made. */
    method Submit(identifier: string, emailWellFormed: bool,
                  known: Reply<bool>, sent: Reply<Auth.AuthResponse>)
      requires !loading
      modifies this`loading, this`fieldError, this`alerts, this`navigations, this`submitted
      ensures !loading
      ensures fieldError == Validators.IdentifierError(kind, identifier, emailWellFormed)
      // A failing check submits nothing and navigates nowhere.
      ensures fieldError.Some? ==>
                submitted == old(submitted) && navigations == old(navigations) && alerts == old(alerts)
      // Otherwise the existence check is made, and the code is sent only to an unknown identifier.
      ensures fieldError.None? ==>
                submitted == old(submitted)
                  + [Submission(Auth.CheckUserExistsCall(identifier, kind), true)]
                  + (if known == Returned(false) then [Submission(Auth.SendOtpCall(identifier, kind), true)] else [])
      ensures fieldError.None? && known == Returned(true) ==>
                navigations == old(navigations) + [Push(Password(identifier, kind))] && alerts == old(alerts)
      ensures fieldError.None? && known == Returned(false) && sent.Returned? && sent.value.success ==>
                navigations == old(navigations) + [Push(OtpVerify(identifier, kind, RegisterContext))]
                && alerts == old(alerts)
      ensures fieldError.None? && known == Returned(false) && sent.Returned? && !sent.value.success ==>
                navigations == old(navigations) && alerts == old(alerts) + [OrElse(sent.value.error, FailedToSendOtp)]
      ensures fieldError.None? && (known.Threw? || (known == Returned(false) && sent.Threw?)) ==>
                navigations == old(navigations) && alerts == old(alerts) + [GenericAlert]
      ensures StaysOrSteps(Entry, old(navigations), navigations)
    {
      fieldError := Validators.IdentifierError(kind, identifier, emailWellFormed);
      if fieldError.Some? {
        return;
      }
      loading := true;
      submitted := submitted + [Submission(Auth.CheckUserExistsCall(identifier, kind), loading)];
      match known {
        case Threw =>
          alerts := alerts + [GenericAlert];
        case Returned(found) =>
          if found {
            navigations := navigations + [Push(Password(identifier, kind))];
          } else {
            submitted := submitted + [Submission(Auth.SendOtpCall(identifier, kind), loading)];
            match sent {
              case Threw =>
                alerts := alerts + [GenericAlert];
              case Returned(res) =>
                if res.success {
                  navigations := navigations + [Push(OtpVerify(identifier, kind, RegisterContext))];
                } else {
                  alerts := alerts + [OrElse(res.error, FailedToSendOtp)];
                }
            }
          }
      }
      loading := false;
    }
  }
}
