/** End-to-end runs of the screens against the mock adapter: what a user
    sees when the backend switch is off. Each run feeds every screen the
    answer the adapter gives. */
module Scenarios {
  import opened Common
  import opened Flow
  import Auth
  import Validators
  import AuthEntry
  import AuthOtp
  import AuthPassword

  /** A new email user: the mock does not know "new@test.com", sends a
      code, accepts the mock code, and the flow arrives at registration
      with the identifier and kind it started with. */
  method NewEmailUserReachesRegister() returns (entry: AuthEntry.EntryScreen, otp: AuthOtp.OtpScreen)
    ensures entry.navigations == [Push(OtpVerify("new@test.com", Email, RegisterContext))]
    ensures otp.navigations == [Push(Register("new@test.com", Email))]
    ensures IsPath([Entry, entry.navigations[0].to, otp.navigations[0].to])
  {
    var identifier := "new@test.com";
    var service := new Auth.AuthService(false, None, []);
    entry := new AuthEntry.EntryScreen();
    entry.SelectKind(Email);
    var found, _ := service.CheckUserExists(identifier, Email, Err("no backend"), false);
    assert !found by {
      assert Auth.ExistMarker[1] == 'x' && 'x' !in identifier;
      AbsentCharNotSubstring(Auth.ExistMarker, identifier, 1);
    }
    var sent, _ := service.SendOtp(identifier, Email, Done);
    entry.Submit(identifier, true, Returned(found), Returned(sent));
    otp := new AuthOtp.OtpScreen(identifier, Email, RegisterContext);
    otp.CodeChanged(Auth.MockOtp);
    var verified, _ := service.VerifyOtp(identifier, Auth.MockOtp, Email, Err("no backend"));
    otp.HandleVerify(Returned(verified));
  }

  /** A well-formed identifier containing "exist" is known to the mock: the
      entry screen goes straight to the password step and never asks for a
      code. */
  method KnownIdentifierSkipsOtp(identifier: string, kind: IdKind, emailWellFormed: bool)
    returns (entry: AuthEntry.EntryScreen)
    requires IsSubstring(Auth.ExistMarker, identifier)
    requires Validators.IdentifierError(kind, identifier, emailWellFormed).None?
    ensures entry.navigations == [Push(Password(identifier, kind))]
    ensures entry.alerts == []
    ensures forall s :: s in entry.submitted ==> !s.request.SendOtpCall?
  {
    var service := new Auth.AuthService(false, None, []);
    entry := new AuthEntry.EntryScreen();
    entry.SelectKind(kind);
    var found, _ := service.CheckUserExists(identifier, kind, Err("no backend"), false);
    var sent, _ := service.SendOtp(identifier, kind, Done);
    entry.Submit(identifier, emailWellFormed, Returned(found), Returned(sent));
  }

  /** Password login against the mock: the mock password opens the
      post-login screen, any other non-empty password stays with the mock's
      message. */
  method MockLoginOutcome(identifier: string, password: string) returns (screen: AuthPassword.PasswordScreen)
    requires password != ""
    ensures password == Auth.MockPassword ==> screen.navigations == [Replace(PostLogin)] && screen.error == ""
    ensures password != Auth.MockPassword ==>
              screen.navigations == [] && screen.error == "Invalid credentials"
  {
    var service := new Auth.AuthService(false, None, []);
    screen := new AuthPassword.PasswordScreen(identifier, Email);
    screen.SetPassword(password);
    var res, _ := service.Login(identifier, password, Err("no backend"), false);
    screen.HandleLogin(Returned(res));
  }

  /** Live login of a user with a landlord profile row: the returned user
      carries the row's type and names, and the session is theirs. */
  method LiveLoginCarriesProfile() returns (res: Auth.AuthResponse)
    ensures res.success
    ensures res.user == Some(Auth.User("u", None, None, Some(Auth.Landlord), Some("ab"), Some("cd")))
  {
    var row := Auth.Profile("u", None, None, "ab", "cd", Auth.Landlord);
    var service := new Auth.AuthService(true, None, [row]);
    assert row in service.profiles;
    var sent;
    res, sent := service.Login("0555123456", "secret", Ok(Auth.SignedInUser("u", None)), false);
  }
}
