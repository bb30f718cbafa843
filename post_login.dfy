/** The post-login screen: its one action signs out and returns to the
    entry screen. */
module AppPostLogin {
  import opened Flow

  class PostLoginScreen {
    var navigations: seq<Nav>
    /** Sign-outs requested from the backend client. */
    var signOuts: nat

    constructor ()
      ensures navigations == [] && signOuts == 0
    {
      navigations := [];
      signOuts := 0;
    }

    /** Logout: the sign-out is awaited, then the screen is replaced by the
        entry screen. `signOutThrew` says whether the awaited sign-out
        rejects, in which case the navigation is never reached. */
    method HandleLogout(signOutThrew: bool)
      modifies this
      ensures signOuts == old(signOuts) + 1
      ensures !signOutThrew ==> navigations == old(navigations) + [Replace(Entry)]
      ensures signOutThrew ==> navigations == old(navigations)
      ensures StaysOrSteps(PostLogin, old(navigations), navigations)
    {
      signOuts := signOuts + 1;
      if signOutThrew {
        return;
      }
      navigations := navigations + [Replace(Entry)];
    }
  }
}
