/** The splash screen's startup decision: a session whose identity has a
    profile row goes to the post-login screen, anything else (no backend,
    no session, a lookup error, a timeout) to the entry screen. */
module Splash {
  import opened Common
  import opened Flow
  import Auth

  datatype SessionStatus = SessionStatus(hasSession: bool, hasProfile: bool)

  const NoSession := SessionStatus(false, false)

  /** The session check. `lookup` is what the session lookup answers; the
      profile check is a single-row lookup by the session's user id, which
      finds nothing when the table read is refused (`readFails`). */
  function SessionCheck(useSupabase: bool, lookup: Result<Option<Auth.Session>>,
                        profiles: seq<Auth.Profile>, readFails: bool): (s: SessionStatus)
    ensures !useSupabase ==> s == NoSession
    ensures useSupabase && (lookup.Err? || lookup.value.None?) ==> s == NoSession
    ensures useSupabase && lookup.Ok? && lookup.value.Some? ==>
              s.hasSession
              && (s.hasProfile <==>
                    !readFails && |Auth.Select(profiles, Auth.IdColumn, lookup.value.value.userId)| == 1)
  {
    if !useSupabase then NoSession
    else if lookup.Err? || lookup.value.None? then NoSession
    else
      var row := if readFails then None
                 else Auth.Single(Auth.Select(profiles, Auth.IdColumn, lookup.value.value.userId));
      SessionStatus(true, row.Some?)
  }

  /** The route decision; a check that timed out or threw counts as no
      session. */
  function SplashRoute(result: Reply<SessionStatus>): (r: Route)
    ensures r == PostLogin <==> result.Returned? && result.value.hasSession && result.value.hasProfile
    ensures r != PostLogin ==> r == Entry
  {
    match result
    case Threw => Entry
    case Returned(s) => if s.hasSession && s.hasProfile then PostLogin else Entry
  }

  /** With the table's ids unique, startup lands on the post-login screen
      exactly when the live backend reports a session whose user has a
      profile row that the table read can see. */
  lemma PostLoginExactlyWithProfile(useSupabase: bool, lookup: Result<Option<Auth.Session>>,
                                    profiles: seq<Auth.Profile>, readFails: bool)
    requires Auth.UniqueIds(profiles)
    ensures SplashRoute(Returned(SessionCheck(useSupabase, lookup, profiles, readFails))) == PostLogin <==>
              useSupabase && lookup.Ok? && lookup.value.Some? && !readFails
              && Auth.HasId(profiles, lookup.value.value.userId)
  {
    if useSupabase && lookup.Ok? && lookup.value.Some? {
      Auth.SelectById(profiles, lookup.value.value.userId);
    }
  }

  /** The startup sequence: the session check races a timeout; whatever
      it yields, or a timeout, decides the replacement route. */
  method CheckSession(useSupabase: bool, lookup: Result<Option<Auth.Session>>,
                      profiles: seq<Auth.Profile>, readFails: bool, timedOut: bool)
    returns (nav: Nav)
    ensures nav.Replace?
    ensures nav.to == PostLogin <==>
              !timedOut && SessionCheck(useSupabase, lookup, profiles, readFails) == SessionStatus(true, true)
    ensures nav.to != PostLogin ==> nav.to == Entry
    ensures Transition(Route.Splash, nav.to)
  {
    var result: Reply<SessionStatus>;
    if timedOut {
      result := Threw;
    } else {
      result := Returned(SessionCheck(useSupabase, lookup, profiles, readFails));
    }
    nav := Replace(SplashRoute(result));
  }
}
