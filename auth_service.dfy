/** The authentication backend adapter: six operations behind one interface,
    answered either by a deterministic mock or by the live backend-as-a-service.
    The live backend is abstract state (the client's current session and the
    `profiles` table); what its primitives answer is passed in. */
module Auth {
  import opened Common

  datatype UserType = Landlord | Tenant

  /** The user record a response carries. */
  datatype User = User(
    id: string,
    email: Option<string>,
    phone: Option<string>,
    userType: Option<UserType>,
    firstName: Option<string>,
    lastName: Option<string>)

  function UserWithId(id: string): User
  {
    User(id, None, None, None, None, None)
  }

  /** The backend's session, reduced to the identity it belongs to. */
  datatype Session = Session(userId: string)

  /** What every adapter operation answers. */
  datatype AuthResponse = AuthResponse(
    success: bool,
    user: Option<User>,
    error: Option<string>,
    session: Option<Session>)

  function Succeeded(user: Option<User>): AuthResponse
  {
    AuthResponse(true, user, None, None)
  }

  function Failure(message: string): AuthResponse
  {
    AuthResponse(false, None, Some(message), None)
  }

  /** A row of the `profiles` table. */
  datatype Profile = Profile(
    id: string,
    email: Option<string>,
    phone: Option<string>,
    firstName: string,
    lastName: string,
    userType: UserType)

  /** The argument of `register`. */
  datatype RegisterPayload = RegisterPayload(
    email: Option<string>,
    phone: Option<string>,
    password: string,
    firstName: string,
    lastName: string,
    userType: Option<UserType>)

  /** A call of one of the six adapter operations, as a screen submits it. */
  datatype Request =
    | CheckUserExistsCall(identifier: string, kind: IdKind)
    | SendOtpCall(identifier: string, kind: IdKind)
    | VerifyOtpCall(identifier: string, token: string, kind: IdKind)
    | LoginCall(identifier: string, password: string)
    | RegisterCall(payload: RegisterPayload)
    | ResetPasswordCall(password: string)

  // ---------------------------------------------------------------------
  // Mock rules

  const MockUserId := "mock-id"
  const MockOtp := "1234"
  const MockPassword := "password"
  const ExistMarker := "exist"

  /** The mock knows every identifier that contains "exist". */
  function MockCheckUserExists(identifier: string): (found: bool)
    ensures found <==> IsSubstring(ExistMarker, identifier)
  {
    Includes(identifier, ExistMarker)
  }

  function MockVerifyOtp(token: string): (r: AuthResponse)
    ensures r.success <==> token == MockOtp
    ensures r.success ==> r.user == Some(UserWithId(MockUserId)) && r.error.None?
    ensures !r.success ==> r.user.None? && r.error == Some("Invalid OTP")
    ensures r.session.None?
  {
    if token == MockOtp then Succeeded(Some(UserWithId(MockUserId)))
    else Failure("Invalid OTP")
  }

  function MockLogin(password: string): (r: AuthResponse)
    ensures r.success <==> password == MockPassword
    ensures r.success ==> r.user.Some? && r.user.value.id == MockUserId
                          && r.user.value.userType == Some(Tenant) && r.error.None?
    ensures !r.success ==> r.user.None? && r.error == Some("Invalid credentials")
  {
    if password == MockPassword then
      Succeeded(Some(User(MockUserId, None, None, Some(Tenant), None, None)))
    else
      Failure("Invalid credentials")
  }

  // ---------------------------------------------------------------------
  // The profiles table

  datatype Column = IdColumn | EmailColumn | PhoneColumn

  function ColumnOf(kind: IdKind): Column
  {
    match kind
    case Email => EmailColumn
    case Phone => PhoneColumn
  }

  predicate ColumnEquals(p: Profile, c: Column, value: string)
  {
    match c
    case IdColumn => p.id == value
    case EmailColumn => p.email == Some(value)
    case PhoneColumn => p.phone == Some(value)
  }

  /** `from('profiles').select(..).eq(column, value)`: the matching rows, in
      table order. */
  function Select(rows: seq<Profile>, c: Column, value: string): (r: seq<Profile>)
    ensures forall p :: p in r <==> p in rows && ColumnEquals(p, c, value)
    ensures |r| <= |rows|
  {
    if rows == [] then []
    else if ColumnEquals(rows[0], c, value) then [rows[0]] + Select(rows[1..], c, value)
    else Select(rows[1..], c, value)
  }

  /** `.single()`: a row only when exactly one row matched. */
  function Single(rows: seq<Profile>): (r: Option<Profile>)
    ensures r.Some? <==> |rows| == 1
    ensures r.Some? ==> r.value in rows
  {
    if |rows| == 1 then Some(rows[0]) else None
  }

  predicate HasId(rows: seq<Profile>, id: string)
  {
    exists i :: 0 <= i < |rows| && rows[i].id == id
  }

  /** The table's primary key: no two rows share an id. */
  ghost predicate UniqueIds(rows: seq<Profile>)
  {
    forall i, j :: 0 <= i < j < |rows| ==> rows[i].id != rows[j].id
  }

  /** With unique ids, a lookup by id finds a single row exactly when a row
      with that id exists, and that row carries the id. */
  lemma {:induction false} SelectById(rows: seq<Profile>, id: string)
    requires UniqueIds(rows)
    ensures |Select(rows, IdColumn, id)| == 1 <==> HasId(rows, id)
    ensures |Select(rows, IdColumn, id)| <= 1
  {
    if rows != [] {
      assert UniqueIds(rows[1..]) by {
        forall i, j | 0 <= i < j < |rows[1..]| ensures rows[1..][i].id != rows[1..][j].id {
          assert rows[1..][i] == rows[i + 1] && rows[1..][j] == rows[j + 1];
        }
      }
      SelectById(rows[1..], id);
      if rows[0].id == id {
        assert !HasId(rows[1..], id) by {
          forall i | 0 <= i < |rows[1..]| ensures rows[1..][i].id != id {
            assert rows[1..][i] == rows[i + 1];
          }
        }
      } else {
        assert HasId(rows, id) ==> HasId(rows[1..], id) by {
          if HasId(rows, id) {
            var i :| 0 <= i < |rows| && rows[i].id == id;
            assert rows[1..][i - 1] == rows[i];
          }
        }
        assert HasId(rows[1..], id) ==> HasId(rows, id) by {
          if HasId(rows[1..], id) {
            var i :| 0 <= i < |rows[1..]| && rows[1..][i].id == id;
            assert rows[i + 1] == rows[1..][i];
          }
        }
      }
    }
  }

  /** With unique ids, looking up a stored row's id yields that row. */
  lemma SelectByIdIsRow(rows: seq<Profile>, p: Profile)
    requires UniqueIds(rows) && p in rows
    ensures Single(Select(rows, IdColumn, p.id)) == Some(p)
  {
    var i :| 0 <= i < |rows| && rows[i] == p;
    SelectById(rows, p.id);
    assert p in Select(rows, IdColumn, p.id);
  }

  /** Appending a row whose id is new keeps the ids unique. */
  lemma AppendNewId(rows: seq<Profile>, p: Profile)
    requires UniqueIds(rows) && !HasId(rows, p.id)
    ensures UniqueIds(rows + [p]) && HasId(rows + [p], p.id)
  {
    assert (rows + [p])[|rows|] == p;
  }

  /** The profile row `register` inserts for a new identity. */
  function NewProfile(userId: string, payload: RegisterPayload): (p: Profile)
    ensures p.id == userId && p.email == payload.email && p.phone == payload.phone
    ensures p.firstName == payload.firstName && p.lastName == payload.lastName
    ensures payload.userType.Some? ==> p.userType == payload.userType.value
    ensures payload.userType.None? ==> p.userType == Tenant
  {
    Profile(userId, payload.email, payload.phone, payload.firstName, payload.lastName,
            if payload.userType.Some? then payload.userType.value else Tenant)
  }

  /** The identity `register` settles on before touching the table: the
      updated user when a session exists, otherwise the signed-up user. */
  function RegisteredId(session: Option<Session>, update: Result<string>,
                        signUp: Result<Option<string>>): Result<Option<string>>
  {
    if session.Some? then
      (if update.Err? then Err(update.message) else Ok(Some(update.value)))
    else
      (if signUp.Err? then Err(signUp.message) else Ok(signUp.value))
  }

  // ---------------------------------------------------------------------
  // Live-backend primitives' answers

  /** What the backend answers to a successful OTP verification. */
  datatype VerifiedIdentity = VerifiedIdentity(userId: Option<string>, session: Option<Session>)

  /** What the backend answers to a successful password sign-in. */
  datatype SignedInUser = SignedInUser(id: string, email: Option<string>)

  /** The credentials sent to the password sign-in primitive. */
  datatype Credentials = Credentials(email: Option<string>, phone: Option<string>, password: string)

  /** Where `signInWithOtp` sends a code: the identifier under the field
      that its kind names (`email` or `phone`). */
  datatype OtpAddress = OtpAddress(field: IdKind, identifier: string)

  /** What `verifyOtp` is asked to check: the typed code for the identifier
      under its kind's field, on the kind's channel. */
  datatype OtpCheck = OtpCheck(address: OtpAddress, token: string, channel: string)

  /** The arguments of the `check_user_exists` RPC. */
  datatype ExistsQuery = ExistsQuery(identifierInput: string, typeInput: IdKind)

  /** The account call `register` makes before it touches the table: with a
      session, an update of that identity's password and name metadata;
      without one, a sign-up with the payload's email, phone, password and
      names. */
  datatype AccountCall =
    | UpdateUser(password: string, firstName: string, lastName: string)
    | SignUp(email: Option<string>, phone: Option<string>, password: string,
             firstName: string, lastName: string)

  /** The OTP verification channel for an identifier kind. */
  function OtpChannel(kind: IdKind): (channel: string)
    ensures channel == "email" <==> kind == Email
    ensures channel == "sms" <==> kind == Phone
  {
    match kind
    case Email => "email"
    case Phone => "sms"
  }

  /** The password sign-in sends the identifier as email exactly when it
      contains '@', and as phone otherwise; never both. */
  function SignInCredentials(identifier: string, password: string): (c: Credentials)
    ensures c.email.Some? <==> '@' in identifier
    ensures c.email.Some? != c.phone.Some?
    ensures c.email.Some? ==> c.email.value == identifier
    ensures c.phone.Some? ==> c.phone.value == identifier
    ensures c.password == password
  {
    var isEmail := KindOf(identifier) == Email;
    Credentials(if isEmail then Some(identifier) else None,
                if !isEmail then Some(identifier) else None,
                password)
  }

  /** `{ id, email, ...profile }`: the signed-in user overlaid with its
      profile row, whose columns win where present. */
  function WithProfile(signedIn: SignedInUser, profile: Option<Profile>): (u: User)
    requires profile.Some? ==> profile.value.id == signedIn.id
    ensures u.id == signedIn.id
    ensures profile.None? ==> u == User(signedIn.id, signedIn.email, None, None, None, None)
    ensures profile.Some? ==> u.email == profile.value.email && u.phone == profile.value.phone
                              && u.userType == Some(profile.value.userType)
                              && u.firstName == Some(profile.value.firstName)
                              && u.lastName == Some(profile.value.lastName)
  {
    match profile
    case None => User(signedIn.id, signedIn.email, None, None, None, None)
    case Some(p) => User(p.id, p.email, p.phone, Some(p.userType), Some(p.firstName), Some(p.lastName))
  }

  // ---------------------------------------------------------------------
  // The adapter

  class AuthService {
    /** The backend switch, fixed when the service is created. */
    const useSupabase: bool
    /** The live client's current session. */
    var session: Option<Session>
    /** The live `profiles` table. */
    var profiles: seq<Profile>

    ghost predicate Valid()
      reads this
    {
      UniqueIds(profiles)
    }

    constructor (useSupabase: bool, session: Option<Session>, profiles: seq<Profile>)
      requires UniqueIds(profiles)
      ensures Valid()
      ensures this.useSupabase == useSupabase && this.session == session && this.profiles == profiles
    {
      this.useSupabase := useSupabase;
      this.session := session;
      this.profiles := profiles;
    }

    /** The mock decides by the "exist" marker. The live adapter trusts the
        RPC's answer when it is error-free and non-null, and otherwise falls
        back to a single-row lookup on the identifier's column. `readFails`
        says whether that table read is refused (it then yields no data). */
    method CheckUserExists(identifier: string, kind: IdKind, rpc: Result<Option<bool>>, readFails: bool)
      returns (found: bool, asked: Option<ExistsQuery>)
      ensures !useSupabase ==> asked.None?
      ensures useSupabase ==> asked == Some(ExistsQuery(identifier, kind))
      ensures !useSupabase ==> (found <==> IsSubstring(ExistMarker, identifier))
      ensures useSupabase && rpc.Ok? && rpc.value.Some? ==> found == rpc.value.value
      ensures useSupabase && !(rpc.Ok? && rpc.value.Some?) ==>
                (found <==> !readFails && |Select(profiles, ColumnOf(kind), identifier)| == 1)
      ensures (useSupabase && !(rpc.Ok? && rpc.value.Some?)
               && forall p :: p in profiles ==> !ColumnEquals(p, ColumnOf(kind), identifier)) ==> !found
    {
      if useSupabase {
        asked := Some(ExistsQuery(identifier, kind));
        if rpc.Ok? && rpc.value.Some? {
          return rpc.value.value, asked;
        }
        var profile := if readFails then None else Single(Select(profiles, ColumnOf(kind), identifier));
        found := profile.Some?;
      } else {
        found, asked := MockCheckUserExists(identifier), None;
      }
    }

    /** Issuing a code: always succeeds in the mock; the live adapter sends
        the code to the identifier under its kind's field and reports the
        backend's error message. */
    method SendOtp(identifier: string, kind: IdKind, reply: Status)
      returns (res: AuthResponse, sentTo: Option<OtpAddress>)
      ensures !useSupabase ==> sentTo.None?
      ensures useSupabase ==> sentTo == Some(OtpAddress(kind, identifier))
      ensures res.success <==> !useSupabase || reply.Done?
      ensures !res.success ==> res.error == Some(reply.message)
      ensures res.success ==> res.error.None?
      ensures res.user.None? && res.session.None?
    {
      if useSupabase {
        sentTo := Some(OtpAddress(kind, identifier));
        if reply.Failed? {
          return Failure(reply.message), sentTo;
        }
        return Succeeded(None), sentTo;
      } else {
        return Succeeded(None), None;
      }
    }

    /** Verifying a code. The live adapter asks the backend to check the
        typed code for the identifier, on the 'email' or 'sms' channel,
        reports the backend's error, and on success adopts the
        session the backend returns. */
    method VerifyOtp(identifier: string, token: string, kind: IdKind, reply: Result<VerifiedIdentity>)
      returns (res: AuthResponse, check: Option<OtpCheck>)
      modifies this`session
      ensures !useSupabase ==> res == MockVerifyOtp(token) && check.None? && session == old(session)
      ensures useSupabase ==> check == Some(OtpCheck(OtpAddress(kind, identifier), token, OtpChannel(kind)))
      ensures useSupabase && reply.Err? ==> res == Failure(reply.message) && session == old(session)
      ensures useSupabase && reply.Ok? ==>
                && res.success && res.error.None?
                && res.user == Some(UserWithId(OrElse(reply.value.userId, "")))
                && res.session == reply.value.session
                && session == (if reply.value.session.Some? then reply.value.session else old(session))
    {
      if useSupabase {
        check := Some(OtpCheck(OtpAddress(kind, identifier), token, OtpChannel(kind)));
        if reply.Err? {
          return Failure(reply.message), check;
        }
        if reply.value.session.Some? {
          session := reply.value.session;
        }
        res := AuthResponse(true, Some(UserWithId(OrElse(reply.value.userId, ""))), None, reply.value.session);
      } else {
        res, check := MockVerifyOtp(token), None;
      }
    }

    /** Password login. The live adapter classifies the identifier by the
        `@` rule, and on success opens a session and overlays the user's
        profile row, if exactly one exists and the table read (`readFails`)
        is not refused. */
    method Login(identifier: string, password: string, reply: Result<SignedInUser>, readFails: bool)
      returns (res: AuthResponse, sent: Option<Credentials>)
      requires Valid()
      modifies this`session
      ensures !useSupabase ==> res == MockLogin(password) && sent.None? && session == old(session)
      ensures useSupabase ==> sent == Some(SignInCredentials(identifier, password))
      ensures useSupabase && reply.Err? ==> res == Failure(reply.message) && session == old(session)
      ensures useSupabase && reply.Ok? ==>
                && res.success && res.error.None?
                && res.user.Some? && res.user.value.id == reply.value.id
                && session == Some(Session(reply.value.id))
      // The user's profile row, when it is read, supplies every profile column.
      ensures useSupabase && reply.Ok? && !readFails ==>
                forall p :: p in profiles && p.id == reply.value.id ==>
                  && res.user.value.userType == Some(p.userType)
                  && res.user.value.firstName == Some(p.firstName)
                  && res.user.value.lastName == Some(p.lastName)
                  && res.user.value.email == p.email
                  && res.user.value.phone == p.phone
      // With no row, or a refused read, the user is the signed-in identity alone.
      ensures useSupabase && reply.Ok? && (readFails || !HasId(profiles, reply.value.id)) ==>
                res.user == Some(User(reply.value.id, reply.value.email, None, None, None, None))
    {
      if !useSupabase {
        return MockLogin(password), None;
      }
      sent := Some(SignInCredentials(identifier, password));
      if reply.Err? {
        return Failure(reply.message), sent;
      }
      var signedIn := reply.value;
      session := Some(Session(signedIn.id));
      var rows := Select(profiles, IdColumn, signedIn.id);
      SelectById(profiles, signedIn.id);
      var profile := if readFails then None else Single(rows);
      res := Succeeded(Some(WithProfile(signedIn, profile)));
      forall p | p in profiles && p.id == signedIn.id && !readFails
        ensures profile == Some(p)
      {
        SelectByIdIsRow(profiles, p);
      }
    }

    /** Registration. With a session the identity is updated, without one it
        is signed up; either error is reported before the table is touched.
        The insert is tried only when the lookup finds no row for the id, or
        when that lookup is refused (`readFails`); the table's primary key
        refuses a second row for an id, so the table never holds two rows for
        one identity. `insert` is the insert's outcome when the key allows
        it. A failed insert is tolerated and the call still succeeds. */
    method Register(payload: RegisterPayload, update: Result<string>, signUp: Result<Option<string>>,
                    readFails: bool, insert: Status)
      returns (res: AuthResponse, account: Option<AccountCall>, insertTried: bool)
      requires Valid()
      modifies this`profiles
      ensures Valid()
      ensures !useSupabase ==> account.None?
      ensures useSupabase && session.Some? ==>
                account == Some(UpdateUser(payload.password, payload.firstName, payload.lastName))
      ensures useSupabase && session.None? ==>
                account == Some(SignUp(payload.email, payload.phone, payload.password,
                                       payload.firstName, payload.lastName))
      ensures old(profiles) <= profiles && |profiles| <= |old(profiles)| + 1
      ensures !useSupabase ==> res == Succeeded(None) && profiles == old(profiles)
      ensures useSupabase && RegisteredId(session, update, signUp).Err? ==>
                res == Failure(RegisteredId(session, update, signUp).message) && profiles == old(profiles)
      ensures useSupabase && RegisteredId(session, update, signUp).Ok? ==>
                var userId := RegisteredId(session, update, signUp).value;
                && res == Succeeded(Some(UserWithId(OrElse(userId, ""))))
                && (userId.Some? && userId.value != "" && insert.Done? ==> HasId(profiles, userId.value))
                && (profiles != old(profiles) <==>
                      userId.Some? && userId.value != "" && !HasId(old(profiles), userId.value) && insert.Done?)
                && (profiles != old(profiles) ==> profiles == old(profiles) + [NewProfile(userId.value, payload)])
                && (insertTried <==>
                      userId.Some? && userId.value != "" && (readFails || !HasId(old(profiles), userId.value)))
      ensures !(useSupabase && RegisteredId(session, update, signUp).Ok?) ==> !insertTried
    {
      insertTried := false;
      if !useSupabase {
        return Succeeded(None), None, false;
      }
      var userId: Option<string> := if session.Some? then Some(session.value.userId) else None;
      if session.Some? {
        account := Some(UpdateUser(payload.password, payload.firstName, payload.lastName));
        if update.Err? {
          return Failure(update.message), account, false;
        }
        userId := Some(update.value);
      } else {
        account := Some(SignUp(payload.email, payload.phone, payload.password,
                               payload.firstName, payload.lastName));
        if signUp.Err? {
          return Failure(signUp.message), account, false;
        }
        userId := signUp.value;
      }
      if userId.Some? && userId.value != "" {
        var uid := userId.value;
        SelectById(profiles, uid);
        var existing := if readFails then None else Single(Select(profiles, IdColumn, uid));
        if existing.None? {
          insertTried := true;
          if insert.Done? && !HasId(profiles, uid) {
            AppendNewId(profiles, NewProfile(uid, payload));
            profiles := profiles + [NewProfile(uid, payload)];
          }
        }
      }
      res := Succeeded(Some(UserWithId(OrElse(userId, ""))));
    }

    /** Setting a new password on the session's identity: the live adapter
        asks the backend to update the password to `password`. */
    method ResetPassword(password: string, reply: Status)
      returns (res: AuthResponse, newPassword: Option<string>)
      ensures !useSupabase ==> newPassword.None?
      ensures useSupabase ==> newPassword == Some(password)
      ensures res.success <==> !useSupabase || reply.Done?
      ensures !res.success ==> res.error == Some(reply.message)
      ensures res.success ==> res.error.None?
    {
      newPassword := if useSupabase then Some(password) else None;
      if useSupabase && reply.Failed? {
        return Failure(reply.message), newPassword;
      }
      return Succeeded(None), newPassword;
    }
  }
}
