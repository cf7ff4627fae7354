/**
 * The account rules of the auth controller: the profile-ID builder, and the
 * verification state a user moves through by `signUp`, `regenerateOTP`,
 * `verifyOTP` and `signIn`. Hashing, password checking and token signing
 * are function parameters; OTP values, expiry times and the clock are
 * arguments.
 */
module AuthController {
  import opened Common
  import opened JsText
  import opened Moment
  import opened UserModel

  /** The width of the personal part of a profile ID. */
  const PersonalIdWidth: nat := 14

  /** `generateProfileID`'s middle part: the national ID, or the random fallback when it is falsy. */
  function PersonalId(nationalId: Option<string>, randomBase36: string): (p: string)
    ensures |p| == PersonalIdWidth
    ensures Present(nationalId) && |nationalId.value| >= PersonalIdWidth ==>
      p == nationalId.value[..PersonalIdWidth]
    ensures Present(nationalId) && |nationalId.value| < PersonalIdWidth ==>
      p == nationalId.value + Repeat('0', PersonalIdWidth - |nationalId.value|)
    ensures !Present(nationalId) ==> p[..|Substring(randomBase36, 2, 16)|] == Substring(randomBase36, 2, 16)
  {
    if Present(nationalId) then
      var padded := PadEnd(nationalId.value, PersonalIdWidth, '0');
      assert |nationalId.value| < PersonalIdWidth ==>
        padded == nationalId.value + Repeat('0', PersonalIdWidth - |nationalId.value|);
      padded[..PersonalIdWidth]
    else
      PadEnd(Substring(randomBase36, 2, 16), PersonalIdWidth, '0')
  }

  /**
   * `generateProfileID(national_id_number)` on the date day/month/year:
   * DDMM ++ personal ID ++ YY, always twenty characters.
   * `randomBase36` stands for `Math.random().toString(36)`.
   */
  function ProfileId(day: nat, month: nat, year: nat, nationalId: Option<string>, randomBase36: string): (r: string)
    requires ValidDayMonth(day, month)
    ensures |r| == 4 + PersonalIdWidth + 2 == 20
    ensures r[..4] == DayMonth(day, month)
    ensures r[4..18] == PersonalId(nationalId, randomBase36)
    ensures r[18..] == TwoDigitYear(year)
  {
    DayMonth(day, month) + PersonalId(nationalId, randomBase36) + TwoDigitYear(year)
  }

  /** The first user with this email, as `findOne({ email })` returns it. */
  function FindByEmail(users: seq<User>, email: string): (r: Option<nat>)
    ensures r.None? <==> forall i :: 0 <= i < |users| ==> users[i].email != email
    ensures r.Some? ==> r.value < |users| && users[r.value].email == email
    ensures r.Some? ==> forall i :: 0 <= i < r.value ==> users[i].email != email
  {
    FindFirst(users, (u: User) => u.email == email)
  }

  /** The first user holding this OTP, as `findOne({ otp })` returns it. */
  function FindByOtp(users: seq<User>, otp: int): (r: Option<nat>)
    ensures r.None? <==> forall i :: 0 <= i < |users| ==> users[i].otp != otp
    ensures r.Some? ==> r.value < |users| && users[r.value].otp == otp
    ensures r.Some? ==> forall i :: 0 <= i < r.value ==> users[i].otp != otp
  {
    FindFirst(users, (u: User) => u.otp == otp)
  }

  /** The request body of `signUp`; it is handed to `create` as it stands, apart from the fields set below. */
  datatype SignUpRequest = SignUpRequest(
    firstName: Option<string>,
    lastName: Option<string>,
    email: string,
    password: string,
    role: Option<string>,
    verified: Option<bool>,
    profilePic: Option<string>)

  /** The responses of `signUp`: 400 "User already exists", a rejected `create`, or the new user's id. */
  datatype SignUpOutcome = UserExists | SignUpRejected | AccountCreated(id: Id)

  datatype SignUpResult = SignUpResult(users: seq<User>, outcome: SignUpOutcome)

  /** The body after `signUp` sets password, OTP, salt, expiry and (for managers) `verified`. */
  function SignUpDoc(req: SignUpRequest, salt: string, hash: (string, string) -> string,
                     otp: int, expiry: Millis): UserDoc
  {
    UserDoc(req.firstName, req.lastName, Some(req.email), Some(hash(req.password, salt)), Some(salt),
            if req.role == Some("Manager") then Some(true) else req.verified,
            Some(otp), Some(expiry), req.role, req.profilePic)
  }

  /**
   * One call of `signUp` against the users collection; a user's id is its
   * position. `salt`, `otp` and `expiry` are what `GenerateSalt` and
   * `GenerateOTP` produced.
   */
  function SignUpStep(users: seq<User>, req: SignUpRequest, salt: string, hash: (string, string) -> string,
                  otp: int, expiry: Millis): (r: SignUpResult)
    ensures FindByEmail(users, req.email).Some? ==> r == SignUpResult(users, UserExists)
    ensures !r.outcome.AccountCreated? ==> r.users == users
    ensures FindByEmail(users, req.email).None? ==>
      (r.outcome.AccountCreated? <==> CreateUser(SignUpDoc(req, salt, hash, otp, expiry)).Some?)
    ensures FindByEmail(users, req.email).None? && CreateUser(SignUpDoc(req, salt, hash, otp, expiry)).None? ==>
      r == SignUpResult(users, SignUpRejected)
    ensures r.outcome.AccountCreated? ==>
      && FindByEmail(users, req.email).None?
      && r.outcome.id == |users|
      && |r.users| == |users| + 1 && r.users[..|users|] == users
      && Some(r.users[|users|]) == CreateUser(SignUpDoc(req, salt, hash, otp, expiry))
      && var u := r.users[|users|];
         && u.email == req.email
         && u.password == Some(hash(req.password, salt)) && u.salt == Some(salt)
         && u.otp == otp && u.otpExpiryTime == expiry
         && (req.role == Some("Manager") ==> u.verified && u.role == Manager)
         && (req.role != Some("Manager") && req.verified != Some(true) ==> !u.verified)
         && (req.verified == Some(true) ==> u.verified)
         && (req.role.None? ==> u.role == UserRole)
  {
    if FindByEmail(users, req.email).Some? then SignUpResult(users, UserExists)
    else
      var created := CreateUser(SignUpDoc(req, salt, hash, otp, expiry));
      if created.None? then SignUpResult(users, SignUpRejected)
      else
        assert (users + [created.value])[..|users|] == users;
        SignUpResult(users + [created.value], AccountCreated(|users|))
  }

  /** The responses of `regenerateOTP`: unknown account, or "OTP resent!". */
  datatype RegenerateOutcome = UnknownAccount | OtpResent

  datatype RegenerateResult = RegenerateResult(users: seq<User>, outcome: RegenerateOutcome)

  /** One call of `regenerateOTP` for the account `id`, with the freshly generated OTP and expiry. */
  function RegenerateOtpStep(users: seq<User>, id: Option<Id>, otp: int, expiry: Millis): (r: RegenerateResult)
    ensures (id.None? || id.value >= |users|) <==> r.outcome == UnknownAccount
    ensures r.outcome == UnknownAccount ==> r.users == users
    ensures r.outcome == OtpResent ==>
      && |r.users| == |users|
      && r.users[id.value] == users[id.value].(otp := otp, otpExpiryTime := expiry)
      && r.users[id.value].verified == users[id.value].verified
      && forall i :: 0 <= i < |users| && i != id.value ==> r.users[i] == users[i]
  {
    if id.None? || id.value >= |users| then RegenerateResult(users, UnknownAccount)
    else
      var u := users[id.value];
      RegenerateResult(users[id.value := u.(otp := otp, otpExpiryTime := expiry)], OtpResent)
  }

  /** The responses of `verifyOTP`, checked in this order. */
  datatype VerifyOutcome = InvalidOtp | OtpExpired | AccountVerified(id: Id)

  datatype VerifyResult = VerifyResult(users: seq<User>, outcome: VerifyOutcome)

  /** One call of `verifyOTP` with the submitted OTP at time `now`. */
  function VerifyOtpStep(users: seq<User>, otp: int, now: Millis): (r: VerifyResult)
    ensures FindByOtp(users, otp).None? <==> r.outcome == InvalidOtp
    ensures r.outcome.OtpExpired? <==>
      FindByOtp(users, otp).Some? && users[FindByOtp(users, otp).value].otpExpiryTime < now
    ensures !r.outcome.AccountVerified? ==> r.users == users
    ensures r.outcome.AccountVerified? ==>
      && Some(r.outcome.id) == FindByOtp(users, otp)
      && users[r.outcome.id].otpExpiryTime >= now
      && r.users == users[r.outcome.id := users[r.outcome.id].(verified := true)]
  {
    var found := FindByOtp(users, otp);
    if found.None? then VerifyResult(users, InvalidOtp)
    else if users[found.value].otpExpiryTime < now then VerifyResult(users, OtpExpired)
    else
      var i := found.value;
      VerifyResult(users[i := users[i].(verified := true)], AccountVerified(i))
  }

  /** The responses of `signIn`: unknown email and wrong password share one message. */
  datatype SignInOutcome = InvalidCredentials | VerifyFirst | SignedIn(token: string)

  /**
   * `signIn`: find the user by email, check the password, then the
   * `verified` flag; only then is a token issued. `validate` and
   * `generateToken` stand for `ValidatePassword` and `GenerateToken`.
   */
  function SignIn(users: seq<User>, email: string, password: string,
                  validate: (string, Option<string>, Option<string>) -> bool,
                  generateToken: (Id, string, bool) -> string): (r: SignInOutcome)
    ensures FindByEmail(users, email).None? ==> r == InvalidCredentials
    ensures FindByEmail(users, email).Some? ==>
      var u := users[FindByEmail(users, email).value];
      && (!validate(password, u.password, u.salt) ==> r == InvalidCredentials)
      && (validate(password, u.password, u.salt) && !u.verified ==> r == VerifyFirst)
      && (validate(password, u.password, u.salt) && u.verified ==>
            r == SignedIn(generateToken(FindByEmail(users, email).value, email, true)))
    ensures r.SignedIn? ==>
      && FindByEmail(users, email).Some?
      && var i := FindByEmail(users, email).value;
         && validate(password, users[i].password, users[i].salt)
         && users[i].verified
         && r.token == generateToken(i, email, true)
  {
    var found := FindByEmail(users, email);
    if found.None? then InvalidCredentials
    else
      var u := users[found.value];
      if !validate(password, u.password, u.salt) then InvalidCredentials
      else if !u.verified then VerifyFirst
      else SignedIn(generateToken(found.value, u.email, u.verified))
  }

  /**
   * The account life cycle for an ordinary user: right after `signUp` the
   * correct password only gets "verify first"; after `verifyOTP` with the
   * user's OTP before it expires (no earlier account holding the same OTP),
   * the same password gets a token.
   */
  lemma SignUpVerifySignIn(users: seq<User>, req: SignUpRequest, salt: string, hash: (string, string) -> string,
                           otp: int, expiry: Millis, now: Millis,
                           validate: (string, Option<string>, Option<string>) -> bool,
                           generateToken: (Id, string, bool) -> string)
    requires SignUpStep(users, req, salt, hash, otp, expiry).outcome.AccountCreated?
    requires req.role != Some("Manager") && req.verified != Some(true)
    requires validate(req.password, Some(hash(req.password, salt)), Some(salt))
    requires forall i :: 0 <= i < |users| ==> users[i].otp != otp
    requires now <= expiry
    ensures var s := SignUpStep(users, req, salt, hash, otp, expiry);
      && SignIn(s.users, req.email, req.password, validate, generateToken) == VerifyFirst
      && var v := VerifyOtpStep(s.users, otp, now);
         && v.outcome == AccountVerified(|users|)
         && SignIn(v.users, req.email, req.password, validate, generateToken)
              == SignedIn(generateToken(|users|, req.email, true))
  {
    var s := SignUpStep(users, req, salt, hash, otp, expiry);
    var n := |users|;
    assert forall i :: 0 <= i < n ==> s.users[i] == users[i];
    assert FindByEmail(s.users, req.email) == Some(n);
    assert FindByOtp(s.users, otp) == Some(n);
    var v := VerifyOtpStep(s.users, otp, now);
    assert forall i :: 0 <= i < n ==> v.users[i] == users[i];
    assert v.users[n].email == req.email;
    assert FindByEmail(v.users, req.email) == Some(n);
  }

  /** The users collection, updated in place by the account operations. */
  class UserStore {
    var users: seq<User>

    constructor ()
      ensures users == []
    {
      users := [];
    }

    method SignUp(req: SignUpRequest, salt: string, hash: (string, string) -> string,
                  otp: int, expiry: Millis) returns (outcome: SignUpOutcome)
      modifies this
      ensures SignUpResult(users, outcome) == SignUpStep(old(users), req, salt, hash, otp, expiry)
    {
      var existingUser := FindByEmail(users, req.email);
      if existingUser.Some? {
        return UserExists;
      }
      var body := SignUpDoc(req, salt, hash, otp, expiry);
      var recordedUser := CreateUser(body);
      if recordedUser.None? {
        return SignUpRejected;
      }
      outcome := AccountCreated(|users|);
      users := users + [recordedUser.value];
    }

    method RegenerateOtp(id: Option<Id>, otp: int, expiry: Millis) returns (outcome: RegenerateOutcome)
      modifies this
      ensures RegenerateResult(users, outcome) == RegenerateOtpStep(old(users), id, otp, expiry)
    {
      if id.None? || id.value >= |users| {
        return UnknownAccount;
      }
      var foundUser := users[id.value];
      foundUser := foundUser.(otp := otp);
      foundUser := foundUser.(otpExpiryTime := expiry);
      users := users[id.value := foundUser];
      outcome := OtpResent;
    }

    method VerifyOtp(otp: int, now: Millis) returns (outcome: VerifyOutcome)
      modifies this
      ensures VerifyResult(users, outcome) == VerifyOtpStep(old(users), otp, now)
    {
      var found := FindByOtp(users, otp);
      if found.None? {
        return InvalidOtp;
      }
      var foundUser := users[found.value];
      if foundUser.otpExpiryTime < now {
        return OtpExpired;
      }
      foundUser := foundUser.(verified := true);
      users := users[found.value := foundUser];
      outcome := AccountVerified(found.value);
    }
  }
}
