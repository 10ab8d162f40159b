/**
 * `AuthService`: registration, account verification, login with per-device
 * one-time codes, device verification, code re-sending and password reset.
 *
 * Each flow is specified by a function from the user collection before it to
 * a `FlowOutcome`: the value it returns or the `HttpException` it throws, the
 * collection after it, and the e-mails it sent. The class below runs the flows
 * step by step against the shared store and is proved to agree with them.
 * Hashing is the injected function `hash`; a stored password matches a
 * candidate when it is the candidate's hash. The generated OTP, the clock and
 * the id the database gives a new user are parameters.
 */
module AuthService {
  import opened Wrappers
  import opened Text
  import opened ObjectIds
  import opened UserEntity
  import opened AgentService
  import opened Tokens
  import opened AuthDtos

  datatype Email =
    | AccountVerificationEmail(to: string, firstName: string, token: Token)
    | OtpCodeEmail(to: string, firstName: string, code: nat)
    | ResetPasswordEmail(to: string, firstName: string, token: Token)

  /** `{ message, token, withOTP, user_id }`; `user_id` is null except on a device challenge. */
  datatype LoginResponse = LoginResponse(message: string, token: Token, withOtp: bool, userId: Option<string>)

  /** `{ message, token }` of a re-sent code. */
  datatype OtpResponse = OtpResponse(message: string, token: Token)

  /** What one flow does: its result, the user collection afterwards, and the e-mails it sent, in order. */
  datatype FlowOutcome<T> = FlowOutcome(result: Result<T>, users: map<ObjectId, User>, sent: seq<Email>)

  const UserAlreadyExists := HttpError(Conflict, "User already exists")
  const CannotRegister := HttpError(Conflict, "Can't register right now")
  const TokenRequired := HttpError(BadRequest, "Token is required")
  const UserNotFound := HttpError(NotFound, "User Not Found")
  const InvalidCredentials := HttpError(BadRequest, "Invalid credentials")
  const InvalidOtpCode := HttpError(BadRequest, "Invalid OTP code")
  /** What dereferencing the missing agent throws when `rememberMe` is set. */
  const AgentMissing := HttpError(InternalServerError, "Cannot set properties of undefined (setting 'isCurrent')")
  const UserDoesNotExist := HttpError(NotFound, "User doesn't exist")
  const InvalidResetToken := HttpError(BadRequest, "Invalid token")

  const RegisterSuccess := "Register Success and Verification sent"
  const AccountVerified := "Account Verified Successfully"
  const AccountNotVerifiedMessage := "Account not verified, we send an email to verify you email"
  const NewDeviceMessage := "OTP sent to your email. Please verify your new device."
  const KnownDeviceMessage := "OTP sent to your email. Please verify your device."
  const LoginSuccessful := "Login successful"
  const OtpCodeSent := "OTP code sent"
  const ResetEmailSent := "Reset password email sent"
  const PasswordResetDone := "Password reset successfully"

  /** A flow that throws before changing anything. */
  function Fail<T>(users: map<ObjectId, User>, e: HttpError): FlowOutcome<T> {
    FlowOutcome(Err(e), users, [])
  }

  /** `getUserByEmailOrPhoneNumberOrCINNumber` finds someone. */
  predicate Clashes(users: map<ObjectId, User>, dto: RegisterDto) {
    exists id | id in users ::
      users[id].email == dto.email || users[id].phoneNumber == dto.phoneNumber || users[id].cinNumber == dto.cinNumber
  }

  /** The user `createUser` stores: the body with the hashed password and the 'User' role. */
  function RegisteredUser(dto: RegisterDto, hash: string -> string, roleId: ObjectId): User {
    NewUser(dto.firstName, dto.lastName, dto.email, hash(dto.password), roleId, dto.phoneNumber, dto.city, dto.cinNumber)
  }

  /**
   * `handleRegistration`: `newId` is the id the database gives the new user
   * and `created` whether `createUser` returned it.
   */
  function RegisterSpec(users: map<ObjectId, User>, dto: RegisterDto, newId: ObjectId,
                        created: bool, hash: string -> string, roleId: ObjectId): FlowOutcome<string>
  {
    if Clashes(users, dto) then Fail(users, UserAlreadyExists)
    else if !created then Fail(users, CannotRegister)
    else
      FlowOutcome(Ok(RegisterSuccess), users[newId := RegisteredUser(dto, hash, roleId)],
                  [AccountVerificationEmail(dto.email, dto.firstName, VerificationToken(newId))])
  }

  /**
   * `verifyAccount`: `token` is the query parameter (None when absent) and
   * `verify` the signature and expiry check, which throws 401 on failure.
   */
  function VerifyAccountSpec(users: map<ObjectId, User>, token: Option<string>,
                             verify: string -> Result<Claims>, now: int): FlowOutcome<string>
  {
    if token.None? || token.value == "" then Fail(users, TokenRequired)
    else match verify(token.value)
      case Err(e) => Fail(users, e)
      case Ok(claims) =>
        match ToObjectId(claims.userId)
          case Err(e) => Fail(users, e)
          case Ok(id) =>
            if id !in users then Fail(users, UserNotFound)
            else FlowOutcome(Ok(AccountVerified), users[id := users[id].(verifiedAt := Some(now))], [])
  }

  /** `generateLoginToken`. */
  function LoginTokenResponse(userId: string): LoginResponse {
    LoginResponse(LoginSuccessful, SessionToken(userId), false, None)
  }

  /**
   * `sendOtpAndGenerateToken`: records the device when a user agent is given
   * (`""` stands for null), then mails a code and returns its signed copy.
   */
  function SendOtpSpec(users: map<ObjectId, User>, id: ObjectId, userAgent: string, rememberMe: Option<bool>,
                       otp: Otp, now: int, message: string): FlowOutcome<LoginResponse>
    requires id in users
  {
    var user := users[id];
    var after := if userAgent != "" then users[id := user.(agents := user.agents + [AgentRecord(userAgent, rememberMe, now)])] else users;
    FlowOutcome(Ok(LoginResponse(message, OtpToken(id, otp), true, Some(id.hex))), after,
                [OtpCodeEmail(user.email, user.firstName, otp)])
  }

  /** `handleLogin`; `userAgent` is the header, `""` when it is missing. */
  ghost function LoginSpec(users: map<ObjectId, User>, dto: LoginDto, userAgent: string,
                           otp: Otp, now: int, hash: string -> string): FlowOutcome<LoginResponse>
  {
    if !EmailRegistered(users, dto.email) then Fail(users, InvalidCredentials)
    else
      var id := UserIdWithEmail(users, dto.email);
      var user := users[id];
      if hash(dto.password) != user.password then Fail(users, InvalidCredentials)
      else if user.verifiedAt.None? then
        var token := VerificationToken(id);
        FlowOutcome(Ok(LoginResponse(AccountNotVerifiedMessage, token, false, None)), users,
                    [AccountVerificationEmail(user.email, user.firstName, token)])
      else match CheckUserAgent(user, userAgent)
        case NewAgent => SendOtpSpec(users, id, userAgent, dto.rememberMe, otp, now, NewDeviceMessage)
        case NotVerifiedAgent => SendOtpSpec(users, id, "", None, otp, now, KnownDeviceMessage)
        case VerifiedAgent => FlowOutcome(Ok(LoginTokenResponse(id.hex)), users, [])
  }

  /** `handleVerifyingDevice`: `data` are the claims of the challenge token. */
  function VerifyDeviceSpec(users: map<ObjectId, User>, data: Claims, body: VerifyDeviceDto,
                            userAgent: string): FlowOutcome<LoginResponse>
  {
    if data.otpCode != Some(body.otpCode) then Fail(users, InvalidOtpCode)
    else match ToObjectId(data.userId)
      case Err(e) => Fail(users, e)
      case Ok(id) =>
        if id !in users then Fail(users, UserNotFound)
        else if body.rememberMe != Some(true) then FlowOutcome(Ok(LoginTokenResponse(id.hex)), users, [])
        else match FindAgent(users[id].agents, userAgent)
          case None => Fail(users, AgentMissing)
          case Some(i) =>
            var user := users[id];
            var marked := user.(agents := user.agents[i := user.agents[i].(isCurrent := true)]);
            FlowOutcome(Ok(LoginTokenResponse(id.hex)), users[id := marked], [])
  }

  /** `handleResendOTPCode`. */
  function ResendOtpSpec(users: map<ObjectId, User>, body: ResendOtpCodeDto, otp: Otp): FlowOutcome<OtpResponse> {
    match ToObjectId(body.userId)
      case Err(e) => Fail(users, e)
      case Ok(id) =>
        if id !in users then Fail(users, UserDoesNotExist)
        else FlowOutcome(Ok(OtpResponse(OtpCodeSent, OtpToken(id, otp))), users,
                         [OtpCodeEmail(users[id].email, users[id].firstName, otp)])
  }

  /** `handelVerifyResetPasswordRequest`. */
  ghost function ResetRequestSpec(users: map<ObjectId, User>, body: ResetPasswordDto): FlowOutcome<string> {
    if !EmailRegistered(users, body.email) then Fail(users, UserDoesNotExist)
    else
      var id := UserIdWithEmail(users, body.email);
      FlowOutcome(Ok(ResetEmailSent), users, [ResetPasswordEmail(users[id].email, users[id].firstName, ResetToken(id))])
  }

  /** `handleResetPasswordToken`: `data` are the claims of the reset token. */
  function ResetPasswordSpec(users: map<ObjectId, User>, body: ResetPasswordPasswordDto, data: Claims,
                             hash: string -> string): FlowOutcome<string>
  {
    match ToObjectId(data.userId)
      case Err(e) => Fail(users, e)
      case Ok(id) =>
        if id !in users then Fail(users, UserDoesNotExist)
        else if data.identifier != Some(ResetIdentifier(id.hex)) then Fail(users, InvalidResetToken)
        else FlowOutcome(Ok(PasswordResetDone), users[id := users[id].(password := hash(body.password))], [])
  }

  // ----- Properties of the flows -----

  /** A registration either conflicts and changes nothing, or stores exactly the new unverified user and mails its link. */
  lemma RegisterOutcome(users: map<ObjectId, User>, dto: RegisterDto, newId: ObjectId, created: bool,
                        hash: string -> string, roleId: ObjectId)
    requires newId !in users
    ensures var o := RegisterSpec(users, dto, newId, created, hash, roleId);
      && (Clashes(users, dto) ==> o == Fail(users, UserAlreadyExists))
      && (!Clashes(users, dto) && !created ==> o == Fail(users, CannotRegister))
      && (!Clashes(users, dto) && created ==>
            && o.result == Ok(RegisterSuccess)
            && o.users.Keys == users.Keys + {newId}
            && (forall k | k in users :: o.users[k] == users[k])
            && o.users[newId].firstName == dto.firstName && o.users[newId].lastName == dto.lastName
            && o.users[newId].email == dto.email
            && o.users[newId].phoneNumber == dto.phoneNumber && o.users[newId].city == dto.city
            && o.users[newId].cinNumber == dto.cinNumber
            && o.users[newId].password == hash(dto.password)
            && o.users[newId].roleId == roleId
            && o.users[newId].verifiedAt.None? && o.users[newId].agents == []
            && o.sent == [AccountVerificationEmail(dto.email, dto.firstName, Token(Claims(newId.hex, None, None), 300))])
  {
  }

  /** Whatever role id the body names, the service stores the 'User' role. */
  lemma RegisterIgnoresRoleId(users: map<ObjectId, User>, dto: RegisterDto, other: Option<ObjectId>, newId: ObjectId,
                              created: bool, hash: string -> string, roleId: ObjectId)
    ensures RegisterSpec(users, dto.(roleId := other), newId, created, hash, roleId) == RegisterSpec(users, dto, newId, created, hash, roleId)
  {
  }

  /** Registration keeps e-mail, phone number and CIN number unique. */
  lemma RegisterKeepsInvariant(users: map<ObjectId, User>, dto: RegisterDto, newId: ObjectId, created: bool,
                               hash: string -> string, roleId: ObjectId)
    requires StoreInvariant(users) && newId !in users && IsCanonical(newId)
    ensures StoreInvariant(RegisterSpec(users, dto, newId, created, hash, roleId).users)
  {
    if !Clashes(users, dto) && created {
      DistinctUserKeepsInvariant(users, newId, RegisteredUser(dto, hash, roleId));
    }
  }

  /** Verifying an account only ever stamps `verifiedAt` of the user the token names. */
  lemma VerifyAccountOutcome(users: map<ObjectId, User>, token: Option<string>, verify: string -> Result<Claims>, now: int)
    ensures var o := VerifyAccountSpec(users, token, verify, now);
      && ((token.None? || token == Some("")) ==> o == Fail(users, TokenRequired))
      && (token.Some? && token.value != "" && verify(token.value).Err? ==> o == Fail(users, verify(token.value).error))
      && ((token.Some? && token.value != "" && verify(token.value).Ok? && IsMongoId(verify(token.value).value.userId)
           && ToObjectId(verify(token.value).value.userId).value !in users)
          ==> o == Fail(users, HttpError(NotFound, "User Not Found")))
      && o.sent == []
      && (o.result.Ok? <==>
            && token.Some? && token.value != "" && verify(token.value).Ok?
            && IsMongoId(verify(token.value).value.userId)
            && ToObjectId(verify(token.value).value.userId).value in users)
      && (o.result.Ok? ==>
            var id := ToObjectId(verify(token.value).value.userId).value;
            o.users == users[id := users[id].(verifiedAt := Some(now))])
      && (o.result.Err? ==> o.users == users)
  {
  }

  /** Account verification keeps the invariant. */
  lemma VerifyAccountKeepsInvariant(users: map<ObjectId, User>, token: Option<string>, verify: string -> Result<Claims>, now: int)
    requires StoreInvariant(users)
    ensures StoreInvariant(VerifyAccountSpec(users, token, verify, now).users)
  {
    var o := VerifyAccountSpec(users, token, verify, now);
    if o.result.Ok? {
      var id := ToObjectId(verify(token.value).value.userId).value;
      SameIdentitiesKeepInvariant(users, id, users[id].(verifiedAt := Some(now)));
    }
  }

  /**
   * An unknown e-mail and a wrong password are refused alike, so a caller
   * cannot tell which one it was.
   */
  lemma LoginCredentialFailuresAlike(users: map<ObjectId, User>, dto: LoginDto, userAgent: string, otp: Otp, now: int,
                                     hash: string -> string)
    requires !EmailRegistered(users, dto.email) || hash(dto.password) != users[UserIdWithEmail(users, dto.email)].password
    ensures LoginSpec(users, dto, userAgent, otp, now, hash) == Fail(users, HttpError(BadRequest, "Invalid credentials"))
  {
  }

  /** A correct password on an unverified account re-sends the verification link and changes nothing. */
  lemma UnverifiedLoginResendsLink(users: map<ObjectId, User>, id: ObjectId, dto: LoginDto, userAgent: string, otp: Otp,
                                   now: int, hash: string -> string)
    requires UniqueIdentities(users) && id in users && dto.email == users[id].email
    requires hash(dto.password) == users[id].password && users[id].verifiedAt.None?
    ensures var o := LoginSpec(users, dto, userAgent, otp, now, hash);
      && o.result == Ok(LoginResponse(AccountNotVerifiedMessage, Token(Claims(id.hex, None, None), 300), false, None))
      && o.users == users
      && o.sent == [AccountVerificationEmail(users[id].email, users[id].firstName, VerificationToken(id))]
  {
    EmailFindsUser(users, id);
  }

  /**
   * On a verified account with the right password the device decides: a new
   * device is recorded and challenged, a known untrusted one is challenged,
   * a trusted one gets a three-day session.
   */
  lemma VerifiedLoginByDevice(users: map<ObjectId, User>, id: ObjectId, dto: LoginDto, userAgent: string, otp: Otp,
                              now: int, hash: string -> string)
    requires UniqueIdentities(users) && id in users && dto.email == users[id].email
    requires hash(dto.password) == users[id].password && users[id].verifiedAt.Some?
    ensures var o := LoginSpec(users, dto, userAgent, otp, now, hash);
      var user := users[id];
      var challenge := Token(Claims(id.hex, Some(DecimalString(otp)), None), 300);
      match CheckUserAgent(user, userAgent)
        case NewAgent =>
          && o.result == Ok(LoginResponse(NewDeviceMessage, challenge, true, Some(id.hex)))
          && o.users == (if userAgent == "" then users
                         else users[id := user.(agents := user.agents + [Agent(userAgent, now, dto.rememberMe == Some(true))])])
          && o.sent == [OtpCodeEmail(user.email, user.firstName, otp)]
        case NotVerifiedAgent =>
          && o.result == Ok(LoginResponse(KnownDeviceMessage, challenge, true, Some(id.hex)))
          && o.users == users
          && o.sent == [OtpCodeEmail(user.email, user.firstName, otp)]
        case VerifiedAgent =>
          o == FlowOutcome(Ok(LoginResponse(LoginSuccessful, Token(Claims(id.hex, None, None), 259200), false, None)), users, [])
  {
    EmailFindsUser(users, id);
  }

  /**
   * A body the login route lets through carries no `remember_me`, so over
   * HTTP a new device is always recorded untrusted and must be verified.
   */
  lemma RouteLoginRecordsNewDeviceUntrusted(users: map<ObjectId, User>, id: ObjectId, dto: LoginDto, userAgent: string,
                                            otp: Otp, now: int, hash: string -> string)
    requires UniqueIdentities(users) && id in users && dto.email == users[id].email
    requires hash(dto.password) == users[id].password && users[id].verifiedAt.Some?
    requires LoginDtoValid(dto) && userAgent != "" && CheckUserAgent(users[id], userAgent) == NewAgent
    ensures var o := LoginSpec(users, dto, userAgent, otp, now, hash);
      && o.users[id].agents == users[id].agents + [Agent(userAgent, now, false)]
      && o.result.Ok? && o.result.value.withOtp
  {
    VerifiedLoginByDevice(users, id, dto, userAgent, otp, now, hash);
  }

  /** Login keeps the invariant: it only appends named agents. */
  lemma LoginKeepsInvariant(users: map<ObjectId, User>, dto: LoginDto, userAgent: string, otp: Otp, now: int,
                            hash: string -> string)
    requires StoreInvariant(users)
    ensures StoreInvariant(LoginSpec(users, dto, userAgent, otp, now, hash).users)
  {
    if EmailRegistered(users, dto.email) {
      var id := UserIdWithEmail(users, dto.email);
      var user := users[id];
      if userAgent != "" {
        var longer := user.(agents := user.agents + [AgentRecord(userAgent, dto.rememberMe, now)]);
        assert NamedAgents(longer) by {
          assert NamedAgents(user);
        }
        SameIdentitiesKeepInvariant(users, id, longer);
      }
    }
  }

  /** A code that differs from the challenge's is refused and nothing changes. */
  lemma WrongOtpRejected(users: map<ObjectId, User>, data: Claims, body: VerifyDeviceDto, userAgent: string)
    requires data.otpCode != Some(body.otpCode)
    ensures VerifyDeviceSpec(users, data, body, userAgent) == Fail(users, HttpError(BadRequest, "Invalid OTP code"))
  {
  }

  /**
   * The right code yields a session; with `rememberMe` the first agent with
   * the device's name becomes trusted and nothing else changes.
   */
  lemma VerifyDeviceOutcome(users: map<ObjectId, User>, id: ObjectId, otp: Otp, body: VerifyDeviceDto, userAgent: string)
    requires id in users && IsCanonical(id) && body.otpCode == DecimalString(otp)
    ensures var o := VerifyDeviceSpec(users, OtpToken(id, otp).claims, body, userAgent);
      && o.sent == []
      && (body.rememberMe != Some(true) ==> o.result == Ok(LoginTokenResponse(id.hex)) && o.users == users)
      && (body.rememberMe == Some(true) && FindAgent(users[id].agents, userAgent).None? ==>
            o == Fail(users, HttpError(InternalServerError, "Cannot set properties of undefined (setting 'isCurrent')")))
      && (body.rememberMe == Some(true) && FindAgent(users[id].agents, userAgent).Some? ==>
            && o.result == Ok(LoginResponse(LoginSuccessful, Token(Claims(id.hex, None, None), 259200), false, None))
            && o.users.Keys == users.Keys
            && (forall k | k in users && k != id :: o.users[k] == users[k])
            && o.users[id] == users[id].(agents := o.users[id].agents)
            && |o.users[id].agents| == |users[id].agents|
            && (var i := FindAgent(users[id].agents, userAgent).value;
                o.users[id].agents == users[id].agents[i := users[id].agents[i].(isCurrent := true)])
            && CheckUserAgent(o.users[id], userAgent) == VerifiedAgent)
  {
    CanonicalRoundTrip(id);
    var found := FindAgent(users[id].agents, userAgent);
    if body.rememberMe == Some(true) && found.Some? {
      MarkingFirstMatchVerifies(users[id], userAgent, found.value);
    }
  }

  /** Device verification keeps the invariant. */
  lemma VerifyDeviceKeepsInvariant(users: map<ObjectId, User>, data: Claims, body: VerifyDeviceDto, userAgent: string)
    requires StoreInvariant(users)
    ensures StoreInvariant(VerifyDeviceSpec(users, data, body, userAgent).users)
  {
    if data.otpCode == Some(body.otpCode) && ToObjectId(data.userId).Ok? {
      var id := ToObjectId(data.userId).value;
      if id in users && body.rememberMe == Some(true) && FindAgent(users[id].agents, userAgent).Some? {
        var i := FindAgent(users[id].agents, userAgent).value;
        var user := users[id];
        var marked := user.(agents := user.agents[i := user.agents[i].(isCurrent := true)]);
        assert NamedAgents(marked) by {
          assert NamedAgents(user);
        }
        SameIdentitiesKeepInvariant(users, id, marked);
      }
    }
  }

  /** Re-sending a code mails a fresh one to the user and changes nothing. */
  lemma ResendOtpOutcome(users: map<ObjectId, User>, body: ResendOtpCodeDto, otp: Otp)
    ensures var o := ResendOtpSpec(users, body, otp);
      && o.users == users
      && (!IsMongoId(body.userId) ==> o == Fail(users, HttpError(InternalServerError, "Invalid ObjectId: " + body.userId)))
      && (IsMongoId(body.userId) && ToObjectId(body.userId).value !in users ==> o == Fail(users, HttpError(NotFound, "User doesn't exist")))
      && (IsMongoId(body.userId) && ToObjectId(body.userId).value in users ==>
            var id := ToObjectId(body.userId).value;
            && o.result == Ok(OtpResponse(OtpCodeSent, Token(Claims(id.hex, Some(DecimalString(otp)), None), 300)))
            && o.sent == [OtpCodeEmail(users[id].email, users[id].firstName, otp)])
  {
  }

  /** A reset request changes nothing; it mails the user a reset link exactly when the e-mail is registered. */
  lemma ResetRequestOutcome(users: map<ObjectId, User>, body: ResetPasswordDto)
    requires UniqueIdentities(users)
    ensures var o := ResetRequestSpec(users, body);
      && o.users == users
      && (o.result.Ok? <==> EmailRegistered(users, body.email))
      && (!EmailRegistered(users, body.email) ==> o == Fail(users, HttpError(NotFound, "User doesn't exist")))
    ensures forall id | id in users && users[id].email == body.email ::
      ResetRequestSpec(users, body) ==
        FlowOutcome(Ok(ResetEmailSent), users,
          [ResetPasswordEmail(body.email, users[id].firstName, Token(Claims(id.hex, None, Some("password-reset-" + id.hex)), 300))])
  {
    forall id | id in users && users[id].email == body.email
      ensures ResetRequestSpec(users, body) ==
        FlowOutcome(Ok(ResetEmailSent), users,
          [ResetPasswordEmail(body.email, users[id].firstName, Token(Claims(id.hex, None, Some("password-reset-" + id.hex)), 300))])
    {
      EmailFindsUser(users, id);
    }
  }

  /**
   * Completing a reset: an unknown user is refused before the identifier is
   * looked at; a known user with a foreign identifier is refused; otherwise
   * only that user's password changes, to the hash of the new one.
   */
  lemma ResetPasswordOutcome(users: map<ObjectId, User>, body: ResetPasswordPasswordDto, data: Claims,
                             hash: string -> string)
    ensures var o := ResetPasswordSpec(users, body, data, hash);
      && o.sent == []
      && (!IsMongoId(data.userId) ==> o == Fail(users, HttpError(InternalServerError, "Invalid ObjectId: " + data.userId)))
      && (IsMongoId(data.userId) ==>
            var id := ToObjectId(data.userId).value;
            && (id !in users ==> o == Fail(users, HttpError(NotFound, "User doesn't exist")))
            && (id in users && data.identifier != Some("password-reset-" + id.hex) ==>
                  o == Fail(users, HttpError(BadRequest, "Invalid token")))
            && (id in users && data.identifier == Some("password-reset-" + id.hex) ==>
                  && o.result == Ok(PasswordResetDone)
                  && o.users.Keys == users.Keys
                  && (forall k | k in users && k != id :: o.users[k] == users[k])
                  && o.users[id] == users[id].(password := hash(body.password))))
  {
  }

  /** The reset identifier names one user: a token minted for one account is refused for another. */
  lemma ResetIdentifierInjective(a: ObjectId, b: ObjectId)
    requires a != b
    ensures ResetIdentifier(a.hex) != ResetIdentifier(b.hex)
  {
    var p := "password-reset-";
    assert ResetIdentifier(a.hex)[|p|..] == a.hex;
    assert ResetIdentifier(b.hex)[|p|..] == b.hex;
  }

  /** A reset token whose identifier names another user is refused, and the password stays. */
  lemma ForeignResetTokenRejected(users: map<ObjectId, User>, body: ResetPasswordPasswordDto, a: ObjectId, b: ObjectId,
                                  hash: string -> string)
    requires a in users && IsCanonical(a) && a != b
    ensures var data := Claims(a.hex, None, Some(ResetIdentifier(b.hex)));
      ResetPasswordSpec(users, body, data, hash) == Fail(users, HttpError(BadRequest, "Invalid token"))
  {
    CanonicalRoundTrip(a);
    ResetIdentifierInjective(a, b);
  }

  /** Password reset keeps the invariant. */
  lemma ResetPasswordKeepsInvariant(users: map<ObjectId, User>, body: ResetPasswordPasswordDto, data: Claims,
                                    hash: string -> string)
    requires StoreInvariant(users)
    ensures StoreInvariant(ResetPasswordSpec(users, body, data, hash).users)
  {
    var o := ResetPasswordSpec(users, body, data, hash);
    if o.result.Ok? {
      var id := ToObjectId(data.userId).value;
      SameIdentitiesKeepInvariant(users, id, users[id].(password := hash(body.password)));
    }
  }

  // ----- Flows in sequence -----

  /** A freshly registered account cannot log in before it is verified. */
  lemma FreshAccountMustVerifyFirst(users: map<ObjectId, User>, dto: RegisterDto, newId: ObjectId, hash: string -> string,
                                    roleId: ObjectId, rememberMe: Option<bool>, userAgent: string, otp: Otp, now: int)
    requires StoreInvariant(users) && newId !in users && IsCanonical(newId) && !Clashes(users, dto)
    ensures var after := RegisterSpec(users, dto, newId, true, hash, roleId).users;
      LoginSpec(after, LoginDto(dto.email, dto.password, rememberMe), userAgent, otp, now, hash).result
        == Ok(LoginResponse(AccountNotVerifiedMessage, VerificationToken(newId), false, None))
  {
    RegisterKeepsInvariant(users, dto, newId, true, hash, roleId);
    var after := RegisterSpec(users, dto, newId, true, hash, roleId).users;
    EmailFindsUser(after, newId);
  }

  /**
   * Once its link is followed, the first login from a device is challenged
   * with a code and records exactly that one device.
   */
  lemma FirstLoginAfterVerificationChallenges(users: map<ObjectId, User>, dto: RegisterDto, newId: ObjectId,
                                              hash: string -> string, roleId: ObjectId, link: string,
                                              verify: string -> Result<Claims>, rememberMe: Option<bool>,
                                              userAgent: string, otp: Otp, now: int)
    requires StoreInvariant(users) && newId !in users && IsCanonical(newId) && !Clashes(users, dto)
    requires link != "" && verify(link) == Ok(VerificationToken(newId).claims)
    requires userAgent != ""
    ensures var registered := RegisterSpec(users, dto, newId, true, hash, roleId).users;
      var verified := VerifyAccountSpec(registered, Some(link), verify, now);
      var o := LoginSpec(verified.users, LoginDto(dto.email, dto.password, rememberMe), userAgent, otp, now, hash);
      && verified.result == Ok(AccountVerified)
      && o.result == Ok(LoginResponse(NewDeviceMessage, OtpToken(newId, otp), true, Some(newId.hex)))
      && o.users[newId].agents == [Agent(userAgent, now, rememberMe == Some(true))]
  {
    RegisterKeepsInvariant(users, dto, newId, true, hash, roleId);
    var registered := RegisterSpec(users, dto, newId, true, hash, roleId).users;
    CanonicalRoundTrip(newId);
    VerifyAccountKeepsInvariant(registered, Some(link), verify, now);
    var verified := VerifyAccountSpec(registered, Some(link), verify, now);
    assert verified.users[newId].agents == [];
    EmailFindsUser(verified.users, newId);
  }

  /** Without `remember_me`, a second login from a device met once is challenged again and no duplicate is recorded. */
  lemma UntrustedDeviceChallengedAgain(users: map<ObjectId, User>, dto: LoginDto, userAgent: string, otp: Otp, otp2: Otp,
                                       now: int, now2: int, hash: string -> string)
    requires StoreInvariant(users) && userAgent != "" && dto.rememberMe != Some(true)
    requires var o := LoginSpec(users, dto, userAgent, otp, now, hash);
      o.result.Ok? && o.result.value.message == NewDeviceMessage
    ensures var first := LoginSpec(users, dto, userAgent, otp, now, hash);
      var second := LoginSpec(first.users, dto, userAgent, otp2, now2, hash);
      && second.result.Ok? && second.result.value.message == KnownDeviceMessage && second.result.value.withOtp
      && second.users == first.users
  {
    var id := UserIdWithEmail(users, dto.email);
    var user := users[id];
    assert CheckUserAgent(user, userAgent) == NewAgent;
    var first := LoginSpec(users, dto, userAgent, otp, now, hash);
    AppendedDeviceFollowsItsFlag(user, userAgent, dto.rememberMe, now);
    LoginKeepsInvariant(users, dto, userAgent, otp, now, hash);
    EmailFindsUser(first.users, id);
  }

  /** A login that answers with a challenge has recorded the device under the user's id with the code in the token. */
  lemma ChallengeRecordsDevice(users: map<ObjectId, User>, dto: LoginDto, userAgent: string, otp: Otp, now: int,
                               hash: string -> string)
    requires StoreInvariant(users) && userAgent != ""
    requires var o := LoginSpec(users, dto, userAgent, otp, now, hash);
      o.result.Ok? && o.result.value.withOtp
    ensures EmailRegistered(users, dto.email)
    ensures var id := UserIdWithEmail(users, dto.email);
      var first := LoginSpec(users, dto, userAgent, otp, now, hash);
      && StoreInvariant(first.users) && id in first.users
      && first.users[id] == users[id].(agents := first.users[id].agents)
      && first.result.value.token == OtpToken(id, otp)
      && FindAgent(first.users[id].agents, userAgent).Some?
  {
    var id := UserIdWithEmail(users, dto.email);
    var user := users[id];
    LoginKeepsInvariant(users, dto, userAgent, otp, now, hash);
    if CheckUserAgent(user, userAgent) == NewAgent {
      AppendedDeviceFollowsItsFlag(user, userAgent, dto.rememberMe, now);
    }
  }

  /**
   * A challenged device that answers with the right code and `rememberMe`
   * logs in afterwards without a code.
   */
  lemma RememberedDeviceSkipsChallenge(users: map<ObjectId, User>, dto: LoginDto, userAgent: string, otp: Otp, otp2: Otp,
                                       now: int, now2: int, hash: string -> string)
    requires StoreInvariant(users) && userAgent != ""
    requires var o := LoginSpec(users, dto, userAgent, otp, now, hash);
      o.result.Ok? && o.result.value.withOtp
    ensures var first := LoginSpec(users, dto, userAgent, otp, now, hash);
      var device := VerifyDeviceSpec(first.users, first.result.value.token.claims,
                                     VerifyDeviceDto(DecimalString(otp), Some(true)), userAgent);
      var again := LoginSpec(device.users, dto, userAgent, otp2, now2, hash);
      && device.result.Ok? && device.result.value.token.ttl == SessionLifetime
      && again == FlowOutcome(Ok(device.result.value), device.users, [])
  {
    ChallengeRecordsDevice(users, dto, userAgent, otp, now, hash);
    var id := UserIdWithEmail(users, dto.email);
    var first := LoginSpec(users, dto, userAgent, otp, now, hash);
    var body := VerifyDeviceDto(DecimalString(otp), Some(true));
    VerifyDeviceOutcome(first.users, id, otp, body, userAgent);
    VerifyDeviceKeepsInvariant(first.users, OtpToken(id, otp).claims, body, userAgent);
    var device := VerifyDeviceSpec(first.users, OtpToken(id, otp).claims, body, userAgent);
    EmailFindsUser(device.users, id);
  }

  /**
   * `remember_me` on the login body already trusts a new device: the next
   * login from it gets a session without any code being checked.
   */
  lemma LoginRememberMeTrustsNewDevice(users: map<ObjectId, User>, dto: LoginDto, userAgent: string, otp: Otp, otp2: Otp,
                                       now: int, now2: int, hash: string -> string)
    requires StoreInvariant(users) && userAgent != "" && dto.rememberMe == Some(true)
    requires var o := LoginSpec(users, dto, userAgent, otp, now, hash);
      o.result.Ok? && o.result.value.message == NewDeviceMessage
    ensures var first := LoginSpec(users, dto, userAgent, otp, now, hash);
      var second := LoginSpec(first.users, dto, userAgent, otp2, now2, hash);
      && second.result.Ok? && !second.result.value.withOtp && second.result.value.token.ttl == SessionLifetime
      && second.sent == []
  {
    var id := UserIdWithEmail(users, dto.email);
    var user := users[id];
    var first := LoginSpec(users, dto, userAgent, otp, now, hash);
    AppendedDeviceFollowsItsFlag(user, userAgent, dto.rememberMe, now);
    LoginKeepsInvariant(users, dto, userAgent, otp, now, hash);
    EmailFindsUser(first.users, id);
  }

  /** The link a reset request mails resets that user's password, and the new password then passes the credential check. */
  lemma ResetLinkResetsPassword(users: map<ObjectId, User>, id: ObjectId, request: ResetPasswordDto,
                                body: ResetPasswordPasswordDto, hash: string -> string,
                                userAgent: string, otp: Otp, now: int)
    requires StoreInvariant(users) && id in users && request.email == users[id].email
    ensures var mailed := ResetRequestSpec(users, request).sent[0].token;
      var reset := ResetPasswordSpec(users, body, mailed.claims, hash);
      var login := LoginSpec(reset.users, LoginDto(request.email, body.password, None), userAgent, otp, now, hash);
      && reset.result == Ok(PasswordResetDone)
      && reset.users == users[id := users[id].(password := hash(body.password))]
      && login.result != Err(InvalidCredentials)
  {
    ResetRequestOutcome(users, request);
    CanonicalRoundTrip(id);
    ResetPasswordKeepsInvariant(users, body, ResetToken(id).claims, hash);
    var reset := ResetPasswordSpec(users, body, ResetToken(id).claims, hash);
    EmailFindsUser(reset.users, id);
  }

  /**
   * The service object: the user collection it shares with the repository,
   * the injected hash and the id of the 'User' role, and the e-mails sent so far.
   */
  class AuthService {
    const store: UserStore
    const hash: string -> string
    const userRoleId: ObjectId
    ghost var outbox: seq<Email>

    ghost predicate Valid()
      reads this, store
    {
      StoreInvariant(store.users)
    }

    constructor (store: UserStore, hash: string -> string, userRoleId: ObjectId)
      requires StoreInvariant(store.users)
      ensures Valid() && outbox == []
      ensures this.store == store && this.hash == hash && this.userRoleId == userRoleId
    {
      this.store := store;
      this.hash := hash;
      this.userRoleId := userRoleId;
      outbox := [];
    }

    method HandleRegistration(dto: RegisterDto, newId: ObjectId, created: bool) returns (r: Result<string>)
      requires Valid() && newId !in store.users && IsCanonical(newId)
      modifies this, store
      ensures Valid()
      ensures var o := RegisterSpec(old(store.users), dto, newId, created, hash, userRoleId);
        r == o.result && store.users == o.users && outbox == old(outbox) + o.sent
    {
      RegisterKeepsInvariant(store.users, dto, newId, created, hash, userRoleId);
      if Clashes(store.users, dto) {
        return Err(UserAlreadyExists);
      }
      var hashed := hash(dto.password);
      var user := NewUser(dto.firstName, dto.lastName, dto.email, hashed, userRoleId, dto.phoneNumber, dto.city, dto.cinNumber);
      if !created {
        return Err(CannotRegister);
      }
      store.users := store.users[newId := user];
      var token := VerificationToken(newId);
      outbox := outbox + [AccountVerificationEmail(user.email, user.firstName, token)];
      r := Ok(RegisterSuccess);
    }

    method VerifyAccount(token: Option<string>, verify: string -> Result<Claims>, now: int) returns (r: Result<string>)
      requires Valid()
      modifies store
      ensures Valid()
      ensures var o := VerifyAccountSpec(old(store.users), token, verify, now);
        r == o.result && store.users == o.users && o.sent == []
    {
      VerifyAccountKeepsInvariant(store.users, token, verify, now);
      if token.None? || token.value == "" {
        return Err(TokenRequired);
      }
      var decoded := verify(token.value);
      if decoded.Err? {
        return Err(decoded.error);
      }
      var userId := ToObjectId(decoded.value.userId);
      if userId.Err? {
        return Err(userId.error);
      }
      var id := userId.value;
      if id !in store.users {
        return Err(UserNotFound);
      }
      var user := store.users[id];
      store.users := store.users[id := user.(verifiedAt := Some(now))];
      r := Ok(AccountVerified);
    }

    method HandleLogin(dto: LoginDto, userAgent: string, otp: Otp, now: int) returns (r: Result<LoginResponse>)
      requires Valid()
      modifies this, store
      ensures Valid()
      ensures var o := LoginSpec(old(store.users), dto, userAgent, otp, now, hash);
        r == o.result && store.users == o.users && outbox == old(outbox) + o.sent
    {
      LoginKeepsInvariant(store.users, dto, userAgent, otp, now, hash);
      var matching := set k | k in store.users && store.users[k].email == dto.email;
      if matching == {} {
        assert forall k | k in store.users :: k !in matching;
        return Err(InvalidCredentials);
      }
      var id :| id in matching;
      EmailFindsUser(store.users, id);
      var user := store.users[id];
      if hash(dto.password) != user.password {
        return Err(InvalidCredentials);
      }
      if user.verifiedAt.None? {
        var token := VerificationToken(id);
        outbox := outbox + [AccountVerificationEmail(user.email, user.firstName, token)];
        return Ok(LoginResponse(AccountNotVerifiedMessage, token, false, None));
      }
      var status := CheckUserAgent(user, userAgent);
      match status {
        case NewAgent =>
          var response := SendOtpAndGenerateToken(id, userAgent, dto.rememberMe, otp, now, NewDeviceMessage);
          r := Ok(response);
        case NotVerifiedAgent =>
          var response := SendOtpAndGenerateToken(id, "", None, otp, now, KnownDeviceMessage);
          r := Ok(response);
        case VerifiedAgent =>
          r := Ok(LoginTokenResponse(id.hex));
      }
    }

    method SendOtpAndGenerateToken(id: ObjectId, userAgent: string, rememberMe: Option<bool>, otp: Otp, now: int,
                                   message: string) returns (response: LoginResponse)
      requires Valid() && id in store.users
      modifies this, store
      ensures var o := SendOtpSpec(old(store.users), id, userAgent, rememberMe, otp, now, message);
        Ok(response) == o.result && store.users == o.users && outbox == old(outbox) + o.sent
    {
      var user := store.users[id];
      if userAgent != "" {
        user := user.(agents := user.agents + [AgentRecord(userAgent, rememberMe, now)]);
        store.users := store.users[id := user];
      }
      var token := OtpToken(id, otp);
      outbox := outbox + [OtpCodeEmail(user.email, user.firstName, otp)];
      response := LoginResponse(message, token, true, Some(id.hex));
    }

    method HandleVerifyingDevice(data: Claims, body: VerifyDeviceDto, userAgent: string) returns (r: Result<LoginResponse>)
      requires Valid()
      modifies store
      ensures Valid()
      ensures var o := VerifyDeviceSpec(old(store.users), data, body, userAgent);
        r == o.result && store.users == o.users && o.sent == []
    {
      VerifyDeviceKeepsInvariant(store.users, data, body, userAgent);
      if data.otpCode != Some(body.otpCode) {
        return Err(InvalidOtpCode);
      }
      var userId := ToObjectId(data.userId);
      if userId.Err? {
        return Err(userId.error);
      }
      var id := userId.value;
      if id !in store.users {
        return Err(UserNotFound);
      }
      if body.rememberMe == Some(true) {
        var user := store.users[id];
        var found := FindAgent(user.agents, userAgent);
        if found.None? {
          return Err(AgentMissing);
        }
        var i := found.value;
        store.users := store.users[id := user.(agents := user.agents[i := user.agents[i].(isCurrent := true)])];
      }
      r := Ok(LoginTokenResponse(id.hex));
    }

    method HandleResendOtpCode(body: ResendOtpCodeDto, otp: Otp) returns (r: Result<OtpResponse>)
      requires Valid()
      modifies this
      ensures Valid()
      ensures var o := ResendOtpSpec(store.users, body, otp);
        r == o.result && outbox == old(outbox) + o.sent
    {
      var userId := ToObjectId(body.userId);
      if userId.Err? {
        return Err(userId.error);
      }
      var id := userId.value;
      if id !in store.users {
        return Err(UserDoesNotExist);
      }
      var user := store.users[id];
      outbox := outbox + [OtpCodeEmail(user.email, user.firstName, otp)];
      r := Ok(OtpResponse(OtpCodeSent, OtpToken(id, otp)));
    }

    method HandleResetRequest(body: ResetPasswordDto) returns (r: Result<string>)
      requires Valid()
      modifies this
      ensures Valid()
      ensures var o := ResetRequestSpec(store.users, body);
        r == o.result && outbox == old(outbox) + o.sent
    {
      var matching := set k | k in store.users && store.users[k].email == body.email;
      if matching == {} {
        assert forall k | k in store.users :: k !in matching;
        return Err(UserDoesNotExist);
      }
      var id :| id in matching;
      EmailFindsUser(store.users, id);
      var user := store.users[id];
      outbox := outbox + [ResetPasswordEmail(user.email, user.firstName, ResetToken(id))];
      r := Ok(ResetEmailSent);
    }

    method HandleResetPasswordToken(body: ResetPasswordPasswordDto, data: Claims) returns (r: Result<string>)
      requires Valid()
      modifies store
      ensures Valid()
      ensures var o := ResetPasswordSpec(old(store.users), body, data, hash);
        r == o.result && store.users == o.users
    {
      ResetPasswordKeepsInvariant(store.users, body, data, hash);
      var userId := ToObjectId(data.userId);
      if userId.Err? {
        return Err(userId.error);
      }
      var id := userId.value;
      if id !in store.users {
        return Err(UserDoesNotExist);
      }
      if data.identifier != Some(ResetIdentifier(id.hex)) {
        return Err(InvalidResetToken);
      }
      var user := store.users[id];
      store.users := store.users[id := user.(password := hash(body.password))];
      r := Ok(PasswordResetDone);
    }
  }
}
