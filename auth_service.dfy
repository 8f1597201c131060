/**
 * The account-lifecycle handlers of the auth service, as methods of one
 * object holding the user directory, the wall clock and the outbox of
 * envelopes handed to the broker. The collaborators the handlers call but
 * whose workings are not modelled (the request schemas, bcrypt, the JWT
 * signer, the string helpers) are fixed, uninterpreted functions.
 */
module AuthLifecycle {
  import opened Wrappers
  import opened Hex
  import opened Records
  import opened Directory

  // Request bodies (the fields each handler destructures)

  datatype EmailBody = EmailBody(email: string)
  datatype PasswordBody = PasswordBody(password: string, confirmPassword: string)
  datatype ChangePasswordBody = ChangePasswordBody(currentPassword: string, newPassword: string)
  datatype SignupBody = SignupBody(username: string, password: string, country: string, email: string, profilePicture: string)
  datatype LoginBody = LoginBody(username: string, password: string)
  /** `userId` is the value `parseInt` makes of the body's field. */
  datatype ResendBody = ResendBody(email: string, userId: int)

  /** Each schema yields None when the body passes and otherwise the message
      of the first detail of the validation error. */
  datatype Schemas = Schemas(
    email: EmailBody -> Option<string>,
    password: PasswordBody -> Option<string>,
    changePassword: ChangePasswordBody -> Option<string>,
    signup: SignupBody -> Option<string>,
    login: LoginBody -> Option<string>)

  datatype Crypto = Crypto(
    hashPassword: string -> string,
    comparePassword: (string, string) -> bool,
    signToken: (nat, string, string) -> string)

  datatype TextHelpers = TextHelpers(
    isEmail: string -> bool,
    lowerCase: string -> string,
    firstLetterUppercase: string -> string)

  /** What the image upload returns; an empty `publicId` stands for a missing one. */
  datatype UploadResult = UploadResult(publicId: string, secureUrl: string)

  /** `date.setHours(date.getHours() + 1)`, in milliseconds. */
  const OneHourMs: int := 3600000

  const ForgotPasswordFrom: string := "ForgotPassword create() method error"
  const ResetPasswordFrom: string := "ResetPassword update() method error"
  const ChangePasswordFrom: string := "Password changePassword() method error"
  const SignUpFrom: string := "SignUp create() method error"
  const SignInFrom: string := "SignIn read() method error"
  const ResendEmailFrom: string := "CurrentUser resendEmail() method error"
  const VerifyEmailFrom: string := "VerifyEmail update() method error"

  const ResetLinkPath: string := "/reset-password?token="
  const ConfirmLinkPath: string := "/confirm_email?v_token="
  const VerifyLinkPath: string := "/verify-email?token="

  class AuthService {
    var users: Users
    var nextId: nat
    /** The wall clock, in milliseconds. */
    var now: int
    /** Every envelope handed to the broker, oldest first. */
    var outbox: seq<Envelope>

    const clientUrl: string
    const schemas: Schemas
    const crypto: Crypto
    const text: TextHelpers
    /** Whether the reset-token lookup also filters out expired tokens; the
        handler itself never compares the expiry with the clock. */
    const lookupChecksExpiry: bool

    /** Every record is stored under its own id, ids still to be handed out
        are above every id in use, and every envelope in the outbox is
        addressed as the auth service addresses its mails. */
    ghost predicate Valid()
      reads this
    {
      && (forall id :: id in users ==> users[id].id == id && id < nextId)
      && (forall i :: 0 <= i < |outbox| ==> WellAddressed(outbox[i]))
    }

    constructor (clientUrl: string, schemas: Schemas, crypto: Crypto, text: TextHelpers,
                 lookupChecksExpiry: bool, now: int)
      ensures Valid()
      ensures users == map[] && outbox == [] && this.now == now
      ensures this.clientUrl == clientUrl && this.schemas == schemas && this.crypto == crypto
      ensures this.text == text && this.lookupChecksExpiry == lookupChecksExpiry
    {
      users := map[];
      nextId := 1;
      this.now := now;
      outbox := [];
      this.clientUrl := clientUrl;
      this.schemas := schemas;
      this.crypto := crypto;
      this.text := text;
      this.lookupChecksExpiry := lookupChecksExpiry;
    }

    /** Time passes between requests. */
    method AdvanceClock(elapsed: nat)
      modifies this`now
      ensures now == old(now) + elapsed
    {
      now := now + elapsed;
    }

    /** `publishDirectMessage` catches and logs every failure, so to a handler
        it always returns normally; the envelope joins the outbox. */
    method Publish(e: Envelope)
      requires Valid() && WellAddressed(e)
      modifies this`outbox
      ensures Valid()
      ensures outbox == old(outbox) + [e]
    {
      outbox := outbox + [e];
    }

    /** `createAuthUser`: stores the record under the next free id and returns it. */
    method CreateAuthUser(data: UserRecord) returns (result: UserRecord)
      requires Valid()
      modifies this`users, this`nextId
      ensures Valid()
      ensures result == data.(id := old(nextId)) && result.id !in old(users)
      ensures users == old(users)[result.id := result]
    {
      result := data.(id := nextId);
      users := users[nextId := result];
      nextId := nextId + 1;
    }

    /** The lookup `resetPassword` issues for a token from the URL. */
    function ResetQuery(token: string): Query
      reads this
    {
      ByPasswordToken(token, now, lookupChecksExpiry)
    }

    /** `forgotPassword`: issue a reset token for a known email address and
        mail the reset link. */
    method ForgotPassword(body: EmailBody, random: seq<byte>) returns (res: Outcome<Notice>)
      requires Valid() && |random| == TokenBytes
      modifies this`users, this`outbox
      ensures Valid()
      ensures schemas.email(body).Some? ==>
        res == BadRequest(schemas.email(body).value, ForgotPasswordFrom) &&
        users == old(users) && outbox == old(outbox)
      ensures schemas.email(body).None? && Find(old(users), ByEmail(body.email)).None? ==>
        res == BadRequest("Invalid credentials", ForgotPasswordFrom) &&
        users == old(users) && outbox == old(outbox)
      ensures schemas.email(body).None? && Find(old(users), ByEmail(body.email)).Some? ==>
        var id := Find(old(users), ByEmail(body.email)).value;
        var token := Token(random);
        && res == Ok(Notice(StatusOk, "Password reset link sent to your email"))
        && users == UpdatePasswordToken(old(users), id, token, now + OneHourMs)
        && outbox == old(outbox) + [AuthEmail(ReceiverEmail(old(users)[id].email), ForgotPasswordMail,
                                              Some(clientUrl + ResetLinkPath + token))]
    {
      var error := schemas.email(body);
      if error.Some? {
        return BadRequest(error.value, ForgotPasswordFrom);
      }
      var existing := Find(users, ByEmail(body.email));
      if existing.None? {
        return BadRequest("Invalid credentials", ForgotPasswordFrom);
      }
      var existingUser := users[existing.value];
      var token := Token(random);
      var expires := now + OneHourMs;
      users := UpdatePasswordToken(users, existingUser.id, token, expires);
      var resetLink := clientUrl + ResetLinkPath + token;
      Publish(AuthEmail(ReceiverEmail(existingUser.email), ForgotPasswordMail, Some(resetLink)));
      res := Ok(Notice(StatusOk, "Password reset link sent to your email"));
    }

    /** `resetPassword`: redeem a reset token for a new password. */
    method ResetPassword(body: PasswordBody, token: string) returns (res: Outcome<Notice>)
      requires Valid()
      modifies this`users, this`outbox
      ensures Valid()
      ensures schemas.password(body).Some? ==>
        res == BadRequest(schemas.password(body).value, ResetPasswordFrom) &&
        users == old(users) && outbox == old(outbox)
      ensures schemas.password(body).None? && body.password != body.confirmPassword ==>
        res == BadRequest("Passwords do not match", ResetPasswordFrom) &&
        users == old(users) && outbox == old(outbox)
      ensures schemas.password(body).None? && body.password == body.confirmPassword &&
              Find(old(users), ResetQuery(token)).None? ==>
        res == BadRequest("Invalid credentials", ResetPasswordFrom) &&
        users == old(users) && outbox == old(outbox)
      ensures schemas.password(body).None? && body.password == body.confirmPassword &&
              Find(old(users), ResetQuery(token)).Some? ==>
        var id := Find(old(users), ResetQuery(token)).value;
        && res == Ok(Notice(StatusOk, "Password reset successfully"))
        && users == UpdatePassword(old(users), id, crypto.hashPassword(body.password))
        && outbox == old(outbox) + [AuthEmail(Username(old(users)[id].username), ResetPasswordSuccessMail, None)]
    {
      var error := schemas.password(body);
      if error.Some? {
        return BadRequest(error.value, ResetPasswordFrom);
      }
      if body.password != body.confirmPassword {
        return BadRequest("Passwords do not match", ResetPasswordFrom);
      }
      var existing := Find(users, ResetQuery(token));
      if existing.None? {
        return BadRequest("Invalid credentials", ResetPasswordFrom);
      }
      var existingUser := users[existing.value];
      var hashedPassword := crypto.hashPassword(body.password);
      users := UpdatePassword(users, existingUser.id, hashedPassword);
      Publish(AuthEmail(Username(existingUser.username), ResetPasswordSuccessMail, None));
      res := Ok(Notice(StatusOk, "Password reset successfully"));
    }

    /** `changePassword` as written: once the body passes the schema, the
        handler calls the parsed body as a function and throws a TypeError, so
        it neither looks anything up nor writes. */
    function ChangePasswordAsWritten(body: ChangePasswordBody): (r: Outcome<Notice>)
      ensures !r.Ok?
      ensures schemas.changePassword(body).Some? ==>
        r == BadRequest(schemas.changePassword(body).value, ChangePasswordFrom)
      ensures schemas.changePassword(body).None? ==> r.Fault?
    {
      match schemas.changePassword(body)
      case Some(message) => BadRequest(message, ChangePasswordFrom)
      case None => Fault("TypeError: req.body is not a function")
    }

    /** `changePassword` with the body read as an object. The comparison of
        the two supplied passwords is kept as the source has it: the request
        is refused unless they are EQUAL. */
    method ChangePassword(body: ChangePasswordBody, sessionUsername: string) returns (res: Outcome<Notice>)
      requires Valid()
      modifies this`users, this`outbox
      ensures Valid()
      ensures schemas.changePassword(body).Some? ==>
        res == BadRequest(schemas.changePassword(body).value, ChangePasswordFrom) &&
        users == old(users) && outbox == old(outbox)
      ensures schemas.changePassword(body).None? && body.currentPassword != body.newPassword ==>
        res == BadRequest("Invalid password", ChangePasswordFrom) &&
        users == old(users) && outbox == old(outbox)
      ensures schemas.changePassword(body).None? && body.currentPassword == body.newPassword &&
              Find(old(users), ByUsername(sessionUsername)).None? ==>
        res == BadRequest("Invalid password", ResetPasswordFrom) &&
        users == old(users) && outbox == old(outbox)
      ensures schemas.changePassword(body).None? && body.currentPassword == body.newPassword &&
              Find(old(users), ByUsername(sessionUsername)).Some? ==>
        var id := Find(old(users), ByUsername(sessionUsername)).value;
        && res == Ok(Notice(StatusOk, "Password reset successfully"))
        && users == UpdatePassword(old(users), id, crypto.hashPassword(body.newPassword))
        && outbox == old(outbox) + [AuthEmail(Username(old(users)[id].username), ResetPasswordSuccessMail, None)]
    {
      var error := schemas.changePassword(body);
      if error.Some? {
        return BadRequest(error.value, ChangePasswordFrom);
      }
      if body.currentPassword != body.newPassword {
        return BadRequest("Invalid password", ChangePasswordFrom);
      }
      var existing := Find(users, ByUsername(sessionUsername));
      if existing.None? {
        return BadRequest("Invalid password", ResetPasswordFrom);
      }
      var existingUser := users[existing.value];
      var hashedPassword := crypto.hashPassword(body.newPassword);
      users := UpdatePassword(users, existingUser.id, hashedPassword);
      Publish(AuthEmail(Username(existingUser.username), ResetPasswordSuccessMail, None));
      res := Ok(Notice(StatusOk, "Password reset successfully"));
    }

    /** The record sign-up builds from the request, before the directory gives it an id. */
    function NewUser(body: SignupBody, profilePublicId: string, upload: UploadResult, token: string): (u: UserRecord)
      ensures u.username == text.firstLetterUppercase(body.username)
      ensures u.email == text.lowerCase(body.email)
      ensures u.password == body.password && u.country == body.country
      ensures u.profilePicture == upload.secureUrl && u.profilePublicId == profilePublicId
      ensures u.emailVerified == 0 && u.emailVerificationToken == token
      ensures u.passwordResetToken.None? && u.passwordResetExpires.None?
    {
      UserRecord(0, text.firstLetterUppercase(body.username), text.lowerCase(body.email), body.password,
                 body.country, upload.secureUrl, profilePublicId, 0, token, None, None)
    }

    /** `create` in signup: register a new account, mail its confirmation link
        and sign a session token for it. `profilePublicId` is the generated
        uuid and `uploads` the image upload. */
    method SignUp(body: SignupBody, profilePublicId: string, uploads: (string, string) -> UploadResult,
                  random: seq<byte>) returns (res: Outcome<Session<UserRecord>>)
      requires Valid() && |random| == TokenBytes
      modifies this`users, this`nextId, this`outbox
      ensures Valid()
      ensures schemas.signup(body).Some? ==>
        res == BadRequest(schemas.signup(body).value, SignUpFrom) &&
        users == old(users) && outbox == old(outbox)
      ensures schemas.signup(body).None? && Find(old(users), ByUsernameOrEmail(body.username, body.email)).Some? ==>
        res == BadRequest("Invalid credentials for this user to sign up", SignUpFrom) &&
        users == old(users) && outbox == old(outbox)
      ensures schemas.signup(body).None? && Find(old(users), ByUsernameOrEmail(body.username, body.email)).None? &&
              uploads(body.profilePicture, profilePublicId).publicId == "" ==>
        res == BadRequest("File upload error. Try again", SignUpFrom) &&
        users == old(users) && outbox == old(outbox)
      ensures schemas.signup(body).None? && Find(old(users), ByUsernameOrEmail(body.username, body.email)).None? &&
              uploads(body.profilePicture, profilePublicId).publicId != "" ==>
        var token := Token(random);
        var created := NewUser(body, profilePublicId, uploads(body.profilePicture, profilePublicId), token)
                       .(id := old(nextId));
        && created.id !in old(users)
        && users == old(users)[created.id := created]
        && outbox == old(outbox) + [AuthEmail(ReceiverEmail(created.email), VerifyEmailMail,
                                              Some(clientUrl + ConfirmLinkPath + token))]
        && res == Ok(Session(StatusCreated, "User created successfully", created,
                             crypto.signToken(created.id, created.email, created.username)))
    {
      var error := schemas.signup(body);
      if error.Some? {
        return BadRequest(error.value, SignUpFrom);
      }
      if Find(users, ByUsernameOrEmail(body.username, body.email)).Some? {
        return BadRequest("Invalid credentials for this user to sign up", SignUpFrom);
      }
      var uploadResult := uploads(body.profilePicture, profilePublicId);
      if uploadResult.publicId == "" {
        return BadRequest("File upload error. Try again", SignUpFrom);
      }
      var randomCharacters := Token(random);
      var authData := NewUser(body, profilePublicId, uploadResult, randomCharacters);
      var result := CreateAuthUser(authData);
      var verificationLink := clientUrl + ConfirmLinkPath + authData.emailVerificationToken;
      Publish(AuthEmail(ReceiverEmail(result.email), VerifyEmailMail, Some(verificationLink)));
      var userJWT := crypto.signToken(result.id, result.email, result.username);
      res := Ok(Session(StatusCreated, "User created successfully", result, userJWT));
    }

    /** The lookup sign-in issues: by email when the identifier is an email
        address, by username otherwise. */
    function SignInQuery(identifier: string): (q: Query)
      ensures forall u: UserRecord {:trigger Matches(q, u)} :: Matches(q, u) <==>
        (if text.isEmail(identifier) then u.email == identifier else u.username == identifier)
    {
      if text.isEmail(identifier) then ByEmail(identifier) else ByUsername(identifier)
    }

    /** `read` in signin: check the credentials and sign a session token. No
        write, no envelope. */
    function SignIn(body: LoginBody): (r: Outcome<Session<PublicUser>>)
      reads this
      ensures schemas.login(body).Some? ==> r == BadRequest(schemas.login(body).value, SignInFrom)
      ensures schemas.login(body).None? && !r.Ok? ==> r == BadRequest("Invalid credentials", SignInFrom)
      ensures r.Ok? <==>
        schemas.login(body).None? && Find(users, SignInQuery(body.username)).Some? &&
        crypto.comparePassword(body.password, users[Find(users, SignInQuery(body.username)).value].password)
      ensures r.Ok? ==>
        exists id :: id in users &&
          (if text.isEmail(body.username) then users[id].email == body.username
           else users[id].username == body.username) &&
          crypto.comparePassword(body.password, users[id].password) &&
          r.value == Session(StatusOk, "User login successfully", Omit(users[id]),
                             crypto.signToken(users[id].id, users[id].email, users[id].username))
      ensures r.Ok? ==>
        var id := Find(users, SignInQuery(body.username)).value;
        r.value == Session(StatusOk, "User login successfully", Omit(users[id]),
                           crypto.signToken(users[id].id, users[id].email, users[id].username))
    {
      match schemas.login(body)
      case Some(message) => BadRequest(message, SignInFrom)
      case None =>
        match Find(users, SignInQuery(body.username))
        case None => BadRequest("Invalid credentials", SignInFrom)
        case Some(id) =>
          var existingUser := users[id];
          if !crypto.comparePassword(body.password, existingUser.password) then
            BadRequest("Invalid credentials", SignInFrom)
          else
            var userJWT := crypto.signToken(existingUser.id, existingUser.email, existingUser.username);
            Ok(Session(StatusOk, "User login successfully", Omit(existingUser), userJWT))
    }

    /** `read` in current-user: the signed-in user's record, or none. */
    function Read(currentUserId: nat): (r: UserReply)
      reads this
      ensures r.status == StatusOk && r.message == "Authenticated user"
      ensures r.user.Some? <==> currentUserId in users
      ensures r.user.Some? ==> r.user.value == users[currentUserId]
    {
      UserReply(StatusOk, "Authenticated user", ById(users, currentUserId))
    }

    /** `resendEmail`: reissue a verification token. The lookup is by the
        lower-cased email, but the write and the re-read go to the id taken
        from the body. */
    method ResendEmail(body: ResendBody, random: seq<byte>) returns (res: Outcome<UserReply>)
      requires Valid() && |random| == TokenBytes
      modifies this`users, this`outbox
      ensures Valid()
      ensures Find(old(users), ByEmail(text.lowerCase(body.email))).None? ==>
        res == BadRequest("Email is invalid", ResendEmailFrom) &&
        users == old(users) && outbox == old(outbox)
      ensures Find(old(users), ByEmail(text.lowerCase(body.email))).Some? ==>
        var token := Token(random);
        && users == UpdateVerifyEmailField(old(users), body.userId, 0, token)
        && outbox == old(outbox) + [AuthEmail(ReceiverEmail(text.lowerCase(body.email)), VerifyEmailMail,
                                              Some(clientUrl + VerifyLinkPath + token))]
        && res == Ok(UserReply(StatusOk, "Email sent successfully", ById(users, body.userId)))
    {
      var existing := Find(users, ByEmail(text.lowerCase(body.email)));
      if existing.None? {
        return BadRequest("Email is invalid", ResendEmailFrom);
      }
      var randomCharacters := Token(random);
      var verificationLink := clientUrl + VerifyLinkPath + randomCharacters;
      users := UpdateVerifyEmailField(users, body.userId, 0, randomCharacters);
      Publish(AuthEmail(ReceiverEmail(text.lowerCase(body.email)), VerifyEmailMail, Some(verificationLink)));
      var updatedUser := ById(users, body.userId);
      res := Ok(UserReply(StatusOk, "Email sent successfully", updatedUser));
    }

    /** `update` in verify-email: redeem a verification token. */
    method VerifyEmail(token: string) returns (res: Outcome<UserReply>)
      requires Valid()
      modifies this`users
      ensures Valid()
      ensures Find(old(users), ByVerificationToken(token)).None? ==>
        res == BadRequest("Verification token is either invalid or expired", VerifyEmailFrom) &&
        users == old(users)
      ensures outbox == old(outbox)
      ensures Find(old(users), ByVerificationToken(token)).Some? ==>
        var id := Find(old(users), ByVerificationToken(token)).value;
        && users == UpdateVerifyEmailField(old(users), id, 1, "")
        && res == Ok(UserReply(StatusOk, "Email verified successfully",
                               Some(old(users)[id].(emailVerified := 1, emailVerificationToken := ""))))
    {
      var existing := Find(users, ByVerificationToken(token));
      if existing.None? {
        return BadRequest("Verification token is either invalid or expired", VerifyEmailFrom);
      }
      var id := users[existing.value].id;
      users := UpdateVerifyEmailField(users, id, 1, "");
      var updatedUser := ById(users, id);
      res := Ok(UserReply(StatusOk, "Email verified successfully", updatedUser));
    }
  }
}
