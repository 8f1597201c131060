/**
 * The values the handlers exchange: the stored user record, the record with
 * its password omitted, the notification envelope handed to the broker and
 * the replies the handlers send back.
 */
module Records {
  import opened Wrappers

  /** `emailVerified` is stored as the integer 0 or 1. */
  type Flag = b: int | b == 0 || b == 1

  datatype UserRecord = UserRecord(
    id: nat,
    username: string,
    email: string,
    password: string,
    country: string,
    profilePicture: string,
    profilePublicId: string,
    emailVerified: Flag,
    emailVerificationToken: string,
    passwordResetToken: Option<string>,
    passwordResetExpires: Option<int>)

  /** A user record without its `password` key, as `omit(user, ['password'])` builds it. */
  datatype PublicUser = PublicUser(
    id: nat,
    username: string,
    email: string,
    country: string,
    profilePicture: string,
    profilePublicId: string,
    emailVerified: Flag,
    emailVerificationToken: string,
    passwordResetToken: Option<string>,
    passwordResetExpires: Option<int>)

  /** Puts a password back on a public view. */
  function WithPassword(p: PublicUser, password: string): UserRecord {
    UserRecord(p.id, p.username, p.email, password, p.country, p.profilePicture,
               p.profilePublicId, p.emailVerified, p.emailVerificationToken,
               p.passwordResetToken, p.passwordResetExpires)
  }

  /** Removes the password and nothing else: putting it back restores the record. */
  function Omit(u: UserRecord): (p: PublicUser)
    ensures WithPassword(p, u.password) == u
    ensures forall q: PublicUser {:trigger WithPassword(q, u.password)} :: WithPassword(q, u.password) == u ==> q == p
  {
    PublicUser(u.id, u.username, u.email, u.country, u.profilePicture, u.profilePublicId,
               u.emailVerified, u.emailVerificationToken, u.passwordResetToken, u.passwordResetExpires)
  }

  // Notification envelopes

  const NotificationExchange: string := "jobman-email-notification"
  const AuthEmailRoutingKey: string := "auth-email"

  datatype Template = VerifyEmailMail | ForgotPasswordMail | ResetPasswordSuccessMail

  /** An envelope names its receiver either by email address or by username. */
  datatype Recipient = ReceiverEmail(email: string) | Username(name: string)

  datatype Envelope = Envelope(
    exchange: string,
    routingKey: string,
    to: Recipient,
    template: Template,
    verifyLink: Option<string>)

  /** Builds an envelope for the auth service's exchange and routing key. */
  function AuthEmail(to: Recipient, template: Template, link: Option<string>): Envelope {
    Envelope(NotificationExchange, AuthEmailRoutingKey, to, template, link)
  }

  /** The shape every envelope of the auth service has: the notification
      exchange and the `auth-email` routing key; `verifyEmail` and
      `forgotPassword` mails go to an email address and carry a link,
      `resetPasswordSuccess` mails go to a username and carry none. */
  ghost predicate WellAddressed(e: Envelope) {
    && e.exchange == NotificationExchange
    && e.routingKey == AuthEmailRoutingKey
    && match e.template
       case VerifyEmailMail => e.to.ReceiverEmail? && e.verifyLink.Some?
       case ForgotPasswordMail => e.to.ReceiverEmail? && e.verifyLink.Some?
       case ResetPasswordSuccessMail => e.to.Username? && e.verifyLink.None?
  }

  // Replies

  const StatusOk: nat := 200
  const StatusCreated: nat := 201

  /** A handler either answers, throws a BadRequestError carrying a message and
      the name of the place that raised it, or fails with a runtime error that
      is not a BadRequestError. */
  datatype Outcome<+T> =
    | Ok(value: T)
    | BadRequest(message: string, comingFrom: string)
    | Fault(reason: string)

  datatype Notice = Notice(status: nat, message: string)

  datatype UserReply = UserReply(status: nat, message: string, user: Option<UserRecord>)

  datatype Session<+U> = Session(status: nat, message: string, user: U, token: string)
}
