/**
 * What the handlers' writes mean for later lookups: how long a reset token
 * can be redeemed, why a redeemed verification token cannot be replayed
 * against its user, and how a reissued token replaces the previous one.
 */
module LifecycleFacts {
  import opened Wrappers
  import opened Hex
  import opened Records
  import opened Directory
  import AuthLifecycle

  /** With the expiry filter on, a reset token stored at `issuedAt` finds a
      record at every moment before `issuedAt` plus one hour and never finds
      its owner from then on. */
  lemma ResetTokenLifetime(users: Users, id: nat, token: string, issuedAt: int, at: int)
    requires id in users
    ensures var stored := UpdatePasswordToken(users, id, token, issuedAt + AuthLifecycle.OneHourMs);
      && (at < issuedAt + AuthLifecycle.OneHourMs ==> Find(stored, ByPasswordToken(token, at, true)).Some?)
      && (at >= issuedAt + AuthLifecycle.OneHourMs ==> Find(stored, ByPasswordToken(token, at, true)) != Some(id))
  {
  }

  /** Without the expiry filter nothing ends a reset token's life: its owner
      is found at any later time, however long after the stored expiry. */
  lemma ResetTokenWithoutFilterNeverExpires(users: Users, id: nat, token: string, issuedAt: int, at: int)
    requires id in users
    ensures Find(UpdatePasswordToken(users, id, token, issuedAt + AuthLifecycle.OneHourMs),
                 ByPasswordToken(token, at, false)).Some?
  {
  }

  /** Writing the new password leaves the reset token and its expiry in
      place, so a token that found its owner before the reset still finds a
      record afterwards: redeeming it again succeeds, until it expires if the
      lookup filters on expiry and for ever otherwise. */
  lemma ResetTokenReplayable(users: Users, token: string, at: int, checkExpiry: bool, hash: string)
    requires Find(users, ByPasswordToken(token, at, checkExpiry)).Some?
    ensures var id := Find(users, ByPasswordToken(token, at, checkExpiry)).value;
      Find(UpdatePassword(users, id, hash), ByPasswordToken(token, at, checkExpiry)) == Some(id)
  {
  }

  /** A second reset request replaces the first token: with distinct random
      bytes the first token no longer finds the user, whatever the clock and
      the filter. */
  lemma SecondResetReplacesFirst(users: Users, id: nat, first: seq<byte>, second: seq<byte>,
                                                    expires1: int, expires2: int, at: int, checkExpiry: bool)
    requires id in users && |first| == TokenBytes && |second| == TokenBytes && first != second
    ensures var after := UpdatePasswordToken(UpdatePasswordToken(users, id, Token(first), expires1),
                                             id, Token(second), expires2);
      Find(after, ByPasswordToken(Token(first), at, checkExpiry)) != Some(id)
  {
  }

  /** Redeeming a verification token clears it, so replaying the same
      non-empty token can no longer reach that user; if no other record holds
      it, the replay finds nothing at all. */
  lemma VerificationTokenSingleUse(users: Users, token: string)
    requires token != ""
    requires Find(users, ByVerificationToken(token)).Some?
    ensures var id := Find(users, ByVerificationToken(token)).value;
      var after := UpdateVerifyEmailField(users, id, 1, "");
      && after[id].emailVerified == 1
      && Find(after, ByVerificationToken(token)) != Some(id)
      && ((forall k :: k in users && k != id ==> users[k].emailVerificationToken != token) ==>
            Find(after, ByVerificationToken(token)).None?)
  {
  }

  /** The empty string is itself a token: once any user is verified (its
      token cleared to ""), a request carrying the empty token finds a record. */
  lemma EmptyTokenFindsVerifiedUser(users: Users, id: nat)
    requires id in users && users[id].emailVerificationToken == ""
    ensures Find(users, ByVerificationToken("")).Some?
  {
  }

  /** Reissuing a verification token (as `resendEmail` does) replaces the
      previous one and marks the record unverified: with distinct random
      bytes, the earlier token no longer finds the user. */
  lemma ResendReplacesToken(users: Users, id: nat, first: seq<byte>, second: seq<byte>)
    requires id in users && |first| == TokenBytes && |second| == TokenBytes && first != second
    ensures var after := UpdateVerifyEmailField(UpdateVerifyEmailField(users, id, 0, Token(first)), id, 0, Token(second));
      && after[id].emailVerified == 0
      && after[id].emailVerificationToken == Token(second)
      && Find(after, ByVerificationToken(Token(first))) != Some(id)
  {
  }

  /** A freshly created record can be verified with the token it was created
      with, provided no earlier record holds the same token; afterwards it is
      verified and its token is empty. */
  lemma CreatedUserVerifies(users: Users, created: UserRecord)
    requires created.id !in users
    requires forall k :: k in users ==> users[k].emailVerificationToken != created.emailVerificationToken
    ensures var withNew := users[created.id := created];
      && Find(withNew, ByVerificationToken(created.emailVerificationToken)) == Some(created.id)
      && var after := UpdateVerifyEmailField(withNew, created.id, 1, "");
         after[created.id] == created.(emailVerified := 1, emailVerificationToken := "")
  {
    var withNew := users[created.id := created];
    var q := ByVerificationToken(created.emailVerificationToken);
    assert Matches(q, withNew[created.id]);
    forall k | k in withNew && k != created.id
      ensures !Matches(q, withNew[k])
    {
      assert withNew[k] == users[k];
    }
  }

  /** An unknown identifier and a wrong password give the same reply. */
  lemma SignInFailuresIndistinguishable(svc: AuthLifecycle.AuthService, a: AuthLifecycle.LoginBody, b: AuthLifecycle.LoginBody)
    requires svc.schemas.login(a).None? && svc.schemas.login(b).None?
    requires !svc.SignIn(a).Ok? && !svc.SignIn(b).Ok?
    ensures svc.SignIn(a) == svc.SignIn(b)
  {
  }
}
