/** What each branch of each mutation writes, one lemma per branch the resolver source
    distinguishes. The arguments are taken well-formed and the guards passed wherever the
    branch lies behind them. */
module AuthBranches {
  import opened Clock
  import opened Crypto
  import opened Models
  import opened Check
  import opened InputGrammar
  import opened AuthRules

  // register

  /** The first request for a phone creates its challenge with one request counted. */
  lemma RegisterCreatesChallenge(s: Store, phone: Phone, now: Millis, token: string)
    requires phone !in s.admins && phone !in s.otps
    ensures Register(s, phone, now, token).result == Ok(Issued(phone, token))
    ensures Register(s, phone, now, token).after == s.(otps := s.otps[phone := Otp(FakeOtp, token, None, 1, 0, now)])
  {
  }

  /** On a new calendar day the request count and the error count restart; the old
      verify-token is kept. */
  lemma RegisterNewDayResets(s: Store, phone: Phone, now: Millis, token: string)
    requires phone !in s.admins && phone in s.otps
    requires !SameDate(s.otps[phone].updatedAt, now)
    ensures Register(s, phone, now, token).result == Ok(Issued(phone, token))
    ensures Register(s, phone, now, token).after.otps[phone]
         == s.otps[phone].(otp := FakeOtp, rememberToken := token, count := 1, error := 0, updatedAt := now)
  {
  }

  /** On the same day, below the limit, the request count goes up by exactly one and the
      error count is left alone. */
  lemma RegisterSameDayCounts(s: Store, phone: Phone, now: Millis, token: string)
    requires phone !in s.admins && phone in s.otps
    requires SameDate(s.otps[phone].updatedAt, now)
    requires s.otps[phone].error != OtpErrorCap && s.otps[phone].count < MaxOtpRequests
    ensures Register(s, phone, now, token).result == Ok(Issued(phone, token))
    ensures Register(s, phone, now, token).after.otps[phone]
         == s.otps[phone].(otp := FakeOtp, rememberToken := token, count := s.otps[phone].count + 1, updatedAt := now)
  {
  }

  /** The fourth request of a day is refused and changes nothing. */
  lemma RegisterDailyLimit(s: Store, phone: Phone, now: Millis, token: string)
    requires phone !in s.admins && phone in s.otps
    requires SameDate(s.otps[phone].updatedAt, now)
    requires s.otps[phone].error != OtpErrorCap && s.otps[phone].count == MaxOtpRequests
    ensures Register(s, phone, now, token) == Outcome(Err(DailyLimitReached), s)
  {
  }

  /** A challenge at the error cap refuses new requests until the date changes. */
  lemma RegisterLockedForTheDay(s: Store, phone: Phone, now: Millis, token: string)
    requires phone !in s.admins && phone in s.otps
    requires SameDate(s.otps[phone].updatedAt, now) && s.otps[phone].error == OtpErrorCap
    ensures Register(s, phone, now, token) == Outcome(Err(OtpErrorLimit), s)
  {
  }

  // verifyOtp

  /** A remember-token that is not the stored one pins the error count at the cap and
      changes no other field. */
  lemma VerifyTokenMismatch(s: Store, phone: Phone, token: string, otp: string, now: Millis, newToken: string)
    requires !IsBlank(token) && OtpWellFormed(otp)
    requires phone !in s.admins && phone in s.otps
    requires !(SameDate(s.otps[phone].updatedAt, now) && s.otps[phone].error == OtpErrorCap)
    requires s.otps[phone].rememberToken != token
    ensures VerifyOtp(s, phone, token, otp, now, newToken)
         == Outcome(Err(TokenInvalid), s.(otps := s.otps[phone := s.otps[phone].(error := OtpErrorCap, updatedAt := now)]))
  {
  }

  /** More than 90 s after the last save the challenge is expired, whatever the OTP, and
      nothing is written. */
  lemma VerifyExpired(s: Store, phone: Phone, token: string, otp: string, now: Millis, newToken: string)
    requires !IsBlank(token) && OtpWellFormed(otp)
    requires phone !in s.admins && phone in s.otps
    requires !(SameDate(s.otps[phone].updatedAt, now) && s.otps[phone].error == OtpErrorCap)
    requires s.otps[phone].rememberToken == token
    requires Elapsed(s.otps[phone].updatedAt, now) > OtpLifetime
    ensures VerifyOtp(s, phone, token, otp, now, newToken) == Outcome(Err(OtpExpired), s)
  {
  }

  /** A wrong OTP counts one more error on the same day and restarts the count at one on a
      new day; nothing else but the timestamp changes. */
  lemma VerifyWrongOtp(s: Store, phone: Phone, token: string, otp: string, now: Millis, newToken: string)
    requires !IsBlank(token) && OtpWellFormed(otp)
    requires phone !in s.admins && phone in s.otps
    requires !(SameDate(s.otps[phone].updatedAt, now) && s.otps[phone].error == OtpErrorCap)
    requires s.otps[phone].rememberToken == token
    requires Elapsed(s.otps[phone].updatedAt, now) <= OtpLifetime
    requires s.otps[phone].otp != otp
    ensures VerifyOtp(s, phone, token, otp, now, newToken).result == Err(OtpIncorrect)
    ensures VerifyOtp(s, phone, token, otp, now, newToken).after.otps[phone]
         == s.otps[phone].(error := if SameDate(s.otps[phone].updatedAt, now) then s.otps[phone].error + 1 else 1,
                            updatedAt := now)
  {
  }

  /** A successful verification stores the returned verify-token and sets both counters to
      one; no other field but the timestamp is written. */
  lemma VerifySucceeds(s: Store, phone: Phone, token: string, otp: string, now: Millis, newToken: string)
    requires VerifyAccepts(s, phone, token, otp, now)
    ensures VerifyOtp(s, phone, token, otp, now, newToken).result == Ok(Issued(phone, newToken))
    ensures VerifyOtp(s, phone, token, otp, now, newToken).after.otps[phone]
         == s.otps[phone].(verifyToken := Some(newToken), count := 1, error := 1, updatedAt := now)
  {
  }

  // confirmPassword

  /** A challenge at the error cap blocks the confirmation and is left as it is. */
  lemma ConfirmSuspected(s: Store, phone: Phone, token: string, password: string, now: Millis, salt: nat, id: AdminId)
    requires !IsBlank(token) && PasswordWellFormed(password)
    requires phone !in s.admins && phone in s.otps
    requires s.otps[phone].error == OtpErrorCap
    ensures ConfirmPassword(s, phone, token, password, now, salt, id) == Outcome(Err(SuspectedAttack), s)
  {
  }

  /** A verify-token that is not the stored one pins the error count at the cap. */
  lemma ConfirmTokenMismatch(s: Store, phone: Phone, token: string, password: string, now: Millis, salt: nat, id: AdminId)
    requires !IsBlank(token) && PasswordWellFormed(password)
    requires phone !in s.admins && phone in s.otps
    requires s.otps[phone].error != OtpErrorCap && s.otps[phone].verifyToken != Some(token)
    ensures ConfirmPassword(s, phone, token, password, now, salt, id)
         == Outcome(Err(TokenInvalid), s.(otps := s.otps[phone := s.otps[phone].(error := OtpErrorCap, updatedAt := now)]))
  {
  }

  /** More than 5 min after the last save the confirmation is refused and nothing is written. */
  lemma ConfirmExpired(s: Store, phone: Phone, token: string, password: string, now: Millis, salt: nat, id: AdminId)
    requires !IsBlank(token) && PasswordWellFormed(password)
    requires phone !in s.admins && phone in s.otps
    requires s.otps[phone].error != OtpErrorCap && s.otps[phone].verifyToken == Some(token)
    requires Elapsed(s.otps[phone].updatedAt, now) > ConfirmLifetime
    ensures ConfirmPassword(s, phone, token, password, now, salt, id) == Outcome(Err(RequestExpired), s)
  {
  }

  // login

  /** A frozen account is refused whether or not the PIN is right, and nothing is written. */
  lemma LoginFrozen(s: Store, phone: Phone, password: string, now: Millis)
    requires PasswordWellFormed(password)
    requires phone in s.admins && s.admins[phone].status == Freeze
    ensures Login(s, phone, password, now) == Outcome(Err(AccountLocked), s)
  {
  }

  /** A wrong PIN restarts the failure count at one on a new day; on the same day it freezes
      the account once two failures are recorded (leaving the count), and counts one more
      otherwise. */
  lemma LoginWrongPassword(s: Store, phone: Phone, password: string, now: Millis)
    requires PasswordWellFormed(password)
    requires phone in s.admins && s.admins[phone].status == Active
    requires !Compare(password, s.admins[phone].password)
    ensures Login(s, phone, password, now).result == Err(PasswordWrong)
    ensures Login(s, phone, password, now).after.admins[phone]
         == (var a := s.admins[phone];
             if !SameDate(a.updatedAt, now) then a.(error := 1, updatedAt := now)
             else if a.error >= FreezeAfter then a.(status := Freeze, updatedAt := now)
             else a.(error := a.error + 1, updatedAt := now))
  {
  }

  /** A right PIN signs a credential for the account and clears a non-zero failure count;
      an account with no failures recorded is not written at all. */
  lemma LoginSucceeds(s: Store, phone: Phone, password: string, now: Millis)
    requires LoginAccepts(s, phone, password)
    ensures Login(s, phone, password, now).result
         == Ok(Session(Sign(s.admins[phone].id), phone, s.admins[phone].id))
    ensures Login(s, phone, password, now).after
         == if s.admins[phone].error >= 1
            then s.(admins := s.admins[phone := s.admins[phone].(error := 0, updatedAt := now)])
            else s
  {
  }
}
