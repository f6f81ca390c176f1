/** The four mutations of the auth resolver as transitions of the store: each takes the
    documents as they were loaded and the call's inputs, and gives the reply together with
    the documents as they stand after the call's saves. */
module AuthRules {
  import opened Clock
  import opened Crypto
  import opened Models
  import opened Check
  import opened InputGrammar

  /** `register` answers at most this many requests per phone and calendar day. */
  const MaxOtpRequests: nat := 3
  /** A challenge must be verified within 90 s of its last save. */
  const OtpLifetime: int := 90_000
  /** A verified challenge must be confirmed within 5 min of its last save. */
  const ConfirmLifetime: int := 300_000
  /** A wrong PIN on a day that already saw this many freezes the account. */
  const FreezeAfter: nat := 2

  /** The GraphQL errors the mutations throw, one per message (and one per middleware guard). */
  datatype AuthError =
    | PhoneAlreadyRegistered  // checkPhoneExist
    | PhoneNotRegistered      // checkPhoneIfNotExist
    | NoOtpRequest            // checkOtpPhone
    | OtpErrorLimit           // checkOtpErrorIfSameDate
    | DailyLimitReached       // "OTP requests are allowed only 3 times per day. ..."
    | TokenEmpty              // "Token must not be empty."
    | OtpInvalid              // "OTP is invalid." (confirmPassword uses it for a malformed PIN too)
    | ValidationFailed        // "Validation failed."
    | TokenInvalid            // "Token is invalid."
    | OtpExpired              // "OTP is expired."
    | OtpIncorrect            // "OTP is incorrect."
    | SuspectedAttack         // "This request may be an attack. If not, try again tomorrow."
    | RequestExpired          // "Your request is expired. Please try again."
    | AccountLocked           // "Your account is temporarily locked. Please contact us."
    | PasswordWrong           // "Password is wrong."

  datatype Result<T> = Ok(value: T) | Err(error: AuthError)

  /** The reply of `register` and `verifyOtp`: the phone and the token for the next step. */
  datatype Issued = Issued(phone: Phone, token: string)

  /** The reply of `confirmPassword` and `login`: a signed credential and the account id. */
  datatype Session = Session(token: Credential, phone: Phone, userId: AdminId)

  datatype Outcome<T> = Outcome(result: Result<T>, after: Store)

  /** `otpCheck.save()`: the document is written back with its timestamp refreshed. */
  function SaveOtp(s: Store, phone: Phone, doc: Otp, now: Millis): Store
  {
    s.(otps := s.otps[phone := doc.(updatedAt := now)])
  }

  /** `admin.save()`. */
  function SaveAdmin(s: Store, phone: Phone, doc: Admin, now: Millis): Store
  {
    s.(admins := s.admins[phone := doc.(updatedAt := now)])
  }

  /** The ranges the counters stay in: a challenge has answered 1 to 3 requests since its
      last reset and recorded at most 5 wrong attempts; an account at most 2 wrong PINs. */
  predicate OtpInRange(c: Otp)
  {
    1 <= c.count <= MaxOtpRequests && c.error <= OtpErrorCap
  }

  predicate AdminInRange(a: Admin)
  {
    a.error <= FreezeAfter
  }

  predicate StoreInvariant(s: Store)
  {
    && (forall p | p in s.otps :: OtpInRange(s.otps[p]))
    && (forall p | p in s.admins :: AdminInRange(s.admins[p]))
  }

  // ---------------------------------------------------------------------------------------
  // register

  /** When `register` succeeds: the phone has no account, and any challenge it has is from
      an earlier day or has neither reached the day's error cap nor the day's request limit. */
  predicate RegisterAllowed(s: Store, phone: Phone, now: Millis)
  {
    && phone !in s.admins
    && (phone in s.otps ==>
          var c := s.otps[phone];
          !SameDate(c.updatedAt, now) || (c.error != OtpErrorCap && c.count != MaxOtpRequests))
  }

  function Register(s: Store, phone: Phone, now: Millis, token: string): (o: Outcome<Issued>)
    ensures o.result.Ok? <==> RegisterAllowed(s, phone, now)
    ensures o.result.Err? ==> o.after == s
    ensures o.result.Ok? ==>
      && o.result.value == Issued(phone, token)
      && phone in o.after.otps
      && o.after.otps[phone].otp == FakeOtp
      && o.after.otps[phone].rememberToken == token
      && o.after.otps[phone].updatedAt == now
    ensures o.after.admins == s.admins
    ensures o.after.otps - {phone} == s.otps - {phone}
    ensures StoreInvariant(s) ==> StoreInvariant(o.after)
  {
    if PhoneExistRejects(Find(s.admins, phone)) then
      Outcome(Err(PhoneAlreadyRegistered), s)
    else match Find(s.otps, phone)
      case None =>
        Outcome(Ok(Issued(phone, token)), SaveOtp(s, phone, Otp(FakeOtp, token, None, 1, 0, now), now))
      case Some(c) =>
        var isSameDate := SameDate(c.updatedAt, now);
        if OtpErrorIfSameDateRejects(isSameDate, c) then
          Outcome(Err(OtpErrorLimit), s)
        else if !isSameDate then
          Outcome(Ok(Issued(phone, token)),
                  SaveOtp(s, phone, c.(otp := FakeOtp, rememberToken := token, count := 1, error := 0), now))
        else if c.count == MaxOtpRequests then
          Outcome(Err(DailyLimitReached), s)
        else
          Outcome(Ok(Issued(phone, token)),
                  SaveOtp(s, phone, c.(otp := FakeOtp, rememberToken := token, count := c.count + 1), now))
  }

  // ---------------------------------------------------------------------------------------
  // verifyOtp

  /** When `verifyOtp` succeeds: well-formed arguments, no account yet, a challenge that is
      not locked for the day, the matching remember-token, at most 90 s since the challenge
      was last saved, and the right OTP. */
  predicate VerifyAccepts(s: Store, phone: Phone, token: string, otp: string, now: Millis)
  {
    && !IsBlank(token)
    && OtpWellFormed(otp)
    && phone !in s.admins
    && phone in s.otps
    && var c := s.otps[phone];
       && !(SameDate(c.updatedAt, now) && c.error == OtpErrorCap)
       && c.rememberToken == token
       && Elapsed(c.updatedAt, now) <= OtpLifetime
       && c.otp == otp
  }

  function VerifyOtp(s: Store, phone: Phone, token: string, otp: string, now: Millis, newToken: string)
    : (o: Outcome<Issued>)
    ensures o.result.Ok? <==> VerifyAccepts(s, phone, token, otp, now)
    ensures o.result.Ok? ==>
      o.result.value == Issued(phone, newToken) && phone in o.after.otps && o.after.otps[phone].verifyToken == Some(newToken)
    ensures o.result.Err? && o.result.error != TokenInvalid && o.result.error != OtpIncorrect ==> o.after == s
    ensures o.after.admins == s.admins
    ensures o.after.otps.Keys == s.otps.Keys
    ensures o.after.otps - {phone} == s.otps - {phone}
    ensures StoreInvariant(s) ==> StoreInvariant(o.after)
  {
    if IsBlank(token) then
      Outcome(Err(TokenEmpty), s)
    else if !OtpWellFormed(otp) then
      Outcome(Err(OtpInvalid), s)
    else if PhoneExistRejects(Find(s.admins, phone)) then
      Outcome(Err(PhoneAlreadyRegistered), s)
    else if OtpPhoneRejects(Find(s.otps, phone)) then
      Outcome(Err(NoOtpRequest), s)
    else
      var c := s.otps[phone];
      var isSameDate := SameDate(c.updatedAt, now);
      if OtpErrorIfSameDateRejects(isSameDate, c) then
        Outcome(Err(OtpErrorLimit), s)
      else if c.rememberToken != token then
        Outcome(Err(TokenInvalid), SaveOtp(s, phone, c.(error := OtpErrorCap), now))
      else if Elapsed(c.updatedAt, now) > OtpLifetime then
        Outcome(Err(OtpExpired), s)
      else if c.otp != otp then
        Outcome(Err(OtpIncorrect),
                SaveOtp(s, phone, c.(error := if isSameDate then c.error + 1 else 1), now))
      else
        Outcome(Ok(Issued(phone, newToken)),
                SaveOtp(s, phone, c.(verifyToken := Some(newToken), count := 1, error := 1), now))
  }

  // ---------------------------------------------------------------------------------------
  // confirmPassword

  /** When `confirmPassword` succeeds: a non-blank token, an 8-digit PIN, no account yet, a
      challenge whose error counter is not at the cap, whose verify-token is the one given,
      and that was last saved at most 5 min ago. */
  predicate ConfirmAccepts(s: Store, phone: Phone, token: string, password: string, now: Millis)
  {
    && !IsBlank(token)
    && PasswordWellFormed(password)
    && phone !in s.admins
    && phone in s.otps
    && var c := s.otps[phone];
       && c.error != OtpErrorCap
       && c.verifyToken == Some(token)
       && Elapsed(c.updatedAt, now) <= ConfirmLifetime
  }

  /** The account `confirmPassword` creates; the counters take their schema defaults. */
  function NewAdmin(id: AdminId, password: string, salt: nat, now: Millis): Admin
  {
    Admin(id, Hash(password, salt), 0, Active, now)
  }

  function ConfirmPassword(s: Store, phone: Phone, token: string, password: string, now: Millis,
                           salt: nat, id: AdminId): (o: Outcome<Session>)
    ensures o.result.Ok? <==> ConfirmAccepts(s, phone, token, password, now)
    ensures o.result.Ok? ==>
      && o.result.value == Session(Sign(id), phone, id)
      && o.after == s.(admins := s.admins[phone := NewAdmin(id, password, salt, now)])
    ensures o.result.Err? ==> o.after.admins == s.admins
    ensures o.result.Err? && o.result.error != TokenInvalid ==> o.after == s
    ensures o.after.otps.Keys == s.otps.Keys
    ensures o.after.otps - {phone} == s.otps - {phone}
    ensures StoreInvariant(s) ==> StoreInvariant(o.after)
  {
    if IsBlank(token) then
      Outcome(Err(TokenEmpty), s)
    else if !PasswordWellFormed(password) then
      Outcome(Err(OtpInvalid), s)
    else if PhoneExistRejects(Find(s.admins, phone)) then
      Outcome(Err(PhoneAlreadyRegistered), s)
    else if OtpPhoneRejects(Find(s.otps, phone)) then
      Outcome(Err(NoOtpRequest), s)
    else
      var c := s.otps[phone];
      if c.error == OtpErrorCap then
        Outcome(Err(SuspectedAttack), s)
      else if c.verifyToken != Some(token) then
        Outcome(Err(TokenInvalid), SaveOtp(s, phone, c.(error := OtpErrorCap), now))
      else if Elapsed(c.updatedAt, now) > ConfirmLifetime then
        Outcome(Err(RequestExpired), s)
      else
        Outcome(Ok(Session(Sign(id), phone, id)),
                s.(admins := s.admins[phone := NewAdmin(id, password, salt, now)]))
  }

  // ---------------------------------------------------------------------------------------
  // login

  /** When `login` succeeds: an 8-digit PIN, an account that is not frozen, and a PIN that
      matches its stored hash. */
  predicate LoginAccepts(s: Store, phone: Phone, password: string)
  {
    && PasswordWellFormed(password)
    && phone in s.admins
    && s.admins[phone].status == Active
    && Compare(password, s.admins[phone].password)
  }

  function Login(s: Store, phone: Phone, password: string, now: Millis): (o: Outcome<Session>)
    ensures o.result.Ok? <==> LoginAccepts(s, phone, password)
    ensures o.result.Ok? ==>
      && phone in s.admins && phone in o.after.admins
      && o.result.value == Session(Sign(s.admins[phone].id), phone, s.admins[phone].id)
      && o.after.admins[phone].error == 0
    ensures o.result.Err? && o.result.error != PasswordWrong ==> o.after == s
    ensures phone in s.admins && s.admins[phone].status == Freeze ==> o.after == s
    ensures o.after.otps == s.otps
    ensures o.after.admins.Keys == s.admins.Keys
    ensures o.after.admins - {phone} == s.admins - {phone}
    ensures phone in s.admins ==>
      o.after.admins[phone].id == s.admins[phone].id && o.after.admins[phone].password == s.admins[phone].password
    ensures StoreInvariant(s) ==> StoreInvariant(o.after)
  {
    if !PasswordWellFormed(password) then
      Outcome(Err(ValidationFailed), s)
    else if PhoneIfNotExistRejects(Find(s.admins, phone)) then
      Outcome(Err(PhoneNotRegistered), s)
    else
      var a := s.admins[phone];
      if a.status == Freeze then
        Outcome(Err(AccountLocked), s)
      else if !Compare(password, a.password) then
        var isSameDate := SameDate(a.updatedAt, now);
        var counted :=
          if !isSameDate then a.(error := 1)
          else if a.error >= FreezeAfter then a.(status := Freeze)
          else a.(error := a.error + 1);
        Outcome(Err(PasswordWrong), SaveAdmin(s, phone, counted, now))
      else if a.error >= 1 then
        Outcome(Ok(Session(Sign(a.id), phone, a.id)), SaveAdmin(s, phone, a.(error := 0), now))
      else
        Outcome(Ok(Session(Sign(a.id), phone, a.id)), s)
  }
}
