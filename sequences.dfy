/** Properties of several requests in a row: the daily limits, the lockouts, the one-time
    account creation and the sign-up flow, and what every run of requests keeps. Requests are
    served one after another, each on the store the previous one left. */
module AuthSequences {
  import opened Clock
  import opened Crypto
  import opened Models
  import opened Check
  import opened InputGrammar
  import opened AuthRules

  /** One call of a mutation, with the clock reading and the random draws it uses. */
  datatype Request =
    | RegisterCall(phone: Phone, now: Millis, token: string)
    | VerifyOtpCall(phone: Phone, token: string, otp: string, now: Millis, newToken: string)
    | ConfirmPasswordCall(phone: Phone, token: string, password: string, now: Millis, salt: nat, id: AdminId)
    | LoginCall(phone: Phone, password: string, now: Millis)

  function Apply(s: Store, r: Request): Store
  {
    match r
    case RegisterCall(phone, now, token) => Register(s, phone, now, token).after
    case VerifyOtpCall(phone, token, otp, now, newToken) => VerifyOtp(s, phone, token, otp, now, newToken).after
    case ConfirmPasswordCall(phone, token, password, now, salt, id) =>
      ConfirmPassword(s, phone, token, password, now, salt, id).after
    case LoginCall(phone, password, now) => Login(s, phone, password, now).after
  }

  /** The store after serving `rs` in order. */
  function Run(s: Store, rs: seq<Request>): Store
    decreases |rs|
  {
    if rs == [] then s else Run(Apply(s, rs[0]), rs[1..])
  }

  // ---------------------------------------------------------------------------------------
  // Every run keeps the counters in range and never loses or rewrites an account.

  lemma ApplyKeepsInvariant(s: Store, r: Request)
    requires StoreInvariant(s)
    ensures StoreInvariant(Apply(s, r))
  {
  }

  lemma {:induction false} RunKeepsInvariant(s: Store, rs: seq<Request>)
    requires StoreInvariant(s)
    ensures StoreInvariant(Run(s, rs))
    decreases |rs|
  {
    if rs != [] {
      ApplyKeepsInvariant(s, rs[0]);
      RunKeepsInvariant(Apply(s, rs[0]), rs[1..]);
    }
  }

  /** An account, once created, keeps its id and its PIN hash, and a frozen one stays frozen. */
  lemma ApplyKeepsAccount(s: Store, r: Request, phone: Phone)
    requires phone in s.admins
    ensures phone in Apply(s, r).admins
    ensures Apply(s, r).admins[phone].id == s.admins[phone].id
    ensures Apply(s, r).admins[phone].password == s.admins[phone].password
    ensures s.admins[phone].status == Freeze ==> Apply(s, r).admins[phone] == s.admins[phone]
  {
  }

  lemma {:induction false} RunKeepsAccount(s: Store, rs: seq<Request>, phone: Phone)
    requires phone in s.admins
    ensures phone in Run(s, rs).admins
    ensures Run(s, rs).admins[phone].id == s.admins[phone].id
    ensures Run(s, rs).admins[phone].password == s.admins[phone].password
    ensures s.admins[phone].status == Freeze ==> Run(s, rs).admins[phone] == s.admins[phone]
    decreases |rs|
  {
    if rs != [] {
      ApplyKeepsAccount(s, rs[0], phone);
      RunKeepsAccount(Apply(s, rs[0]), rs[1..], phone);
    }
  }

  /** Once frozen, an account refuses every later login, with the right PIN or not: there is
      no way back in any run of the four mutations. */
  lemma FrozenAccountStaysLocked(s: Store, rs: seq<Request>, phone: Phone, password: string, now: Millis)
    requires phone in s.admins && s.admins[phone].status == Freeze
    requires PasswordWellFormed(password)
    ensures Login(Run(s, rs), phone, password, now).result == Err(AccountLocked)
  {
    RunKeepsAccount(s, rs, phone);
  }

  // ---------------------------------------------------------------------------------------
  // A challenge at the error cap holds all day.

  lemma ApplyKeepsLockedChallenge(s: Store, r: Request, phone: Phone)
    requires phone in s.otps && s.otps[phone].error == OtpErrorCap
    requires SameDate(s.otps[phone].updatedAt, r.now)
    ensures phone in Apply(s, r).otps && Apply(s, r).otps[phone] == s.otps[phone]
  {
  }

  /** After a wrong token has pinned a challenge's error count at the cap, every request of
      the same day leaves that challenge exactly as it is: `register` and `verifyOtp` are
      refused by the same-day guard and `confirmPassword` as a suspected attack. */
  lemma {:induction false} LockedChallengeHoldsAllDay(s: Store, rs: seq<Request>, phone: Phone)
    requires phone in s.otps && s.otps[phone].error == OtpErrorCap
    requires forall i :: 0 <= i < |rs| ==> SameDate(s.otps[phone].updatedAt, rs[i].now)
    ensures phone in Run(s, rs).otps && Run(s, rs).otps[phone] == s.otps[phone]
    decreases |rs|
  {
    if rs != [] {
      ApplyKeepsLockedChallenge(s, rs[0], phone);
      var rest := rs[1..];
      assert forall i :: 0 <= i < |rest| ==> rest[i] == rs[i + 1];
      LockedChallengeHoldsAllDay(Apply(s, rs[0]), rest, phone);
    }
  }

  /** A stale remember-token locks the phone for the rest of the day: the next verification
      and the next OTP request on that day are both refused. */
  lemma StaleTokenLocksTheDay(s: Store, phone: Phone, token: string, otp: string, now: Millis, newToken: string,
                              later: Millis, token': string, otp': string, newToken': string)
    requires VerifyOtp(s, phone, token, otp, now, newToken).result == Err(TokenInvalid)
    requires SameDate(now, later)
    requires !IsBlank(token') && OtpWellFormed(otp')
    ensures VerifyOtp(VerifyOtp(s, phone, token, otp, now, newToken).after, phone, token', otp', later, newToken').result
         == Err(OtpErrorLimit)
    ensures Register(VerifyOtp(s, phone, token, otp, now, newToken).after, phone, later, newToken').result
         == Err(OtpErrorLimit)
  {
  }

  // ---------------------------------------------------------------------------------------
  // At most three OTP requests per calendar day.

  /** How many of `calls`, each a clock reading and a fresh token, `register` answers for `phone`. */
  function RegisterSuccesses(s: Store, phone: Phone, calls: seq<(Millis, string)>): nat
    decreases |calls|
  {
    if calls == [] then 0
    else
      var o := Register(s, phone, calls[0].0, calls[0].1);
      (if o.result.Ok? then 1 else 0) + RegisterSuccesses(o.after, phone, calls[1..])
  }

  /** How many more requests `register` may still answer for `phone` on day `d`. */
  function RegisterBudget(s: Store, phone: Phone, d: int): int
  {
    if phone in s.otps && Day(s.otps[phone].updatedAt) == d then MaxOtpRequests - s.otps[phone].count
    else MaxOtpRequests
  }

  lemma {:induction false} RegisterWithinBudget(s: Store, phone: Phone, d: int, calls: seq<(Millis, string)>)
    requires StoreInvariant(s)
    requires forall i :: 0 <= i < |calls| ==> Day(calls[i].0) == d
    ensures RegisterSuccesses(s, phone, calls) <= RegisterBudget(s, phone, d)
    decreases |calls|
  {
    if calls != [] {
      var o := Register(s, phone, calls[0].0, calls[0].1);
      var rest := calls[1..];
      assert forall i :: 0 <= i < |rest| ==> rest[i] == calls[i + 1];
      RegisterWithinBudget(o.after, phone, d, rest);
      if o.result.Ok? {
        assert RegisterBudget(o.after, phone, d) == RegisterBudget(s, phone, d) - 1;
      }
    }
  }

  /** In a run of `register` calls for a phone within one calendar day, with no verification
      in between, at most three are answered. */
  lemma AtMostThreeRequestsPerDay(s: Store, phone: Phone, d: int, calls: seq<(Millis, string)>)
    requires StoreInvariant(s)
    requires forall i :: 0 <= i < |calls| ==> Day(calls[i].0) == d
    ensures RegisterSuccesses(s, phone, calls) <= MaxOtpRequests
  {
    RegisterWithinBudget(s, phone, d, calls);
  }

  /** The daily limit counts only the requests since the last successful verification,
      because `verifyOtp` sets the count back to one: on an empty store, register, register,
      verify, register, register within five seconds of one day are all answered, four of
      them OTP requests. */
  lemma VerifyReopensTheDailyLimit()
    ensures
      var phone := "091234567";
      var o1 := Register(Store(map[], map[]), phone, 1_000, "a1");
      var o2 := Register(o1.after, phone, 2_000, "b2");
      var o3 := VerifyOtp(o2.after, phone, "b2", FakeOtp, 3_000, "v3");
      var o4 := Register(o3.after, phone, 4_000, "c4");
      var o5 := Register(o4.after, phone, 5_000, "d5");
      && o1.result.Ok? && o2.result.Ok? && o3.result.Ok? && o4.result.Ok? && o5.result.Ok?
      && o5.after.otps[phone].count == 3
  {
    var phone := "091234567";
    var o2 := Register(Register(Store(map[], map[]), phone, 1_000, "a1").after, phone, 2_000, "b2");
    assert o2.after.otps[phone].count == 2;
    assert !IsJsSpace("b2"[0]);
    assert VerifyAccepts(o2.after, phone, "b2", FakeOtp, 3_000);
  }

  /** A refused request leaves the store as it was, so a later request of the same day is
      refused too. */
  lemma RefusedRequestStaysRefused(s: Store, phone: Phone, now: Millis, token: string, later: Millis, token': string)
    requires Register(s, phone, now, token).result.Err?
    requires SameDate(now, later)
    ensures Register(Register(s, phone, now, token).after, phone, later, token').result.Err?
  {
  }

  /** Four requests on one calendar day: the fourth is refused. */
  lemma FourthRequestOfTheDayFails(s: Store, phone: Phone, t1: Millis, t2: Millis, t3: Millis, t4: Millis,
                                   k1: string, k2: string, k3: string, k4: string)
    requires StoreInvariant(s)
    requires Day(t1) == Day(t2) == Day(t3) == Day(t4)
    ensures
      var s1 := Register(s, phone, t1, k1).after;
      var s2 := Register(s1, phone, t2, k2).after;
      var s3 := Register(s2, phone, t3, k3).after;
      Register(s3, phone, t4, k4).result.Err?
  {
  }

  // ---------------------------------------------------------------------------------------
  // Wrong PINs on one day.

  /** Three wrong PINs in a row on one calendar day, with no successful login between them,
      leave the account frozen, whatever its failure count was before; the first is reported
      as a wrong PIN. */
  lemma ThirdWrongPinOfTheDayFreezes(s: Store, phone: Phone, p1: string, p2: string, p3: string,
                                     t1: Millis, t2: Millis, t3: Millis)
    requires phone in s.admins && s.admins[phone].status == Active
    requires PasswordWellFormed(p1) && PasswordWellFormed(p2) && PasswordWellFormed(p3)
    requires !Compare(p1, s.admins[phone].password) && !Compare(p2, s.admins[phone].password)
    requires !Compare(p3, s.admins[phone].password)
    requires Day(t1) == Day(t2) == Day(t3)
    ensures Login(s, phone, p1, t1).result == Err(PasswordWrong)
    ensures
      var s1 := Login(s, phone, p1, t1).after;
      var s2 := Login(s1, phone, p2, t2).after;
      var s3 := Login(s2, phone, p3, t3).after;
      phone in s3.admins && s3.admins[phone].status == Freeze
  {
  }

  /** The freeze counts only the wrong PINs since the last successful login, because a right
      PIN sets the failure count back to zero: wrong, wrong, right, wrong, wrong within five
      seconds of one day leave the account active with failure count 2. */
  lemma RightPinResetsTheFailures()
    ensures
      var phone := "091234567";
      var s := Store(map[], map[phone := Admin(42, Hash("12345678", 7), 0, Active, 0)]);
      var o1 := Login(s, phone, "87654321", 1_000);
      var o2 := Login(o1.after, phone, "87654321", 2_000);
      var o3 := Login(o2.after, phone, "12345678", 3_000);
      var o4 := Login(o3.after, phone, "87654321", 4_000);
      var o5 := Login(o4.after, phone, "87654321", 5_000);
      && o1.result == Err(PasswordWrong) && o2.result == Err(PasswordWrong) && o3.result.Ok?
      && o4.result == Err(PasswordWrong) && o5.result == Err(PasswordWrong)
      && phone in o5.after.admins
      && o5.after.admins[phone].status == Active && o5.after.admins[phone].error == 2
  {
    assert PasswordWellFormed("87654321");
    assert PasswordWellFormed("12345678");
  }

  // ---------------------------------------------------------------------------------------
  // Accounts and the sign-up flow.

  /** A phone gets at most one account: after `confirmPassword` succeeds, a second
      confirmation and a new OTP request for that phone are refused. */
  lemma AccountCreatedOnce(s: Store, phone: Phone, token: string, password: string, now: Millis, salt: nat, id: AdminId,
                           token': string, password': string, later: Millis, salt': nat, id': AdminId)
    requires ConfirmPassword(s, phone, token, password, now, salt, id).result.Ok?
    requires !IsBlank(token') && PasswordWellFormed(password')
    ensures
      var s1 := ConfirmPassword(s, phone, token, password, now, salt, id).after;
      && ConfirmPassword(s1, phone, token', password', later, salt', id') == Outcome(Err(PhoneAlreadyRegistered), s1)
      && Register(s1, phone, later, token') == Outcome(Err(PhoneAlreadyRegistered), s1)
  {
  }

  /** The whole flow: an answered OTP request, the issued OTP sent back with the remember-token
      within 90 s, an 8-digit PIN set with the verify-token within 5 min, and a login with that
      PIN yields a credential for the new account. */
  lemma SignUpThenLogin(s: Store, phone: Phone, t0: Millis, rememberToken: string,
                        t1: Millis, verifyToken: string, pin: string, t2: Millis, salt: nat, id: AdminId, t3: Millis)
    requires Register(s, phone, t0, rememberToken).result.Ok?
    requires !IsBlank(rememberToken) && !IsBlank(verifyToken) && PasswordWellFormed(pin)
    requires Elapsed(t0, t1) <= OtpLifetime && Elapsed(t1, t2) <= ConfirmLifetime
    ensures
      var o0 := Register(s, phone, t0, rememberToken);
      var o1 := VerifyOtp(o0.after, phone, rememberToken, FakeOtp, t1, verifyToken);
      var o2 := ConfirmPassword(o1.after, phone, verifyToken, pin, t2, salt, id);
      && o0.result == Ok(Issued(phone, rememberToken))
      && o1.result == Ok(Issued(phone, verifyToken))
      && o2.result == Ok(Session(Sign(id), phone, id))
      && Login(o2.after, phone, pin, t3).result == Ok(Session(Sign(id), phone, id))
  {
  }

  /** `register` does not clear a verify-token: a token from an earlier successful
      verification still confirms the PIN within 5 min of a later, unverified OTP request. */
  lemma VerifyTokenOutlivesRegister(s: Store, phone: Phone, token: string, otp: string, t1: Millis, verifyToken: string,
                                    t2: Millis, rememberToken: string, pin: string, t3: Millis, salt: nat, id: AdminId)
    requires VerifyOtp(s, phone, token, otp, t1, verifyToken).result.Ok?
    requires Register(VerifyOtp(s, phone, token, otp, t1, verifyToken).after, phone, t2, rememberToken).result.Ok?
    requires !IsBlank(verifyToken) && PasswordWellFormed(pin) && Elapsed(t2, t3) <= ConfirmLifetime
    ensures
      var s2 := Register(VerifyOtp(s, phone, token, otp, t1, verifyToken).after, phone, t2, rememberToken).after;
      ConfirmPassword(s2, phone, verifyToken, pin, t3, salt, id).result.Ok?
  {
  }
}
