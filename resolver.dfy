/** The `Mutation` resolvers as they run: each loads the documents for a phone, changes
    their fields one assignment at a time and saves them, along the source's branches.
    Every method is tied to the transition of the same name in AuthRules. */
module AuthResolver {
  import opened Clock
  import opened Crypto
  import opened Models
  import opened Check
  import opened InputGrammar
  import opened AuthRules
  import AuthSequences

  /** The Otp and Admin collections as the resolvers see them. */
  class AuthService {
    var otps: map<Phone, Otp>
    var admins: map<Phone, Admin>

    ghost predicate Valid()
      reads this
    {
      StoreInvariant(Snapshot())
    }

    function Snapshot(): Store
      reads this
    {
      Store(otps, admins)
    }

    constructor ()
      ensures Valid() && Snapshot() == Store(map[], map[])
    {
      otps := map[];
      admins := map[];
    }

    /** `otpCheck.save()`: writes the document back and refreshes `updatedAt`. */
    method SaveOtp(phone: Phone, doc: Otp, now: Millis)
      modifies this
      ensures otps == old(otps)[phone := doc.(updatedAt := now)]
      ensures admins == old(admins)
    {
      otps := otps[phone := doc.(updatedAt := now)];
    }

    /** `admin.save()`. */
    method SaveAdmin(phone: Phone, doc: Admin, now: Millis)
      modifies this
      ensures admins == old(admins)[phone := doc.(updatedAt := now)]
      ensures otps == old(otps)
    {
      admins := admins[phone := doc.(updatedAt := now)];
    }

    /** `register(phone)`: `token` is the fresh `rand() + rand()`. */
    method Register(phone: Phone, now: Millis, token: string) returns (r: Result<Issued>)
      requires Valid()
      modifies this
      ensures Valid()
      ensures Outcome(r, Snapshot()) == AuthRules.Register(old(Snapshot()), phone, now, token)
    {
      var admin := Find(admins, phone);
      if PhoneExistRejects(admin) {
        return Err(PhoneAlreadyRegistered);
      }
      var found := Find(otps, phone);
      if found.None? {
        var otp := Otp(FakeOtp, token, None, 1, 0, now);
        SaveOtp(phone, otp, now);
      } else {
        var otpCheck := found.value;
        var isSameDate := SameDate(otpCheck.updatedAt, now);
        if OtpErrorIfSameDateRejects(isSameDate, otpCheck) {
          return Err(OtpErrorLimit);
        }
        if !isSameDate {
          otpCheck := otpCheck.(otp := FakeOtp);
          otpCheck := otpCheck.(rememberToken := token);
          otpCheck := otpCheck.(count := 1);
          otpCheck := otpCheck.(error := 0);
          SaveOtp(phone, otpCheck, now);
        } else if otpCheck.count == MaxOtpRequests {
          return Err(DailyLimitReached);
        } else {
          otpCheck := otpCheck.(otp := FakeOtp);
          otpCheck := otpCheck.(rememberToken := token);
          otpCheck := otpCheck.(count := otpCheck.count + 1);
          SaveOtp(phone, otpCheck, now);
        }
      }
      r := Ok(Issued(phone, token));
    }

    /** `verifyOtp(phone, token, otp)`: `newToken` is the fresh `rand() + rand() + rand()`. */
    method VerifyOtp(phone: Phone, token: string, otp: string, now: Millis, newToken: string)
      returns (r: Result<Issued>)
      requires Valid()
      modifies this
      ensures Valid()
      ensures Outcome(r, Snapshot()) == AuthRules.VerifyOtp(old(Snapshot()), phone, token, otp, now, newToken)
    {
      if IsBlank(token) {
        return Err(TokenEmpty);
      }
      if !OtpWellFormed(otp) {
        return Err(OtpInvalid);
      }
      var admin := Find(admins, phone);
      if PhoneExistRejects(admin) {
        return Err(PhoneAlreadyRegistered);
      }
      var found := Find(otps, phone);
      if OtpPhoneRejects(found) {
        return Err(NoOtpRequest);
      }
      var otpCheck := found.value;
      var isSameDate := SameDate(otpCheck.updatedAt, now);
      if OtpErrorIfSameDateRejects(isSameDate, otpCheck) {
        return Err(OtpErrorLimit);
      }
      if otpCheck.rememberToken != token {
        otpCheck := otpCheck.(error := OtpErrorCap);
        SaveOtp(phone, otpCheck, now);
        return Err(TokenInvalid);
      }
      var difference := Elapsed(otpCheck.updatedAt, now);
      if difference > OtpLifetime {
        return Err(OtpExpired);
      }
      if otpCheck.otp != otp {
        if !isSameDate {
          otpCheck := otpCheck.(error := 1);
        } else {
          otpCheck := otpCheck.(error := otpCheck.error + 1);
        }
        SaveOtp(phone, otpCheck, now);
        return Err(OtpIncorrect);
      }
      otpCheck := otpCheck.(verifyToken := Some(newToken));
      otpCheck := otpCheck.(count := 1);
      otpCheck := otpCheck.(error := 1);
      SaveOtp(phone, otpCheck, now);
      r := Ok(Issued(phone, newToken));
    }

    /** `confirmPassword(phone, password, token)`: `salt` is what `bcrypt.genSalt(10)` draws
        and `id` the `_id` the new document receives. */
    method ConfirmPassword(phone: Phone, token: string, password: string, now: Millis, salt: nat, id: AdminId)
      returns (r: Result<Session>)
      requires Valid()
      modifies this
      ensures Valid()
      ensures Outcome(r, Snapshot()) == AuthRules.ConfirmPassword(old(Snapshot()), phone, token, password, now, salt, id)
    {
      if IsBlank(token) {
        return Err(TokenEmpty);
      }
      if !PasswordWellFormed(password) {
        return Err(OtpInvalid);
      }
      var admin := Find(admins, phone);
      if PhoneExistRejects(admin) {
        return Err(PhoneAlreadyRegistered);
      }
      var found := Find(otps, phone);
      if OtpPhoneRejects(found) {
        return Err(NoOtpRequest);
      }
      var otpCheck := found.value;
      if otpCheck.error == OtpErrorCap {
        return Err(SuspectedAttack);
      }
      if otpCheck.verifyToken != Some(token) {
        otpCheck := otpCheck.(error := OtpErrorCap);
        SaveOtp(phone, otpCheck, now);
        return Err(TokenInvalid);
      }
      var difference := Elapsed(otpCheck.updatedAt, now);
      if difference > ConfirmLifetime {
        return Err(RequestExpired);
      }
      var hashPassword := Hash(password, salt);
      var newAdmin := Admin(id, hashPassword, 0, Active, now);
      SaveAdmin(phone, newAdmin, now);
      var jwtToken := Sign(id);
      r := Ok(Session(jwtToken, phone, id));
    }

    /** `login(phone, password)`. */
    method Login(phone: Phone, password: string, now: Millis) returns (r: Result<Session>)
      requires Valid()
      modifies this
      ensures Valid()
      ensures Outcome(r, Snapshot()) == AuthRules.Login(old(Snapshot()), phone, password, now)
    {
      if !PasswordWellFormed(password) {
        return Err(ValidationFailed);
      }
      var found := Find(admins, phone);
      if PhoneIfNotExistRejects(found) {
        return Err(PhoneNotRegistered);
      }
      var admin := found.value;
      if admin.status == Freeze {
        return Err(AccountLocked);
      }
      var isEqual := Compare(password, admin.password);
      if !isEqual {
        var isSameDate := SameDate(admin.updatedAt, now);
        if !isSameDate {
          admin := admin.(error := 1);
        } else if admin.error >= FreezeAfter {
          admin := admin.(status := Freeze);
        } else {
          admin := admin.(error := admin.error + 1);
        }
        SaveAdmin(phone, admin, now);
        return Err(PasswordWrong);
      }
      if admin.error >= 1 {
        admin := admin.(error := 0);
        SaveAdmin(phone, admin, now);
      }
      var jwtToken := Sign(admin.id);
      r := Ok(Session(jwtToken, phone, admin.id));
    }
  }

  /** The flow of one phone from its first OTP request to a login: register, verify the OTP
      a minute later, set the PIN two minutes after that, and log in with it. */
  method SignUpThenLogin() returns (issued: Result<Issued>, verified: Result<Issued>,
                                    created: Result<Session>, session: Result<Session>)
    ensures issued == Ok(Issued("091234567", "r7k2q9x4m1"))
    ensures verified == Ok(Issued("091234567", "v3n8p0s6w2j5"))
    ensures created == Ok(Session(Sign(42), "091234567", 42))
    ensures session == Ok(Session(Sign(42), "091234567", 42))
  {
    var service := new AuthService();
    var phone := "091234567";
    assert !IsJsSpace("r7k2q9x4m1"[0]) && !IsJsSpace("v3n8p0s6w2j5"[0]);
    AuthSequences.SignUpThenLogin(service.Snapshot(), phone, 1_000, "r7k2q9x4m1", 61_000, "v3n8p0s6w2j5",
                                  "12345678", 181_000, 10, 42, 240_000);
    issued := service.Register(phone, 1_000, "r7k2q9x4m1");
    verified := service.VerifyOtp(phone, "r7k2q9x4m1", FakeOtp, 61_000, "v3n8p0s6w2j5");
    created := service.ConfirmPassword(phone, "v3n8p0s6w2j5", "12345678", 181_000, 10, 42);
    session := service.Login(phone, "12345678", 240_000);
  }
}
