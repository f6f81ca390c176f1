/** The guards the resolvers import from the request-check middleware. Each one rejects the
    request (by throwing) exactly when its predicate here holds; the middleware itself is not
    part of this model, so each body is what its name and its call sites say. */
module Check {
  import opened Models

  /** The most wrong attempts a challenge records in a day before all further requests
      for that phone are refused until the date changes. */
  const OtpErrorCap: nat := 5

  /** `checkPhoneExist(admin)`: refuses when the phone already has an account. */
  predicate PhoneExistRejects(admin: Option<Admin>)
  {
    admin.Some?
  }

  /** `checkPhoneIfNotExist(admin)`: refuses when the phone has no account. */
  predicate PhoneIfNotExistRejects(admin: Option<Admin>)
  {
    admin.None?
  }

  /** `checkOtpPhone(otpCheck)`: refuses when the phone has no challenge. */
  predicate OtpPhoneRejects(otpCheck: Option<Otp>)
  {
    otpCheck.None?
  }

  /** `checkOtpErrorIfSameDate(isSameDate, otpCheck)`: refuses when the challenge already
      recorded the day's maximum of wrong attempts. */
  predicate OtpErrorIfSameDateRejects(isSameDate: bool, otpCheck: Otp)
  {
    isSameDate && otpCheck.error == OtpErrorCap
  }
}
