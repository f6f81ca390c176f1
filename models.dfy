/** The two per-phone documents the auth resolvers read and save: an OTP challenge and an
    admin account, and the store holding one of each per phone. */
module Models {
  import opened Clock
  import opened Crypto

  datatype Option<T> = None | Some(value: T)

  /** A phone number as `validatePhone` returns it; the store is keyed by it. */
  type Phone = string

  /** The OTP every request issues: real delivery to the phone is not implemented. */
  const FakeOtp: string := "123456"

  /** An OTP challenge document. `verifyToken` is absent until a verification succeeds.
      `updatedAt` is the time of the last save. */
  datatype Otp = Otp(
    otp: string,
    rememberToken: string,
    verifyToken: Option<string>,
    count: nat,
    error: nat,
    updatedAt: Millis)

  /** The `status` field of an account: `"active"` or `"freeze"`. */
  datatype Status = Active | Freeze

  /** An admin account document. */
  datatype Admin = Admin(
    id: AdminId,
    password: PasswordHash,
    error: nat,
    status: Status,
    updatedAt: Millis)

  /** The Otp and Admin collections, each keyed by phone. */
  datatype Store = Store(otps: map<Phone, Otp>, admins: map<Phone, Admin>)

  /** `findOne({ phone })`. */
  function Find<T>(docs: map<Phone, T>, phone: Phone): Option<T>
  {
    if phone in docs then Some(docs[phone]) else None
  }
}
