/** The two cryptographic collaborators of the auth resolvers, reduced to the behaviour the
    resolvers rely on: bcrypt for the stored PIN and jwt for the returned credential. */
module Crypto {
  /** The `_id` of an account document; a credential carries it as its payload. */
  type AdminId = nat

  /** A salted password hash in the ideal model: the value remembers its salt and what it was
      made from, and nothing but `Compare` looks inside. */
  datatype PasswordHash = PasswordHash(salt: nat, preimage: string)

  /** `bcrypt.hash(password, salt)` with the salt from `bcrypt.genSalt(10)` passed in. */
  function Hash(password: string, salt: nat): PasswordHash
  {
    PasswordHash(salt, password)
  }

  /** `bcrypt.compare(password, hash)`. */
  predicate Compare(password: string, hash: PasswordHash)
  {
    password == hash.preimage
  }

  /** Comparing against a hash accepts exactly the password it was made from, whatever the salt. */
  lemma CompareHash(candidate: string, password: string, salt: nat)
    ensures Compare(candidate, Hash(password, salt)) <==> candidate == password
  {
  }

  /** A credential signed with the server secret; `jwt.sign({ id }, TOKEN_SECRET)`. */
  datatype Credential = Jwt(id: AdminId)

  function Sign(id: AdminId): Credential
  {
    Jwt(id)
  }
}
