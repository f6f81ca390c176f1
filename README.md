# Phone-OTP registration and PIN login, modelled in Dafny

This project models the authentication core of a GraphQL/Mongoose service: the four
`Mutation` resolvers of `graphql/auth/auth.resolver.js`. Each phone number has two documents:

- an **Otp challenge**: the issued OTP, a remember-token, a verify-token, a request count, an error count and `updatedAt`;
- an **Admin account**: a bcrypt hash of an 8-digit PIN, a failure count, a status (`active`/`freeze`) and `updatedAt`.

The mutations are:

- `register` issues or re-issues a challenge, at most 3 per calendar day between two successful verifications;
- `verifyOtp` checks the remember-token, a 90 s expiry and the OTP, and hands out a verify-token;
- `confirmPassword` checks the verify-token and a 5 min expiry, and creates the account;
- `login` checks the PIN and freezes the account after three wrong PINs in a row on one day, with no successful login between them.

## Layout

| file | module | what it holds |
|---|---|---|
| clock.dfy | `Clock` | epoch milliseconds, `Day(t)`, the same-date test and `moment()` differences |
| crypto.dfy | `Crypto` | bcrypt as an ideal salted hash with `Compare`, jwt as a credential carrying the account id |
| models.dfy | `Models` | the `Otp` and `Admin` documents and the store, one of each per phone |
| check.dfy | `Check` | the four guards imported from the request-check middleware, as predicates (see **Guards** below for what each one refuses) |
| grammar.dfy | `InputGrammar` | `trim`, `isEmpty`, `isLength`, `matches("^[0-9]+$")` and the token, OTP and PIN checks |
| rules.dfy | `AuthRules` | each mutation as a transition of the store, with contracts on its result and frame |
| resolver.dfy | `AuthResolver` | class `AuthService` over the two collections, one method per mutation, assigning fields and saving step by step along the source's branches; each method is proved equal to its transition |
| branches.dfy | `AuthBranches` | one lemma per branch: which fields it writes |
| sequences.dfy | `AuthSequences` | several requests in a row: daily limits, lockouts, one account per phone, the sign-up flow, and what every run of requests preserves |

Modelling choices:

- **Guards.** The middleware is not part of this model. Each guard is a predicate that holds
  exactly when the guard throws:
  - `checkPhoneExist` throws when an account exists;
  - `checkPhoneIfNotExist` throws when there is none;
  - `checkOtpPhone` throws when there is no challenge;
  - `checkOtpErrorIfSameDate` throws when the date is the same and the error count is 5.
  The guards run in the code's call order.
- **Schema defaults.** The model schemas are not part of this model. They are assumed to give:
  - a new challenge: error count 0 and no verify-token;
  - a new account: failure count 0 and status `active`.
- **Saves.** Each `save()` sets `updatedAt` to the call's clock reading. This assumes Mongoose's
  timestamps option is on. Both expiry windows and both same-day tests are measured from this field.
- **Randomness.** The random draws are parameters of the calls: the tokens from `rand()`, the
  bcrypt salt and the new document's `_id`.
- **Well-formedness checks.** The resolvers use one closed form per check, and a lemma proves
  each equal to the check as the source writes it:
  - `IsBlank` (every character white space) for `validator.isEmpty(token.trim())`;
  - 5 to 12 digits for the OTP;
  - exactly 8 digits for the PIN.

## Behaviour worth knowing

The code fixes these points of the flow:

- `verifyOtp` and `confirmPassword` call `checkPhoneExist`, the same guard `register` uses.
  So they refuse a phone that already has an account. They do not require one.
- `confirmPassword` does check for an existing account, at graphql/auth/auth.resolver.js:225.
  So two sequential confirmations cannot both create one (`AccountCreatedOnce`).
- The challenge has no state tag. The only link between the steps is the stored tokens.
  `register` does not clear an earlier verify-token. So a verify-token from an earlier successful
  verification still confirms a PIN within 5 minutes of a later request
  (`VerifyTokenOutlivesRegister`).
- For a malformed PIN, `confirmPassword` reports the OTP message "OTP is invalid."
  (modelled as the `OtpInvalid` error).

## Model

| member | source | states |
|---|---|---|
| Crypto.CompareHash | graphql/auth/auth.resolver.js:269-270 | comparing a PIN against a stored hash succeeds exactly when the hash was made from that PIN, whatever the salt |
| InputGrammar.TokenRejectedIffBlank | graphql/auth/auth.resolver.js:95-102 | `isEmpty(token.trim())` holds exactly when every character of the token is ECMAScript white space |
| InputGrammar.OtpRejectedIff | graphql/auth/auth.resolver.js:103-114 | the three-way OTP rejection refuses exactly the strings that are not 5 to 12 decimal digits |
| InputGrammar.PasswordRejectedIff | graphql/auth/auth.resolver.js:205-216 | the PIN rejection (also used by `login` at :295-306) refuses exactly the strings that are not 8 decimal digits |
| AuthRules.Register | graphql/auth/auth.resolver.js:28-87 | succeeds iff the phone has no account and its challenge is absent, from an earlier day, or neither at the error cap nor at 3 requests; on success it returns the new token, which is stored with OTP "123456" and the call's time; a refusal writes nothing; no account and no other phone's challenge changes; the counter ranges are kept |
| AuthRules.VerifyOtp | graphql/auth/auth.resolver.js:89-190 | succeeds iff the token is non-blank, the OTP well-formed, no account exists, a challenge exists that is not at the day's error cap, the remember-token matches, at most 90 000 ms have passed and the OTP matches; success returns and stores the new verify-token; every refusal except a token mismatch and a wrong OTP writes nothing; only this phone's challenge can change; the counter ranges are kept |
| AuthRules.ConfirmPassword | graphql/auth/auth.resolver.js:192-288 | succeeds iff the token is non-blank, the PIN is 8 digits, no account exists, a challenge exists whose error count is not 5, whose verify-token is the given one and which was saved at most 300 000 ms ago; success adds exactly the new account (hash of the PIN, counters at their defaults), returns its credential and id, and leaves the challenges alone; a refusal never creates an account, and only a token mismatch writes anything |
| AuthRules.Login | graphql/auth/auth.resolver.js:290-368 | succeeds iff the PIN is 8 digits, the account exists, is not frozen and the PIN matches its hash; success returns the account's credential and id and leaves its failure count 0; only a wrong PIN writes on failure; a frozen account is never written; no challenge changes; the id and hash of every account stay; the counter ranges are kept |
| AuthResolver.AuthService.Register | graphql/auth/auth.resolver.js:28-87 | the step-by-step resolver returns what `AuthRules.Register` returns and leaves the collections as it says, keeping the counter invariant |
| AuthResolver.AuthService.VerifyOtp | graphql/auth/auth.resolver.js:89-190 | the step-by-step resolver agrees with `AuthRules.VerifyOtp` on the reply and on the new collections, keeping the counter invariant |
| AuthResolver.AuthService.ConfirmPassword | graphql/auth/auth.resolver.js:192-288 | the step-by-step resolver agrees with `AuthRules.ConfirmPassword` on the reply and on the new collections, keeping the counter invariant |
| AuthResolver.AuthService.Login | graphql/auth/auth.resolver.js:290-368 | the step-by-step resolver agrees with `AuthRules.Login` on the reply and on the new collections, keeping the counter invariant |
| AuthResolver.AuthService.SaveOtp | graphql/auth/auth.resolver.js:49 | saving writes the document under its phone with `updatedAt` set to now, and touches nothing else |
| AuthResolver.AuthService.SaveAdmin | graphql/auth/auth.resolver.js:276 | saving an account writes it under its phone with `updatedAt` set to now, and touches nothing else |
| AuthResolver.SignUpThenLogin | graphql/auth/auth.resolver.js:28-368 | on a fresh store, phone "091234567": register, verify "123456" 60 s later, set PIN "12345678" 2 min later, then log in; each call succeeds and the last two return the credential for the new account |
| AuthBranches.RegisterCreatesChallenge | graphql/auth/auth.resolver.js:41-49 | the first request creates the challenge with count 1, error 0, OTP "123456" and the returned token as remember-token |
| AuthBranches.RegisterNewDayResets | graphql/auth/auth.resolver.js:56-61 | on a new calendar day the request sets count 1, error 0, a new OTP and the returned token; the verify-token is left as it is |
| AuthBranches.RegisterSameDayCounts | graphql/auth/auth.resolver.js:73-78 | on the same day, below 3 requests, the count goes up by exactly 1 and the error count is unchanged |
| AuthBranches.RegisterDailyLimit | graphql/auth/auth.resolver.js:63-72 | on the same day at count 3 the request fails with the daily-limit error and the store is unchanged |
| AuthBranches.RegisterLockedForTheDay | graphql/auth/auth.resolver.js:51-54 | on the same day with the error count at 5 the request is refused by the same-day guard and nothing changes |
| AuthBranches.VerifyTokenMismatch | graphql/auth/auth.resolver.js:136-146 | a remember-token that differs from the stored one fails with "Token is invalid." and sets the error count to 5; the timestamp is the only other field written |
| AuthBranches.VerifyExpired | graphql/auth/auth.resolver.js:148-159 | with the right token, more than 90 000 ms after the last save, verification fails as expired even with the right OTP, and nothing is written |
| AuthBranches.VerifyWrongOtp | graphql/auth/auth.resolver.js:161-177 | a wrong OTP fails and sets the error count to 1 on a new day and to one more on the same day; the timestamp is the only other field written |
| AuthBranches.VerifySucceeds | graphql/auth/auth.resolver.js:179-189 | a successful verification returns the new token, stores it as verify-token and sets count and error to 1; the timestamp is the only other field written |
| AuthBranches.ConfirmSuspected | graphql/auth/auth.resolver.js:232-242 | with the error count at 5 the confirmation fails as a suspected attack and nothing is written |
| AuthBranches.ConfirmTokenMismatch | graphql/auth/auth.resolver.js:244-254 | a verify-token other than the stored one (or none stored) fails and sets the error count to 5 |
| AuthBranches.ConfirmExpired | graphql/auth/auth.resolver.js:256-267 | more than 300 000 ms after the last save the confirmation fails as expired and nothing is written |
| AuthBranches.LoginFrozen | graphql/auth/auth.resolver.js:315-325 | a frozen account is refused whether or not the PIN is right, and nothing is written |
| AuthBranches.LoginWrongPassword | graphql/auth/auth.resolver.js:327-352 | a wrong PIN fails; it sets the failure count to 1 on a new day; on the same day it freezes the account at 2 or more failures (count unchanged) and adds one otherwise |
| AuthBranches.LoginSucceeds | graphql/auth/auth.resolver.js:354-367 | a right PIN returns the account's credential and id, resets a non-zero failure count to 0, and writes nothing when the count was 0 |
| AuthSequences.ApplyKeepsInvariant | graphql/auth/auth.resolver.js:28-368 | any one request keeps every challenge's count in 1..3 and error in 0..5, and every account's failure count in 0..2 |
| AuthSequences.RunKeepsInvariant | graphql/auth/auth.resolver.js:28-368 | any run of requests keeps those ranges; in particular `register` never raises the count above 3 |
| AuthSequences.ApplyKeepsAccount | graphql/auth/auth.resolver.js:272-276 | no request removes an account or changes its id or PIN hash, and none changes a frozen account |
| AuthSequences.RunKeepsAccount | graphql/auth/auth.resolver.js:272-276 | over any run of requests an account keeps its id and PIN hash, and a frozen account stays exactly as it was |
| AuthSequences.FrozenAccountStaysLocked | graphql/auth/auth.resolver.js:315-325 | after any run of requests, a login to an account that was frozen is refused as locked, with the right PIN or not |
| AuthSequences.ApplyKeepsLockedChallenge | graphql/auth/auth.resolver.js:130-146 | a request on the day a challenge reached the error cap leaves that challenge unchanged |
| AuthSequences.LockedChallengeHoldsAllDay | graphql/auth/auth.resolver.js:130-146 | a challenge at the error cap stays exactly as it is through any run of requests on the same day |
| AuthSequences.StaleTokenLocksTheDay | graphql/auth/auth.resolver.js:130-146 | after a stale remember-token, the next verification and the next OTP request on that day are refused by the same-day error guard |
| AuthSequences.RegisterWithinBudget | graphql/auth/auth.resolver.js:56-79 | in a run of `register` calls within one calendar day, with no successful `verifyOtp` between them, no more are answered than 3 minus the day's count so far |
| AuthSequences.AtMostThreeRequestsPerDay | graphql/auth/auth.resolver.js:56-79 | in a run of `register` calls for a phone within one calendar day, with no successful `verifyOtp` between them, at most 3 are answered |
| AuthSequences.VerifyReopensTheDailyLimit | graphql/auth/auth.resolver.js:179-189 | a successful `verifyOtp` sets the request count back to 1, so on one day register, register, verify, register, register from an empty store all succeed and the count ends at 3 |
| AuthSequences.RefusedRequestStaysRefused | graphql/auth/auth.resolver.js:54-72 | a refused OTP request leaves the store unchanged, so a later one on the same day is refused too |
| AuthSequences.FourthRequestOfTheDayFails | graphql/auth/auth.resolver.js:63-72 | of four OTP requests on one calendar day the fourth is refused |
| AuthSequences.ThirdWrongPinOfTheDayFreezes | graphql/auth/auth.resolver.js:328-344 | three wrong PINs in a row on one calendar day, with no successful login between them, leave an active account frozen, whatever its failure count was before |
| AuthSequences.RightPinResetsTheFailures | graphql/auth/auth.resolver.js:354-357 | a right PIN sets the failure count back to 0, so wrong, wrong, right, wrong, wrong on one day leave an account that started at 0 active with failure count 2 |
| AuthSequences.AccountCreatedOnce | graphql/auth/auth.resolver.js:222-225 | after a successful confirmation, another confirmation and a new OTP request for the phone are refused as already registered, with nothing written |
| AuthSequences.SignUpThenLogin | graphql/auth/auth.resolver.js:28-368 | a successful register, then verify with the issued OTP and token within 90 s, then an 8-digit PIN with the verify-token within 5 min, then login with that PIN: all four succeed and the last two return the credential for the created account |
| AuthSequences.VerifyTokenOutlivesRegister | graphql/auth/auth.resolver.js:56-61 | a verify-token from an earlier successful verification still confirms a PIN within 5 min of a later successful OTP request |

## Left out

- `validatePhone` (middleware, not part of this model): the phone reaches the model already in canonical form.
- `validator.escape` on the submitted token: the model compares the token as submitted. Tokens from `rand()` are base-36 letters and digits, which escaping leaves unchanged.
- bcrypt's salting and hashing: an ideal hash takes its place. A comparison succeeds exactly for the PIN the hash was made from. The salt is a parameter.
- jwt signing and the secret: the credential is a value carrying the account id. The `iat` issued-at claim is dropped, so two credentials for one account are equal in the model, while the source's differ when signed at different seconds.
- `Math.random` and ObjectId generation: the tokens, the salt and the new `_id` are parameters of each call.
- `toLocaleDateString` and `moment`: the calendar day is the epoch-millisecond timestamp divided by 86 400 000. That is one fixed time zone with no daylight-saving shifts. The source reads the clock more than once per call; the model reads it once.
- Mongoose behaviour beyond reading and writing one document per phone: `asyncHandler`, and the way `save()` skips a write when no field changed. The model always refreshes `updatedAt` on save.
- StaleTokenLocksTheDay: relies on every save refreshing `updatedAt`. When the challenge already has error count 5 from an earlier day, the mismatch at graphql/auth/auth.resolver.js:136-146 changes no field, Mongoose skips the write and `updatedAt` stays on the earlier day; the next `register` then resets the challenge instead of being refused.
- ThirdWrongPinOfTheDayFreezes: relies on every save refreshing `updatedAt`. When the account's failure count is already 1 from an earlier day, a wrong PIN on a new day sets it to 1 again at graphql/auth/auth.resolver.js:328-333, Mongoose skips the write and `updatedAt` stays on the earlier day; every later wrong PIN then takes the new-day branch and the account never freezes.
- AuthBranches.VerifyTokenMismatch: states that the timestamp is written; under Mongoose it is not when the error count is already 5 from an earlier day.
- AuthBranches.VerifyWrongOtp: states that the timestamp is written; under Mongoose it is not when the new error count equals the old one.
- AuthBranches.LoginWrongPassword: states that the timestamp is written; under Mongoose it is not when the new failure count equals the old one.
- The reply messages and the GraphQL extension codes and HTTP statuses: one error value per distinct message or guard.
- Concurrent requests for the same phone: requests are served one after another. In `confirmPassword` the assignment to `token` at graphql/auth/auth.resolver.js:218 has no declaration, so it creates a global variable, a property of the global object shared by every module in the process; two concurrent calls could race on it before the comparison at :244. The model keeps the token local to the call.
- `graphql/admin/admin.resolver.js` and `test/server.js`: profile upload, pagination, the auth wrappers and the server setup are outside this core.
