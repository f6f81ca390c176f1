/** The argument checks the resolvers run before touching the store, written with the
    `validator` calls they use: `isEmpty(s.trim())`, `isLength` and `matches(s, "^[0-9]+$")`. */
module InputGrammar {
  /** The characters `String.prototype.trim` strips: ECMAScript white space and line terminators. */
  predicate IsJsSpace(c: char)
  {
    c == '\t' || c == '\n' || c == '\U{B}' || c == '\U{C}' || c == '\r' || c == ' '
    || c == '\U{A0}' || c == '\U{1680}' || ('\U{2000}' <= c <= '\U{200A}')
    || c == '\U{2028}' || c == '\U{2029}' || c == '\U{202F}' || c == '\U{205F}'
    || c == '\U{3000}' || c == '\U{FEFF}'
  }

  /** Every character is white space or a line terminator, so nothing is left after `trim`. */
  predicate IsBlank(s: string)
  {
    forall i :: 0 <= i < |s| ==> IsJsSpace(s[i])
  }

  predicate IsDigit(c: char)
  {
    '0' <= c <= '9'
  }

  function TrimStart(s: string): string
  {
    if |s| > 0 && IsJsSpace(s[0]) then TrimStart(s[1..]) else s
  }

  function TrimEnd(s: string): string
  {
    if |s| > 0 && IsJsSpace(s[|s| - 1]) then TrimEnd(s[..|s| - 1]) else s
  }

  /** `s.trim()`. */
  function Trim(s: string): string
  {
    TrimEnd(TrimStart(s))
  }

  /** `validator.isEmpty(s)` with its default options: the empty string only. */
  predicate IsEmpty(s: string)
  {
    |s| == 0
  }

  /** `validator.isLength(s, { min, max })`. It counts characters; on the digit strings the
      checks below accept, that is the same as counting UTF-16 code units. */
  predicate IsLength(s: string, min: nat, max: nat)
  {
    min <= |s| <= max
  }

  /** `validator.matches(s, "^[0-9]+$")`. */
  predicate MatchesDigits(s: string)
  {
    |s| > 0 && forall i :: 0 <= i < |s| ==> IsDigit(s[i])
  }

  /** The token-presence rejection of `verifyOtp` and `confirmPassword`, as the source
      writes it: `validator.isEmpty(token.trim())`. */
  predicate TokenRejected(token: string)
  {
    IsEmpty(Trim(token))
  }

  /** The OTP rejection of `verifyOtp`, as the source writes it. */
  predicate OtpRejected(otp: string)
  {
    IsEmpty(Trim(otp)) || !IsLength(otp, 5, 12) || !MatchesDigits(otp)
  }

  /** The PIN rejection shared by `confirmPassword` and `login`, as the source writes it. */
  predicate PasswordRejected(password: string)
  {
    IsEmpty(Trim(password)) || !IsLength(password, 8, 8) || !MatchesDigits(password)
  }

  /** The OTP and PIN checks in closed form, which the resolver model uses (the token
      check's closed form is `IsBlank`); the lemmas below prove each equal to the rejection
      it replaces. */
  predicate OtpWellFormed(otp: string)
  {
    5 <= |otp| <= 12 && MatchesDigits(otp)
  }

  predicate PasswordWellFormed(password: string)
  {
    |password| == 8 && MatchesDigits(password)
  }

  lemma {:induction false} TrimStartShape(s: string)
    ensures TrimStart(s) == "" <==> IsBlank(s)
    ensures TrimStart(s) != "" ==> !IsJsSpace(TrimStart(s)[0])
    decreases |s|
  {
    if |s| > 0 && IsJsSpace(s[0]) {
      TrimStartShape(s[1..]);
      assert IsBlank(s[1..]) ==> IsBlank(s) by {
        if IsBlank(s[1..]) {
          forall i | 0 <= i < |s| ensures IsJsSpace(s[i]) {
            if i > 0 { assert s[i] == s[1..][i - 1]; }
          }
        }
      }
      assert IsBlank(s) ==> IsBlank(s[1..]) by {
        if IsBlank(s) {
          forall i | 0 <= i < |s| - 1 ensures IsJsSpace(s[1..][i]) {
            assert s[1..][i] == s[i + 1];
          }
        }
      }
    }
  }

  lemma {:induction false} TrimEndEmpty(s: string)
    ensures TrimEnd(s) == "" <==> IsBlank(s)
    decreases |s|
  {
    if |s| > 0 && IsJsSpace(s[|s| - 1]) {
      var init := s[..|s| - 1];
      TrimEndEmpty(init);
      assert IsBlank(init) ==> IsBlank(s) by {
        if IsBlank(init) {
          forall i | 0 <= i < |s| ensures IsJsSpace(s[i]) {
            if i < |s| - 1 { assert s[i] == init[i]; }
          }
        }
      }
      assert IsBlank(s) ==> IsBlank(init) by {
        if IsBlank(s) {
          forall i | 0 <= i < |init| ensures IsJsSpace(init[i]) {
            assert init[i] == s[i];
          }
        }
      }
    }
  }

  /** `s.trim()` is empty exactly when every character of `s` is white space. */
  lemma TokenRejectedIffBlank(s: string)
    ensures TokenRejected(s) <==> IsBlank(s)
  {
    TrimStartShape(s);
    TrimEndEmpty(TrimStart(s));
  }

  /** `verifyOtp` accepts exactly the OTPs of 5 to 12 decimal digits. */
  lemma OtpRejectedIff(otp: string)
    ensures OtpRejected(otp) <==> !OtpWellFormed(otp)
  {
  }

  /** `confirmPassword` and `login` accept exactly the PINs of 8 decimal digits. */
  lemma PasswordRejectedIff(password: string)
    ensures PasswordRejected(password) <==> !PasswordWellFormed(password)
  {
  }
}
