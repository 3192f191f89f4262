/**
 * The sign-up page's submit handler (app/auth/register/page.tsx): two password checks
 * made before anything else, an optional referral-code lookup, then the sign-up call.
 */
module Register {
  import opened Text

  /** The outcome of the two password checks shared by sign-up and the admin password form. */
  datatype PasswordCheck = Mismatch | TooShort | PasswordOk

  /** The confirmation must equal the password (checked first), then the password needs 6 UTF-16 units. */
  function CheckPasswords(password: string, confirm: string): (r: PasswordCheck)
    ensures r == Mismatch <==> password != confirm
    ensures r == TooShort <==> password == confirm && Utf16Length(password) < 6
    ensures r == PasswordOk <==> password == confirm && Utf16Length(password) >= 6
  {
    if password != confirm then Mismatch
    else if Utf16Length(password) < 6 then TooShort
    else PasswordOk
  }

  /** A short password typed differently twice is reported as a mismatch, not as too short. */
  lemma MismatchReportedFirst()
    ensures CheckPasswords("abc", "abd") == Mismatch
  {
  }

  datatype RegisterForm = RegisterForm(fullName: string, email: string, password: string, confirmPassword: string, referralCode: string)

  /** The referral lookup by upper-cased code: the referrer's id, or no row / an error. */
  datatype ReferralLookup = Referrer(id: string) | NoReferrer

  /** The sign-up call's result. */
  datatype SignUpResult = SignUpOk | SignUpError(message: Option<string>)

  /** What is sent to sign-up: the credentials and the profile metadata. */
  datatype SignUpRequest = SignUpRequest(email: string, password: string, fullName: string, referredBy: Option<string>)

  datatype RegisterOutcome =
    | Rejected(check: PasswordCheck)
    | Failed(request: SignUpRequest, message: string, referralWarning: bool)
    | Registered(request: SignUpRequest, referralWarning: bool)

  /** The code looked up, if any: the typed code upper-cased; nothing for an empty code. */
  function LookupCode(f: RegisterForm): (c: Option<string>)
    ensures c.Some? <==> f.referralCode != []
    ensures c.Some? ==> c.value == Upper(f.referralCode)
  {
    if f.referralCode != [] then Some(Upper(f.referralCode)) else None
  }

  /**
   * `handleRegister`: a failed password check stops before the loading flag and any
   * call; an unknown referral code only warns and registers without a referrer.
   * `lookup` answers for the upper-cased code, `signUp` for the request.
   */
  function HandleRegister(f: RegisterForm, lookup: string -> ReferralLookup, signUp: SignUpRequest -> SignUpResult): (r: RegisterOutcome)
    ensures r.Rejected? <==> CheckPasswords(f.password, f.confirmPassword) != PasswordOk
    ensures r.Rejected? ==> r.check == CheckPasswords(f.password, f.confirmPassword)
    ensures !r.Rejected? ==>
              r.request.email == f.email && r.request.password == f.password && r.request.fullName == f.fullName
    ensures !r.Rejected? ==>
              var code := LookupCode(f);
              (r.request.referredBy.Some? <==> code.Some? && lookup(code.value).Referrer?)
              && (r.request.referredBy.Some? ==> r.request.referredBy.value == lookup(code.value).id)
              && (r.referralWarning <==> code.Some? && lookup(code.value).NoReferrer?)
    ensures r.Registered? <==> !r.Rejected? && signUp(r.request).SignUpOk?
  {
    var check := CheckPasswords(f.password, f.confirmPassword);
    if check != PasswordOk then Rejected(check)
    else
      var code := LookupCode(f);
      var found := if code.Some? then lookup(code.value) else NoReferrer;
      var referredBy := if found.Referrer? then Some(found.id) else None;
      var request := SignUpRequest(f.email, f.password, f.fullName, referredBy);
      var warning := code.Some? && found.NoReferrer?;
      match signUp(request)
      case SignUpOk => Registered(request, warning)
      case SignUpError(m) => Failed(request, if Filled(m) then m.value else "No se pudo crear la cuenta", warning)
  }

  /** The referral code is case-insensitive: typing it in any case finds the same referrer. */
  lemma ReferralCodeCaseInsensitive(f: RegisterForm, lookup: string -> ReferralLookup, signUp: SignUpRequest -> SignUpResult)
    requires CheckPasswords(f.password, f.confirmPassword) == PasswordOk
    ensures HandleRegister(f.(referralCode := Lower(f.referralCode)), lookup, signUp).request.referredBy
            == HandleRegister(f, lookup, signUp).request.referredBy
  {
    UpperOfLower(f.referralCode);
  }
}
