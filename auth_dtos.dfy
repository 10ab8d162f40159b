/**
 * The request bodies of the authentication routes and the class-validator
 * rules they carry. A body that breaks a rule is refused with 400 before any
 * flow runs; each `...Valid` predicate is the conjunction of a body's rules.
 */
module AuthDtos {
  import opened Wrappers
  import opened Text
  import opened ObjectIds
  import opened Tokens

  /** `RegisterDTO`; `role_id` has no rule, and the service replaces it when it is called directly. */
  datatype RegisterDto = RegisterDto(
    firstName: string,
    lastName: string,
    email: string,
    password: string,
    phoneNumber: string,
    city: string,
    cinNumber: string,
    roleId: Option<ObjectId>)

  /** `LoginDTO`; `remember_me` has no rule, so the route refuses it and only a direct call of the service can pass it. */
  datatype LoginDto = LoginDto(email: string, password: string, rememberMe: Option<bool>)

  /** `VerifyDeviceDto`. */
  datatype VerifyDeviceDto = VerifyDeviceDto(otpCode: string, rememberMe: Option<bool>)

  /** `ResendOtpCodeDto`. */
  datatype ResendOtpCodeDto = ResendOtpCodeDto(userId: string)

  /** `ResetPasswordDto`: the e-mail a reset is requested for. */
  datatype ResetPasswordDto = ResetPasswordDto(email: string)

  /** `ResetPasswordPasswordDto`: the new password, twice. */
  datatype ResetPasswordPasswordDto = ResetPasswordPasswordDto(password: string, confirmPassword: string)

  const InvalidPhoneNumberMessage := "Invalid phone number format"
  const InvalidCinNumberMessage := "Invalid CIN number format"
  const OtpLengthMessage := "OTP code must be exactly 6 characters long"
  const OtpDigitsMessage := "OTP code must contain only numbers"
  const PasswordMismatchMessage := "Password and confirm password do not match"

  /** `@IsNotEmpty()` on a string. */
  predicate IsNotEmpty(s: string) { s != "" }

  /** `@MinLength(n)`. */
  predicate MinLength(s: string, n: nat) { |s| >= n }

  predicate IsUpper(c: char) { 'A' <= c <= 'Z' }

  predicate IsLetter(c: char) { 'a' <= c <= 'z' || 'A' <= c <= 'Z' }

  predicate IsAlphanumeric(c: char) { IsLetter(c) || IsDigit(c) }

  /** The part before the last '@': at most 64 characters, no blanks. */
  predicate LocalPartOk(l: string) {
    1 <= |l| <= 64 && forall i | 0 <= i < |l| :: l[i] != ' '
  }

  /** A domain label: letters, digits and inner hyphens. */
  predicate LabelOk(l: string) {
    && l != ""
    && (forall i | 0 <= i < |l| :: IsAlphanumeric(l[i]) || l[i] == '-')
    && l[0] != '-' && l[|l| - 1] != '-'
  }

  /** A fully qualified domain: at least two labels, the last one of two or more letters. */
  predicate DomainOk(d: string) {
    var labels := Split(d, '.');
    && |labels| >= 2
    && (forall i | 0 <= i < |labels| :: LabelOk(labels[i]))
    && TopLevelDomainOk(labels[|labels| - 1])
  }

  /** The last label: two or more letters. */
  predicate TopLevelDomainOk(t: string) {
    |t| >= 2 && forall i | 0 <= i < |t| :: IsLetter(t[i])
  }

  /** `@IsEmail()` with its default options: split at the last '@', a local part and a qualified domain. */
  predicate IsEmail(s: string) {
    exists k | 0 <= k < |s| :: s[k] == '@' && '@' !in s[k + 1..] && LocalPartOk(s[..k]) && DomainOk(s[k + 1..])
  }

  /** `[5-7]\d{8}`: the national number after the prefix. */
  predicate NationalNumber(t: string) {
    |t| == 9 && '5' <= t[0] <= '7' && AllDigits(t[1..])
  }

  /** `^(?:\+212|0)([5-7]\d{8})$`. */
  predicate PhoneNumberPattern(s: string) {
    || (StartsWith(s, "0") && NationalNumber(s[1..]))
    || (StartsWith(s, "+212") && NationalNumber(s[4..]))
  }

  /** `^[A-Z]{2,3}\d{5,6}$`. */
  predicate CinNumberPattern(s: string) {
    exists k | 2 <= k <= 3 ::
      && k <= |s|
      && (forall i | 0 <= i < k :: IsUpper(s[i]))
      && 5 <= |s| - k <= 6
      && AllDigits(s[k..])
  }

  predicate NameValid(s: string) { IsNotEmpty(s) && MinLength(s, 3) }

  predicate EmailValid(s: string) { IsNotEmpty(s) && IsEmail(s) }

  predicate PasswordValid(s: string) { IsNotEmpty(s) && MinLength(s, 8) }

  predicate PhoneNumberValid(s: string) {
    IsNotEmpty(s) && MinLength(s, 10) && |s| <= 15 && PhoneNumberPattern(s)
  }

  predicate CinNumberValid(s: string) { IsNotEmpty(s) && CinNumberPattern(s) }

  /** `@Length(6, 6)` and `@Matches(/^\d+$/)`. */
  predicate OtpCodeValid(s: string) { IsNotEmpty(s) && |s| == 6 && AllDigits(s) }

  /**
   * The register route's pipe forbids properties without a decorator, so a
   * body carrying `role_id` is refused along with every broken rule.
   */
  predicate RegisterDtoValid(d: RegisterDto) {
    && d.roleId.None?
    && NameValid(d.firstName)
    && NameValid(d.lastName)
    && EmailValid(d.email)
    && PasswordValid(d.password)
    && PhoneNumberValid(d.phoneNumber)
    && IsNotEmpty(d.city)
    && CinNumberValid(d.cinNumber)
  }

  /** The login route's pipe forbids properties without a decorator, so a body carrying `remember_me` is refused. */
  predicate LoginDtoValid(d: LoginDto) {
    d.rememberMe.None? && EmailValid(d.email) && PasswordValid(d.password)
  }

  /** `@IsBoolean()` demands that `rememberMe` is present. */
  predicate VerifyDeviceDtoValid(d: VerifyDeviceDto) {
    OtpCodeValid(d.otpCode) && d.rememberMe.Some?
  }

  predicate ResendOtpCodeDtoValid(d: ResendOtpCodeDto) { IsNotEmpty(d.userId) }

  /** `@IsMatch('password')` on `confirmPassword`. */
  predicate ResetPasswordPasswordDtoValid(d: ResetPasswordPasswordDto) {
    PasswordValid(d.password) && IsNotEmpty(d.confirmPassword) && d.confirmPassword == d.password
  }

  /** The message the reset body is refused with when the two passwords differ, if they do. */
  function ConfirmPasswordError(d: ResetPasswordPasswordDto): (m: Option<string>)
    ensures m.None? <==> d.confirmPassword == d.password
    ensures m.Some? ==> m.value == PasswordMismatchMessage
  {
    if d.confirmPassword == d.password then None else Some(PasswordMismatchMessage)
  }

  /** A phone number that matches the pattern is a local (10) or international (13 characters) one. */
  lemma PhoneNumberLengths(s: string)
    requires PhoneNumberPattern(s)
    ensures |s| == 10 || |s| == 13
    ensures s[|s| - 9] in {'5', '6', '7'}
  {
  }

  /** The pattern alone decides the phone field: it implies the length bounds and non-emptiness. */
  lemma PhoneNumberValidIffPattern(s: string)
    ensures PhoneNumberValid(s) <==> PhoneNumberPattern(s)
  {
    if PhoneNumberPattern(s) {
      PhoneNumberLengths(s);
    }
  }

  /** Every national number can be written both ways. */
  lemma BothPhonePrefixesAccepted(t: string)
    requires NationalNumber(t)
    ensures PhoneNumberValid("0" + t) && PhoneNumberValid("+212" + t)
  {
    var local := "0" + t;
    var intl := "+212" + t;
    assert local[..1] == "0" && local[1..] == t;
    assert intl[..4] == "+212" && intl[4..] == t;
  }

  /** A CIN number has seven to nine characters. */
  lemma CinNumberLengths(s: string)
    requires CinNumberPattern(s)
    ensures 7 <= |s| <= 9
    ensures IsUpper(s[0]) && IsUpper(s[1]) && IsDigit(s[|s| - 1])
  {
    var k :| 2 <= k <= 3 && k <= |s| && (forall i | 0 <= i < k :: IsUpper(s[i])) && 5 <= |s| - k <= 6 && AllDigits(s[k..]);
    assert s[k..][|s| - k - 1] == s[|s| - 1];
  }

  /** Every code the OTP generator issues passes the OTP-code rules. */
  lemma IssuedOtpPassesValidator(otp: Otp)
    ensures OtpCodeValid(DecimalString(otp))
  {
    assert Pow10(5) == 100000 && Pow10(6) == 1000000;
    DecimalLength(otp, 5);
  }

  /** The body a user sends back with the code the generator issued passes validation exactly when it says whether to remember the device. */
  lemma IssuedCodeBodyValid(otp: Otp, rememberMe: Option<bool>)
    ensures VerifyDeviceDtoValid(VerifyDeviceDto(DecimalString(otp), rememberMe)) <==> rememberMe.Some?
  {
    IssuedOtpPassesValidator(otp);
  }

  /** A well-formed code starting with '0' is never one the generator issued. */
  lemma LeadingZeroCodeNeverIssued(code: string, otp: Otp)
    requires OtpCodeValid(code) && code[0] == '0'
    ensures code != DecimalString(otp)
  {
    DecimalNoLeadingZero(otp);
  }

  /** The reset body is valid exactly when the password is and the confirmation repeats it. */
  lemma ResetPasswordBodyValid(d: ResetPasswordPasswordDto)
    ensures ResetPasswordPasswordDtoValid(d) <==> PasswordValid(d.password) && ConfirmPasswordError(d).None?
  {
  }
}
