/** The request-body rules of the auth service's routes (`authSchema`). Each
    field has a chain of sanitizers and validators; every validator of every
    chain runs, and each one that fails records its message, in field order
    and then chain order. A missing field reads as the empty string, and the
    `trim` sanitizer applies before the validators that follow it. The
    library predicates `isEmail` and `isNumeric` are parameters. */
module Rules {
  import opened Wrappers
  import opened Text
  import Numbers
  import Otp

  /** One validator of a chain: whether it passed, and the message it records if not. */
  datatype Check = Check(ok: bool, message: string)

  /** The messages the failing validators record, in chain order. The first
      one is the message of the first validator that fails. */
  function Failures(checks: seq<Check>): (r: seq<string>)
    ensures |r| <= |checks|
    ensures r == [] <==> forall c :: c in checks ==> c.ok
    ensures r != [] ==> exists i :: 0 <= i < |checks| && !checks[i].ok && r[0] == checks[i].message &&
                                    forall j :: 0 <= j < i ==> checks[j].ok
  {
    if checks == [] then []
    else
      var rest := Failures(checks[1..]);
      assert forall c :: c in checks <==> c == checks[0] || c in checks[1..];
      if checks[0].ok then rest else [checks[0].message] + rest
  }

  /** A field's value as the validators see it: `undefined` becomes ''. */
  function Field(value: Option<string>): string {
    value.GetOr("")
  }

  /** The default message of a validator without `withMessage`. */
  const INVALID_VALUE := "Invalid value"

  const FIRST_NAME_REQUIRED := "First name is required"
  const LAST_NAME_REQUIRED := "Last name is required"
  const NAME_LENGTH := "Must be 2-32 characters"
  const EMAIL_REQUIRED := "Email is required"
  const EMAIL_INVALID := "Please enter a valid email"
  const PASSWORD_REQUIRED := "Password is required"
  const PASSWORD_SHORT := "Must be at least 8 characters"
  const PASSWORD_WEAK := "Must contain uppercase, lowercase, number, and special character"
  const CONFIRM_REQUIRED := "Please confirm your password"
  const PASSWORDS_DIFFER := "Passwords do not match"
  const OTP_REQUIRED := "Verification code is required"
  const OTP_NOT_NUMERIC := "Code must be numeric"
  const OTP_LENGTH := "Must be 6 digits"
  const TOKEN_REQUIRED := "Session token is required"
  const CURRENT_PASSWORD_REQUIRED := "Current password is required"
  const NEW_PASSWORD_REQUIRED := "New password is required"
  const SAME_PASSWORD := "New password must be different from current"
  const CONFIRM_NEW_REQUIRED := "Please confirm your new password"
  const NEW_EMAIL_REQUIRED := "New email is required"
  const CONFIRM_EMAIL_REQUIRED := "Please confirm your email"
  const EMAILS_DIFFER := "Emails do not match"
  const SAME_EMAIL := "New email must be different from current email"
  const PASSWORD_FOR_VERIFICATION := "Password is required for verification"
  const REGION_TOO_LONG := "Region cannot exceed 100 characters"
  const LANGUAGE_TOO_LONG := "Language cannot exceed 50 characters"
  const CURRENCY_TOO_LONG := "Currency code cannot exceed 10 characters"
  const CURRENCY_NOT_UPPER := "Currency code must be in uppercase"
  const FIRST_NAME_TOO_LONG := "First name max length is 50 characters"
  const LAST_NAME_TOO_LONG := "Last name max length is 50 characters"
  const GENDER_INVALID := "Gender must be one of male, female, other, prefer-not-to-say"
  const MATERIALS_TOO_MANY := "favoriteMaterials must be an array with maximum 13 items"
  const REASON_REQUIRED := "Please select a reason"
  const DESCRIPTION_TOO_LONG := "Description cannot exceed 500 characters"

  const GENDERS := ["male", "female", "other", "prefer-not-to-say"]

  /** The "capitalise" callback of the name chains: the first character upper
      case, the rest lower case. It is used as a validator, so its result
      only decides pass (non-empty) or fail; the field keeps its value. */
  function Capitalize(v: string): (r: string)
    ensures |r| == |v|
    ensures v != [] ==> r[0] == UpperChar(v[0]) && forall i :: 1 <= i < |v| ==> r[i] == LowerChar(v[i])
  {
    if v == [] then [] else Upper(v[..1]) + Lower(v[1..])
  }

  predicate NameFits(value: Option<string>) {
    2 <= |Trim(Field(value))| <= 32
  }

  /** The `firstName` / `lastName` chain of sign-up: trimmed, required, 2 to
      32 characters, then the capitalise callback, which fails only on an
      empty value and so never adds a reason of its own. */
  function NameErrors(value: Option<string>, required: string): (r: seq<string>)
    ensures r == [] <==> NameFits(value)
    ensures Trim(Field(value)) == "" ==> r[0] == required
  {
    var v := Trim(Field(value));
    Failures([Check(v != "", required), Check(2 <= |v| <= 32, NAME_LENGTH),
              Check(Capitalize(v) != "", INVALID_VALUE)])
  }

  /** An e-mail chain: trimmed, required, `isEmail`. */
  function EmailErrors(value: Option<string>, required: string, isEmail: string -> bool): (r: seq<string>)
    ensures r == [] <==> Trim(Field(value)) != "" && isEmail(Trim(Field(value)))
    ensures Trim(Field(value)) == "" ==> r[0] == required
  {
    var v := Trim(Field(value));
    Failures([Check(v != "", required), Check(isEmail(v), EMAIL_INVALID)])
  }

  predicate IsLineTerminator(c: char) {
    c == '\n' || c == '\r' || c == '\U{2028}' || c == '\U{2029}'
  }

  /** The strength pattern: at least eight characters, none of them a line
      terminator (the pattern's `.` does not match one), with an ASCII upper
      case letter, an ASCII lower case letter, an ASCII digit, and a character
      that is not an ASCII letter or digit (a non-word character or `_`). */
  predicate StrongPassword(s: string) {
    |s| >= 8 &&
    (forall i :: 0 <= i < |s| ==> !IsLineTerminator(s[i])) &&
    (exists i :: 0 <= i < |s| && IsAsciiUpper(s[i])) &&
    (exists i :: 0 <= i < |s| && IsAsciiLower(s[i])) &&
    (exists i :: 0 <= i < |s| && IsDigit(s[i])) &&
    (exists i :: 0 <= i < |s| && !IsAsciiUpper(s[i]) && !IsAsciiLower(s[i]) && !IsDigit(s[i]))
  }

  /** The validators of a password chain: required, at least 8 characters, the strength pattern. */
  function PasswordChecks(value: Option<string>, required: string): seq<Check> {
    var v := Field(value);
    [Check(v != "", required), Check(|v| >= 8, PASSWORD_SHORT), Check(StrongPassword(v), PASSWORD_WEAK)]
  }

  /** A password chain passes exactly on a strong password; a missing one is
      reported as required. */
  function PasswordErrors(value: Option<string>, required: string): (r: seq<string>)
    ensures r == [] <==> StrongPassword(Field(value))
    ensures Field(value) == "" ==> r[0] == required
  {
    Failures(PasswordChecks(value, required))
  }

  // ---------------------------------------------------------------- sign-up

  datatype SignupForm = SignupForm(firstName: Option<string>, lastName: Option<string>, email: Option<string>,
                                   password: Option<string>, passwordConfirm: Option<string>)

  /** `authSchema.signup`. A body passes exactly when both names are 2 to 32
      characters once trimmed, the trimmed e-mail is a non-empty address, the
      password is strong and the confirmation is the same value; an empty
      first name is the first thing reported. */
  function SignupErrors(f: SignupForm, isEmail: string -> bool): (r: seq<string>)
    ensures r == [] <==>
              NameFits(f.firstName) && NameFits(f.lastName) &&
              Trim(Field(f.email)) != "" && isEmail(Trim(Field(f.email))) &&
              StrongPassword(Field(f.password)) && f.passwordConfirm == f.password
    ensures Trim(Field(f.firstName)) == "" ==> r[0] == FIRST_NAME_REQUIRED
  {
    NameErrors(f.firstName, FIRST_NAME_REQUIRED) +
    NameErrors(f.lastName, LAST_NAME_REQUIRED) +
    EmailErrors(f.email, EMAIL_REQUIRED, isEmail) +
    PasswordErrors(f.password, PASSWORD_REQUIRED) +
    Failures([Check(Field(f.passwordConfirm) != "", CONFIRM_REQUIRED),
              Check(f.passwordConfirm == f.password, PASSWORDS_DIFFER)])
  }

  // ------------------------------------------------------- e-mail verification

  /** `authSchema.verifyEmail`: a non-empty numeric code of exactly six
      characters and a non-empty token. */
  function VerifyEmailErrors(otp: Option<string>, token: Option<string>, isNumeric: string -> bool)
    : (r: seq<string>)
    ensures r == [] <==> |Field(otp)| == 6 && isNumeric(Field(otp)) && Field(token) != ""
    ensures Field(otp) == "" ==> r[0] == OTP_REQUIRED
  {
    var code := Field(otp);
    Failures([Check(code != "", OTP_REQUIRED), Check(isNumeric(code), OTP_NOT_NUMERIC),
              Check(|code| == 6, OTP_LENGTH)]) +
    Failures([Check(Field(token) != "", TOKEN_REQUIRED)])
  }

  /** Every code the service mails passes the code rule, given that the
      library counts its decimal form as numeric. */
  lemma IssuedCodeAccepted(code: nat, token: string, isNumeric: string -> bool)
    requires Otp.OTP_MIN <= code < Otp.OTP_MAX
    requires isNumeric(Numbers.DecimalString(code)) && token != ""
    ensures VerifyEmailErrors(Some(Numbers.DecimalString(code)), Some(token), isNumeric) == []
  {
    Otp.CodeIsSixDigits(code);
  }

  // ---------------------------------------------------------------- sign-in

  datatype SigninForm = SigninForm(email: Option<string>, password: Option<string>, remember: Option<string>)

  /** `authSchema.signin`: a non-empty valid e-mail and a non-empty password;
      `remember` is never an error. */
  function SigninErrors(f: SigninForm, isEmail: string -> bool): (r: seq<string>)
    ensures r == [] <==> Trim(Field(f.email)) != "" && isEmail(Trim(Field(f.email))) && Field(f.password) != ""
    ensures Trim(Field(f.email)) == "" ==> r[0] == EMAIL_REQUIRED
  {
    EmailErrors(f.email, EMAIL_REQUIRED, isEmail) +
    Failures([Check(Field(f.password) != "", PASSWORD_REQUIRED)])
  }

  /** The loose `toBoolean` sanitizer on the string form of a value. */
  function ToBoolean(s: string): bool {
    s != "0" && Lower(s) != "false" && s != ""
  }

  /** `remember`: optional, and coerced to a boolean when present. A JSON
      boolean keeps its value, and so do the strings a form would send. */
  function SigninRemember(f: SigninForm): (r: Option<bool>)
    ensures r.None? <==> f.remember.None?
    ensures f.remember == Some("true") ==> r == Some(true)
    ensures (f.remember == Some("false") || f.remember == Some("FALSE") || f.remember == Some("0") ||
             f.remember == Some("")) ==> r == Some(false)
    ensures f.remember.Some? ==>
              (r == Some(false) <==> f.remember.value == "" || f.remember.value == "0" || Lower(f.remember.value) == "false")
    ensures f.remember.Some? ==> r.Some?
  {
    match f.remember
    case None => None
    case Some(s) =>
      assert Lower("true") == "true";
      assert Lower("false") == "false" && Lower("FALSE") == "false";
      Some(ToBoolean(s))
  }

  // ------------------------------------------------------- password change

  datatype PasswordChange = PasswordChange(currentPassword: Option<string>, newPassword: Option<string>,
                                           confirmNewPassword: Option<string>)

  /** `authSchema.updatePassword`: the current password is given, the new one
      is strong and differs from it, and the confirmation repeats it. */
  function UpdatePasswordErrors(f: PasswordChange): (r: seq<string>)
    ensures r == [] <==>
              Field(f.currentPassword) != "" && StrongPassword(Field(f.newPassword)) &&
              f.newPassword != f.currentPassword && f.confirmNewPassword == f.newPassword
    ensures Field(f.currentPassword) == "" ==> r[0] == CURRENT_PASSWORD_REQUIRED
  {
    Failures([Check(Field(f.currentPassword) != "", CURRENT_PASSWORD_REQUIRED)]) +
    Failures(PasswordChecks(f.newPassword, NEW_PASSWORD_REQUIRED) +
             [Check(f.newPassword != f.currentPassword, SAME_PASSWORD)]) +
    Failures([Check(Field(f.confirmNewPassword) != "", CONFIRM_NEW_REQUIRED),
              Check(f.confirmNewPassword == f.newPassword, PASSWORDS_DIFFER)])
  }

  // --------------------------------------------------------- e-mail change

  datatype EmailChange = EmailChange(newEmail: Option<string>, confirmEmail: Option<string>, password: Option<string>)

  /** `authSchema.updateEmail` for a signed-in user whose address is
      `currentEmail` (`req.self?.email`). Both addresses are compared after
      trimming, because the `newEmail` chain has already trimmed its field. */
  function UpdateEmailErrors(f: EmailChange, currentEmail: Option<string>, isEmail: string -> bool)
    : (r: seq<string>)
    ensures r == [] <==>
              var n := Trim(Field(f.newEmail));
              n != "" && isEmail(n) && Trim(Field(f.confirmEmail)) == n && currentEmail != Some(n) &&
              Field(f.password) != ""
  {
    var n := Trim(Field(f.newEmail));
    var c := Trim(Field(f.confirmEmail));
    EmailErrors(f.newEmail, NEW_EMAIL_REQUIRED, isEmail) +
    Failures([Check(c != "", CONFIRM_EMAIL_REQUIRED), Check(isEmail(c), EMAIL_INVALID),
              Check(c == n, EMAILS_DIFFER), Check(currentEmail != Some(c), SAME_EMAIL)]) +
    Failures([Check(Field(f.password) != "", PASSWORD_FOR_VERIFICATION)])
  }

  // ------------------------------------------------------------- settings

  datatype SettingsForm = SettingsForm(region: Option<string>, language: Option<string>, currency: Option<string>)

  /** An optional chain: skipped when the field is absent. */
  function Optional(value: Option<string>, checks: seq<Check>): (r: seq<string>)
    ensures value.None? ==> r == []
    ensures value.Some? ==> r == Failures(checks)
  {
    if value.None? then [] else Failures(checks)
  }

  /** The location strings of `authSchema.updateSettings`: at most 100 and 50
      characters once trimmed, and a currency code of at most 10 characters
      that is all upper case. */
  function SettingsErrors(f: SettingsForm): (r: seq<string>)
    ensures r == [] <==>
              (f.region.Some? ==> |Trim(f.region.value)| <= 100) &&
              (f.language.Some? ==> |Trim(f.language.value)| <= 50) &&
              (f.currency.Some? ==> |Trim(f.currency.value)| <= 10 &&
                                    Upper(Trim(f.currency.value)) == Trim(f.currency.value))
  {
    var region := Trim(Field(f.region));
    var language := Trim(Field(f.language));
    var currency := Trim(Field(f.currency));
    Optional(f.region, [Check(|region| <= 100, REGION_TOO_LONG)]) +
    Optional(f.language, [Check(|language| <= 50, LANGUAGE_TOO_LONG)]) +
    Optional(f.currency, [Check(|currency| <= 10, CURRENCY_TOO_LONG),
                          Check(Upper(currency) == currency, CURRENCY_NOT_UPPER)])
  }

  // -------------------------------------------------------------- profile

  datatype ProfileForm = ProfileForm(firstName: Option<string>, lastName: Option<string>, gender: Option<string>,
                                     favoriteMaterials: Option<seq<string>>)

  /** `authSchema.profile`: names of at most 50 characters once trimmed, a
      gender from the four values, and at most 13 favourite materials. */
  function ProfileErrors(f: ProfileForm): (r: seq<string>)
    ensures r == [] <==>
              (f.firstName.Some? ==> |Trim(f.firstName.value)| <= 50) &&
              (f.lastName.Some? ==> |Trim(f.lastName.value)| <= 50) &&
              (f.gender.Some? ==> f.gender.value in GENDERS) &&
              (f.favoriteMaterials.Some? ==> |f.favoriteMaterials.value| <= 13)
  {
    Optional(f.firstName, [Check(|Trim(Field(f.firstName))| <= 50, FIRST_NAME_TOO_LONG)]) +
    Optional(f.lastName, [Check(|Trim(Field(f.lastName))| <= 50, LAST_NAME_TOO_LONG)]) +
    Optional(f.gender, [Check(Field(f.gender) in GENDERS, GENDER_INVALID)]) +
    (match f.favoriteMaterials
     case None => []
     case Some(items) => Failures([Check(|items| <= 13, MATERIALS_TOO_MANY)]))
  }

  // ------------------------------------------------------------- feedback

  datatype FeedbackForm = FeedbackForm(reason: Option<string>, subreason: Option<string>, description: Option<string>)

  /** `authSchema.feedback`: a reason that is not blank, and a description of
      at most 500 characters once trimmed. */
  function FeedbackErrors(f: FeedbackForm): (r: seq<string>)
    ensures r == [] <==>
              Trim(Field(f.reason)) != "" && (f.description.Some? ==> |Trim(f.description.value)| <= 500)
  {
    Failures([Check(Trim(Field(f.reason)) != "", REASON_REQUIRED)]) +
    Optional(f.description, [Check(|Trim(Field(f.description))| <= 500, DESCRIPTION_TOO_LONG)])
  }
}
