/** The `validateForm` checks of the login, sign-up, change-password and
    edit-profile screens, and what each screen dispatches once its form is valid.

    Each check fills an errors dictionary field by field, with at most one entry per
    field, and the form is valid when the dictionary is empty. An entry holds the
    translation key of its message; the translation itself is not modelled. The field
    rules are functions shared by the screens that apply the same rule. */
module Forms {
  import opened Wrappers
  import opened Text
  import opened Patterns
  import opened Users
  import AuthService

  /** The form fields a rule can report on; `FieldName` is the key of its entry in the
      errors object. */
  datatype Field = Name | Email | Password | ConfirmPassword | AgreeToTerms | CurrentPassword | NewPassword

  function FieldName(f: Field): string {
    match f
    case Name => "name"
    case Email => "email"
    case Password => "password"
    case ConfirmPassword => "confirmPassword"
    case AgreeToTerms => "agreeToTerms"
    case CurrentPassword => "currentPassword"
    case NewPassword => "newPassword"
  }

  type Errors = map<Field, Message>

  /** The entry for a field, if any. */
  function Entry(errors: Errors, field: Field): Option<Message> {
    if field in errors then Some(errors[field]) else None
  }

  /** `newErrors[field] = message` when the field's rule gives a message. */
  function Put(errors: Errors, field: Field, e: Option<Message>): (r: Errors)
    ensures Entry(r, field) == (if e.Some? then e else Entry(errors, field))
    ensures forall k {:trigger Entry(r, k)} :: k != field ==> Entry(r, k) == Entry(errors, k)
    ensures r.Keys == if e.Some? then errors.Keys + {field} else errors.Keys
  {
    if e.Some? then errors[field := e.value] else errors
  }

  /** A dictionary whose keys lie among some fields is empty exactly when none of
      those fields has an entry. */
  lemma EmptyIffNoEntries(errors: Errors, fields: set<Field>)
    requires errors.Keys <= fields
    ensures errors == map[] <==> forall k :: k in fields ==> Entry(errors, k).None?
    ensures |errors| == 0 <==> errors == map[]
  {
    if errors != map[] {
      var k :| k in errors;
      assert Entry(errors, k).Some?;
    }
  }

  /** The messages a rule can set; each is shown through its translation key. */
  datatype Message =
    | EmailRequired
    | EmailInvalid
    | PasswordRequired
    | PasswordTooShort
    | PasswordWeak
    | NameRequired
    | NameTooShort
    | ConfirmRequired
    | PasswordMismatch
    | TermsRequired
    | CurrentPasswordRequired
    | NewPasswordRequired
    | FieldRequired
    | FieldEmail

  /** The translation key the screen passes to `t()` for a message. */
  function TranslationKey(m: Message): string {
    match m
    case EmailRequired => "auth.errors.emailRequired"
    case EmailInvalid => "auth.errors.emailInvalid"
    case PasswordRequired => "auth.errors.passwordRequired"
    case PasswordTooShort => "auth.errors.passwordTooShort"
    case PasswordWeak => "auth.errors.passwordWeak"
    case NameRequired => "auth.errors.nameRequired"
    case NameTooShort => "auth.errors.nameTooShort"
    case ConfirmRequired => "auth.errors.confirmPasswordRequired"
    case PasswordMismatch => "auth.errors.passwordMismatch"
    case TermsRequired => "auth.errors.termsRequired"
    case CurrentPasswordRequired => "auth.errors.currentPasswordRequired"
    case NewPasswordRequired => "auth.errors.newPasswordRequired"
    case FieldRequired => "errors.validation.required"
    case FieldEmail => "errors.validation.email"
  }

  /** The e-mail rule of the login and sign-up screens: required, then the pattern. */
  function EmailError(email: string): (r: Option<Message>)
    ensures r == Some(EmailRequired) <==> email == ""
    ensures r == Some(EmailInvalid) <==> email != "" && !EmailRegexTest(email)
    ensures r.None? <==> email != "" && EmailRegexTest(email)
  {
    EmailTestCorrect(email);
    if email == "" then Some(EmailRequired)
    else if !LooksLikeEmail(email) then Some(EmailInvalid)
    else None
  }

  /** The login screen's password rule: required, then at least six characters. */
  function LoginPasswordError(password: string): (r: Option<Message>)
    ensures r == Some(PasswordRequired) <==> password == ""
    ensures r == Some(PasswordTooShort) <==> 0 < |password| < 6
    ensures r.None? <==> |password| >= 6
  {
    if password == "" then Some(PasswordRequired)
    else if |password| < 6 then Some(PasswordTooShort)
    else None
  }

  /** The strength rule of the sign-up and change-password screens: required (under
      the screen's own key), then at least eight characters, then the look-aheads. */
  function StrongPasswordError(password: string, requiredKey: Message): (r: Option<Message>)
    requires requiredKey != PasswordTooShort && requiredKey != PasswordWeak
    ensures r == Some(requiredKey) <==> password == ""
    ensures r == Some(PasswordTooShort) <==> 0 < |password| < 8
    ensures r == Some(PasswordWeak) <==> |password| >= 8 && !StrongPassword(password)
    ensures r.None? <==> |password| >= 8 && StrongPassword(password)
  {
    if password == "" then Some(requiredKey)
    else if |password| < 8 then Some(PasswordTooShort)
    else if !StrongPassword(password) then Some(PasswordWeak)
    else None
  }

  /** The confirmation rule: required, then equal to the password. */
  function ConfirmError(password: string, confirm: string): (r: Option<Message>)
    ensures r == Some(ConfirmRequired) <==> confirm == ""
    ensures r == Some(PasswordMismatch) <==> confirm != "" && confirm != password
    ensures r.None? <==> confirm != "" && confirm == password
  {
    if confirm == "" then Some(ConfirmRequired)
    else if password != confirm then Some(PasswordMismatch)
    else None
  }

  /** The sign-up name rule: the trimmed name is required and has at least two characters. */
  function NameError(name: string): (r: Option<Message>)
    ensures r == Some(NameRequired) <==> forall k :: 0 <= k < |name| ==> IsSpace(name[k])
    ensures r == Some(NameTooShort) <==> |Trim(name)| == 1
    ensures r.None? <==> |Trim(name)| >= 2
  {
    TrimEmptyIffAllSpace(name);
    if Trim(name) == "" then Some(NameRequired)
    else if |Trim(name)| < 2 then Some(NameTooShort)
    else None
  }

  /** A valid sign-up or new password has a lower-case letter, an upper-case letter
      and a digit, and at least eight characters, so it also passes the login rule. */
  lemma StrongPasswordContents(password: string, requiredKey: Message)
    requires requiredKey != PasswordTooShort && requiredKey != PasswordWeak
    requires StrongPasswordError(password, requiredKey).None?
    ensures Contains(password, Lower) && Contains(password, Upper) && Contains(password, Digit)
    ensures LoginPasswordError(password).None?
  {
    StrongImpliesClasses(password);
  }

  // ---- Login screen

  datatype LoginForm = LoginForm(email: string, password: string, rememberMe: bool)

  /** `validateForm` of the login screen. */
  method ValidateLogin(f: LoginForm) returns (errors: Errors, valid: bool)
    ensures errors.Keys <= {Email, Password}
    ensures Entry(errors, Email) == EmailError(f.email)
    ensures Entry(errors, Password) == LoginPasswordError(f.password)
    ensures valid <==> errors == map[]
    ensures valid <==> f.email != "" && EmailRegexTest(f.email) && |f.password| >= 6
  {
    var email, password := EmailError(f.email), LoginPasswordError(f.password);
    errors := map[];
    errors := Put(errors, Email, email);
    errors := Put(errors, Password, password);
    TwoEntries(Email, email, Password, password);
    EmptyIffNoEntries(errors, {Email, Password});
    valid := |errors| == 0;
  }


  /** `handleLogin`: nothing is dispatched for an invalid form; otherwise the payload
      carries the e-mail under `key` and fixed role, device and type, and never the
      form's `rememberMe`. */
  method HandleLogin(f: LoginForm) returns (dispatched: Option<AuthService.LoginCredentials>)
    ensures dispatched.Some? <==> EmailError(f.email).None? && LoginPasswordError(f.password).None?
    ensures dispatched.Some? ==>
      dispatched.value.fields.Keys == {"password", "key", "role", "deviceType", "type"}
      && dispatched.value.fields["password"] == f.password && dispatched.value.fields["key"] == f.email
      && dispatched.value.fields["role"] == "F" && dispatched.value.fields["deviceType"] == "IOS"
      && dispatched.value.fields["type"] == "EMAIL"
      && !dispatched.value.rememberMe
  {
    var errors, valid := ValidateLogin(f);
    if !valid {
      return None;
    }
    var payload: map<string, string> := map[];
    payload := payload["password" := f.password];
    payload := payload["key" := f.email];
    payload := payload["role" := "F"];
    payload := payload["deviceType" := "IOS"];
    payload := payload["type" := "EMAIL"];
    dispatched := Some(AuthService.LoginCredentials(payload, false));
  }

  // ---- Sign-up screen

  datatype SignupForm = SignupForm(name: string, email: string, password: string, confirmPassword: string,
                                   agreeToTerms: bool)

  /** Two and three distinct fields written in turn each end with their own entry. */
  lemma TwoEntries(f1: Field, a: Option<Message>, f2: Field, b: Option<Message>)
    requires f1 != f2
    ensures var r := Put(Put(map[], f1, a), f2, b);
            r.Keys <= {f1, f2} && Entry(r, f1) == a && Entry(r, f2) == b
  {
  }

  lemma ThreeEntries(f1: Field, a: Option<Message>, f2: Field, b: Option<Message>, f3: Field, c: Option<Message>)
    requires f1 != f2 && f1 != f3 && f2 != f3
    ensures var r := Put(Put(Put(map[], f1, a), f2, b), f3, c);
            r.Keys <= {f1, f2, f3} && Entry(r, f1) == a && Entry(r, f2) == b && Entry(r, f3) == c
  {
  }

  /** The sign-up screen's five rules written in turn: each field ends with its own
      rule's entry, whatever the rules are. */
  lemma FiveEntries(name: Option<Message>, email: Option<Message>, password: Option<Message>,
                    confirm: Option<Message>, terms: Option<Message>)
    ensures var r := Put(Put(Put(Put(Put(map[], Name, name), Email, email), Password, password),
                             ConfirmPassword, confirm), AgreeToTerms, terms);
            r.Keys <= {Name, Email, Password, ConfirmPassword, AgreeToTerms}
            && Entry(r, Name) == name && Entry(r, Email) == email && Entry(r, Password) == password
            && Entry(r, ConfirmPassword) == confirm && Entry(r, AgreeToTerms) == terms
  {
  }

  /** `validateForm` of the sign-up screen. */
  method ValidateSignup(f: SignupForm) returns (errors: Errors, valid: bool)
    ensures errors.Keys <= {Name, Email, Password, ConfirmPassword, AgreeToTerms}
    ensures Entry(errors, Name) == NameError(f.name)
    ensures Entry(errors, Email) == EmailError(f.email)
    ensures Entry(errors, Password) == StrongPasswordError(f.password, PasswordRequired)
    ensures Entry(errors, ConfirmPassword) == ConfirmError(f.password, f.confirmPassword)
    ensures Entry(errors, AgreeToTerms) == (if f.agreeToTerms then None else Some(TermsRequired))
    ensures valid <==> errors == map[]
    ensures valid <==> |Trim(f.name)| >= 2 && f.email != "" && EmailRegexTest(f.email)
                       && |f.password| >= 8 && StrongPassword(f.password)
                       && f.confirmPassword == f.password && f.agreeToTerms
  {
    var name, email, password, confirm := NameError(f.name), EmailError(f.email),
                                          StrongPasswordError(f.password, PasswordRequired),
                                          ConfirmError(f.password, f.confirmPassword);
    var terms := if f.agreeToTerms then None else Some(TermsRequired);
    errors := map[];
    errors := Put(errors, Name, name);
    errors := Put(errors, Email, email);
    errors := Put(errors, Password, password);
    errors := Put(errors, ConfirmPassword, confirm);
    errors := Put(errors, AgreeToTerms, terms);
    FiveEntries(name, email, password, confirm, terms);
    EmptyIffNoEntries(errors, {Name, Email, Password, ConfirmPassword, AgreeToTerms});
    valid := |errors| == 0;
  }


  /** `handleSignup`: only a valid form is sent, with the name trimmed and the other
      fields as typed. */
  method HandleSignup(f: SignupForm) returns (dispatched: Option<AuthService.SignupCredentials>)
    ensures dispatched.Some? <==> |Trim(f.name)| >= 2 && EmailError(f.email).None?
                                  && StrongPasswordError(f.password, PasswordRequired).None?
                                  && f.confirmPassword == f.password && f.agreeToTerms
    ensures dispatched.Some? ==>
      dispatched.value == AuthService.SignupCredentials(Trim(f.name), f.email, f.password, f.confirmPassword)
  {
    var errors, valid := ValidateSignup(f);
    if !valid {
      return None;
    }
    dispatched := Some(AuthService.SignupCredentials(Trim(f.name), f.email, f.password, f.confirmPassword));
  }

  // ---- Change-password screen

  datatype PasswordForm = PasswordForm(currentPassword: string, newPassword: string, confirmPassword: string)

  /** `validateForm` of the change-password screen: the current password is only
      required, and is never compared with the new one. */
  method ValidatePasswordChange(f: PasswordForm) returns (errors: Errors, valid: bool)
    ensures errors.Keys <= {CurrentPassword, NewPassword, ConfirmPassword}
    ensures Entry(errors, CurrentPassword) == (if f.currentPassword == "" then Some(CurrentPasswordRequired) else None)
    ensures Entry(errors, NewPassword) == StrongPasswordError(f.newPassword, NewPasswordRequired)
    ensures Entry(errors, ConfirmPassword) == ConfirmError(f.newPassword, f.confirmPassword)
    ensures valid <==> errors == map[]
    ensures valid <==> f.currentPassword != "" && |f.newPassword| >= 8 && StrongPassword(f.newPassword)
                       && f.confirmPassword == f.newPassword
  {
    var current := if f.currentPassword == "" then Some(CurrentPasswordRequired) else None;
    var newPassword, confirm := StrongPasswordError(f.newPassword, NewPasswordRequired),
                                ConfirmError(f.newPassword, f.confirmPassword);
    errors := map[];
    errors := Put(errors, CurrentPassword, current);
    errors := Put(errors, NewPassword, newPassword);
    errors := Put(errors, ConfirmPassword, confirm);
    ThreeEntries(CurrentPassword, current, NewPassword, newPassword, ConfirmPassword, confirm);
    EmptyIffNoEntries(errors, {CurrentPassword, NewPassword, ConfirmPassword});
    valid := |errors| == 0;
  }


  /** `handleChangePassword`: the whole form is sent, and only when it is valid; a new
      password equal to the current one is accepted. */
  method HandleChangePassword(f: PasswordForm) returns (dispatched: Option<AuthService.ChangePasswordData>)
    ensures dispatched.Some? <==> f.currentPassword != "" && StrongPasswordError(f.newPassword, NewPasswordRequired).None?
                                  && f.confirmPassword == f.newPassword
    ensures dispatched.Some? ==>
      dispatched.value == AuthService.ChangePasswordData(f.currentPassword, f.newPassword, f.confirmPassword)
  {
    var errors, valid := ValidatePasswordChange(f);
    if !valid {
      return None;
    }
    dispatched := Some(AuthService.ChangePasswordData(f.currentPassword, f.newPassword, f.confirmPassword));
  }

  // ---- Edit-profile screen

  datatype ProfileForm = ProfileForm(name: string, email: string, phone: string, bio: string)

  /** The form's first contents: the signed-in user's fields, each `''` when missing. */
  function InitialProfileForm(user: Option<User>): (f: ProfileForm)
    ensures user.None? ==> f == ProfileForm("", "", "", "")
    ensures user.Some? ==> f.name == user.value.name && f.email == user.value.email
                           && f.phone == user.value.phone.GetOr("") && f.bio == user.value.bio.GetOr("")
  {
    if user.None? then ProfileForm("", "", "", "")
    else ProfileForm(user.value.name, user.value.email, user.value.phone.GetOr(""), user.value.bio.GetOr(""))
  }

  /** The edit-profile e-mail rule: required after trimming, but the pattern is tested
      on the e-mail as typed. */
  function ProfileEmailError(email: string): (r: Option<Message>)
    ensures r == Some(FieldRequired) <==> forall k :: 0 <= k < |email| ==> IsSpace(email[k])
    ensures r == Some(FieldEmail) <==> Trim(email) != "" && !EmailRegexTest(email)
    ensures r.None? <==> Trim(email) != "" && EmailRegexTest(email)
  {
    TrimEmptyIffAllSpace(email);
    EmailTestCorrect(email);
    if Trim(email) == "" then Some(FieldRequired)
    else if !LooksLikeEmail(email) then Some(FieldEmail)
    else None
  }

  /** `validateForm` of the edit-profile screen: the phone and the bio are never checked. */
  method ValidateProfile(f: ProfileForm) returns (errors: Errors, valid: bool)
    ensures errors.Keys <= {Name, Email}
    ensures Entry(errors, Name) == (if Trim(f.name) == "" then Some(FieldRequired) else None)
    ensures Entry(errors, Email) == ProfileEmailError(f.email)
    ensures valid <==> errors == map[]
    ensures valid <==> Trim(f.name) != "" && Trim(f.email) != "" && EmailRegexTest(f.email)
  {
    var name := if Trim(f.name) == "" then Some(FieldRequired) else None;
    var email := ProfileEmailError(f.email);
    errors := map[];
    errors := Put(errors, Name, name);
    errors := Put(errors, Email, email);
    TwoEntries(Name, name, Email, email);
    EmptyIffNoEntries(errors, {Name, Email});
    valid := |errors| == 0;
  }


  /** `handleSaveProfile`: the form is sent as it stands, untrimmed, only when valid. */
  method HandleSaveProfile(f: ProfileForm) returns (dispatched: Option<ProfileForm>)
    ensures dispatched.Some? <==> Trim(f.name) != "" && ProfileEmailError(f.email).None?
    ensures dispatched.Some? ==> dispatched.value == f
  {
    var errors, valid := ValidateProfile(f);
    if !valid {
      return None;
    }
    dispatched := Some(f);
  }

  /** The e-mail test is unanchored, so white space around an address passes the
      edit-profile form and is sent as typed. */
  lemma PaddedEmailAccepted()
    ensures ProfileEmailError(" a@b.c ").None?
  {
    var s := " a@b.c ";
    assert EmailShapeAt(s, 2, 4);
    assert LooksLikeEmail(s);
  }
}
