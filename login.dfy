/** The sign-in form: its validator and its change handler. */
module Login {
  import opened Text

  datatype LoginForm = LoginForm(email: string, password: string)

  /** One message per field; `""` means the field has no error. */
  datatype LoginErrors = LoginErrors(email: string, password: string)

  datatype LoginField = EmailField | PasswordField

  /** The page's React state: the form and its validation errors. */
  datatype LoginPage = LoginPage(form: LoginForm, errors: LoginErrors)

  const NoErrors := LoginErrors("", "")
  const InitialPage := LoginPage(LoginForm("", ""), NoErrors)

  const EmailRequired := "Email is required"
  const EmailMalformed := "Please enter a valid email address"
  const PasswordRequired := "Password is required"

  /** What the form lets through: a non-blank address that matches the
      e-mail pattern and any non-empty password. */
  predicate LoginValid(form: LoginForm) {
    Trim(form.email) != "" && IsEmail(form.email) && form.password != ""
  }

  /** `validateForm`: errors start out empty on every call and only a failing
      field gets a message; a blank address is reported as missing, never as
      malformed. */
  method ValidateForm(form: LoginForm) returns (valid: bool, errors: LoginErrors)
    ensures valid <==> LoginValid(form)
    ensures valid <==> errors == NoErrors
    ensures errors.email == EmailRequired <==> Trim(form.email) == ""
    ensures errors.email == EmailMalformed <==> Trim(form.email) != "" && !IsEmail(form.email)
    ensures errors.email == "" <==> Trim(form.email) != "" && IsEmail(form.email)
    ensures errors.password == PasswordRequired <==> form.password == ""
    ensures errors.password == "" <==> form.password != ""
  {
    valid := true;
    errors := LoginErrors("", "");

    if Trim(form.email) == "" {
      errors := errors.(email := EmailRequired);
      valid := false;
    } else if !IsEmail(form.email) {
      errors := errors.(email := EmailMalformed);
      valid := false;
    }

    if form.password == "" {
      errors := errors.(password := PasswordRequired);
      valid := false;
    }
  }

  /** The blank check is implied by the pattern: the form accepts exactly an
      address matching the pattern and a non-empty password. */
  lemma LoginValidIff(form: LoginForm)
    ensures LoginValid(form) <==> IsEmail(form.email) && form.password != ""
  {
    if IsEmail(form.email) {
      EmailHasNoSpace(form.email);
    }
  }

  /** Unlike registration, sign-in sets no minimum password length. */
  lemma OneCharacterPasswordAccepted()
    ensures LoginValid(LoginForm("a@b.co", "x"))
  {
    var form := LoginForm("a@b.co", "x");
    assert EmailSplitAt(form.email, 1, 3);
    LoginValidIff(form);
  }

  function ErrorOf(errors: LoginErrors, field: LoginField): string {
    match field
    case EmailField => errors.email
    case PasswordField => errors.password
  }

  /** `handleChange`: stores the typed value in the named field and clears
      that field's error if it was set; the other field and its error stay. */
  function HandleChange(page: LoginPage, field: LoginField, value: string): (r: LoginPage)
    ensures field == EmailField ==> r.form == page.form.(email := value)
    ensures field == PasswordField ==> r.form == page.form.(password := value)
    ensures ErrorOf(r.errors, field) == ""
    ensures forall other :: other != field ==> ErrorOf(r.errors, other) == ErrorOf(page.errors, other)
  {
    var form := match field
      case EmailField => page.form.(email := value)
      case PasswordField => page.form.(password := value);
    var errors :=
      if ErrorOf(page.errors, field) != "" then
        match field
        case EmailField => page.errors.(email := "")
        case PasswordField => page.errors.(password := "")
      else page.errors;
    LoginPage(form, errors)
  }
}
