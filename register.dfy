/** The three-step registration wizard: per-step validation, the step
    counter, the change handler and the payload sent to the server. */
module Register {
  import opened Common
  import opened Text
  import opened JsNumber

  /** Steps 0, 1 and 2: account details, personal information, professional details. */
  const LastStep := 2

  datatype TextField =
    | Email | Password | ConfirmPassword
    | FirstName | LastName | Location | Bio
    | UserType | HourlyRate | YearsExperience | PortfolioUrl

  datatype CheckField = StudioExperience | RemoteRecording

  datatype ChangeEvent =
    | TextChange(field: TextField, value: string)
    | CheckboxChange(box: CheckField, checked: bool)

  datatype RegisterForm = RegisterForm(
    email: string, password: string, confirmPassword: string,
    firstName: string, lastName: string, location: string, bio: string,
    userType: string, hourlyRate: string, yearsExperience: string,
    studioExperience: bool, remoteRecording: bool, portfolioUrl: string)

  const InitialForm := RegisterForm("", "", "", "", "", "", "", "musician", "", "", false, false, "")

  /** One message per text field; `""` means no error. */
  datatype RegisterErrors = RegisterErrors(
    email: string, password: string, confirmPassword: string,
    firstName: string, lastName: string, location: string, bio: string,
    userType: string, hourlyRate: string, yearsExperience: string, portfolioUrl: string)

  const NoErrors := RegisterErrors("", "", "", "", "", "", "", "", "", "", "")

  function TextOf(form: RegisterForm, f: TextField): string {
    match f
    case Email => form.email
    case Password => form.password
    case ConfirmPassword => form.confirmPassword
    case FirstName => form.firstName
    case LastName => form.lastName
    case Location => form.location
    case Bio => form.bio
    case UserType => form.userType
    case HourlyRate => form.hourlyRate
    case YearsExperience => form.yearsExperience
    case PortfolioUrl => form.portfolioUrl
  }

  function WithText(form: RegisterForm, f: TextField, v: string): RegisterForm {
    match f
    case Email => form.(email := v)
    case Password => form.(password := v)
    case ConfirmPassword => form.(confirmPassword := v)
    case FirstName => form.(firstName := v)
    case LastName => form.(lastName := v)
    case Location => form.(location := v)
    case Bio => form.(bio := v)
    case UserType => form.(userType := v)
    case HourlyRate => form.(hourlyRate := v)
    case YearsExperience => form.(yearsExperience := v)
    case PortfolioUrl => form.(portfolioUrl := v)
  }

  function WithCheck(form: RegisterForm, b: CheckField, v: bool): RegisterForm {
    match b
    case StudioExperience => form.(studioExperience := v)
    case RemoteRecording => form.(remoteRecording := v)
  }

  function ErrorOf(e: RegisterErrors, f: TextField): string {
    match f
    case Email => e.email
    case Password => e.password
    case ConfirmPassword => e.confirmPassword
    case FirstName => e.firstName
    case LastName => e.lastName
    case Location => e.location
    case Bio => e.bio
    case UserType => e.userType
    case HourlyRate => e.hourlyRate
    case YearsExperience => e.yearsExperience
    case PortfolioUrl => e.portfolioUrl
  }

  function WithError(e: RegisterErrors, f: TextField, v: string): RegisterErrors {
    match f
    case Email => e.(email := v)
    case Password => e.(password := v)
    case ConfirmPassword => e.(confirmPassword := v)
    case FirstName => e.(firstName := v)
    case LastName => e.(lastName := v)
    case Location => e.(location := v)
    case Bio => e.(bio := v)
    case UserType => e.(userType := v)
    case HourlyRate => e.(hourlyRate := v)
    case YearsExperience => e.(yearsExperience := v)
    case PortfolioUrl => e.(portfolioUrl := v)
  }

  /** The inputs shown on each step. */
  function RenderedOn(step: int): set<TextField> {
    if step == 0 then {Email, Password, ConfirmPassword}
    else if step == 1 then {FirstName, LastName, Location, Bio}
    else if step == 2 then {UserType, HourlyRate, YearsExperience, PortfolioUrl}
    else {}
  }

  /** The fields each step checks; location and bio are never checked. */
  function CheckedOn(step: int): (r: set<TextField>)
    ensures r <= RenderedOn(step) && Location !in r && Bio !in r
  {
    if step == 0 then {Email, Password, ConfirmPassword}
    else if step == 1 then {FirstName, LastName}
    else if step == 2 then {UserType, HourlyRate, YearsExperience, PortfolioUrl}
    else {}
  }

  /** The message `validateStep` leaves on the e-mail field: `""` when it passes. */
  function EmailCheck(email: string): string {
    if Trim(email) == "" then "Email is required"
    else if !IsEmail(email) then "Please enter a valid email address"
    else ""
  }

  function PasswordCheck(password: string): string {
    if password == "" then "Password is required"
    else if Utf16Length(password) < 8 then "Password must be at least 8 characters"
    else ""
  }

  function ConfirmCheck(password: string, confirmPassword: string): string {
    if password != confirmPassword then "Passwords do not match" else ""
  }

  function RequiredCheck(value: string, message: string): string {
    if Trim(value) == "" then message else ""
  }

  /** The rules of step 2, one per field. */
  predicate RateOk(rate: string) {
    rate == "" || !IsNaN(rate)
  }

  predicate YearsOk(years: string) {
    years == "" || (!IsNaN(years) && Number(years).value >= 0.0)
  }

  predicate UrlOk(url: string) {
    url == "" || IsHttpUrl(url)
  }

  function UserTypeCheck(userType: string): string {
    if userType == "" then "Please select a user type" else ""
  }

  function RateCheck(rate: string): string {
    if !RateOk(rate) then "Hourly rate must be a number" else ""
  }

  function YearsCheck(years: string): string {
    if !YearsOk(years) then "Years of experience must be a positive number" else ""
  }

  function UrlCheck(url: string): string {
    if !UrlOk(url) then "Please enter a valid URL (starting with http:// or https://)" else ""
  }

  /** Four emoji are long enough: the length is counted in UTF-16 code units. */
  lemma FourEmojiPasswordLongEnough()
    ensures PasswordCheck("\U{1F600}\U{1F600}\U{1F600}\U{1F600}") == ""
  {
    SurrogatePairsCountTwice();
  }

  /** Whether each step passes, as the registration rules state it. */
  predicate StepValid(form: RegisterForm, step: int) {
    if step == 0 then
      IsEmail(form.email) && Utf16Length(form.password) >= 8 && form.password == form.confirmPassword
    else if step == 1 then
      Trim(form.firstName) != "" && Trim(form.lastName) != ""
    else if step == 2 then
      form.userType != "" && RateOk(form.hourlyRate) && YearsOk(form.yearsExperience) && UrlOk(form.portfolioUrl)
    else true
  }

  /** The errors after validating `step`: the fields the step checks hold
      their checks' messages, every other field is carried over from `e`. */
  function StepErrors(e: RegisterErrors, form: RegisterForm, step: int): RegisterErrors {
    if step == 0 then
      e.(email := EmailCheck(form.email), password := PasswordCheck(form.password),
         confirmPassword := ConfirmCheck(form.password, form.confirmPassword))
    else if step == 1 then
      e.(firstName := RequiredCheck(form.firstName, "First name is required"),
         lastName := RequiredCheck(form.lastName, "Last name is required"))
    else if step == 2 then
      e.(userType := UserTypeCheck(form.userType), hourlyRate := RateCheck(form.hourlyRate),
         yearsExperience := YearsCheck(form.yearsExperience), portfolioUrl := UrlCheck(form.portfolioUrl))
    else e
  }

  /** Validation leaves the errors of the fields a step does not check as they were. */
  lemma StepErrorsKeepOtherFields(e: RegisterErrors, form: RegisterForm, step: int, f: TextField)
    requires f !in CheckedOn(step)
    ensures ErrorOf(StepErrors(e, form, step), f) == ErrorOf(e, f)
  {
  }

  /** Step 0 passes exactly when its checks leave its three fields without a message. */
  lemma AccountValidIffNoMessages(e: RegisterErrors, form: RegisterForm)
    ensures var r := StepErrors(e, form, 0);
      StepValid(form, 0) <==> r.email == "" && r.password == "" && r.confirmPassword == ""
  {
    if IsEmail(form.email) {
      EmailHasNoSpace(form.email);
    }
  }

  lemma PersonalValidIffNoMessages(e: RegisterErrors, form: RegisterForm)
    ensures var r := StepErrors(e, form, 1);
      StepValid(form, 1) <==> r.firstName == "" && r.lastName == ""
  {
  }

  lemma ProfessionalValidIffNoMessages(e: RegisterErrors, form: RegisterForm)
    ensures var r := StepErrors(e, form, 2);
      StepValid(form, 2) <==> r.userType == "" && r.hourlyRate == "" && r.yearsExperience == "" && r.portfolioUrl == ""
  {
  }

  /** `validateStep`: starts from a copy of the current errors, rewrites only
      the fields of the given step and reports whether they all pass. */
  method ValidateStep(form: RegisterForm, errors: RegisterErrors, step: int) returns (valid: bool, newErrors: RegisterErrors)
    ensures valid <==> StepValid(form, step)
    ensures newErrors == StepErrors(errors, form, step)
  {
    if step == 0 {
      valid, newErrors := ValidateAccount(form, errors);
    } else if step == 1 {
      valid, newErrors := ValidatePersonal(form, errors);
    } else if step == 2 {
      valid, newErrors := ValidateProfessional(form, errors);
    } else {
      valid, newErrors := true, errors;
    }
  }

  /** `case 0` of `validateStep`. */
  method ValidateAccount(form: RegisterForm, errors: RegisterErrors) returns (valid: bool, newErrors: RegisterErrors)
    ensures valid <==> StepValid(form, 0)
    ensures newErrors == StepErrors(errors, form, 0)
  {
    valid := true;
    newErrors := errors;
    if Trim(form.email) == "" {
      newErrors := newErrors.(email := "Email is required");
      valid := false;
    } else if !IsEmail(form.email) {
      newErrors := newErrors.(email := "Please enter a valid email address");
      valid := false;
    } else {
      newErrors := newErrors.(email := "");
    }
    assert newErrors == errors.(email := EmailCheck(form.email));
    assert valid <==> EmailCheck(form.email) == "";
    if form.password == "" {
      newErrors := newErrors.(password := "Password is required");
      valid := false;
    } else if Utf16Length(form.password) < 8 {
      newErrors := newErrors.(password := "Password must be at least 8 characters");
      valid := false;
    } else {
      newErrors := newErrors.(password := "");
    }
    assert newErrors == errors.(email := EmailCheck(form.email), password := PasswordCheck(form.password));
    assert valid <==> EmailCheck(form.email) == "" && PasswordCheck(form.password) == "";
    if form.password != form.confirmPassword {
      newErrors := newErrors.(confirmPassword := "Passwords do not match");
      valid := false;
    } else {
      newErrors := newErrors.(confirmPassword := "");
    }
    AccountValidIffNoMessages(errors, form);
  }

  /** `case 1` of `validateStep`; location and bio are not looked at. */
  method ValidatePersonal(form: RegisterForm, errors: RegisterErrors) returns (valid: bool, newErrors: RegisterErrors)
    ensures valid <==> StepValid(form, 1)
    ensures newErrors == StepErrors(errors, form, 1)
  {
    valid := true;
    newErrors := errors;
    if Trim(form.firstName) == "" {
      newErrors := newErrors.(firstName := "First name is required");
      valid := false;
    } else {
      newErrors := newErrors.(firstName := "");
    }
    if Trim(form.lastName) == "" {
      newErrors := newErrors.(lastName := "Last name is required");
      valid := false;
    } else {
      newErrors := newErrors.(lastName := "");
    }
  }

  /** The hourly-rate block of step 2: a non-empty rate must parse as a number. */
  method CheckHourlyRate(rate: string) returns (message: string)
    ensures message == "" <==> RateOk(rate)
    ensures message == RateCheck(rate)
  {
    if rate != "" && IsNaN(rate) {
      message := "Hourly rate must be a number";
    } else {
      message := "";
    }
  }

  /** The years-of-experience block of step 2: a non-empty value must parse
      as a number that is not negative. */
  method CheckYearsExperience(years: string) returns (message: string)
    ensures message == "" <==> YearsOk(years)
    ensures message == YearsCheck(years)
  {
    if years != "" && (IsNaN(years) || Number(years).value < 0.0) {
      message := "Years of experience must be a positive number";
    } else {
      message := "";
    }
  }

  /** The portfolio block of step 2: a non-empty URL must match the http(s) pattern. */
  method CheckPortfolioUrl(url: string) returns (message: string)
    ensures message == "" <==> UrlOk(url)
    ensures message == UrlCheck(url)
  {
    if url != "" && !IsHttpUrl(url) {
      message := "Please enter a valid URL (starting with http:// or https://)";
    } else {
      message := "";
    }
  }

  /** `case 2` of `validateStep`. */
  method ValidateProfessional(form: RegisterForm, errors: RegisterErrors) returns (valid: bool, newErrors: RegisterErrors)
    ensures valid <==> StepValid(form, 2)
    ensures newErrors == StepErrors(errors, form, 2)
  {
    var userType := if form.userType == "" then "Please select a user type" else "";
    var hourlyRate := CheckHourlyRate(form.hourlyRate);
    var yearsExperience := CheckYearsExperience(form.yearsExperience);
    var portfolioUrl := CheckPortfolioUrl(form.portfolioUrl);
    newErrors := errors.(userType := userType, hourlyRate := hourlyRate,
                         yearsExperience := yearsExperience, portfolioUrl := portfolioUrl);
    valid := userType == "" && hourlyRate == "" && yearsExperience == "" && portfolioUrl == "";
  }

  /** Editing an input of one step cannot change whether another step passes. */
  lemma EditKeepsOtherSteps(form: RegisterForm, f: TextField, v: string, step: int, other: int)
    requires f in RenderedOn(step) && other != step
    ensures StepValid(WithText(form, f, v), other) == StepValid(form, other)
  {
    var form' := WithText(form, f, v);
    if other == 0 {
      assert form'.email == form.email && form'.password == form.password
        && form'.confirmPassword == form.confirmPassword;
    } else if other == 1 {
      assert form'.firstName == form.firstName && form'.lastName == form.lastName;
    } else if other == 2 {
      assert form'.userType == form.userType && form'.hourlyRate == form.hourlyRate
        && form'.yearsExperience == form.yearsExperience && form'.portfolioUrl == form.portfolioUrl;
    }
  }

  /** The checkboxes are never checked by any step. */
  lemma CheckboxKeepsSteps(form: RegisterForm, b: CheckField, v: bool, step: int)
    ensures StepValid(WithCheck(form, b, v), step) == StepValid(form, step)
  {
  }

  /** A number the client sends: absent, a value, or `NaN`. */
  datatype NumberField = Absent | Value(n: real) | NotANumber

  /** `hourly_rate` and `years_experience` as `handleSubmit` converts them:
      an empty string becomes `undefined` (`Absent`), anything else goes through `Number`. */
  function ToNumberField(s: string): (r: NumberField)
    ensures r == Absent <==> s == ""
    ensures r == NotANumber <==> s != "" && IsNaN(s)
  {
    if s == "" then Absent
    else match Number(s)
      case Some(n) => Value(n)
      case None => NotANumber
  }

  /** The data dispatched to `register`: every form field but `confirmPassword`. */
  datatype RegisterPayload = RegisterPayload(
    email: string, password: string, firstName: string, lastName: string,
    location: string, bio: string, userType: string,
    hourlyRate: NumberField, yearsExperience: NumberField,
    studioExperience: bool, remoteRecording: bool, portfolioUrl: string)

  function Payload(form: RegisterForm): RegisterPayload {
    RegisterPayload(form.email, form.password, form.firstName, form.lastName,
                    form.location, form.bio, form.userType,
                    ToNumberField(form.hourlyRate), ToNumberField(form.yearsExperience),
                    form.studioExperience, form.remoteRecording, form.portfolioUrl)
  }

  /** Once the last step passes, neither converted number is `NaN` and the
      experience is not negative. */
  lemma ValidatedPayloadHasNumbers(form: RegisterForm)
    requires StepValid(form, 2)
    ensures Payload(form).hourlyRate != NotANumber
    ensures Payload(form).yearsExperience != NotANumber
    ensures Payload(form).yearsExperience.Value? ==> Payload(form).yearsExperience.n >= 0.0
  {
  }

  /** The wizard's React state. */
  class RegisterPage {
    var activeStep: int
    var formData: RegisterForm
    var validationErrors: RegisterErrors

    /** The step is in range and every step before it has passed its checks
        on the current form. */
    ghost predicate Valid()
      reads this
    {
      && 0 <= activeStep <= LastStep
      && forall s :: 0 <= s < activeStep ==> StepValid(formData, s)
    }

    constructor ()
      ensures Valid()
      ensures activeStep == 0 && formData == InitialForm && validationErrors == NoErrors
    {
      activeStep := 0;
      formData := InitialForm;
      validationErrors := NoErrors;
    }

    /** `handleNext`, offered before the last step: advance by one exactly
        when the current step passes. */
    method HandleNext()
      requires Valid() && activeStep < LastStep
      modifies this`activeStep, this`validationErrors
      ensures Valid()
      ensures activeStep == if StepValid(formData, old(activeStep)) then old(activeStep) + 1 else old(activeStep)
      ensures validationErrors == StepErrors(old(validationErrors), formData, old(activeStep))
    {
      var valid, newErrors := ValidateStep(formData, validationErrors, activeStep);
      validationErrors := newErrors;
      if valid {
        activeStep := activeStep + 1;
      }
    }

    /** `handleBack`; the Back button is disabled on the first step. */
    method HandleBack()
      requires Valid() && activeStep > 0
      modifies this`activeStep
      ensures Valid()
      ensures activeStep == old(activeStep) - 1
    {
      activeStep := activeStep - 1;
    }

    /** `handleChange` for an input shown on the current step: stores the
        value and clears that field's error; no other error changes. */
    method HandleChange(event: ChangeEvent)
      requires Valid()
      requires event.TextChange? ==> event.field in RenderedOn(activeStep)
      requires event.CheckboxChange? ==> activeStep == 2
      modifies this`formData, this`validationErrors
      ensures Valid()
      ensures event.TextChange? ==> formData == WithText(old(formData), event.field, event.value)
      ensures event.CheckboxChange? ==> formData == WithCheck(old(formData), event.box, event.checked)
      ensures event.TextChange? ==> ErrorOf(validationErrors, event.field) == ""
      ensures forall f :: (event.TextChange? ==> f != event.field) ==>
                ErrorOf(validationErrors, f) == ErrorOf(old(validationErrors), f)
    {
      match event
      case TextChange(f, v) =>
        forall s | 0 <= s < activeStep ensures StepValid(WithText(formData, f, v), s) {
          EditKeepsOtherSteps(formData, f, v, activeStep, s);
        }
        formData := WithText(formData, f, v);
        if ErrorOf(validationErrors, f) != "" {
          validationErrors := WithError(validationErrors, f, "");
        }
      case CheckboxChange(b, c) =>
        forall s | 0 <= s < activeStep ensures StepValid(WithCheck(formData, b, c), s) {
          CheckboxKeepsSteps(formData, b, c, s);
        }
        formData := WithCheck(formData, b, c);
    }

    /** `handleSubmit`, bound to the form on the last step: revalidates that
        step and hands over the payload only when it passes, so a submitted
        registration has passed the checks of all three steps. */
    method HandleSubmit() returns (payload: Option<RegisterPayload>)
      requires Valid() && activeStep == LastStep
      modifies this`validationErrors
      ensures Valid()
      ensures validationErrors == StepErrors(old(validationErrors), formData, activeStep)
      ensures payload.Some? <==> StepValid(formData, LastStep)
      ensures payload.Some? ==> payload.value == Payload(formData)
      ensures payload.Some? ==> forall s :: 0 <= s <= LastStep ==> StepValid(formData, s)
    {
      var valid, newErrors := ValidateStep(formData, validationErrors, activeStep);
      validationErrors := newErrors;
      if !valid {
        return None;
      }
      payload := Some(Payload(formData));
    }
  }
}
