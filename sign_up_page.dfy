/** The sign-up page: a form edited one field at a time, a validator that
    reports the first failing check, and the submit handler that builds the
    request for the server's sign-up endpoint and reports its outcome. The
    request itself is a parameter. */
module SignUpPage {
  import opened Values
  import ProfileServer

  /** The `formData` state record. */
  datatype Form = Form(
    email: string,
    password: string,
    confirmPassword: string,
    firstName: string,
    lastName: string,
    sport: string,
    position: string,
    experience: string)

  function EmptyForm(): Form {
    Form("", "", "", "", "", "", "", "")
  }

  /** The field names the inputs pass to `handleInputChange`. */
  datatype Field = Email | Password | ConfirmPassword | FirstName | LastName | Sport | Position | Experience

  function FieldValue(form: Form, field: Field): string {
    match field
    case Email => form.email
    case Password => form.password
    case ConfirmPassword => form.confirmPassword
    case FirstName => form.firstName
    case LastName => form.lastName
    case Sport => form.sport
    case Position => form.position
    case Experience => form.experience
  }

  /** `{...prev, [field]: value}`. */
  function WithField(form: Form, field: Field, value: string): Form {
    match field
    case Email => form.(email := value)
    case Password => form.(password := value)
    case ConfirmPassword => form.(confirmPassword := value)
    case FirstName => form.(firstName := value)
    case LastName => form.(lastName := value)
    case Sport => form.(sport := value)
    case Position => form.(position := value)
    case Experience => form.(experience := value)
  }

  /** An input change sets its own field and no other. */
  lemma WithFieldChangesOneField(form: Form, field: Field, value: string, other: Field)
    ensures FieldValue(WithField(form, field, value), field) == value
    ensures other != field ==> FieldValue(WithField(form, field, value), other) == FieldValue(form, other)
  {
  }

  datatype ValidationError = MissingRequired | PasswordMismatch | PasswordTooShort | TermsNotAccepted

  function Message(e: ValidationError): string {
    match e
    case MissingRequired => "Please fill in all required fields"
    case PasswordMismatch => "Passwords do not match"
    case PasswordTooShort => "Password must be at least 6 characters long"
    case TermsNotAccepted => "Please accept the terms and conditions"
  }

  /** `validateForm`: None when the form may be sent, else the first check
      that fails. */
  function Validate(form: Form, acceptTerms: bool): Option<ValidationError> {
    if form.email == "" || form.password == "" || form.firstName == "" || form.lastName == "" then
      Some(MissingRequired)
    else if form.password != form.confirmPassword then
      Some(PasswordMismatch)
    else if |form.password| < 6 then
      Some(PasswordTooShort)
    else if !acceptTerms then
      Some(TermsNotAccepted)
    else
      None
  }

  predicate RequiredPresent(form: Form) {
    form.email != "" && form.password != "" && form.firstName != "" && form.lastName != ""
  }

  /** The form is accepted exactly when the four required fields are
      filled, the passwords match, the password has at least 6 characters
      and the terms are accepted. */
  lemma ValidateAcceptsExactly(form: Form, acceptTerms: bool)
    ensures Validate(form, acceptTerms) == None <==>
      && RequiredPresent(form)
      && form.password == form.confirmPassword
      && |form.password| >= 6
      && acceptTerms
  {
  }

  /** Each error is reported exactly when every earlier check passes and
      its own check fails. */
  lemma ValidateReportsFirstFailure(form: Form, acceptTerms: bool)
    ensures Validate(form, acceptTerms) == Some(MissingRequired) <==> !RequiredPresent(form)
    ensures Validate(form, acceptTerms) == Some(PasswordMismatch) <==>
      RequiredPresent(form) && form.password != form.confirmPassword
    ensures Validate(form, acceptTerms) == Some(PasswordTooShort) <==>
      RequiredPresent(form) && form.password == form.confirmPassword && |form.password| < 6
    ensures Validate(form, acceptTerms) == Some(TermsNotAccepted) <==>
      RequiredPresent(form) && form.password == form.confirmPassword && |form.password| >= 6 && !acceptTerms
  {
  }

  /** Sport, position and experience never affect validation. */
  lemma OptionalFieldsIgnored(form: Form, acceptTerms: bool, sport: string, position: string, experience: string)
    ensures Validate(form.(sport := sport, position := position, experience := experience), acceptTerms)
         == Validate(form, acceptTerms)
  {
  }

  /** The `user_metadata` sent with the request. */
  function Metadata(form: Form): Record {
    map[
      "firstName" := Str(form.firstName),
      "lastName" := Str(form.lastName),
      "fullName" := Str(form.firstName + " " + form.lastName),
      "sport" := Str(form.sport),
      "position" := Str(form.position),
      "experience" := Str(form.experience),
      "onboardingComplete" := Bool(false)
    ]
  }

  /** The JSON body sent to the sign-up endpoint. */
  function RequestBody(form: Form): ProfileServer.SignupBody {
    ProfileServer.SignupBody(Some(Str(form.email)), Some(Str(form.password)), Some(Metadata(form)))
  }

  /** Neither password reaches the metadata, the full name joins first and
      last name with one space, and onboarding starts incomplete. */
  lemma MetadataShape(form: Form)
    ensures "confirmPassword" !in Metadata(form) && "password" !in Metadata(form)
    ensures Metadata(form)["fullName"] == Str(form.firstName + " " + form.lastName)
    ensures Metadata(form)["onboardingComplete"] == Bool(false)
  {
  }

  /** A form the page accepts always passes the server's credential check,
      and the record the server then stores carries the form's names. */
  lemma AcceptedFormPassesServerCheck(form: Form, acceptTerms: bool, user: ProfileServer.AuthUser, now: string)
    requires Validate(form, acceptTerms) == None
    ensures !ProfileServer.MissingCredentials(RequestBody(form))
    ensures var stored := ProfileServer.SignupRecord(user, RequestBody(form).metadata, now);
      && stored["fullName"] == Str(form.firstName + " " + form.lastName)
      && stored["id"] == Str(user.id)
      && stored["email"] == Str(user.email)
  {
    ProfileServer.SignupRecordFields(user, RequestBody(form).metadata, now, "fullName");
  }

  /** What became of the request: a response with its `ok` flag and the
      `error` text of its JSON body, or an exception from fetch or from
      parsing the body. */
  datatype Outcome = Responded(ok: bool, errorText: Option<string>) | RequestThrew

  /** `result.error || 'Failed to create account'`. */
  function FailureText(errorText: Option<string>): string {
    if errorText.Some? && errorText.value != "" then errorText.value else "Failed to create account"
  }

  const CreatedMessage: string := "Account created successfully! You can now sign in."
  const UnexpectedMessage: string := "An unexpected error occurred"

  /** The page's state. */
  class Page {
    var formData: Form
    var acceptTerms: bool
    var isLoading: bool
    var error: string
    var success: string

    constructor ()
      ensures formData == EmptyForm()
      ensures !acceptTerms && !isLoading && error == "" && success == ""
    {
      formData := EmptyForm();
      acceptTerms := false;
      isLoading := false;
      error := "";
      success := "";
    }

    method HandleInputChange(field: Field, value: string)
      modifies this`formData
      ensures formData == WithField(old(formData), field, value)
    {
      formData := WithField(formData, field, value);
    }

    /** The terms checkbox. */
    method SetAcceptTerms(checked: bool)
      modifies this`acceptTerms
      ensures acceptTerms == checked
    {
      acceptTerms := checked;
    }

    /** `validateForm`: on failure shows the first failing check's message. */
    method ValidateForm() returns (valid: bool)
      modifies this`error
      ensures valid <==> Validate(formData, acceptTerms) == None
      ensures !valid ==> error == Message(Validate(formData, acceptTerms).value)
      ensures valid ==> error == old(error)
    {
      if formData.email == "" || formData.password == "" || formData.firstName == "" || formData.lastName == "" {
        error := Message(MissingRequired);
        return false;
      }
      if formData.password != formData.confirmPassword {
        error := Message(PasswordMismatch);
        return false;
      }
      if |formData.password| < 6 {
        error := Message(PasswordTooShort);
        return false;
      }
      if !acceptTerms {
        error := Message(TermsNotAccepted);
        return false;
      }
      return true;
    }

    /** `handleSignUp`: returns the request body it sends, if any. An
        invalid form sends nothing and leaves the loading flag alone. */
    method HandleSignUp(outcome: Outcome) returns (sent: Option<ProfileServer.SignupBody>)
      modifies this`error, this`success, this`isLoading
      ensures Validate(formData, acceptTerms).Some? ==>
        && sent == None
        && error == Message(Validate(formData, acceptTerms).value)
        && success == old(success) && isLoading == old(isLoading)
      ensures Validate(formData, acceptTerms) == None ==>
        && sent == Some(RequestBody(formData))
        && !isLoading
        && match outcome
           case Responded(ok, errorText) =>
             if ok then error == "" && success == CreatedMessage
             else error == FailureText(errorText) && success == ""
           case RequestThrew => error == UnexpectedMessage && success == ""
    {
      var valid := ValidateForm();
      if !valid {
        return None;
      }
      isLoading := true;
      error := "";
      success := "";
      sent := Some(RequestBody(formData));
      match outcome {
        case Responded(ok, errorText) =>
          if !ok {
            error := FailureText(errorText);
          } else {
            success := CreatedMessage;
          }
        case RequestThrew =>
          error := UnexpectedMessage;
      }
      isLoading := false;
    }
  }
}
