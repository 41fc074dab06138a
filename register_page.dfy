/**
 * The registration page: its form record, field-wise change, and the
 * ordered checks run on submit before `register` is called.
 */
module RegisterPage {
  import opened Wrappers
  import opened JsValues

  datatype Form = Form(name: string, email: string, password: string, password2: string)

  /** The form's inputs, by their `name` attribute. */
  datatype FormField = NameField | EmailField | PasswordField | Password2Field

  /** What `register` is called with: the confirmation field is not sent. */
  datatype Request = Request(name: string, email: string, password: string)

  const ENTER_ALL_FIELDS := "Please enter all fields"
  const PASSWORDS_DIFFER := "Passwords do not match"
  const PASSWORD_TOO_SHORT := "Password must be at least 6 characters"
  const MIN_PASSWORD_LENGTH := 6

  const EMPTY_FORM := Form("", "", "", "")

  function FieldValue(f: Form, field: FormField): string {
    match field
    case NameField => f.name
    case EmailField => f.email
    case PasswordField => f.password
    case Password2Field => f.password2
  }

  /** `{...formData, [name]: value}`: the named field takes the value, the others are kept. */
  function WithField(f: Form, field: FormField, value: string): (r: Form)
    ensures FieldValue(r, field) == value
    ensures forall other :: other != field ==> FieldValue(r, other) == FieldValue(f, other)
  {
    match field
    case NameField => f.(name := value)
    case EmailField => f.(email := value)
    case PasswordField => f.(password := value)
    case Password2Field => f.(password2 := value)
  }

  /**
   * The first failing check's message, or `None` when the form may be sent.
   * The checks run in order: name, email and password all filled in (the
   * confirmation is not part of this check), then the two passwords equal,
   * then the password at least six characters long.
   */
  function Validate(f: Form): (r: Option<string>)
    ensures r == Some(ENTER_ALL_FIELDS) <==> f.name == "" || f.email == "" || f.password == ""
    ensures r == Some(PASSWORDS_DIFFER) <==>
      f.name != "" && f.email != "" && f.password != "" && f.password != f.password2
    ensures r == Some(PASSWORD_TOO_SHORT) <==>
      f.name != "" && f.email != "" && f.password != "" && f.password == f.password2 &&
      |f.password| < MIN_PASSWORD_LENGTH
    ensures r == None <==>
      f.name != "" && f.email != "" && f.password == f.password2 && |f.password| >= MIN_PASSWORD_LENGTH
  {
    if f.name == "" || f.email == "" || f.password == "" then Some(ENTER_ALL_FIELDS)
    else if f.password != f.password2 then Some(PASSWORDS_DIFFER)
    else if |f.password| < MIN_PASSWORD_LENGTH then Some(PASSWORD_TOO_SHORT)
    else None
  }

  class RegisterForm {
    var formData: Form
    var formError: string

    constructor ()
      ensures formData == EMPTY_FORM && formError == ""
    {
      formData := EMPTY_FORM;
      formError := "";
    }

    method OnChange(field: FormField, value: string)
      modifies this
      ensures formData == WithField(old(formData), field, value) && formError == old(formError)
    {
      formData := WithField(formData, field, value);
    }

    /**
     * Submit: the shown error is reset, then the first failing check's
     * message is shown and nothing is sent; if every check passes, the
     * returned request is what `register` receives.
     */
    method OnSubmit() returns (request: Option<Request>)
      modifies this
      ensures formData == old(formData)
      ensures Validate(formData).Some? ==> request == None && formError == Validate(formData).value
      ensures Validate(formData).None? ==>
        request == Some(Request(formData.name, formData.email, formData.password)) && formError == ""
    {
      formError := "";
      var verdict := Validate(formData);
      if verdict.Some? {
        formError := verdict.value;
        return None;
      }
      request := Some(Request(formData.name, formData.email, formData.password));
    }

    /** The effect copying a non-empty session error into the shown error. */
    method ShowSessionError(sessionError: Field)
      modifies this
      ensures formData == old(formData)
      ensures formError == (if Truthy(sessionError) then sessionError.value else old(formError))
    {
      if Truthy(sessionError) {
        formError := sessionError.value;
      }
    }
  }
}
