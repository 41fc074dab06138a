/**
 * The login page: its form record, field-wise change, and the single
 * emptiness check run on submit before `login` is called.
 */
module LoginPage {
  import opened Wrappers
  import opened JsValues

  datatype Form = Form(email: string, password: string)

  /** The form's inputs, by their `name` attribute. */
  datatype FormField = EmailField | PasswordField

  /** What `login` is called with. */
  datatype Request = Request(email: string, password: string)

  const ENTER_ALL_FIELDS := "Please enter all fields"

  const EMPTY_FORM := Form("", "")

  function FieldValue(f: Form, field: FormField): string {
    match field
    case EmailField => f.email
    case PasswordField => f.password
  }

  /** `{...formData, [name]: value}`: the named field takes the value, the other is kept. */
  function WithField(f: Form, field: FormField, value: string): (r: Form)
    ensures FieldValue(r, field) == value
    ensures forall other :: other != field ==> FieldValue(r, other) == FieldValue(f, other)
  {
    match field
    case EmailField => f.(email := value)
    case PasswordField => f.(password := value)
  }

  /**
   * The check's message, or `None` when the form may be sent: any non-empty
   * email and password pass, with no length or format check.
   */
  function Validate(f: Form): (r: Option<string>)
    ensures r == Some(ENTER_ALL_FIELDS) <==> f.email == "" || f.password == ""
    ensures r == None <==> f.email != "" && f.password != ""
  {
    if f.email == "" || f.password == "" then Some(ENTER_ALL_FIELDS) else None
  }

  class LoginForm {
    var formData: Form
    var formError: string

    constructor ()
      ensures formData == EMPTY_FORM && formError == ""
    {
      formData := EMPTY_FORM;
      formError := "";
    }

    method OnChange(field: FormField, value: string)
      modifies this
      ensures formData == WithField(old(formData), field, value) && formError == old(formError)
    {
      formData := WithField(formData, field, value);
    }

    /**
     * Submit: the shown error is reset, then an incomplete form shows the
     * message and sends nothing; a complete one yields the request `login`
     * receives.
     */
    method OnSubmit() returns (request: Option<Request>)
      modifies this
      ensures formData == old(formData)
      ensures Validate(formData).Some? ==> request == None && formError == ENTER_ALL_FIELDS
      ensures Validate(formData).None? ==>
        request == Some(Request(formData.email, formData.password)) && formError == ""
    {
      formError := "";
      if Validate(formData).Some? {
        formError := ENTER_ALL_FIELDS;
        return None;
      }
      request := Some(Request(formData.email, formData.password));
    }

    /** The effect copying a non-empty session error into the shown error. */
    method ShowSessionError(sessionError: Field)
      modifies this
      ensures formData == old(formData)
      ensures formError == (if Truthy(sessionError) then sessionError.value else old(formError))
    {
      if Truthy(sessionError) {
        formError := sessionError.value;
      }
    }
  }
}
