/** The login form: two fields, an error per field, required-field checks on
    the trimmed values, and a submit that calls `login` only on a valid form. */
module LoginScreen {
  import opened Types
  import opened Text
  import AuthContext

  datatype LoginField = UsernameOrEmail | Password

  const UsernameRequired := "Username or email is required"
  const PasswordRequired := "Password is required"

  /** What a submit led to: the form was refused, the screen navigated to
      Main, or the login-failed alert was raised. */
  datatype LoginOutcome = Rejected | NavigateToMain | LoginFailedAlert

  function FieldValue(data: LoginFormData, field: LoginField): string {
    match field
    case UsernameOrEmail => data.usernameOrEmail
    case Password => data.password
  }

  function Other(field: LoginField): LoginField {
    match field
    case UsernameOrEmail => Password
    case Password => UsernameOrEmail
  }

  /** `{ ...prev, [field]: value }` on the form data. */
  function WithField(data: LoginFormData, field: LoginField, value: string): (r: LoginFormData)
    ensures FieldValue(r, field) == value
    ensures FieldValue(r, Other(field)) == FieldValue(data, Other(field))
  {
    match field
    case UsernameOrEmail => data.(usernameOrEmail := value)
    case Password => data.(password := value)
  }

  /** The error map `validateForm` computes: a field is a key exactly when its
      trimmed value is empty, and then carries its required-field message. */
  function FormErrors(data: LoginFormData): (errors: map<LoginField, string>)
    ensures UsernameOrEmail in errors <==> IsBlank(data.usernameOrEmail)
    ensures Password in errors <==> IsBlank(data.password)
    ensures UsernameOrEmail in errors ==> errors[UsernameOrEmail] == UsernameRequired
    ensures Password in errors ==> errors[Password] == PasswordRequired
  {
    var userBlank := IsBlank(data.usernameOrEmail);
    var passwordBlank := IsBlank(data.password);
    if userBlank && passwordBlank then map[UsernameOrEmail := UsernameRequired, Password := PasswordRequired]
    else if userBlank then map[UsernameOrEmail := UsernameRequired]
    else if passwordBlank then map[Password := PasswordRequired]
    else map[]
  }

  /** The form is valid exactly when each field holds some non-whitespace character. */
  lemma FormValidIff(data: LoginFormData)
    ensures FormErrors(data) == map[] <==>
      !AllWhitespace(data.usernameOrEmail) && !AllWhitespace(data.password)
  {
    var e := FormErrors(data);
    if e != map[] {
      var f :| f in e;
      assert f == UsernameOrEmail || f == Password;
    }
  }

  /** The screen's state: the form data and the field errors on display. */
  class LoginScreenState {
    var formData: LoginFormData
    var errors: map<LoginField, string>

    constructor ()
      ensures formData == LoginFormData("", "") && errors == map[]
    {
      formData := LoginFormData("", "");
      errors := map[];
    }

    /** `updateField(field, value)`: sets that field only, and clears that
        field's error only when one is shown. */
    method UpdateField(field: LoginField, value: string)
      modifies this
      ensures formData == WithField(old(formData), field, value)
      ensures errors == if field in old(errors) && old(errors)[field] != "" then old(errors) - {field} else old(errors)
      ensures forall f :: f != field ==> (f in errors <==> f in old(errors)) && (f in errors ==> errors[f] == old(errors)[f])
    {
      formData := WithField(formData, field, value);
      if field in errors && errors[field] != "" {
        errors := errors - {field};
      }
    }

    /** `validateForm`: shows exactly the errors of the current form and
        reports whether there are none. */
    method ValidateForm() returns (valid: bool)
      modifies this`errors
      ensures errors == FormErrors(formData)
      ensures valid <==> errors == map[]
    {
      var userBlank := IsBlank(formData.usernameOrEmail);
      var passwordBlank := IsBlank(formData.password);
      var newErrors: map<LoginField, string> := map[];
      if userBlank {
        newErrors := newErrors[UsernameOrEmail := UsernameRequired];
      }
      if passwordBlank {
        newErrors := newErrors[Password := PasswordRequired];
      }
      ghost var expected := FormErrors(formData);
      assert UsernameOrEmail in expected <==> userBlank;
      assert Password in expected <==> passwordBlank;
      assert newErrors == expected;
      errors := newErrors;
      valid := newErrors.Keys == {};
    }

    /** `handleLogin`: validates; an invalid form never reaches the store; a
        valid one is handed to `login` as typed, untrimmed. */
    method HandleLogin(auth: AuthContext.AuthStore) returns (outcome: LoginOutcome)
      requires auth.Valid()
      modifies this`errors, auth
      ensures auth.Valid()
      ensures errors == FormErrors(formData)
      ensures errors != map[] ==> outcome == Rejected && auth.state == old(auth.state) && auth.dispatched == old(auth.dispatched)
      ensures errors == map[] ==> outcome == NavigateToMain
      ensures errors == map[] ==> auth.dispatched == old(auth.dispatched) + AuthContext.LoginActions(formData)
      ensures errors == map[] ==> auth.state == AuthContext.SignedInAs(AuthContext.LoginUser(formData))
    {
      var valid := ValidateForm();
      if !valid {
        return Rejected;
      }
      var success := auth.Login(formData);
      outcome := if success then NavigateToMain else LoginFailedAlert;
    }
  }
}
