/** The sign-in form: email and password values, their error messages, the
    validation run on submit and the edit handler. */
module LoginForm {
  import opened Common

  datatype Field = Email | Password

  datatype LoginData = LoginData(email: string, password: string)

  function With(data: LoginData, f: Field, value: string): (r: LoginData)
    ensures f == Email ==> r == LoginData(value, data.password)
    ensures f == Password ==> r == LoginData(data.email, value)
  {
    match f
    case Email => data.(email := value)
    case Password => data.(password := value)
  }

  /** What validation records: the two fields are judged independently, and the
      password only has to be non-empty. */
  ghost predicate ErrorsFor(data: LoginData, errors: map<Field, string>)
  {
    && (Email in errors <==> TrimsToEmpty(data.email) || !LooksLikeEmail(data.email))
    && (Email in errors ==>
          errors[Email] == if TrimsToEmpty(data.email) then "Email is required" else "Please enter a valid email")
    && (Password in errors <==> data.password == "")
    && (Password in errors ==> errors[Password] == "Password is required")
  }

  /** Both messages can be shown at once: an empty form gets both. */
  lemma BothErrorsAtOnce(errors: map<Field, string>)
    requires ErrorsFor(LoginData("", ""), errors)
    ensures errors == map[Email := "Email is required", Password := "Password is required"]
  {
    assert TrimsToEmpty("");
    assert Email in errors && Password in errors;
    assert errors.Keys == {Email, Password} by {
      forall f | f in errors ensures f in {Email, Password} {
        match f
        case Email =>
        case Password =>
      }
    }
  }

  /** Any non-empty password is accepted, however short, next to a well-formed email. */
  lemma NoPasswordMinimum(password: string, errors: map<Field, string>)
    requires password != ""
    requires ErrorsFor(LoginData("a@b.c", password), errors)
    ensures errors == map[]
  {
    assert EmailMatchAt("a@b.c", 1, 3);
    assert !TrimsToEmpty("a@b.c") by { assert !IsWhitespace("a@b.c"[0]); }
    assert errors.Keys == {} by {
      forall f ensures f !in errors {
        match f
        case Email =>
        case Password =>
      }
    }
  }

  /** A string without an `@` never passes the email check. */
  lemma EmailNeedsAt(s: string)
    requires forall i | 0 <= i < |s| :: s[i] != '@'
    ensures !LooksLikeEmail(s)
  {
  }

  class LoginFormComponent {
    var formData: LoginData
    var errors: map<Field, string>

    constructor ()
      ensures formData == LoginData("", "") && errors == map[]
    {
      formData := LoginData("", "");
      errors := map[];
    }

    /** `validateForm`. */
    method ValidateForm() returns (valid: bool)
      modifies this
      ensures formData == old(formData)
      ensures ErrorsFor(formData, errors)
      ensures valid <==> errors == map[]
    {
      var newErrors: map<Field, string> := map[];
      var data := formData;

      if TrimsToEmpty(data.email) {
        newErrors := newErrors[Email := "Email is required"];
      } else if !LooksLikeEmail(data.email) {
        newErrors := newErrors[Email := "Please enter a valid email"];
      }

      if data.password == "" {
        newErrors := newErrors[Password := "Password is required"];
      }

      errors := newErrors;
      valid := |newErrors| == 0;
    }

    /** `handleSubmit`: `onSubmit` receives the data only when it validates. */
    method HandleSubmit() returns (submitted: Option<LoginData>)
      modifies this
      ensures formData == old(formData)
      ensures ErrorsFor(formData, errors)
      ensures submitted == if errors == map[] then Some(formData) else None
    {
      var valid := ValidateForm();
      submitted := if valid then Some(formData) else None;
    }

    /** `handleInputChange(field)`: only the edited field's value and error change. */
    method HandleInputChange(field: Field, value: string)
      modifies this
      ensures formData == With(old(formData), field, value)
      ensures errors == old(errors) - {field}
    {
      formData := With(formData, field, value);
      if field in errors {
        errors := errors - {field};
      }
    }
  }
}
