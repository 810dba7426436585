/** The company-signup form: its field values, its per-field error messages, the
    validation run on submit and the edit handler that clears a field's error. */
module SignupForm {
  import opened Common

  datatype Field = Name | Email | Password | ConfirmPassword | Country | Currency

  datatype SignupData = SignupData(
    name: string, email: string, password: string, confirmPassword: string,
    country: string, currency: string)

  const EmptyForm := SignupData("", "", "", "", "", "")

  function Get(data: SignupData, f: Field): string
  {
    match f
    case Name => data.name
    case Email => data.email
    case Password => data.password
    case ConfirmPassword => data.confirmPassword
    case Country => data.country
    case Currency => data.currency
  }

  /** `{ ...prev, [field]: value }`. */
  function With(data: SignupData, f: Field, value: string): (r: SignupData)
    ensures Get(r, f) == value
    ensures forall g | g != f :: Get(r, g) == Get(data, g)
  {
    match f
    case Name => data.(name := value)
    case Email => data.(email := value)
    case Password => data.(password := value)
    case ConfirmPassword => data.(confirmPassword := value)
    case Country => data.(country := value)
    case Currency => data.(currency := value)
  }

  /** `errors` is what validation records for `data`: at most one message per field,
      each field judged on its own, and nothing ever for the currency. */
  ghost predicate ErrorsFor(data: SignupData, errors: map<Field, string>)
  {
    && Currency !in errors
    && (Name in errors <==> TrimsToEmpty(data.name))
    && (Name in errors ==> errors[Name] == "Name is required")
    && (Email in errors <==> TrimsToEmpty(data.email) || !LooksLikeEmail(data.email))
    && (Email in errors ==>
          errors[Email] == if TrimsToEmpty(data.email) then "Email is required" else "Please enter a valid email")
    && (Password in errors <==> Utf16Length(data.password) < 6)
    && (Password in errors ==>
          errors[Password] == if data.password == "" then "Password is required" else "Password must be at least 6 characters")
    && (ConfirmPassword in errors <==> data.confirmPassword == "" || data.password != data.confirmPassword)
    && (ConfirmPassword in errors ==>
          errors[ConfirmPassword] == if data.confirmPassword == "" then "Please confirm your password" else "Passwords do not match")
    && (Country in errors <==> data.country == "")
    && (Country in errors ==> errors[Country] == "Please select your country")
  }

  /** The error map is determined by the data. */
  lemma ErrorsForUnique(data: SignupData, e1: map<Field, string>, e2: map<Field, string>)
    requires ErrorsFor(data, e1) && ErrorsFor(data, e2)
    ensures e1 == e2
  {
    assert forall f :: f in e1 <==> f in e2 by {
      forall f ensures f in e1 <==> f in e2 {
        match f
        case Name =>
        case Email =>
        case Password =>
        case ConfirmPassword =>
        case Country =>
        case Currency =>
      }
    }
    assert e1.Keys == e2.Keys;
    forall f | f in e1 ensures e1[f] == e2[f] {
      match f
      case Name =>
      case Email =>
      case Password =>
      case ConfirmPassword =>
      case Country =>
      case Currency =>
    }
  }

  /** Submitting the untouched form flags every field but the currency. */
  lemma EmptyFormErrors(errors: map<Field, string>)
    requires ErrorsFor(EmptyForm, errors)
    ensures errors.Keys == {Name, Email, Password, ConfirmPassword, Country}
  {
    assert !LooksLikeEmail(EmptyForm.email);
    forall f ensures f in errors <==> f in {Name, Email, Password, ConfirmPassword, Country} {
      match f
      case Name =>
      case Email =>
      case Password =>
      case ConfirmPassword =>
      case Country =>
      case Currency =>
    }
  }

  /** Every correctly filled form passes: a name that is not blank, an address the
      email test accepts, a password of at least six UTF-16 code units confirmed
      exactly, and a country; the currency is never checked. */
  lemma {:induction false} FilledFormPasses(data: SignupData, errors: map<Field, string>)
    requires !TrimsToEmpty(data.name) && LooksLikeEmail(data.email)
    requires Utf16Length(data.password) >= 6 && data.confirmPassword == data.password
    requires data.country != ""
    requires ErrorsFor(data, errors)
    ensures errors == map[]
  {
    assert data.confirmPassword != "" by {
      assert |data.password| > 0;
    }
    assert errors.Keys == {} by {
      forall f ensures f !in errors {
        match f
        case Name =>
        case Email =>
        case Password =>
        case ConfirmPassword =>
        case Country =>
        case Currency =>
      }
    }
  }

  /** A sample sign-up form that is filled in correctly. */
  lemma SampleFormFilled()
    ensures var d := SignupData("Ann", "ann@corp.io", "secret1", "secret1", "IN", "");
      !TrimsToEmpty(d.name) && LooksLikeEmail(d.email) && Utf16Length(d.password) >= 6
  {
    var s := "ann@corp.io";
    assert EmailMatchAt(s, 3, 8);
    assert !IsWhitespace("Ann"[0]);
  }

  class SignupFormComponent {
    var formData: SignupData
    var errors: map<Field, string>

    constructor ()
      ensures formData == EmptyForm && errors == map[]
    {
      formData := EmptyForm;
      errors := map[];
    }

    /** `validateForm`: fills a fresh error map field by field, stores it, and reports
        whether it stayed empty. */
    method ValidateForm() returns (valid: bool)
      modifies this
      ensures formData == old(formData)
      ensures ErrorsFor(formData, errors)
      ensures valid <==> errors == map[]
    {
      var newErrors: map<Field, string> := map[];
      var data := formData;

      if TrimsToEmpty(data.name) {
        newErrors := newErrors[Name := "Name is required"];
      }
      assert Name in newErrors <==> TrimsToEmpty(data.name);

      if TrimsToEmpty(data.email) {
        newErrors := newErrors[Email := "Email is required"];
      } else if !LooksLikeEmail(data.email) {
        newErrors := newErrors[Email := "Please enter a valid email"];
      }
      assert Email in newErrors <==> TrimsToEmpty(data.email) || !LooksLikeEmail(data.email);

      if data.password == "" {
        newErrors := newErrors[Password := "Password is required"];
      } else if Utf16Length(data.password) < 6 {
        newErrors := newErrors[Password := "Password must be at least 6 characters"];
      }

      if data.confirmPassword == "" {
        newErrors := newErrors[ConfirmPassword := "Please confirm your password"];
      } else if data.password != data.confirmPassword {
        newErrors := newErrors[ConfirmPassword := "Passwords do not match"];
      }

      if data.country == "" {
        newErrors := newErrors[Country := "Please select your country"];
      }

      assert Currency !in newErrors;
      assert Name in newErrors ==> newErrors[Name] == "Name is required";
      assert Email in newErrors ==> newErrors[Email] == if TrimsToEmpty(data.email) then "Email is required" else "Please enter a valid email";
      assert Password in newErrors <==> Utf16Length(data.password) < 6;
      assert ConfirmPassword in newErrors <==> data.confirmPassword == "" || data.password != data.confirmPassword;
      assert Country in newErrors <==> data.country == "";
      assert ErrorsFor(data, newErrors);
      errors := newErrors;
      valid := |newErrors| == 0;
    }

    /** `handleSubmit`: the form data is handed to `onSubmit` only when it validates. */
    method HandleSubmit() returns (submitted: Option<SignupData>)
      modifies this
      ensures formData == old(formData)
      ensures ErrorsFor(formData, errors)
      ensures submitted == if errors == map[] then Some(formData) else None
    {
      var valid := ValidateForm();
      if valid {
        submitted := Some(formData);
      } else {
        submitted := None;
      }
    }

    /** `handleInputChange(field)`: the edited field takes the new value and loses its
        error; every other value and error stays. */
    method HandleInputChange(field: Field, value: string)
      modifies this
      ensures formData == With(old(formData), field, value)
      ensures errors == old(errors) - {field}
    {
      formData := With(formData, field, value);
      if field in errors {
        errors := errors - {field};
      }
    }

    /** The country selector's `onCurrencyChange`: records the currency only. */
    method HandleCurrencyChange(currency: string)
      modifies this
      ensures formData == old(formData).(currency := currency)
      ensures errors == old(errors)
    {
      formData := formData.(currency := currency);
    }
  }
}
