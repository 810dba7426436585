/** The admin (company) signup screen: its inputs, its single error message, the
    submit handler's checks and the effect that picks a default country. */
module SignupPage {
  import opened Common
  import opened FrontendTypes

  /** The arguments `onSignup` is called with. */
  datatype SignupCall = SignupCall(name: string, email: string, password: string, country: string)

  const MismatchError := "Passwords do not match."
  const TooShortError := "Password must be at least 6 characters long."

  class SignupPageComponent {
    var name: string
    var email: string
    var password: string
    var confirmPassword: string
    var country: string
    var error: Option<string>

    constructor ()
      ensures name == email == password == confirmPassword == country == ""
      ensures error == None
    {
      name, email, password, confirmPassword, country := "", "", "", "", "";
      error := None;
    }

    /** `handleSubmit`: clears the previous error, then rejects a confirmation that
        differs before it rejects a password shorter than six UTF-16 code units; only a submission that passes
        both reaches `onSignup`, exactly once. */
    method HandleSubmit() returns (call: Option<SignupCall>)
      modifies this`error
      ensures password != confirmPassword ==> error == Some(MismatchError) && call == None
      ensures password == confirmPassword && Utf16Length(password) < 6 ==> error == Some(TooShortError) && call == None
      ensures password == confirmPassword && Utf16Length(password) >= 6 ==>
        error == None && call == Some(SignupCall(name, email, password, country))
    {
      error := None;

      if password != confirmPassword {
        error := Some(MismatchError);
        return None;
      }
      if Utf16Length(password) < 6 {
        error := Some(TooShortError);
        return None;
      }

      call := Some(SignupCall(name, email, password, country));
    }

    /** The effect that runs when the country list arrives: the first country becomes
        the selection, but only when nothing is selected yet. */
    method CountriesLoaded(countries: seq<CountryOption>)
      modifies this`country
      ensures country == if |countries| > 0 && old(country) == "" then countries[0].name else old(country)
    {
      if |countries| > 0 && country == "" {
        country := countries[0].name;
      }
    }
  }

  /** Length is counted in UTF-16 code units: three characters from outside the
      Basic Multilingual Plane make a password long enough. */
  lemma {:induction false} AstralPasswordLongEnough()
    ensures |"\U{1F600}\U{1F600}\U{1F600}"| == 3
    ensures Utf16Length("\U{1F600}\U{1F600}\U{1F600}") == 6
  {
    var s := "\U{1F600}\U{1F600}\U{1F600}";
    assert s[1..][1..][1..] == [];
  }
}
