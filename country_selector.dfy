/** The country picker of the signup form: it loads the country list once, keeps
    the countries that have a currency object, sorts them by name, and on a
    selection reports the country code and then the country's first currency. */
module CountrySelector {
  import opened Common
  import opened Sorting
  import CountryUtils

  /** One entry of the countries service: `currencies` is `None` when the key is
      absent, otherwise the object's keys in their order (possibly none). */
  datatype Country = Country(commonName: string, currencies: Option<seq<string>>, cca2: string)

  function CommonName(c: Country): string
  {
    c.commonName
  }

  /** `.filter((country) => country.currencies)`: any currency object is truthy,
      an empty one included. */
  function WithCurrencies(data: seq<Country>): (kept: seq<Country>)
    ensures |kept| <= |data|
    ensures forall c :: c in kept <==> c in data && c.currencies.Some?
    ensures forall c: Country | c.currencies.Some? :: multiset(kept)[c] == multiset(data)[c]
  {
    if |data| == 0 then []
    else
      var last := data[|data| - 1];
      assert data == data[..|data| - 1] + [last];
      WithCurrencies(data[..|data| - 1]) + (if last.currencies.Some? then [last] else [])
  }

  /** The list the picker ends up with: the kept countries in `localeCompare`
      order of their names, ties in the service's order. */
  function Loaded(data: seq<Country>, localeLeq: (string, string) -> bool): seq<Country>
  {
    SortBy(WithCurrencies(data), CommonName, localeLeq)
  }

  lemma LoadedIsSortedFilter(data: seq<Country>, localeLeq: (string, string) -> bool, k: string)
    requires TotalPreorder(localeLeq)
    ensures SortedBy(Loaded(data, localeLeq), CommonName, localeLeq)
    ensures multiset(Loaded(data, localeLeq)) == multiset(WithCurrencies(data))
    ensures forall c :: c in Loaded(data, localeLeq) <==> c in data && c.currencies.Some?
    ensures TiedWith(Loaded(data, localeLeq), CommonName, localeLeq, k)
         == TiedWith(WithCurrencies(data), CommonName, localeLeq, k)
  {
    var kept := WithCurrencies(data);
    SortBySorted(kept, CommonName, localeLeq);
    SortByPermutes(kept, CommonName, localeLeq);
    SortByStable(kept, CommonName, localeLeq, k);
    forall c ensures c in Loaded(data, localeLeq) <==> c in kept {
      assert c in Loaded(data, localeLeq) <==> c in multiset(Loaded(data, localeLeq));
    }
  }

  /** The picker and the backend's country endpoint disagree on a country whose
      currency object is empty: the picker lists it, the endpoint leaves it out. */
  lemma {:induction false} EmptyCurrencyObject(name: string, code: string, localeLeq: (string, string) -> bool)
    ensures Country(name, Some([]), code) in Loaded([Country(name, Some([]), code)], localeLeq)
    ensures CountryUtils.Normalised([CountryUtils.RawCountry(name, Some([]))]) == []
  {
    var c := Country(name, Some([]), code);
    var kept := WithCurrencies([c]);
    assert c in kept;
    SortByPermutes(kept, CommonName, localeLeq);
    assert c in multiset(Loaded([c], localeLeq));
    assert [CountryUtils.RawCountry(name, Some([]))][..0] == [];
  }

  /** The two callbacks a selection fires, in order. */
  datatype Event = ValueChanged(code: string) | CurrencyChanged(currency: Option<string>)

  /** `countries.find(country => country.cca2 === code)`. */
  function FindByCode(countries: seq<Country>, code: string): (i: Option<nat>)
    ensures i.Some? ==>
      i.value < |countries| && countries[i.value].cca2 == code
      && forall j | 0 <= j < i.value :: countries[j].cca2 != code
    ensures i.None? ==> forall j | 0 <= j < |countries| :: countries[j].cca2 != code
  {
    if |countries| == 0 then None
    else if countries[0].cca2 == code then Some(0)
    else
      var rest := FindByCode(countries[1..], code);
      if rest.Some? then Some(rest.value + 1) else None
  }

  /** `Object.keys(currencies)[0]`, which is `undefined` for an empty object. */
  function FirstKey(keys: seq<string>): (k: Option<string>)
    ensures k.Some? <==> |keys| > 0
    ensures k.Some? ==> k.value == keys[0]
  {
    if |keys| > 0 then Some(keys[0]) else None
  }

  class CountrySelectorComponent {
    var countries: seq<Country>
    var loading: bool

    /** Only countries with a currency object are ever listed, so the handler's
        own `currencies` test always passes. */
    predicate Valid()
      reads this
    {
      forall j | 0 <= j < |countries| :: countries[j].currencies.Some?
    }

    constructor ()
      ensures countries == [] && loading && Valid()
    {
      countries := [];
      loading := true;
    }

    /** The select's placeholder. */
    function Placeholder(): (text: string)
      reads this
      ensures text == "Loading countries..." <==> loading
    {
      if loading then "Loading countries..." else "Select your country"
    }

    /** The effect's fetch, given what the request and `response.json()` produced
        and the order `localeCompare` defines. A failure leaves the list as it
        was; loading ends either way. */
    method FetchCountries(response: Outcome<seq<Country>>, localeLeq: (string, string) -> bool)
      modifies this
      requires Valid() && TotalPreorder(localeLeq)
      ensures Valid() && !loading
      ensures response.Threw? ==> countries == old(countries)
      ensures response.Returned? ==> countries == Loaded(response.value, localeLeq)
      ensures response.Returned? ==> SortedBy(countries, CommonName, localeLeq)
      ensures response.Returned? ==> forall c :: c in countries <==> c in response.value && c.currencies.Some?
    {
      if response.Returned? {
        var validCountries := Loaded(response.value, localeLeq);
        LoadedIsSortedFilter(response.value, localeLeq, "");
        countries := validCountries;
      }
      loading := false;
    }

    /** `handleCountryChange`: the value callback always fires first; the currency
        callback fires only for a listed code, with the first currency key, or
        `undefined` when the currency object is empty. */
    method HandleCountryChange(code: string) returns (events: seq<Event>)
      requires Valid()
      ensures |events| >= 1 && events[0] == ValueChanged(code)
      ensures |events| == 2 <==> exists j | 0 <= j < |countries| :: countries[j].cca2 == code
      ensures |events| <= 2
      ensures |events| == 2 ==> exists j | 0 <= j < |countries| ::
        countries[j].cca2 == code && (forall i | 0 <= i < j :: countries[i].cca2 != code)
        && events[1] == CurrencyChanged(FirstKey(countries[j].currencies.value))
    {
      events := [ValueChanged(code)];
      var found := FindByCode(countries, code);
      if found.Some? && countries[found.value].currencies.Some? {
        events := events + [CurrencyChanged(FirstKey(countries[found.value].currencies.value))];
      }
    }
  }
}
