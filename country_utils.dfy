/** The backend's utility endpoints: the country list offered at signup (name and
    primary currency of every country that has one, sorted by name) and the
    currency-conversion lookup. The two upstream services are oracles. */
module CountryUtils {
  import opened Common
  import opened Sorting

  const CountriesApiUrl := "https://restcountries.com/v3.1/all?fields=name,currencies"
  const ExchangeRateApiUrl := "https://api.exchangerate-api.com/v4/latest/"

  /** One country object of the upstream reply: `name.common`, and the keys of its
      `currencies` object in their order, or `None` when the key is absent or null. */
  datatype RawCountry = RawCountry(commonName: string, currencies: Option<seq<string>>)

  /** One element of the endpoint's response. */
  datatype CountryInfo = CountryInfo(name: string, currencyCode: string)

  /** What the HTTP client reports: an error status (raised by `raise_for_status`),
      a failure to connect, or the decoded body. */
  datatype Upstream<+T> = StatusError(status: int) | ConnectError | Body(data: T)

  datatype HttpError = HttpError(code: int, detail: string)

  datatype Result<+T> = Ok(value: T) | Err(error: HttpError)

  /** A country is listed when its `currencies` object is present and non-empty. */
  predicate Listed(c: RawCountry)
  {
    c.currencies.Some? && |c.currencies.value| > 0
  }

  /** The response entry for a listed country: its common name and first currency key. */
  function Entry(c: RawCountry): (e: CountryInfo)
    requires Listed(c)
    ensures e.name == c.commonName && e.currencyCode == c.currencies.value[0]
  {
    CountryInfo(c.commonName, c.currencies.value[0])
  }

  /** The entries the loop appends, in upstream order. */
  function Normalised(data: seq<RawCountry>): (r: seq<CountryInfo>)
    ensures |r| <= |data|
    ensures forall e | e in r :: exists c | c in data :: Listed(c) && e == Entry(c)
    ensures forall c | c in data && Listed(c) :: Entry(c) in r
  {
    if data == [] then []
    else
      var init := data[..|data| - 1];
      var last := data[|data| - 1];
      assert forall c :: c in data <==> c in init || c == last;
      Normalised(init) + (if Listed(last) then [Entry(last)] else [])
  }

  function Name(e: CountryInfo): string
  {
    e.name
  }

  /** How a failed upstream call is reported to the caller: an error status is passed
      through with its own code, a connection failure becomes 503. */
  function UpstreamError<T>(u: Upstream<T>, service: string): (e: HttpError)
    requires !u.Body?
    ensures u.StatusError? ==> e.code == u.status
    ensures u.ConnectError? ==> e.code == 503
  {
    if u.StatusError? then HttpError(u.status, "Error fetching data from " + service + " API.")
    else HttpError(503, "Service unavailable: Could not connect to " + service + " API.")
  }

  /** `get_countries_and_currencies`: builds the list with a loop, then sorts it in
      place by name (Python's sort is stable). */
  method GetCountriesAndCurrencies(upstream: Upstream<seq<RawCountry>>) returns (r: Result<seq<CountryInfo>>)
    ensures !upstream.Body? ==> r == Err(UpstreamError(upstream, "RestCountries"))
    ensures upstream.Body? ==>
      && r.Ok?
      && r.value == SortBy(Normalised(upstream.data), Name, PyLeq)
      && SortedBy(r.value, Name, PyLeq)
      && multiset(r.value) == multiset(Normalised(upstream.data))
      && |r.value| <= |upstream.data|
      && (forall k :: TiedWith(r.value, Name, PyLeq, k) == TiedWith(Normalised(upstream.data), Name, PyLeq, k))
  {
    if !upstream.Body? {
      return Err(UpstreamError(upstream, "RestCountries"));
    }
    var data := upstream.data;
    var countriesInfo: seq<CountryInfo> := [];
    var i := 0;
    while i < |data|
      invariant 0 <= i <= |data|
      invariant countriesInfo == Normalised(data[..i])
    {
      var country := data[i];
      if country.currencies.Some? && |country.currencies.value| > 0 {
        var currencyCode := country.currencies.value[0];
        countriesInfo := countriesInfo + [CountryInfo(country.commonName, currencyCode)];
      }
      assert data[..i + 1][..i] == data[..i];
      i := i + 1;
    }
    assert data[..i] == data;
    PyLeqTotalPreorder();
    SortByPermutes(countriesInfo, Name, PyLeq);
    SortBySorted(countriesInfo, Name, PyLeq);
    forall k ensures TiedWith(SortBy(countriesInfo, Name, PyLeq), Name, PyLeq, k) == TiedWith(countriesInfo, Name, PyLeq, k) {
      SortByStable(countriesInfo, Name, PyLeq, k);
    }
    r := Ok(SortBy(countriesInfo, Name, PyLeq));
  }

  /** The URL of the rate request: the base currency is upper-cased into it. */
  function RateUrl(baseCurrency: string): string
  {
    ExchangeRateApiUrl + Upper(baseCurrency)
  }

  /** The fields of the conversion response other than the two computed amounts. */
  datatype Conversion = Conversion(baseCurrency: string, targetCurrency: string, conversionRate: real)

  /** `convert_currency` without its arithmetic. `fetch` answers a URL with the decoded
      `rates` object, `None` when the body has no `rates` key or it is null. */
  function ConvertCurrency(baseCurrency: string, targetCurrency: string,
                           fetch: string -> Upstream<Option<map<string, real>>>): (r: Result<Conversion>)
    ensures var u := fetch(RateUrl(baseCurrency));
      && (!u.Body? ==> r == Err(UpstreamError(u, "ExchangeRate")))
      && (u.Body? && (u.data.None? || |u.data.value| == 0 || Upper(targetCurrency) !in u.data.value) ==>
            r.Err? && r.error.code == 404)
      && (r.Ok? <==> u.Body? && u.data.Some? && Upper(targetCurrency) in u.data.value)
      && (r.Ok? ==> r.value == Conversion(Upper(baseCurrency), Upper(targetCurrency), u.data.value[Upper(targetCurrency)]))
  {
    var u := fetch(RateUrl(baseCurrency));
    if !u.Body? then Err(UpstreamError(u, "ExchangeRate"))
    else if u.data.None? || |u.data.value| == 0 || Upper(targetCurrency) !in u.data.value then
      Err(HttpError(404, "Target currency '" + targetCurrency + "' not found for base '" + baseCurrency + "'."))
    else
      var rate := u.data.value[Upper(targetCurrency)];
      Ok(Conversion(Upper(baseCurrency), Upper(targetCurrency), rate))
  }
}
