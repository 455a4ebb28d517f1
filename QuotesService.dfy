/** The web front end's access layer to the quotes service: it turns one symbol
    or many into a `q` query, calls the quotes service, and, for every operation
    guarded by a circuit breaker, substitutes a fixed fallback value when the
    call fails. */
module QuotesService {
  import opened Wrappers
  import opened Domain
  import opened Symbols

  /** A request the front end sends to the quotes service. */
  datatype Request =
    | QuotesQuery(q: string)        // GET /v1/quotes?q={q}
    | CompanySearch(name: string)   // GET /v1/company/{name}
    | InstanceInfoQuery             // GET /v1/basics

  /** The quotes service as the front end sees it: what each endpoint answers.
      A failure stands for any error, timeout or open breaker alike. */
  datatype QuotesApi = QuotesApi(
    quotes: string -> Outcome<seq<Quote>>,
    companies: string -> Outcome<seq<CompanyInfo>>,
    basics: Outcome<map<string, string>>)

  /** A value together with the requests made, in order, to compute it. */
  datatype Traced<T> = Traced(value: T, requests: seq<Request>)

  /** The keys of the instance-info map. */
  const InstanceInfoKeys: set<string> := {"applicationName", "instanceIndex", "instanceAddr", "containerAddr"}

  /** The circuit breaker at the entry of a guarded operation: the primary
      result when it succeeds, the fallback value when it fails; the fallback
      makes no request of its own. */
  function Guarded<T>(primary: Traced<Outcome<T>>, fallback: T): (r: Traced<T>)
    ensures r.requests == primary.requests
    ensures primary.value.Success? ==> r.value == primary.value.value
    ensures primary.value.Failure? ==> r.value == fallback
  {
    match primary.value
    case Success(v) => Traced(v, primary.requests)
    case Failure => Traced(fallback, primary.requests)
  }

  /** One request with the comma-separated `symbols` as `q`, answering the
      records as the quotes service sent them. Unguarded: a failure is passed
      on to the caller. */
  function GetMultipleQuotesByQuery(api: QuotesApi, symbols: string): (r: Traced<Outcome<seq<Quote>>>)
    ensures r.requests == [QuotesQuery(symbols)]
    ensures r.value == api.quotes(symbols)
  {
    Traced(api.quotes(symbols), [QuotesQuery(symbols)])
  }

  /** The fallback quote: the requested symbol with status FAILED and nothing
      else set; never the same as the quote with nothing set. */
  function GetQuoteFallback(symbol: string): (r: Quote)
    ensures r.symbol == Some(symbol) && r.status == Some("FAILED") && r.details == map[]
    ensures r != DefaultQuote
  {
    Quote(Some(symbol), Some("FAILED"), map[])
  }

  /** The unguarded body of `GetQuote`: exactly one record is answered as is,
      zero or several give the quote with nothing set. */
  function GetQuotePrimary(api: QuotesApi, symbol: string): (r: Traced<Outcome<Quote>>)
    ensures r.requests == [QuotesQuery(symbol)]
    ensures r.value.Failure? <==> api.quotes(symbol).Failure?
    ensures api.quotes(symbol).Success? && |api.quotes(symbol).value| == 1 ==>
      r.value == Success(api.quotes(symbol).value[0])
    ensures api.quotes(symbol).Success? && |api.quotes(symbol).value| != 1 ==>
      r.value == Success(DefaultQuote)
  {
    var fetched := GetMultipleQuotesByQuery(api, symbol);
    match fetched.value
    case Failure => Traced(Failure, fetched.requests)
    case Success(quotes) =>
      Traced(Success(if |quotes| == 1 then quotes[0] else DefaultQuote), fetched.requests)
  }

  /** The quote for one symbol, by a single quotes request with `q` = the
      symbol, in three distinct outcomes: exactly one record comes back
      unmodified; zero or several give a quote with neither symbol nor status
      set; a failure gives the FAILED fallback for the symbol. */
  function GetQuote(api: QuotesApi, symbol: string): (r: Traced<Quote>)
    ensures r.requests == [QuotesQuery(symbol)]
    ensures api.quotes(symbol).Success? && |api.quotes(symbol).value| == 1 ==>
      r.value == api.quotes(symbol).value[0]
    ensures api.quotes(symbol).Success? && |api.quotes(symbol).value| != 1 ==>
      r.value == DefaultQuote && r.value.symbol.None? && r.value.status.None?
    ensures api.quotes(symbol).Failure? ==>
      r.value.symbol == Some(symbol) && r.value.status == Some("FAILED") && r.value.details == map[]
  {
    Guarded(GetQuotePrimary(api, symbol), GetQuoteFallback(symbol))
  }

  /** The fallback for a company search: no companies. */
  function GetCompaniesFallback(name: string): (r: seq<CompanyInfo>)
    ensures r == []
  {
    []
  }

  /** The companies whose name or symbol matches `name`, by one company search
      with `name` unchanged; no companies when the search fails. */
  function GetCompanies(api: QuotesApi, name: string): (r: Traced<seq<CompanyInfo>>)
    ensures r.requests == [CompanySearch(name)]
    ensures api.companies(name).Success? ==> r.value == api.companies(name).value
    ensures api.companies(name).Failure? ==> r.value == []
  {
    Guarded(Traced(api.companies(name), [CompanySearch(name)]), GetCompaniesFallback(name))
  }

  /** The fallback instance info, filled key by key: exactly the four keys,
      each with its placeholder value. */
  method GetInstanceInfoFallback() returns (info: map<string, string>)
    ensures info.Keys == InstanceInfoKeys
    ensures info["applicationName"] == ""
    ensures info["instanceIndex"] == "0"
    ensures info["instanceAddr"] == "0.0.0.0" && info["containerAddr"] == "0.0.0.0"
  {
    info := map[];
    info := info["applicationName" := ""];
    info := info["instanceIndex" := "0"];
    info := info["instanceAddr" := "0.0.0.0"];
    info := info["containerAddr" := "0.0.0.0"];
  }

  /** The quotes service's instance info, by one request; the four-key
      placeholder map when it fails. */
  method GetInstanceInfo(api: QuotesApi) returns (r: Traced<map<string, string>>)
    ensures r.requests == [InstanceInfoQuery]
    ensures api.basics.Success? ==> r.value == api.basics.value
    ensures api.basics.Failure? ==>
      r.value.Keys == InstanceInfoKeys && r.value["applicationName"] == "" &&
      r.value["instanceIndex"] == "0" && r.value["instanceAddr"] == "0.0.0.0" &&
      r.value["containerAddr"] == "0.0.0.0"
  {
    var fallback := GetInstanceInfoFallback();
    r := Guarded(Traced(api.basics, [InstanceInfoQuery]), fallback);
  }

  /** The fallback for a batch of quotes: no quotes at all, not one per symbol. */
  function GetMultipleQuotesFallback(symbols: seq<string>): (r: seq<Quote>)
    ensures r == []
  {
    []
  }

  /** The quotes for a collection of symbols: the symbols are joined in
      iteration order into one `q`, a comma between each two, and exactly one
      quotes request is made with it (also for the empty collection, with
      q = ""); the records come back as sent, or none when the request fails. */
  method GetMultipleQuotes(api: QuotesApi, symbols: seq<string>) returns (r: Traced<seq<Quote>>)
    ensures r.requests == [QuotesQuery(Join(symbols))]
    ensures api.quotes(Join(symbols)).Success? ==> r.value == api.quotes(Join(symbols)).value
    ensures api.quotes(Join(symbols)).Failure? ==> r.value == []
  {
    var builder := "";
    var i := 0;
    while i < |symbols|
      invariant 0 <= i <= |symbols|
      invariant builder == Join(symbols[..i]) + (if 0 < i < |symbols| then "," else "")
    {
      if i > 0 {
        JoinSnoc(symbols[..i], symbols[i]);
        assert symbols[..i] + [symbols[i]] == symbols[..i + 1];
      }
      builder := builder + symbols[i];
      if i + 1 < |symbols| {
        builder := builder + ",";
      }
      i := i + 1;
    }
    assert symbols[..i] == symbols;
    assert builder == Join(symbols) + "" == Join(symbols);
    r := Guarded(GetMultipleQuotesByQuery(api, builder), GetMultipleQuotesFallback(symbols));
  }

  /** The quotes for an array of symbols: what `GetMultipleQuotes` answers for
      the same symbols in the same order. */
  method GetMultipleQuotesOfArray(api: QuotesApi, symbols: array<string>) returns (r: Traced<seq<Quote>>)
    ensures r.requests == [QuotesQuery(Join(symbols[..]))]
    ensures api.quotes(Join(symbols[..])).Success? ==> r.value == api.quotes(Join(symbols[..])).value
    ensures api.quotes(Join(symbols[..])).Failure? ==> r.value == []
  {
    r := GetMultipleQuotes(api, symbols[..]);
  }

  /** The single-symbol path asks exactly what the batch path asks for a
      one-element collection: the symbol, joined with nothing. */
  lemma GetQuoteIsBatchOfOne(api: QuotesApi, symbol: string)
    ensures GetQuote(api, symbol).requests == [QuotesQuery(Join([symbol]))]
  {
  }

  /** A FAILED status from `GetQuote` with a downstream that never sends a
      FAILED record can only come from the fallback: the call failed. */
  lemma FailedMeansFallback(api: QuotesApi, symbol: string)
    requires forall q :: api.quotes(q).Success? ==>
      forall k :: 0 <= k < |api.quotes(q).value| ==> api.quotes(q).value[k].status != Some("FAILED")
    requires GetQuote(api, symbol).value.status == Some("FAILED")
    ensures api.quotes(symbol).Failure?
    ensures GetQuote(api, symbol).value == GetQuoteFallback(symbol)
  {
  }
}
