/** The quotes service's version-1 REST endpoints for quotes and companies:
    `GET /v1/quotes?q=...` and `GET /v1/company/{name}`. */
module QuoteV1Controller {
  import opened Wrappers
  import opened Domain
  import opened Symbols

  /** A call the controller makes on the quote service behind it. */
  datatype ServiceCall =
    | QuoteCall(symbol: string)
    | QuotesCall(query: string)
    | CompanyInfoCall(name: string)

  /** The quote service behind the controller; a failure stands for an
      exception it throws (an unknown symbol, say). */
  datatype QuoteService = QuoteService(
    getQuote: string -> Outcome<Quote>,
    getQuotes: string -> Outcome<seq<Quote>>,
    getCompanyInfo: string -> Outcome<seq<CompanyInfo>>)

  type Headers = map<string, string>

  /** HTTP 200 OK. */
  const StatusOk: int := 200

  /** Why a request left the controller by an exception. */
  datatype Fault =
    | IndexOutOfBounds  // the split query had no token to take
    | ServiceFailed     // the quote service threw

  /** What a handler gives back: a response, or an exception handed to the
      framework's exception handler. */
  datatype Reply<T> =
    | Response(body: T, headers: Headers, status: int)
    | Raised(fault: Fault)

  /** A reply together with the service calls made, in order, to build it. */
  datatype Handled<T> = Handled(reply: Reply<T>, calls: seq<ServiceCall>)

  /** Response headers that forbid caching: exactly `Cache-Control: no-cache`. */
  function NoCacheHeaders(): (h: Headers)
    ensures h.Keys == {"Cache-Control"} && h["Cache-Control"] == "no-cache"
  {
    map["Cache-Control" := "no-cache"]
  }

  /** `GET /v1/quotes?q=query`, `query` being None when `q` is absent.
      No `q`: an empty list and no service call. Otherwise `q` is split on
      commas: more than one token sends the whole, unsplit `q` to the batch
      lookup; exactly one token looks that token up alone and answers a
      one-element list; no token at all (a `q` of commas only) raises an
      index-out-of-bounds exception before any call. Every response is 200 OK
      and carries the no-cache header; at most one service call is made. */
  function GetQuotes(service: QuoteService, query: Option<string>): (r: Handled<seq<Quote>>)
    ensures query.None? ==> r.calls == [] && r.reply == Response([], NoCacheHeaders(), StatusOk)
    ensures r.reply.Response? ==>
      r.reply.status == StatusOk && "Cache-Control" in r.reply.headers &&
      r.reply.headers["Cache-Control"] == "no-cache"
    ensures |r.calls| <= 1
    ensures query.Some? && |Split(query.value)| > 1 ==>
      r.calls == [QuotesCall(query.value)] &&
      match service.getQuotes(query.value)
      case Success(quotes) => r.reply.Response? && r.reply.body == quotes
      case Failure => r.reply == Raised(ServiceFailed)
    ensures query.Some? && |Split(query.value)| == 1 ==>
      var token := Split(query.value)[0];
      r.calls == [QuoteCall(token)] &&
      match service.getQuote(token)
      case Success(quote) => r.reply.Response? && r.reply.body == [quote]
      case Failure => r.reply == Raised(ServiceFailed)
    ensures query.Some? && |Split(query.value)| == 0 ==>
      r.calls == [] && r.reply == Raised(IndexOutOfBounds)
  {
    match query
    case None => Handled(Response([], NoCacheHeaders(), StatusOk), [])
    case Some(q) =>
      var tokens := Split(q);
      if |tokens| > 1 then
        match service.getQuotes(q)
        case Success(quotes) => Handled(Response(quotes, NoCacheHeaders(), StatusOk), [QuotesCall(q)])
        case Failure => Handled(Raised(ServiceFailed), [QuotesCall(q)])
      else if |tokens| == 0 then
        Handled(Raised(IndexOutOfBounds), [])
      else
        match service.getQuote(tokens[0])
        case Success(quote) => Handled(Response([quote], NoCacheHeaders(), StatusOk), [QuoteCall(tokens[0])])
        case Failure => Handled(Raised(ServiceFailed), [QuoteCall(tokens[0])])
  }

  /** `GET /v1/company/{name}`: one company lookup with `name` unchanged, whose
      list is answered unchanged with 200 OK and no extra headers. */
  function GetCompanies(service: QuoteService, name: string): (r: Handled<seq<CompanyInfo>>)
    ensures r.calls == [CompanyInfoCall(name)]
    ensures service.getCompanyInfo(name).Success? ==>
      r.reply == Response(service.getCompanyInfo(name).value, map[], StatusOk)
    ensures service.getCompanyInfo(name).Failure? ==> r.reply == Raised(ServiceFailed)
  {
    match service.getCompanyInfo(name)
    case Success(companies) => Handled(Response(companies, map[], StatusOk), [CompanyInfoCall(name)])
    case Failure => Handled(Raised(ServiceFailed), [CompanyInfoCall(name)])
  }

  /** A comma-free symbol is looked up alone, exactly as `getQuote` would answer
      it, wrapped in a one-element list; this holds for the empty `q` too. */
  lemma SingleSymbolIsSingleLookup(service: QuoteService, symbol: string)
    requires ',' !in symbol
    ensures GetQuotes(service, Some(symbol)).calls == [QuoteCall(symbol)]
    ensures service.getQuote(symbol).Success? ==>
      GetQuotes(service, Some(symbol)).reply.Response? &&
      GetQuotes(service, Some(symbol)).reply.body == [service.getQuote(symbol).value]
  {
  }

  /** A trailing comma does not force the batch path: "ABC," is looked up as "ABC". */
  lemma TrailingCommaIsSingleLookup(service: QuoteService, symbol: string)
    requires symbol != "" && ',' !in symbol
    ensures GetQuotes(service, Some(symbol + ",")).calls == [QuoteCall(symbol)]
  {
    SplitTrailingComma(symbol);
  }

  /** A leading comma gives two tokens: ",ABC" goes to the batch lookup whole. */
  lemma LeadingCommaIsBatch(service: QuoteService, symbol: string)
    requires symbol != "" && ',' !in symbol
    ensures GetQuotes(service, Some("," + symbol)).calls == [QuotesCall("," + symbol)]
  {
    SplitLeadingComma(symbol);
  }

  /** A `q` made of commas only makes no call and raises, exactly those. */
  lemma OnlyCommasRaise(service: QuoteService, q: string)
    ensures GetQuotes(service, Some(q)).reply == Raised(IndexOutOfBounds)
        <==> (|q| > 0 && forall j :: 0 <= j < |q| ==> q[j] == ',')
  {
    SplitEmptyIff(q);
  }
}
