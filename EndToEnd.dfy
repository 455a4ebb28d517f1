/** The two services put together: the front end's `q`, built by joining
    symbols, is taken apart again by the quotes endpoint. */
module EndToEnd {
  import opened Wrappers
  import opened Domain
  import opened Symbols
  import opened QuotesService
  import opened QuoteV1Controller

  /** What the front end sees of a controller reply: a response's body, or a
      failure when the request ended in an exception. */
  function AsOutcome<T>(reply: Reply<T>): (o: Outcome<T>)
    ensures reply.Response? <==> o.Success?
    ensures reply.Response? ==> o.value == reply.body
  {
    match reply
    case Response(body, _, _) => Success(body)
    case Raised(_) => Failure
  }

  /** The front end's view of a quotes service whose endpoints are this
      controller over `service`; `basics` (the instance-info endpoint) is not
      part of the controller modelled here. */
  function Deployed(service: QuoteService, basics: Outcome<map<string, string>>): (api: QuotesApi)
    ensures api.basics == basics
  {
    QuotesApi(
      (q: string) => AsOutcome(GetQuotes(service, Some(q)).reply),
      (name: string) => AsOutcome(QuoteV1Controller.GetCompanies(service, name).reply),
      basics)
  }

  /** Joining two or more comma-free symbols whose last one is non-empty gives
      a `q` that the endpoint sends whole to the batch lookup. */
  lemma JoinedSymbolsStayBatch(service: QuoteService, symbols: seq<string>)
    requires |symbols| >= 2 && CommaFree(symbols) && symbols[|symbols| - 1] != ""
    ensures GetQuotes(service, Some(Join(symbols))).calls == [QuotesCall(Join(symbols))]
  {
    SplitOfJoin(symbols);
    assert TrimTrailingEmpty(symbols) == symbols;
  }

  /** For two or more comma-free symbols, the endpoint's path is decided by the
      symbols left once trailing empty ones are dropped: two or more go batch
      with the whole joined `q`, one is looked up alone, none raises. */
  lemma JoinedSymbolsDispatch(service: QuoteService, symbols: seq<string>)
    requires |symbols| >= 2 && CommaFree(symbols)
    ensures var kept := TrimTrailingEmpty(symbols);
      var r := GetQuotes(service, Some(Join(symbols)));
      (|kept| > 1 ==> r.calls == [QuotesCall(Join(symbols))]) &&
      (|kept| == 1 ==> r.calls == [QuoteCall(symbols[0])]) &&
      (|kept| == 0 ==> r.calls == [] && r.reply == Raised(IndexOutOfBounds))
  {
    SplitOfJoin(symbols);
  }

  /** The empty collection joins to q = "", which the endpoint looks up as the
      single symbol "": a request is made, nothing short-circuits. */
  lemma EmptyCollectionIsSingleLookup(service: QuoteService)
    ensures GetQuotes(service, Some(Join([]))).calls == [QuoteCall("")]
  {
    SplitOfSymbol("");
  }

  /** The front end's `GetQuote` for a comma-free symbol, served by the
      controller: the service's quote unmodified, or the FAILED fallback when
      the lookup throws. */
  lemma QuoteThroughBothServices(service: QuoteService, basics: Outcome<map<string, string>>, symbol: string)
    requires ',' !in symbol
    ensures service.getQuote(symbol).Success? ==>
      GetQuote(Deployed(service, basics), symbol).value == service.getQuote(symbol).value
    ensures service.getQuote(symbol).Failure? ==>
      GetQuote(Deployed(service, basics), symbol).value == GetQuoteFallback(symbol)
  {
    SingleSymbolIsSingleLookup(service, symbol);
  }
}
