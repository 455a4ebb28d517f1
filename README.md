# Quote access layer of the Pivotal Bank demo, in Dafny

This project models how the bank's web front end (`web-ui`) gets quotes and
company data from the quotes service (`quotes-service`), and how the quotes
service's version-1 controller handles those requests.

- The front end's `QuotesService` joins a collection of symbols into one
  comma-separated `q` parameter and makes one request with it. It serves a
  single symbol through the same batch endpoint and then checks how many
  records came back. Every operation guarded by a circuit breaker has a fixed
  fallback value that is used when the call fails.
- The quotes service's `QuoteV1Controller.getQuotes` splits `q` with Java's
  `String.split(",")`. If there is more than one token it sends the whole
  query to the batch lookup. If there is one token it looks that token up
  alone. `getCompanies` passes the search term straight through.

Modules (one file each):

- `Wrappers`: `Option` (a Java reference that may be null) and `Outcome`
  (a call that either fails or succeeds with a value).
- `Domain`: `Quote` and `CompanyInfo`. Only a quote's symbol and status
  matter here; all other fields are an opaque map.
- `Symbols`: the join (`Join`), splitting into all pieces (`Fields`), and
  Java's `String.split(",")` (`Split`), plus the lemmas that relate them.
- `QuotesService`: the front end's operations, the fallbacks, and the breaker
  wrapper `Guarded`.
- `QuoteV1Controller`: the quotes endpoint and the company endpoint.
- `EndToEnd`: the two services put together.

Calls to other components are oracles passed in as parameters:

- `QuotesApi` is the HTTP endpoints as seen by the front end.
- `QuoteService` is the service object behind the controller.

Each operation returns the requests or calls it made, in order. This makes
statements like "exactly one request, with `q` equal to the joined symbols"
and "no call at all" part of the contracts.

The circuit breaker is modelled only as "failure gives the fallback". The
wrapper is applied once, where the source puts the annotation: on `getQuote`,
`getCompanies`, `getInstanceInfo` and the `Collection` overload of
`getMultipleQuotes`. The `String` overload has no wrapper, so a failure inside
it reaches `getQuote`'s wrapper. In the model, the `String[]` overload gets
its fallback through the `Collection` overload it calls.

Behaviour of the code worth knowing:

- An empty symbol collection does not short-circuit. It joins to `q = ""` and
  a request is still made (`QuotesService.GetMultipleQuotes`,
  `EndToEnd.EmptyCollectionIsSingleLookup`).
- A query made only of commas (`","`, `",,"`) splits to no tokens in Java.
  The controller still reads `splitQuery[0]`, so it raises an
  index-out-of-bounds exception before any service call. It does not take
  the batch path (`QuoteV1Controller.OnlyCommasRaise`).
- `getQuote` passes the bare symbol to the `String` overload; it does not
  build a one-element set. The wire query is the same as joining a
  one-element collection (`QuotesService.GetQuoteIsBatchOfOne`).
- When the result count is wrong, `getQuote` returns a quote with neither
  symbol nor status set.

## Model

| member | source | states |
|---|---|---|
| `Symbols.Join` | web-ui/src/main/java/io/pivotal/web/service/QuotesService.java:132-138 | the empty collection joins to "" and a one-element collection to its element unchanged |
| `Symbols.JoinEnds` | web-ui/src/main/java/io/pivotal/web/service/QuotesService.java:132-138 | a join starts with the first symbol and ends with the last, so it has no comma before the first or after the last |
| `Symbols.FieldsOfJoin` | web-ui/src/main/java/io/pivotal/web/service/QuotesService.java:132-138 | splitting a join of comma-free symbols at every comma gives back exactly those symbols in order, so exactly one comma separates each pair |
| `Symbols.JoinOfFields` | quotes-service/src/main/java/io/pivotal/quotes/controller/QuoteV1Controller.java:73 | joining the pieces of any query between its commas rebuilds the query, so splitting loses nothing |
| `Symbols.Fields` | quotes-service/src/main/java/io/pivotal/quotes/controller/QuoteV1Controller.java:73 | the pieces between commas hold no comma; n commas give n + 1 pieces; there is one piece (the string) when there is no comma |
| `Symbols.TrimTrailingEmpty` | quotes-service/src/main/java/io/pivotal/quotes/controller/QuoteV1Controller.java:73 | the result is a prefix of the input, everything dropped is empty, and the last element kept is non-empty |
| `Symbols.Split` | quotes-service/src/main/java/io/pivotal/quotes/controller/QuoteV1Controller.java:73 | Java `split(",")`: a string without a comma (including "") is one token; otherwise the tokens are the pieces minus trailing empty ones; no token holds a comma |
| `Symbols.SplitOfJoin` | quotes-service/src/main/java/io/pivotal/quotes/controller/QuoteV1Controller.java:73 | splitting a join of two or more comma-free symbols gives the symbols back, less trailing empty ones |
| `Symbols.SplitOfSymbol` | quotes-service/src/main/java/io/pivotal/quotes/controller/QuoteV1Controller.java:73 | a single comma-free symbol, even "", splits to itself |
| `Symbols.SplitEmptyIff` | quotes-service/src/main/java/io/pivotal/quotes/controller/QuoteV1Controller.java:73 | the split has no token exactly when the query is a non-empty run of commas |
| `Symbols.SplitTrailingComma` | quotes-service/src/main/java/io/pivotal/quotes/controller/QuoteV1Controller.java:73 | "ABC," splits to the single token "ABC" |
| `Symbols.SplitLeadingComma` | quotes-service/src/main/java/io/pivotal/quotes/controller/QuoteV1Controller.java:73 | ",ABC" splits to the two tokens "" and "ABC" |
| `QuotesService.Guarded` | web-ui/src/main/java/io/pivotal/web/service/QuotesService.java:41 | a guarded operation answers its primary result on success and its fallback on failure; the fallback makes no request |
| `QuotesService.GetMultipleQuotesByQuery` | web-ui/src/main/java/io/pivotal/web/service/QuotesService.java:104-111 | exactly one quotes request, with `q` equal to the given string, and the records are returned as sent |
| `QuotesService.GetQuoteFallback` | web-ui/src/main/java/io/pivotal/web/service/QuotesService.java:53-59 | the symbol is set to the requested symbol, the status is "FAILED" and nothing else is set; this is never the default quote |
| `QuotesService.GetQuotePrimary` | web-ui/src/main/java/io/pivotal/web/service/QuotesService.java:42-51 | one request with `q` = the symbol; the unguarded lookup fails exactly when that request fails; exactly one record is answered as is, zero or several give the default quote |
| `QuotesService.GetQuote` | web-ui/src/main/java/io/pivotal/web/service/QuotesService.java:41-58 | one request with `q` = the symbol; exactly one record is returned unmodified; zero or several give the quote with symbol and status unset; a failure gives the FAILED fallback |
| `QuotesService.FailedMeansFallback` | web-ui/src/main/java/io/pivotal/web/service/QuotesService.java:41-58 | if the downstream never sends a FAILED record, a FAILED quote from `GetQuote` means the request failed and the fallback was used |
| `QuotesService.GetQuoteIsBatchOfOne` | web-ui/src/main/java/io/pivotal/web/service/QuotesService.java:44 | the single-symbol path sends the same `q` as joining a one-element collection |
| `QuotesService.GetCompaniesFallback` | web-ui/src/main/java/io/pivotal/web/service/QuotesService.java:94-97 | the company-search fallback is the empty list |
| `QuotesService.GetCompanies` | web-ui/src/main/java/io/pivotal/web/service/QuotesService.java:60-65 | one company search with the name unchanged; the service's list on success, the empty list on failure |
| `QuotesService.GetInstanceInfoFallback` | web-ui/src/main/java/io/pivotal/web/service/QuotesService.java:80-88 | exactly the keys applicationName, instanceIndex, instanceAddr and containerAddr, mapped to "", "0", "0.0.0.0" and "0.0.0.0" |
| `QuotesService.GetInstanceInfo` | web-ui/src/main/java/io/pivotal/web/service/QuotesService.java:73-78 | one instance-info request; the service's map on success, the four-key placeholder map on failure |
| `QuotesService.GetMultipleQuotesFallback` | web-ui/src/main/java/io/pivotal/web/service/QuotesService.java:142-146 | the batch fallback is the empty list, not one quote per symbol |
| `QuotesService.GetMultipleQuotes` | web-ui/src/main/java/io/pivotal/web/service/QuotesService.java:129-140 | the builder loop sends exactly one request whose `q` is the ordered join of the symbols (q = "" for none); the records come back as sent, or none on failure |
| `QuotesService.GetMultipleQuotesOfArray` | web-ui/src/main/java/io/pivotal/web/service/QuotesService.java:118-122 | the array overload makes the same request and gives the same answer as the collection overload for the same symbols in the same order |
| `QuoteV1Controller.NoCacheHeaders` | quotes-service/src/main/java/io/pivotal/quotes/controller/QuoteV1Controller.java:104-108 | the headers are exactly `Cache-Control: no-cache` |
| `QuoteV1Controller.GetQuotes` | quotes-service/src/main/java/io/pivotal/quotes/controller/QuoteV1Controller.java:66-82 | no `q`: an empty list and no call; more than one token: one batch call with the unsplit query, whose list is answered; one token: one single lookup, answered as a one-element list; no token: an exception and no call; every response is 200 OK with no-cache; at most one call |
| `QuoteV1Controller.GetCompanies` | quotes-service/src/main/java/io/pivotal/quotes/controller/QuoteV1Controller.java:92-97 | one company lookup with the name unchanged; its list is answered unchanged with 200 OK |
| `QuoteV1Controller.SingleSymbolIsSingleLookup` | quotes-service/src/main/java/io/pivotal/quotes/controller/QuoteV1Controller.java:76-79 | a comma-free `q`, even "", is looked up alone and answered as `[getQuote(q)]` |
| `QuoteV1Controller.TrailingCommaIsSingleLookup` | quotes-service/src/main/java/io/pivotal/quotes/controller/QuoteV1Controller.java:73-79 | a trailing comma does not force the batch path: "ABC," is looked up as "ABC" |
| `QuoteV1Controller.LeadingCommaIsBatch` | quotes-service/src/main/java/io/pivotal/quotes/controller/QuoteV1Controller.java:73-75 | ",ABC" gives two tokens and is sent whole to the batch lookup |
| `QuoteV1Controller.OnlyCommasRaise` | quotes-service/src/main/java/io/pivotal/quotes/controller/QuoteV1Controller.java:73-78 | the endpoint raises the index-out-of-bounds exception exactly when `q` is a non-empty run of commas |
| `EndToEnd.JoinedSymbolsStayBatch` | quotes-service/src/main/java/io/pivotal/quotes/controller/QuoteV1Controller.java:73-75 | the front end's join of two or more comma-free symbols, the last non-empty, reaches the batch lookup whole |
| `EndToEnd.JoinedSymbolsDispatch` | quotes-service/src/main/java/io/pivotal/quotes/controller/QuoteV1Controller.java:73-79 | for two or more comma-free symbols, the path depends on the symbols left after dropping trailing empty ones: two or more go to the batch lookup, one is looked up alone, none raises |
| `EndToEnd.EmptyCollectionIsSingleLookup` | web-ui/src/main/java/io/pivotal/web/service/QuotesService.java:130-139 | the empty collection's query "" arrives as a single lookup of "" |
| `EndToEnd.QuoteThroughBothServices` | web-ui/src/main/java/io/pivotal/web/service/QuotesService.java:42-58 | with the controller serving the front end, `GetQuote` of a comma-free symbol is the service's quote unmodified, or the FAILED fallback when the lookup throws |

## Left out

- The circuit breaker's state machine (closed, open, half-open), its thresholds and timeouts, and the independence of the breakers: these live in the Hystrix library. An open breaker and a failed call lead to the same fallback. The requests recorded are the ones the code attempts; a short-circuit that skips the request is not distinguished.
- Whether the framework's proxy applies a fallback on a call from inside the same class: this cannot be decided from the source. Each wrapper sits at its annotated method's own entry.
- HTTP transport: URL building, load-balanced target resolution, and JSON decoding (including a null array that makes `Arrays.asList` throw). Within each service these are folded into the oracle's `Failure`; between the services see `EndToEnd.Deployed` below.
- EndToEnd.Deployed: assumes the HTTP hop between the services loses nothing: `q` reaches the controller exactly as sent, and every controller response reaches the front end with its body unchanged. In the source the two services have different `Quote` classes linked only through JSON, so the "unmodified" of `QuoteThroughBothServices` and the "whole" of the `JoinedSymbols*` lemmas hold under this assumption, not by the code.
- Null inputs on the front end: the model takes `seq<string>`, so a null collection (which throws inside the guarded method and gives the `[]` fallback) and a null element (appended as "null") are not modelled.
- `killInstance` in the front end and `kill` in the controller: an unguarded passthrough; and a thread that sleeps and then ends the process.
- `handleException`, `logInstanceInfo` and all logging: servlet I/O. A request that throws ends in `Raised`; the 500 response written by the handler is not modelled.
- The authentication provider, the quote service's implementation, `EnvironmentHelper` and the domain classes: they are not part of this model. Quote and company fields other than symbol and status are an opaque map.
- The instance-info map's values are Java `Object`s; the model uses strings.
- That the symbols in a batch answer are a subset of the symbols asked for: this depends on the remote service, not on this code.
