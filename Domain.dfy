/** The records exchanged between the web front end and the quotes service. */
module Domain {
  import opened Wrappers

  /** A quote. Only the symbol and the status matter to the access layer; every
      other field (price, volume, name, ...) is kept as an opaque name-to-text map,
      where the empty map means "nothing set". */
  datatype Quote = Quote(symbol: Option<string>, status: Option<string>, details: map<string, string>)

  /** A company record; its fields are opaque to the access layer. */
  datatype CompanyInfo = CompanyInfo(details: map<string, string>)

  /** The quote built by the no-argument constructor: nothing is set. */
  const DefaultQuote: Quote := Quote(None, None, map[])
}
