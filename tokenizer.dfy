/**
 * The outcome of the external HTTP/1.x request tokenizer (the `httparse`
 * crate, which checks request syntax per section 3 of RFC 7230). Its
 * scanning is not modelled; what decode relies on is its outcome and the
 * guarantees stated by ScanContract.
 */
module Tokenizer {
  import opened Buffers
  import opened Slices

  /** The number of header slots decode hands to the tokenizer. */
  const MAX_HEADERS := 16

  /** The tokenizer's error kinds. */
  datatype ParseError =
    | HeaderName
    | HeaderValue
    | NewLine
    | Status
    | Token
    | TooManyHeaders
    | Version

  /** The `{:?}` rendering of an error kind, which is its variant name. */
  function ErrorName(e: ParseError): (name: string)
    ensures name != []
  {
    match e
    case HeaderName => "HeaderName"
    case HeaderValue => "HeaderValue"
    case NewLine => "NewLine"
    case Status => "Status"
    case Token => "Token"
    case TooManyHeaders => "TooManyHeaders"
    case Version => "Version"
  }

  /** One header's name and value, as sub-ranges of the scanned buffer. */
  datatype HeaderSpans = HeaderSpans(name: Span, value: Span)

  /**
   * What one scan reports: more bytes are needed, the bytes are malformed
   * (a request with more than MAX_HEADERS headers included), or the request
   * line and headers occupy the first `amt` bytes.
   */
  datatype ScanStatus =
    | Partial
    | Failed(error: ParseError)
    | Complete(amt: nat, httpMethod: Span, path: Span, version: uint8, headers: seq<HeaderSpans>)

  /** A sub-range that starts and ends inside the first `amt` bytes. */
  predicate Within(sp: Span, amt: nat)
  {
    sp.offset < amt && SpanFits(sp, amt)
  }

  /**
   * The tokenizer's guarantees about a scan of `len` bytes: on Complete the
   * consumed prefix lies inside the buffer, every reported sub-range lies
   * inside that prefix, and at most MAX_HEADERS headers are reported, in
   * wire order.
   */
  predicate ScanContract(st: ScanStatus, len: nat)
  {
    st.Complete? ==>
      && st.amt <= len
      && Within(st.httpMethod, st.amt)
      && Within(st.path, st.amt)
      && |st.headers| <= MAX_HEADERS
      && forall i :: 0 <= i < |st.headers| ==>
           Within(st.headers[i].name, st.amt) && Within(st.headers[i].value, st.amt)
  }
}
