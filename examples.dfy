/**
 * Clients of Decode that replay the decoder's documented scenarios with a
 * tokenizer fixed to one wire input, using only the contracts.
 */
module RequestExamples {
  import opened Wrappers
  import opened Buffers
  import opened Slices
  import opened Tokenizer
  import opened Requests

  /** `NAME: VALUE` and a line break. */
  function HeaderLine(name: string, value: string): Bytes
    requires forall i :: 0 <= i < |name| ==> name[i] as int < 0x80
    requires forall i :: 0 <= i < |value| ==> value[i] as int < 0x80
  {
    Ascii(name) + Ascii(": ") + Ascii(value) + Ascii("\r\n")
  }

  /** `GET /foo/bar HTTP/1.1` and a line break. */
  function RequestLine(): Bytes
  {
    Ascii("GET") + Ascii(" ") + Ascii("/foo/bar") + Ascii(" HTTP/1.1") + Ascii("\r\n")
  }

  /** A request with headers `X-A: 1` and `X-A: 2`, then the start of a second request. */
  function PipelinedWire(): Bytes
  {
    RequestLine() + HeaderLine("X-A", "1") + HeaderLine("X-A", "2") + Ascii("\r\n") + Ascii("GET /")
  }

  /** What a tokenizer reports for the head of PipelinedWire: 41 bytes of request line and headers. */
  function PipelinedScan(): ScanStatus
  {
    Complete(41, Span(0, 3), Span(4, 8), 1,
             [HeaderSpans(Span(23, 3), Span(28, 1)), HeaderSpans(Span(31, 3), Span(36, 1))])
  }

  /** A piece of a concatenation that lies wholly in its first part. */
  lemma SliceBefore(a: Bytes, b: Bytes, i: nat, j: nat)
    requires i <= j <= |a|
    ensures (a + b)[i..j] == a[i..j]
  {
  }

  /** A piece of a concatenation that lies wholly in its second part. */
  lemma SliceAfter(a: Bytes, b: Bytes, i: nat, j: nat)
    requires i <= j <= |b|
    ensures (a + b)[|a| + i..|a| + j] == b[i..j]
  {
  }

  lemma RequestLineFields()
    ensures |RequestLine()| == 23
    ensures RequestLine()[0..3] == Ascii("GET")
    ensures RequestLine()[4..12] == Ascii("/foo/bar")
  {
    var get, sp := Ascii("GET"), Ascii(" ");
    var firstThree := get + sp + Ascii("/foo/bar");
    SliceBefore(get + sp, Ascii("/foo/bar"), 0, 3);
    SliceBefore(get, sp, 0, 3);
    SliceAfter(get + sp, Ascii("/foo/bar"), 0, 8);
    SliceBefore(firstThree, Ascii(" HTTP/1.1"), 0, 3);
    SliceBefore(firstThree, Ascii(" HTTP/1.1"), 4, 12);
    SliceBefore(firstThree + Ascii(" HTTP/1.1"), Ascii("\r\n"), 0, 3);
    SliceBefore(firstThree + Ascii(" HTTP/1.1"), Ascii("\r\n"), 4, 12);
  }

  lemma HeaderLineFields(name: string, value: string)
    requires forall i :: 0 <= i < |name| ==> name[i] as int < 0x80
    requires forall i :: 0 <= i < |value| ==> value[i] as int < 0x80
    ensures |HeaderLine(name, value)| == |name| + |value| + 4
    ensures HeaderLine(name, value)[0..|name|] == Ascii(name)
    ensures HeaderLine(name, value)[|name| + 2..|name| + 2 + |value|] == Ascii(value)
  {
    var n, c, v := Ascii(name), Ascii(": "), Ascii(value);
    SliceBefore(n, c, 0, |n|);
    SliceBefore(n + c, v, 0, |n|);
    SliceBefore(n + c + v, Ascii("\r\n"), 0, |n|);
    SliceAfter(n + c, v, 0, |v|);
    SliceBefore(n + c + v, Ascii("\r\n"), |n| + 2, |n| + 2 + |v|);
  }

  /** Where the method, the path and the two headers sit in PipelinedWire. */
  lemma PipelinedWireFields()
    ensures |PipelinedWire()| == 46
    ensures PipelinedWire()[0..3] == Ascii("GET")
    ensures PipelinedWire()[4..12] == Ascii("/foo/bar")
    ensures PipelinedWire()[41..] == Ascii("GET /")
    ensures PipelinedWire()[23..26] == PipelinedWire()[31..34] == Ascii("X-A")
    ensures PipelinedWire()[28..29] == Ascii("1") && PipelinedWire()[36..37] == Ascii("2")
  {
    var line, h1, h2 := RequestLine(), HeaderLine("X-A", "1"), HeaderLine("X-A", "2");
    var crlf, next := Ascii("\r\n"), Ascii("GET /");
    RequestLineFields();
    HeaderLineFields("X-A", "1");
    HeaderLineFields("X-A", "2");
    var a := line + h1;
    var b := a + h2;
    var c := b + crlf;
    // the request line
    SliceBefore(line, h1, 0, 3);
    SliceBefore(line, h1, 4, 12);
    SliceBefore(a, h2, 0, 3);
    SliceBefore(a, h2, 4, 12);
    // the first header
    SliceAfter(line, h1, 0, 3);
    SliceAfter(line, h1, 5, 6);
    SliceBefore(a, h2, 23, 26);
    SliceBefore(a, h2, 28, 29);
    // the second header
    SliceAfter(a, h2, 0, 3);
    SliceAfter(a, h2, 5, 6);
    // everything in b lies before crlf and next
    forall i, j | 0 <= i <= j <= |b|
      ensures PipelinedWire()[i..j] == b[i..j]
    {
      SliceBefore(b, crlf, i, j);
      SliceBefore(c, next, i, j);
    }
    SliceAfter(c, next, 0, 5);
  }

  /** The tokenizer's two header sub-ranges read back as X-A: 1 and X-A: 2, in that order. */
  lemma PipelinedHeaderPairs()
    ensures ReportedHeaders(PipelinedWire(), PipelinedScan().headers)
            == [(Ascii("X-A"), Ascii("1")), (Ascii("X-A"), Ascii("2"))]
  {
    PipelinedWireFields();
  }

  /** The request line round-trips, and the caller's buffer is emptied into the body. */
  method DecodeGetFooBar()
  {
    var wire := PipelinedWire();
    var st := PipelinedScan();
    var buf := new ByteBuffer(wire);
    var r := Decode(buf, (b: Bytes) => if b == wire then st else Partial);
    // the whole buffer moved: the caller keeps nothing
    assert buf.contents == [];
    var req := r.value.value;
    DecodedAccessors(req, wire, st);
    PipelinedWireFields();
    assert req.Method() == Ascii("GET");
    assert req.Path() == Ascii("/foo/bar");
    assert req.Version() == 1;
    // the bytes of the next request end up in this request's body
    assert req.RawBody() == Ascii("GET /");
    assert req.Params() == map[] && req.QueryParams() == map[];
  }

  /** Two X-A headers on the wire: both pairs are kept, the map holds the last. */
  method DecodeDuplicateHeaders()
  {
    var wire := PipelinedWire();
    var st := PipelinedScan();
    var buf := new ByteBuffer(wire);
    var r := Decode(buf, (b: Bytes) => if b == wire then st else Partial);
    var req := r.value.value;
    DecodedAccessors(req, wire, st);
    PipelinedHeaderPairs();
    var headers := req.Headers();
    DuplicateHeaderLastWins();
    assert headers == map[Ascii("X-A") := Ascii("2")];
  }

  /** Route parameters start empty and read back exactly what the router set. */
  method SetRouteParams(req: Request)
    modifies req
    requires req.Params() == map[] && req.QueryParams() == map[]
  {
    req.SetParams(map["id" := "42"]);
    assert req.Params() == map["id" := "42"];
    assert req.QueryParams() == map[];
  }

  /** A request line cut short: nothing is consumed. */
  method DecodeIncomplete()
  {
    var wire := Ascii("GET /fo");
    var buf := new ByteBuffer(wire);
    var r := Decode(buf, (b: Bytes) => Partial);
    assert r == Ok(None);
    assert buf.contents == wire;
  }

  /**
   * Whatever the bytes, a tokenizer that reports TooManyHeaders (as it does
   * for a request with more than MAX_HEADERS headers) makes decode fail with
   * the diagnostic naming that error, and the buffer stays as it was.
   */
  method DecodeTooManyHeaders(wire: Bytes)
  {
    var buf := new ByteBuffer(wire);
    var r := Decode(buf, (b: Bytes) => Failed(TooManyHeaders));
    assert r == Err(PARSE_FAILURE_PREFIX + "TooManyHeaders");
    assert buf.contents == wire;
  }
}
