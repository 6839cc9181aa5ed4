/**
 * The decoded HTTP request and the decode operation that builds it from the
 * front of a connection's buffer.
 */
module Requests {
  import opened Wrappers
  import opened Buffers
  import opened Slices
  import opened Tokenizer

  /** A header name and value, as resolved bytes. */
  type HeaderPair = (Bytes, Bytes)

  /**
   * The header mapping of a sequence of pairs in wire order: each pair is
   * inserted in turn, so a later duplicate name overwrites an earlier one.
   */
  function HeaderMap(ps: seq<HeaderPair>): (m: map<Bytes, Bytes>)
    ensures |m| <= |ps|
    ensures ps != [] ==> ps[|ps| - 1].0 in m && m[ps[|ps| - 1].0] == ps[|ps| - 1].1
  {
    if ps == [] then map[]
    else HeaderMap(ps[..|ps| - 1])[ps[|ps| - 1].0 := ps[|ps| - 1].1]
  }

  /** The names present in the mapping are exactly the names on the wire. */
  lemma {:induction false} HeaderMapKeys(ps: seq<HeaderPair>)
    ensures forall k :: k in HeaderMap(ps) <==> exists i :: 0 <= i < |ps| && ps[i].0 == k
  {
    if ps != [] {
      var init := ps[..|ps| - 1];
      HeaderMapKeys(init);
      forall k
        ensures k in HeaderMap(ps) <==> exists i :: 0 <= i < |ps| && ps[i].0 == k
      {
        if k in HeaderMap(ps) && k != ps[|ps| - 1].0 {
          assert k in HeaderMap(init);
          var i :| 0 <= i < |init| && init[i].0 == k;
          assert ps[i].0 == k;
        }
        if exists i :: 0 <= i < |ps| && ps[i].0 == k {
          var i :| 0 <= i < |ps| && ps[i].0 == k;
          if i < |init| {
            assert init[i].0 == k;
          }
        }
      }
    }
  }

  /** Last occurrence wins: a name maps to the value of its last pair. */
  lemma {:induction false} HeaderMapLastWins(ps: seq<HeaderPair>, i: nat)
    requires i < |ps|
    requires forall j :: i < j < |ps| ==> ps[j].0 != ps[i].0
    ensures ps[i].0 in HeaderMap(ps)
    ensures HeaderMap(ps)[ps[i].0] == ps[i].1
  {
    if i < |ps| - 1 {
      var init := ps[..|ps| - 1];
      assert init[i] == ps[i];
      HeaderMapLastWins(init, i);
    }
  }

  /** The documented duplicate-header scenario: X-A: 1 then X-A: 2 gives X-A: 2. */
  lemma DuplicateHeaderLastWins()
    ensures HeaderMap([(Ascii("X-A"), Ascii("1")), (Ascii("X-A"), Ascii("2"))])
            == map[Ascii("X-A") := Ascii("2")]
  {
  }

  const PARSE_FAILURE_PREFIX := "failed to parse http request: "

  /** The diagnostic decode reports for a malformed request. */
  function ErrorMessage(e: ParseError): (msg: string)
    ensures |msg| > |PARSE_FAILURE_PREFIX|
    ensures msg[..|PARSE_FAILURE_PREFIX|] == PARSE_FAILURE_PREFIX
  {
    PARSE_FAILURE_PREFIX + ErrorName(e)
  }

  /** The diagnostic names the tokenizer's error: distinct errors give distinct messages. */
  lemma ErrorMessageInjective(e1: ParseError, e2: ParseError)
    requires ErrorMessage(e1) == ErrorMessage(e2)
    ensures e1 == e2
  {
  }

  /** The prefix of the debug view, `<HTTP Request `. */
  function DebugOpen(): (r: Bytes)
    ensures |r| == 14
  {
    Ascii("<HTTP Request ")
  }

  class Request {
    const body: Slice
    const httpMethod: Slice
    const path: Slice
    const version: uint8
    const headers: seq<(Slice, Slice)>
    const data: Bytes
    var params: map<string, string>
    var queryParams: map<string, string>

    /** Every stored slice resolves inside this request's own buffer. */
    predicate Valid()
    {
      && InBounds(body, |data|)
      && InBounds(httpMethod, |data|)
      && InBounds(path, |data|)
      && forall i :: 0 <= i < |headers| ==>
           InBounds(headers[i].0, |data|) && InBounds(headers[i].1, |data|)
    }

    /** A request owning `data`, with no route or query parameters yet. */
    constructor (httpMethod: Slice, path: Slice, version: uint8, headers: seq<(Slice, Slice)>,
                 data: Bytes, body: Slice)
      requires InBounds(body, |data|) && InBounds(httpMethod, |data|) && InBounds(path, |data|)
      requires forall i :: 0 <= i < |headers| ==>
                 InBounds(headers[i].0, |data|) && InBounds(headers[i].1, |data|)
      ensures Valid()
      ensures this.httpMethod == httpMethod && this.path == path && this.version == version
      ensures this.headers == headers && this.data == data && this.body == body
      ensures params == map[] && queryParams == map[]
    {
      this.httpMethod := httpMethod;
      this.path := path;
      this.version := version;
      this.headers := headers;
      this.data := data;
      this.body := body;
      params := map[];
      queryParams := map[];
    }

    /** The bytes of the body slice: everything from its start to its end. */
    function RawBody(): (r: Bytes)
      requires Valid()
      ensures |r| == body.end - body.start
      ensures forall i :: 0 <= i < |r| ==> r[i] == data[body.start + i]
    {
      Resolve(data, body)
    }

    /** The bytes of the method slice. */
    function Method(): (r: Bytes)
      requires Valid()
      ensures |r| == httpMethod.end - httpMethod.start
      ensures forall i :: 0 <= i < |r| ==> r[i] == data[httpMethod.start + i]
    {
      Resolve(data, httpMethod)
    }

    /** The bytes of the path slice. */
    function Path(): (r: Bytes)
      requires Valid()
      ensures |r| == path.end - path.start
      ensures forall i :: 0 <= i < |r| ==> r[i] == data[path.start + i]
    {
      Resolve(data, path)
    }

    /** The stored version tag, passed through unchanged. */
    function Version(): (v: uint8)
      ensures v == version
    {
      version
    }

    /** The stored header slice pairs, resolved, in wire order. */
    function HeaderPairs(): (ps: seq<HeaderPair>)
      requires Valid()
      ensures |ps| == |headers|
    {
      seq(|headers|, i requires 0 <= i < |headers| =>
        (Resolve(data, headers[i].0), Resolve(data, headers[i].1)))
    }

    /** Materialises a fresh header mapping by inserting every pair in wire order. */
    method Headers() returns (m: map<Bytes, Bytes>)
      requires Valid()
      ensures m == HeaderMap(HeaderPairs())
    {
      ghost var ps := HeaderPairs();
      m := map[];
      for i := 0 to |headers|
        invariant m == HeaderMap(ps[..i])
      {
        var name := Resolve(data, headers[i].0);
        var value := Resolve(data, headers[i].1);
        assert ps[..i + 1][..i] == ps[..i];
        m := m[name := value];
      }
      assert ps[..|headers|] == ps;
    }

    /** The route parameters as last set (empty on a decoded request). */
    function Params(): (p: map<string, string>)
      reads this
      ensures p == params
    {
      params
    }

    /** The query parameters as last set (empty on a decoded request). */
    function QueryParams(): (q: map<string, string>)
      reads this
      ensures q == queryParams
    {
      queryParams
    }

    method SetParams(p: map<string, string>)
      modifies this`params
      ensures Params() == p
      ensures QueryParams() == old(QueryParams())
    {
      params := p;
    }

    method SetQueryParams(q: map<string, string>)
      modifies this`queryParams
      ensures QueryParams() == q
      ensures Params() == old(Params())
    {
      queryParams := q;
    }

    /**
     * The debug rendering `<HTTP Request METHOD PATH>`: the fixed opening,
     * the method, one space, the path and a closing `>`.
     */
    function DebugView(): (r: Bytes)
      requires Valid()
      ensures |r| == |DebugOpen()| + |Method()| + 1 + |Path()| + 1
      ensures r[..|DebugOpen()|] == DebugOpen()
      ensures r[|DebugOpen()|..|DebugOpen()| + |Method()|] == Method()
      ensures r[|DebugOpen()| + |Method()|] == Ascii(" ")[0]
      ensures r[|DebugOpen()| + |Method()| + 1..|r| - 1] == Path()
      ensures r[|r| - 1] == Ascii(">")[0]
    {
      DebugOpen() + Method() + Ascii(" ") + Path() + Ascii(">")
    }
  }

  /** The bytes of each reported header pair, in the tokenizer's order. */
  function ReportedHeaders(buf: Bytes, hs: seq<HeaderSpans>): (ps: seq<HeaderPair>)
    requires forall i :: 0 <= i < |hs| ==> SpanFits(hs[i].name, |buf|) && SpanFits(hs[i].value, |buf|)
    ensures |ps| == |hs|
  {
    seq(|hs|, i requires 0 <= i < |hs| => (SpanBytes(buf, hs[i].name), SpanBytes(buf, hs[i].value)))
  }

  /**
   * One slice pair per reported header, in wire order, duplicates kept: the
   * `map(toslice).collect()` of decode.
   */
  function HeaderSlices(hs: seq<HeaderSpans>, len: nat): (r: seq<(Slice, Slice)>)
    requires forall i :: 0 <= i < |hs| ==> Within(hs[i].name, len) && Within(hs[i].value, len)
    ensures |r| == |hs|
    ensures forall i :: 0 <= i < |r| ==>
              && r[i].0.start < len && InBounds(r[i].0, len)
              && r[i].1.start < len && InBounds(r[i].1, len)
              && r[i].0.start == hs[i].name.offset && r[i].1.start == hs[i].value.offset
              && r[i].0.end - r[i].0.start == hs[i].name.length
              && r[i].1.end - r[i].1.start == hs[i].value.length
  {
    forall i | 0 <= i < |hs|
      ensures SpanFits(hs[i].name, len) && hs[i].name.offset < len
      ensures SpanFits(hs[i].value, len) && hs[i].value.offset < len
    {
      assert Within(hs[i].name, len) && Within(hs[i].value, len);
    }
    seq(|hs|, i requires 0 <= i < |hs| => (ToSlice(hs[i].name, len), ToSlice(hs[i].value, len)))
  }

  /**
   * `req` is the request decode builds from `contents` when the tokenizer
   * reports `st`: it owns all of `contents`, its slices are toslice of the
   * reported sub-ranges, and its body runs from `amt` to the end.
   */
  ghost predicate DecodedFrom(req: Request, contents: Bytes, st: ScanStatus)
    requires st.Complete? && ScanContract(st, |contents|)
  {
    && req.data == contents
    && req.httpMethod == ToSlice(st.httpMethod, |contents|)
    && req.path == ToSlice(st.path, |contents|)
    && req.version == st.version
    && req.headers == HeaderSlices(st.headers, |contents|)
    && req.body == Slice(st.amt, |contents|)
  }

  /**
   * What the accessors of a decoded request return: the bytes the
   * tokenizer reported, the tokenizer's version, every byte after the
   * parsed head as the body, and the header pairs in wire order.
   */
  lemma DecodedAccessors(req: Request, contents: Bytes, st: ScanStatus)
    requires st.Complete? && ScanContract(st, |contents|)
    requires DecodedFrom(req, contents, st)
    ensures req.Valid()
    ensures req.Method() == SpanBytes(contents, st.httpMethod)
    ensures req.Path() == SpanBytes(contents, st.path)
    ensures req.Version() == st.version
    ensures req.RawBody() == contents[st.amt..]
    ensures req.HeaderPairs() == ReportedHeaders(contents, st.headers)
  {
  }

  /**
   * Decodes one request from the front of `buf`, scanning it with `scan`.
   * Partial: nothing happens. Malformed: an error naming the tokenizer's
   * diagnostic, buffer untouched. Complete: the whole buffer, as it was on
   * entry, moves into a new request and the caller's buffer is left empty.
   */
  method Decode(buf: ByteBuffer, scan: Bytes -> ScanStatus) returns (r: Result<Option<Request>, string>)
    requires ScanContract(scan(buf.contents), |buf.contents|)
    modifies buf
    ensures scan(old(buf.contents)).Partial? ==>
              r == Ok(None) && buf.contents == old(buf.contents)
    ensures scan(old(buf.contents)).Failed? ==>
              r == Err(ErrorMessage(scan(old(buf.contents)).error))
              && buf.contents == old(buf.contents)
    ensures scan(old(buf.contents)).Complete? ==>
              && r.Ok? && r.value.Some?
              && fresh(r.value.value)
              && DecodedFrom(r.value.value, old(buf.contents), scan(old(buf.contents)))
              && r.value.value.Valid()
              && r.value.value.params == map[] && r.value.value.queryParams == map[]
              && buf.contents == []
  {
    var len := |buf.contents|;
    var st := scan(buf.contents);
    match st {
      case Failed(e) =>
        return Err(ErrorMessage(e));
      case Partial =>
        return Ok(None);
      case Complete(amt, m, p, v, hs) =>
        var httpMethod := ToSlice(m, len);
        var path := ToSlice(p, len);
        var headers := HeaderSlices(hs, len);
        var body := Slice(amt, |buf.contents|);
        ghost var contents := buf.contents;
        var data := buf.SplitTo(len);
        assert data == contents;
        var req := new Request(httpMethod, path, v, headers, data, body);
        DecodedAccessors(req, contents, st);
        return Ok(Some(req));
    }
  }
}
