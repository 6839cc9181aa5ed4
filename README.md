# Zero-copy HTTP/1.x request decoder, modelled in Dafny

This project models the request decoder of `src/request.rs`. The decoder turns the bytes a
connection has buffered into a `Request` and copies nothing: the request keeps the bytes, and
its method, path, body and header pairs are `(start, end)` offset pairs into them.

- `Buffers`: bytes (`uint8`), an ASCII helper, and `ByteBuffer`. `ByteBuffer` is the caller's
  growable buffer (`BytesMut`). It has one operation, `SplitTo`, which moves a prefix to a new
  owner.
- `Slices`: the `Slice` offset pair, and `Resolve`, the bounds-checked read of a slice. `Span`
  is a sub-range the tokenizer reports, given as an offset and a length. `ToSlice` is decode's
  `toslice` closure.
- `Tokenizer`: what the external tokenizer (`httparse`) can report for one scan: `Partial`,
  `Failed(error)`, or `Complete(amt, method, path, version, headers)`. `ScanContract` holds the
  guarantees decode relies on:
  - every reported sub-range starts inside the first `amt` bytes and ends within them;
  - `amt` is at most the buffer length;
  - at most 16 headers are reported. This records the tokenizer's 16 header slots; no proof
    here depends on the bound.
- `Requests`: the `Request` class, `HeaderMap` and `Decode`.
  - In `Request`, every field the source never changes is a `const`. The route and query
    parameters are `var`s, because only they are set after decoding.
  - `HeaderMap` is the last-write-wins fold that `headers()` computes.
  - `Decode` is a method. It takes the buffer and the tokenizer as a function parameter
    `scan: Bytes -> ScanStatus`.
- `RequestExamples`: client methods that check the decoder's documented scenarios against
  `Decode`'s contract:
  - `GET /foo/bar HTTP/1.1` round-trips through `method()`, `path()` and `version()`;
  - two `X-A` headers are both kept, and the header map holds the last one;
  - route parameters start empty and read back what was set;
  - an incomplete request line leaves the buffer alone;
  - too many headers give the `TooManyHeaders` diagnostic.

What the code does when the tokenizer reports `Complete(amt)`:

- The length `len` is read on entry.
- The body slice is `(amt, len)`.
- `split_to(len)` moves the whole buffer into the request.

So the caller's buffer is always left empty. Bytes that follow the parsed head, including the
start of a pipelined next request, end up in the body. The model follows the code:
`Decode` ensures that `buf.contents == []`. `RequestExamples.DecodeGetFooBar`
shows the bytes of a second request inside the first request's `RawBody()`.

Three of the source's panics are kept in the model: the `assert!` in `toslice`, an
out-of-range slice read, and `split_to` past the end. Each of them becomes a precondition, and
the tokenizer's guarantees discharge them inside `Decode`. The source has other panic sites:

- The `str::from_utf8(..).unwrap()` calls (src/request.rs:26, 30, 34, 46, 47) panic on bytes
  that are not UTF-8. They are not modelled; see the UTF-8 line under "## Left out".
- `r.method`, `r.path` and `r.version` are `unwrap()`ped (src/request.rs:112-114). These cannot
  fail: the tokenizer reports `Complete` only after it has filled in the request line. So the
  model's `Complete` outcome carries the method, path and version directly, without an `Option`.

When the tokenizer reports an error, the code returns before it touches the buffer, so `Decode`
leaves the buffer unchanged on that path too.

## Model

| member | source | states |
|---|---|---|
| `Slices.Resolve` | src/request.rs:60-62 | resolving a slice yields `end - start` bytes, the i-th being `data[start + i]`; an out-of-range slice is excluded (it panics) |
| `Slices.ToSlice` | src/request.rs:106-110 | the slice built from a reported sub-range starts at the sub-range's offset, inside the buffer (the `assert!`), lies within it, and is as long as the sub-range |
| `Slices.ResolveToSlice` | src/request.rs:106-110 | resolving the slice `toslice` builds gives back exactly the bytes the tokenizer reported |
| `Buffers.ByteBuffer.SplitTo` | src/request.rs:127 | the returned prefix has length `at`, and the prefix followed by the bytes left behind is the old buffer |
| `Tokenizer.ErrorName` | src/request.rs:95 | the `{:?}` rendering of a tokenizer error is a non-empty name |
| `Requests.ErrorMessage` | src/request.rs:94-97 | a parse failure's diagnostic begins with `failed to parse http request: ` and carries a non-empty error name after it |
| `Requests.ErrorMessageInjective` | src/request.rs:94-97 | two errors with the same diagnostic are the same error, so the message identifies the tokenizer's error |
| `Requests.HeaderSlices` | src/request.rs:115-118 | one slice pair per reported header, in wire order with duplicates kept; the i-th pair starts at the offsets of the i-th reported name and value, inside the buffer, lies within it and has the reported lengths |
| `Requests.HeaderMap` | src/request.rs:41-52 | the fold `headers()` computes: it has no more entries than there are pairs, and the last pair's name always maps to the last pair's value; `HeaderMapKeys` and `HeaderMapLastWins` characterise it completely |
| `Requests.HeaderMapKeys` | src/request.rs:41-52 | a name is in the header map exactly when some header pair carries it |
| `Requests.HeaderMapLastWins` | src/request.rs:44-49 | a name maps to the value of its last occurrence in wire order |
| `Requests.DuplicateHeaderLastWins` | src/request.rs:44-49 | `X-A: 1` then `X-A: 2` gives the single entry `X-A: 2` |
| `Requests.Request.Headers` | src/request.rs:41-52 | the loop that inserts every resolved pair in wire order returns `HeaderMap` of the pairs |
| `Requests.Request.RawBody` | src/request.rs:25-27 | the bytes of the body slice, in order; on a decoded request these are every byte after `amt` (`DecodedAccessors`) |
| `Requests.Request.Method` | src/request.rs:29-31 | the bytes of the method slice, in order; on a decoded request these are the tokenizer's method bytes (`DecodedAccessors`) |
| `Requests.Request.Path` | src/request.rs:33-35 | the bytes of the path slice, in order; on a decoded request these are the tokenizer's path bytes (`DecodedAccessors`) |
| `Requests.Request.Version` | src/request.rs:37-39 | the stored version, unchanged; on a decoded request this is the tokenizer's version (`DecodedAccessors`) |
| `Requests.Request.Params` | src/request.rs:64-66 | the route parameters as last set: empty after `Decode`, and `p` after `SetParams(p)` |
| `Requests.Request.QueryParams` | src/request.rs:68-70 | the query parameters as last set: empty after `Decode`, and `q` after `SetQueryParams(q)` |
| `Requests.Request.constructor` | src/request.rs:122-131 | given slices that lie inside the given bytes, a new request holds those slices, the version and the bytes, satisfies `Valid()`, and has empty route and query parameters |
| `Requests.Request.SetParams` | src/request.rs:64-74 | after `set_params(p)`, `params()` is `p` and `query_params()` is unchanged |
| `Requests.Request.SetQueryParams` | src/request.rs:68-78 | after `set_query_params(q)`, `query_params()` is `q` and `params()` is unchanged |
| `Requests.Request.DebugView` | src/request.rs:81-85 | the debug view is `<HTTP Request `, the method, one space, the path, then `>` |
| `Requests.DecodedAccessors` | src/request.rs:25-39 | on a decoded request, `method()` and `path()` return the reported bytes, `version()` the reported version, `raw_body()` every byte after `amt`, and the header pairs resolve to the reported pairs in order |
| `Requests.Decode` | src/request.rs:87-132 | Partial: `Ok(None)` and the buffer is unchanged. Error: `Err` with the diagnostic and the buffer is unchanged. Complete: a fresh request that owns the whole entry buffer, has body slice `(amt, len)` and empty parameters, and leaves the caller's buffer empty |

## Left out

- The tokenizer's scanning (src/request.rs:92-94, the `httparse` crate) is not part of this model. Its outcome is a parameter of `Decode`, and its guarantees are `ScanContract`. The fixed 16 header slots appear only as the bound in `ScanContract` and as the `TooManyHeaders` error.
- `body_as` (src/request.rs:54-58) is left out: it only calls `serde_json`, which is not part of this model.
- UTF-8 validation (`str::from_utf8(..).unwrap()`) is left out. `method()`, `path()`, `raw_body()` and the header map return the resolved bytes, so header names and values are byte sequences, not strings.
- Raw pointer subtraction in `toslice` is replaced by the offset the tokenizer reports with each sub-range.
- `io::Error` is reduced to its message. The error kind (`Other`) is not modelled.
- The `fmt::Formatter` plumbing is left out: `DebugView` returns the rendered bytes.
- `HashMap` hashing and iteration order are left out: maps are Dafny `map`s.
- Appending bytes to the buffer belongs to the transport and is not modelled. Of `BytesMut`, only `split_to` is modelled.
- `usize` arithmetic is unbounded here. The only sum, `start + length` in `toslice`, ends inside the buffer, so it cannot overflow.
- Ownership and lifetimes are not modelled. The request's bytes are an immutable value, so no aliasing between a request and the caller's buffer can be expressed.
