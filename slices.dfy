/**
 * Slice addressing: fields of a decoded request are offset pairs into the
 * buffer they were computed against, never borrowed views of it.
 */
module Slices {
  import opened Buffers

  /** The bytes data[start..end] of one specific buffer. */
  datatype Slice = Slice(start: nat, end: nat)

  /**
   * A sub-range the tokenizer reports: `length` bytes beginning `offset`
   * bytes into the scanned buffer (the position the source recovers by
   * pointer subtraction).
   */
  datatype Span = Span(offset: nat, length: nat)

  predicate InBounds(s: Slice, len: nat)
  {
    s.start <= s.end <= len
  }

  predicate SpanFits(sp: Span, len: nat)
  {
    sp.offset + sp.length <= len
  }

  /** The bytes the tokenizer reported for a sub-range of `buf`. */
  function SpanBytes(buf: Bytes, sp: Span): Bytes
    requires SpanFits(sp, |buf|)
  {
    buf[sp.offset..sp.offset + sp.length]
  }

  /**
   * Resolves a slice against the buffer it indexes: a bounds-checked
   * sub-range read (an out-of-range slice panics in the source).
   */
  function Resolve(data: Bytes, s: Slice): (r: Bytes)
    requires InBounds(s, |data|)
    ensures |r| == s.end - s.start
    ensures forall i :: 0 <= i < |r| ==> r[i] == data[s.start + i]
  {
    data[s.start..s.end]
  }

  /**
   * The `toslice` closure of decode: turns a reported sub-range into an
   * offset pair. Its assertion that the start lies inside the buffer is a
   * panic in the source, so it is a precondition here.
   */
  function ToSlice(sp: Span, len: nat): (s: Slice)
    requires SpanFits(sp, len)
    requires sp.offset < len
    ensures s.start == sp.offset && s.start < len
    ensures InBounds(s, len)
    ensures s.end - s.start == sp.length
  {
    Slice(sp.offset, sp.offset + sp.length)
  }

  /** Resolving the slice toslice builds gives back exactly the reported bytes. */
  lemma ResolveToSlice(buf: Bytes, sp: Span)
    requires SpanFits(sp, |buf|) && sp.offset < |buf|
    ensures Resolve(buf, ToSlice(sp, |buf|)) == SpanBytes(buf, sp)
  {
  }
}
