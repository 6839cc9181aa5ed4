/**
 * Bytes and the growable, exclusively owned byte buffer the transport fills
 * (a `BytesMut` in the source). Only the operation the decoder uses on it,
 * splitting off a prefix, is modelled.
 */
module Buffers {

  newtype uint8 = x: int | 0 <= x < 0x100

  type Bytes = seq<uint8>

  /** The bytes of an ASCII text, one byte per character. */
  function Ascii(s: string): (r: Bytes)
    requires forall i :: 0 <= i < |s| ==> s[i] as int < 0x80
    ensures |r| == |s|
    ensures forall i :: 0 <= i < |r| ==> r[i] as int == s[i] as int
  {
    seq(|s|, i requires 0 <= i < |s| => s[i] as int as uint8)
  }

  class ByteBuffer {
    var contents: Bytes

    constructor (init: Bytes)
      ensures contents == init
    {
      contents := init;
    }

    /**
     * Hands the first `at` bytes over to a new owner and keeps the rest;
     * splitting past the end is a programming error.
     */
    method SplitTo(at: nat) returns (prefix: Bytes)
      requires at <= |contents|
      modifies this
      ensures prefix + contents == old(contents)
      ensures |prefix| == at
    {
      prefix := contents[..at];
      contents := contents[at..];
    }
  }
}
