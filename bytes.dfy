/** Byte strings, as Python's `bytes`. */
module Bytes {

  newtype byte = x: int | 0 <= x < 256

  /** The bytes of a literal such as `b'MZ'`; every literal of the model is ASCII. */
  function Ascii(s: string): (r: seq<byte>)
    ensures |r| == |s| && forall i :: 0 <= i < |s| ==> r[i] as int == s[i] as int % 256
  {
    if s == [] then [] else [(s[0] as int % 256) as byte] + Ascii(s[1..])
  }
}
