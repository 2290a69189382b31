/**
 * UTF-8 encoding of strings whose characters are all ASCII, as produced by
 * ByteString.copyFrom(s, UTF_8) for the literal "install" that heads the
 * argument list of every install proposal.
 */
module Ascii {
  import opened Base

  predicate IsAscii(s: string)
  {
    forall i :: 0 <= i < |s| ==> s[i] as int < 128
  }

  /** In UTF-8 every ASCII character is the single byte holding its code point. */
  function EncodeAscii(s: string): (r: Bytes)
    requires IsAscii(s)
    ensures |r| == |s|
    ensures forall i :: 0 <= i < |s| ==> r[i] as int == s[i] as int
    ensures forall i :: 0 <= i < |r| ==> r[i] < 128
  {
    if s == [] then [] else [s[0] as int as byte] + EncodeAscii(s[1..])
  }
}
