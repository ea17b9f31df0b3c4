/** `str.encode("latin-1", errors="replace")` and its inverse. */
module Latin1 {

  newtype byte = x: int | 0 <= x < 256

  function EncodeChar(c: char): byte {
    if c as int < 256 then c as int as byte else '?' as int as byte
  }

  function Encode(s: string): (b: seq<byte>)
    ensures |b| == |s|
  {
    seq(|s|, i requires 0 <= i < |s| => EncodeChar(s[i]))
  }

  function Decode(b: seq<byte>): (s: string)
    ensures |s| == |b|
  {
    seq(|b|, i requires 0 <= i < |b| => b[i] as int as char)
  }

  /** What survives the encoding: a character above 255 becomes a question mark. */
  function Lossy(s: string): (r: string)
    ensures |r| == |s|
  {
    seq(|s|, i requires 0 <= i < |s| => if s[i] as int < 256 then s[i] else '?')
  }

  predicate IsLatin(s: string) { forall i :: 0 <= i < |s| ==> s[i] as int < 256 }

  lemma DecodeEncode(s: string)
    ensures Decode(Encode(s)) == Lossy(s)
  {
  }

  lemma EncodeAppend(s: string, t: string)
    ensures Encode(s + t) == Encode(s) + Encode(t)
  {
  }

  lemma EncodeThree(a: string, b: string, c: string)
    ensures Encode(a + b + c) == Encode(a) + Encode(b) + Encode(c)
  {
  }

  lemma EncodeFive(a: string, b: string, c: string, d: string, e: string)
    ensures Encode(a + (b + c + d + e)) == Encode(a) + Encode(b) + Encode(c) + Encode(d) + Encode(e)
  {
    EncodeAppend(a, b + c + d + e);
    EncodeThree(b, c, d);
    EncodeAppend(b + c + d, e);
  }

  function EncodeAll(ss: seq<string>): (bs: seq<seq<byte>>)
    ensures |bs| == |ss|
  {
    seq(|ss|, i requires 0 <= i < |ss| => Encode(ss[i]))
  }

  lemma EncodeAllOne(s: string)
    ensures EncodeAll([s]) == [Encode(s)]
  {
  }

  lemma EncodeAllAppend(ss: seq<string>, ts: seq<string>)
    ensures EncodeAll(ss + ts) == EncodeAll(ss) + EncodeAll(ts)
  {
  }

  lemma LossyAppend(s: string, t: string)
    ensures Lossy(s + t) == Lossy(s) + Lossy(t)
  {
  }

  lemma LossyLatin(s: string)
    requires IsLatin(s)
    ensures Lossy(s) == s
  {
  }
}
