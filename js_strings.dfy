/** JavaScript strings as sequences of UTF-16 code units.
    A Dafny `char` is a Unicode scalar value and cannot hold a lone surrogate,
    so a string of the server is modelled by its code units instead. */
module JsStrings {

  /** One UTF-16 code unit. */
  newtype CodeUnit = u: int | 0 <= u < 0x1_0000

  /** A JavaScript string: its code units, in order. */
  type JsString = seq<CodeUnit>

  /** The code units of an ASCII literal written in the source. */
  function Ascii(s: string): (r: JsString)
    requires forall i :: 0 <= i < |s| ==> s[i] as int < 0x80
    ensures |r| == |s|
    ensures forall i :: 0 <= i < |s| ==> r[i] as int == s[i] as int
  {
    if s == [] then [] else [s[0] as int as CodeUnit] + Ascii(s[1..])
  }

  /** `String.prototype.startsWith(prefix)`, compared code unit by code
      unit: it holds exactly when `prefix` is a prefix of `s`. */
  function StartsWith(s: JsString, prefix: JsString): (r: bool)
    ensures r <==> prefix <= s
  {
    if prefix == [] then true
    else if s == [] then false
    else
      assert prefix <= s <==> s[0] == prefix[0] && prefix[1..] <= s[1..];
      s[0] == prefix[0] && StartsWith(s[1..], prefix[1..])
  }
}
