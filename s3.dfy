/** The object-store side of the server: the storage-key generator and the
    shape of what an upload to the store gives back. */
module S3 {
  import opened JsStrings

  const Slash: CodeUnit := 0x2F
  const Underscore: CodeUnit := 0x5F
  const Dot: CodeUnit := 0x2E
  const Zero: CodeUnit := 0x30

  /** Every key lives under this directory: `albums/`. */
  const KeyRoot: JsString := [0x61, 0x6C, 0x62, 0x75, 0x6D, 0x73, 0x2F]

  lemma KeyRootSpelling()
    ensures KeyRoot == Ascii("albums/")
  {
  }

  /** The sanitized original name is cut to this many code units. */
  const MaxNameLength: nat := 50

  function Min(a: nat, b: nat): nat { if a < b then a else b }

  predicate IsDigit(u: CodeUnit) { 0x30 <= u <= 0x39 }

  /** Membership in the class `[a-zA-Z0-9.]` of the sanitizing regex. */
  predicate IsKept(u: CodeUnit)
  {
    (0x61 <= u <= 0x7A) || (0x41 <= u <= 0x5A) || IsDigit(u) || u == Dot
  }

  /** The alphabet of a sanitized name: `[a-zA-Z0-9._]`. */
  predicate IsSafe(u: CodeUnit) { IsKept(u) || u == Underscore }

  function ReplaceUnit(u: CodeUnit): CodeUnit { if IsKept(u) then u else Underscore }

  /** `.replace(/[^a-zA-Z0-9.]/g, '_')`. The regex has no `u` flag, so each
      code unit outside the class, a surrogate included, becomes one `_`. */
  function ReplaceDisallowed(s: JsString): (r: JsString)
    ensures |r| == |s|
    ensures forall i :: 0 <= i < |s| ==> r[i] == (if IsKept(s[i]) then s[i] else Underscore)
  {
    if s == [] then [] else [ReplaceUnit(s[0])] + ReplaceDisallowed(s[1..])
  }

  /** `.substring(0, end)` for a non-negative `end`: the string is cut at
      `end`, or kept whole when it is shorter. */
  function Substring0(s: JsString, end: nat): JsString
  {
    s[..Min(end, |s|)]
  }

  /** The sanitized original name used in a key. */
  function Sanitize(originalName: JsString): (r: JsString)
    ensures |r| == Min(MaxNameLength, |originalName|)
    ensures forall i :: 0 <= i < |r| ==>
      (IsKept(originalName[i]) ==> r[i] == originalName[i]) &&
      (!IsKept(originalName[i]) ==> r[i] == Underscore)
    ensures forall i :: 0 <= i < |r| ==> IsSafe(r[i])
  {
    Substring0(ReplaceDisallowed(originalName), MaxNameLength)
  }

  /** Sanitizing a sanitized name changes nothing. */
  lemma SanitizeIdempotent(originalName: JsString)
    ensures Sanitize(Sanitize(originalName)) == Sanitize(originalName)
  {
  }

  /** `my photo!.PNG` is sanitized to `my_photo_.PNG`: the space and the
      `!` become `_`, the dot and the case of the extension are kept. */
  lemma SanitizeExample(name: JsString)
    requires name == [0x6D, 0x79, 0x20, 0x70, 0x68, 0x6F, 0x74, 0x6F, 0x21, 0x2E, 0x50, 0x4E, 0x47]
    ensures Sanitize(name) == [0x6D, 0x79, 0x5F, 0x70, 0x68, 0x6F, 0x74, 0x6F, 0x5F, 0x2E, 0x50, 0x4E, 0x47]
  {
  }

  /** The decimal digits a template literal prints for a non-negative
      integer, without leading zeros. */
  function Decimal(n: nat): (r: JsString)
    ensures |r| > 0
    ensures forall i :: 0 <= i < |r| ==> IsDigit(r[i])
    ensures r[0] == Zero <==> n == 0
  {
    if n < 10 then [(0x30 + n) as CodeUnit]
    else Decimal(n / 10) + [(0x30 + n % 10) as CodeUnit]
  }

  function DigitValue(u: CodeUnit): nat
    requires IsDigit(u)
  {
    (u - Zero) as int
  }

  /** The number a string of decimal digits denotes. */
  function DigitsValue(s: JsString): nat
    requires forall i :: 0 <= i < |s| ==> IsDigit(s[i])
  {
    if s == [] then 0 else DigitsValue(s[..|s| - 1]) * 10 + DigitValue(s[|s| - 1])
  }

  /** The printed timestamp reads back as the timestamp. */
  lemma {:induction false} DecimalRoundTrip(n: nat)
    ensures DigitsValue(Decimal(n)) == n
  {
    var r := Decimal(n);
    if n >= 10 {
      DecimalRoundTrip(n / 10);
      assert r[..|r| - 1] == Decimal(n / 10);
    }
  }

  /** `generateFileName`: `albums/<albumId>/<timestamp>_<sanitized name>`.
      The clock reading `Date.now()` is the parameter `timestamp`. The key
      starts with the album's directory, the timestamp and `_`, and ends with
      the sanitized name. */
  function GenerateFileName(originalName: JsString, albumId: JsString, timestamp: nat): (key: JsString)
    ensures KeyRoot + albumId + [Slash] + Decimal(timestamp) + [Underscore] <= key
    ensures var name := Sanitize(originalName);
            |key| == |KeyRoot| + |albumId| + |Decimal(timestamp)| + 2 + |name|
            && key[|key| - |name|..] == name
  {
    KeyRoot + albumId + [Slash] + Decimal(timestamp) + [Underscore] + Sanitize(originalName)
  }

  /** The last path segment of a key: what follows its last `/`, or all of
      it when it has none. */
  function LastSegment(s: JsString): (r: JsString)
    ensures Slash !in r
    ensures |r| <= |s| && r == s[|s| - |r|..]
  {
    if s == [] then []
    else if s[|s| - 1] == Slash then []
    else LastSegment(s[..|s| - 1]) + [s[|s| - 1]]
  }

  lemma {:induction false} LastSegmentAfterSlash(p: JsString, q: JsString)
    requires Slash !in q
    ensures LastSegment(p + [Slash] + q) == q
  {
    var s := p + [Slash] + q;
    if q != [] {
      var q' := q[..|q| - 1];
      assert s[..|s| - 1] == p + [Slash] + q';
      LastSegmentAfterSlash(p, q');
      assert q == q' + [q[|q| - 1]];
    }
  }

  /** The sanitized name holds no `/`, so the key's last segment is the
      timestamp, `_` and the sanitized name; it starts with a digit and is
      never `.` or `..`, whatever the original name and album id. */
  lemma KeyLastSegment(originalName: JsString, albumId: JsString, timestamp: nat)
    ensures Slash !in Sanitize(originalName)
    ensures var segment := LastSegment(GenerateFileName(originalName, albumId, timestamp));
            && segment == Decimal(timestamp) + [Underscore] + Sanitize(originalName)
            && IsDigit(segment[0])
            && segment != [Dot] && segment != [Dot, Dot]
  {
    var name := Sanitize(originalName);
    assert forall i :: 0 <= i < |name| ==> name[i] != Slash;
    var tail := Decimal(timestamp) + [Underscore] + name;
    assert Slash !in tail by {
      assert forall i :: 0 <= i < |Decimal(timestamp)| ==> IsDigit(tail[i]);
    }
    assert GenerateFileName(originalName, albumId, timestamp) == (KeyRoot + albumId) + [Slash] + tail;
    LastSegmentAfterSlash(KeyRoot + albumId, tail);
    assert tail[0] == Decimal(timestamp)[0];
  }

  /** What `uploadToS3` gives back: the public URL, or the error it throws. */
  datatype StoreResult = Stored(url: JsString) | StoreFailed

  /** `uploadToS3`. Whether the remote put succeeds is the oracle `sent`; on
      success the URL is the configured public base, `/`, and the key. */
  function UploadToS3(sent: bool, publicBase: JsString, key: JsString): (r: StoreResult)
    ensures r.Stored? <==> sent
    ensures r.Stored? ==>
      && |r.url| == |publicBase| + 1 + |key|
      && r.url[..|publicBase|] == publicBase
      && r.url[|publicBase|] == Slash
      && r.url[|publicBase| + 1..] == key
  {
    if sent then Stored(publicBase + [Slash] + key) else StoreFailed
  }

  /** Distinct keys under one public base give distinct URLs. */
  lemma UrlDeterminesKey(publicBase: JsString, key1: JsString, key2: JsString)
    requires UploadToS3(true, publicBase, key1) == UploadToS3(true, publicBase, key2)
    ensures key1 == key2
  {
  }
}
