/**
 * The URL-safe state codec: JSON text, then standard base64, then the
 * URL-safe alphabet of section 5 of RFC 4648 with the '=' padding removed;
 * decoding maps the alphabet back, re-pads to a multiple of four and
 * parses, answering None where the library calls would throw.
 *
 * JSON and base64 themselves are not modelled: they are the `Codecs`
 * argument, and `Lawful` states the inverse laws the library functions obey.
 */
module UrlShare {
  import opened Wrappers

  /** The library functions the codec calls; None stands for a thrown exception. */
  datatype Codecs<!T> = Codecs(
    stringify: T -> string,
    parse: string -> Option<T>,
    btoa: string -> Option<string>,
    atob: string -> Option<string>)

  /** A character of the standard base64 alphabet (section 4 of RFC 4648), padding excluded. */
  predicate IsBase64Char(c: char) {
    ('A' <= c <= 'Z') || ('a' <= c <= 'z') || ('0' <= c <= '9') || c == '+' || c == '/'
  }

  /** The number of '=' characters ending `s`. */
  function TrailingPads(s: string): (k: nat)
    ensures k <= |s|
    ensures forall i :: |s| - k <= i < |s| ==> s[i] == '='
    ensures k < |s| ==> s[|s| - k - 1] != '='
  {
    if s != [] && s[|s| - 1] == '=' then 1 + TrailingPads(s[..|s| - 1]) else 0
  }

  /** What `btoa` produces: alphabet characters, at most two '=', length a multiple of four. */
  predicate IsPaddedBase64(s: string) {
    |s| % 4 == 0 && TrailingPads(s) <= 2 &&
    forall i :: 0 <= i < |s| - TrailingPads(s) ==> IsBase64Char(s[i])
  }

  /** JSON parses back what it printed; base64 output is well formed and decodes back. */
  ghost predicate Lawful<T(!new)>(c: Codecs<T>) {
    (forall x :: c.parse(c.stringify(x)) == Some(x)) &&
    (forall s :: c.btoa(s).Some? ==> IsPaddedBase64(c.btoa(s).value) && c.atob(c.btoa(s).value) == Some(s))
  }

  function UrlSafeChar(c: char): char {
    if c == '+' then '-' else if c == '/' then '_' else c
  }

  function StandardChar(c: char): char {
    if c == '-' then '+' else if c == '_' then '/' else c
  }

  /** `replace(/\+/g, '-').replace(/\//g, '_')`. */
  function ToUrlSafe(s: string): (r: string)
    ensures |r| == |s|
    ensures forall i :: 0 <= i < |r| ==> r[i] != '+' && r[i] != '/'
    ensures forall i :: 0 <= i < |r| ==> (r[i] == '=' <==> s[i] == '=')
  {
    seq(|s|, i requires 0 <= i < |s| => UrlSafeChar(s[i]))
  }

  /** `replace(/-/g, '+').replace(/_/g, '/')`. */
  function ToStandard(s: string): (r: string)
    ensures |r| == |s|
    ensures forall i :: 0 <= i < |r| ==> r[i] != '-' && r[i] != '_'
  {
    seq(|s|, i requires 0 <= i < |s| => StandardChar(s[i]))
  }

  /** `replace(/=+$/g, '')`: the longest prefix not ending in '='. */
  function StripPadding(s: string): (r: string)
    ensures |r| <= |s| && r == s[..|r|]
    ensures r == [] || r[|r| - 1] != '='
    ensures forall i :: |r| <= i < |s| ==> s[i] == '='
  {
    if s != [] && s[|s| - 1] == '=' then StripPadding(s[..|s| - 1]) else s
  }

  function Repeat(c: char, n: nat): (r: string)
    ensures |r| == n && forall i :: 0 <= i < n ==> r[i] == c
  {
    if n == 0 then [] else Repeat(c, n - 1) + [c]
  }

  /** Re-pads to a multiple of four with '='. */
  function Pad(s: string): (r: string)
    ensures |r| % 4 == 0 && |s| <= |r| <= |s| + 3
    ensures r[..|s|] == s
    ensures forall i :: |s| <= i < |r| ==> r[i] == '='
  {
    if |s| % 4 == 0 then s else s + Repeat('=', 4 - |s| % 4)
  }

  /** `encodeState`: None when `btoa` throws (a character beyond U+00FF in the JSON text). */
  function EncodeState<T>(c: Codecs<T>, obj: T): (r: Option<string>)
    ensures r.Some? ==> forall i :: 0 <= i < |r.value| ==> r.value[i] != '+' && r.value[i] != '/'
    ensures r.Some? ==> r.value == [] || r.value[|r.value| - 1] != '='
    ensures r.None? <==> c.btoa(c.stringify(obj)).None?
  {
    match c.btoa(c.stringify(obj))
    case None => None
    case Some(b64) => Some(StripPadding(ToUrlSafe(b64)))
  }

  /** `decodeState`: None wherever `atob` or `JSON.parse` would throw. */
  function DecodeState<T>(c: Codecs<T>, hash: string): (r: Option<T>)
    ensures c.atob(Pad(ToStandard(hash))).None? ==> r.None?
    ensures r.Some? ==> c.parse(c.atob(Pad(ToStandard(hash))).value) == r
    ensures c.atob(Pad(ToStandard(hash))).Some? ==> r == c.parse(c.atob(Pad(ToStandard(hash))).value)
  {
    match c.atob(Pad(ToStandard(hash)))
    case None => None
    case Some(json) => c.parse(json)
  }

  /** The items to share are the items themselves. */
  function ToShareableItems<T>(items: seq<T>): (r: seq<T>)
    ensures |r| == |items| && forall i :: 0 <= i < |r| ==> r[i] == items[i]
  {
    items
  }

  /** On the standard alphabet, mapping to the URL-safe alphabet and back is the identity. */
  lemma UrlSafeRoundTrip(s: string)
    requires forall i :: 0 <= i < |s| ==> s[i] != '-' && s[i] != '_'
    ensures ToStandard(ToUrlSafe(s)) == s
  {
  }

  /** Stripping the padding keeps exactly the characters before the trailing '=' run. */
  lemma {:induction false} StripDropsTrailingPads(s: string)
    ensures StripPadding(s) == s[..|s| - TrailingPads(s)]
  {
    if s != [] && s[|s| - 1] == '=' {
      StripDropsTrailingPads(s[..|s| - 1]);
      assert s[..|s| - 1][..|s| - 1 - TrailingPads(s[..|s| - 1])] == s[..|s| - TrailingPads(s)];
    }
  }

  /** Removing k < 3 characters from a multiple of four leaves exactly k characters of padding to add. */
  lemma PadCount(n: nat, k: nat)
    requires n % 4 == 0 && k <= 2 && k <= n
    ensures k == 0 ==> (n - k) % 4 == 0
    ensures k > 0 ==> (n - k) % 4 != 0 && 4 - (n - k) % 4 == k
  {
    if k > 0 {
      var q := n / 4;
      assert n - k == 4 * (q - 1) + (4 - k);
    }
  }

  /** Re-padding a stripped `btoa` output restores it. */
  lemma PadRestoresStripped(s: string)
    requires IsPaddedBase64(s)
    ensures Pad(StripPadding(s)) == s
  {
    StripDropsTrailingPads(s);
    var k := TrailingPads(s);
    var body := s[..|s| - k];
    PadCount(|s|, k);
    var p := Pad(body);
    assert |p| == |s|;
    forall i | 0 <= i < |s| ensures p[i] == s[i] {
      if i < |body| { assert p[i] == p[..|body|][i]; }
    }
  }

  /** URL-safe mapping does not move '=' characters, so stripping commutes with it. */
  lemma StripCommutesWithUrlSafe(s: string)
    ensures StripPadding(ToUrlSafe(s)) == ToUrlSafe(StripPadding(s))
  {
    StripDropsTrailingPads(s);
    StripDropsTrailingPads(ToUrlSafe(s));
    TrailingPadsAgree(s, ToUrlSafe(s));
  }

  /** Two strings with '=' at the same positions end in equally many '='. */
  lemma {:induction false} TrailingPadsAgree(s: string, t: string)
    requires |s| == |t|
    requires forall i :: 0 <= i < |s| ==> (s[i] == '=' <==> t[i] == '=')
    ensures TrailingPads(s) == TrailingPads(t)
  {
    if s != [] && s[|s| - 1] == '=' {
      TrailingPadsAgree(s[..|s| - 1], t[..|t| - 1]);
    }
  }

  /** The string transformations undo each other on any `btoa` output. */
  lemma UrlFormRoundTrip(b64: string)
    requires IsPaddedBase64(b64)
    ensures Pad(ToStandard(StripPadding(ToUrlSafe(b64)))) == b64
  {
    var stripped := StripPadding(b64);
    StripCommutesWithUrlSafe(b64);
    StripDropsTrailingPads(b64);
    forall i | 0 <= i < |stripped| ensures stripped[i] != '-' && stripped[i] != '_' {
      assert stripped[i] == b64[i] && IsBase64Char(b64[i]);
    }
    UrlSafeRoundTrip(stripped);
    PadRestoresStripped(b64);
  }

  /** Decoding an encoded value gives it back, whenever encoding did not throw. */
  lemma DecodeEncoded<T(!new)>(c: Codecs<T>, obj: T)
    requires Lawful(c)
    requires EncodeState(c, obj).Some?
    ensures DecodeState(c, EncodeState(c, obj).value) == Some(obj)
  {
    var b64 := c.btoa(c.stringify(obj)).value;
    UrlFormRoundTrip(b64);
  }
}
