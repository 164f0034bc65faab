/**
 * The share-link state: a province and its line items, written into the
 * URL fragment as `state=<percent-encoded base64 of the JSON text>` and read
 * back with every item normalised. Reading never fails loudly: any step
 * that would throw makes the whole result None.
 *
 * JSON (RFC 8259), base64 (section 4 of RFC 4648) and percent-encoding
 * (section 2.1 of RFC 3986) are not modelled; they are the `Codecs`
 * argument, and `Lawful` states the laws the string codecs obey. That JSON
 * text parses back to the value printed is asked of the one value a lemma
 * writes (`ParsesBack`), not of every value: `JNumber` holds any real, and
 * no printer of finitely many digits gives every real back.
 */
module ShareState {
  import opened Wrappers
  import opened TaxData
  import opened Text
  import TaxCalculator

  /** A parsed JSON value. */
  datatype Json =
    | JNull
    | JBool(b: bool)
    | JNumber(n: real)
    | JString(s: string)
    | JArray(elems: seq<Json>)
    | JObject(fields: map<string, Json>)

  /**
   * The library functions the codec calls; None stands for a thrown
   * exception. `numberToString` is `String(n)` for a number.
   */
  datatype Codecs = Codecs(
    stringify: Json -> string,
    parse: string -> Option<Json>,
    btoa: string -> Option<string>,
    atob: string -> Option<string>,
    encodeUri: string -> string,
    decodeUri: string -> Option<string>,
    numberToString: real -> string)

  /**
   * Base64 decodes what it encoded, percent-decoding undoes
   * percent-encoding, and percent-encoding escapes '&'.
   */
  ghost predicate Lawful(c: Codecs) {
    (forall s :: c.btoa(s).Some? ==> c.atob(c.btoa(s).value) == Some(s)) &&
    (forall s :: c.decodeUri(c.encodeUri(s)) == Some(s)) &&
    (forall s :: '&' !in c.encodeUri(s))
  }

  /** JSON parses back the value `j` it printed. */
  ghost predicate ParsesBack(c: Codecs, j: Json) {
    c.parse(c.stringify(j)) == Some(j)
  }

  /** JavaScript truthiness of a JSON value (NaN is not a JSON number). */
  predicate Truthy(j: Json) {
    match j
    case JNull => false
    case JBool(b) => b
    case JNumber(n) => n != 0.0
    case JString(s) => s != ""
    case _ => true
  }

  /** `typeof j === 'object'`: null, arrays and objects. */
  predicate TypeofObject(j: Json) {
    j.JNull? || j.JArray? || j.JObject?
  }

  /** `j?.key`: a field of an object; anything else has no such property. */
  function Property(j: Json, key: string): (r: Option<Json>)
    ensures r.Some? <==> j.JObject? && key in j.fields
  {
    if j.JObject? && key in j.fields then Some(j.fields[key]) else None
  }

  datatype ShareableLineItem = ShareableLineItem(labelText: string, category: Category, amount: string)

  /** The province is whatever truthy value the payload carried; it is not checked against the province list. */
  datatype ShareableState = ShareableState(province: Json, items: seq<ShareableLineItem>)

  const HashKey: string := "state"

  /** `${HASH_KEY}=` */
  function Prefix(): (p: string)
    ensures p == "state=" && |p| == |HashKey| + 1 && '&' !in p
  {
    HashKey + "="
  }

  function ItemToJson(item: ShareableLineItem): Json {
    JObject(map["label" := JString(item.labelText), "category" := JString(Name(item.category)),
                "amount" := JString(item.amount)])
  }

  function StateToJson(state: ShareableState): Json {
    JObject(map["province" := state.province,
                "items" := JArray(seq(|state.items|, i requires 0 <= i < |state.items| => ItemToJson(state.items[i])))])
  }

  /** `encodeState`: None when `btoa` throws on a character beyond U+00FF in the JSON text. */
  function EncodeState(c: Codecs, state: ShareableState): (r: Option<string>)
    ensures r.Some? ==> StartsWith(r.value, Prefix())
    ensures r.None? <==> c.btoa(c.stringify(StateToJson(state))).None?
  {
    match c.btoa(c.stringify(StateToJson(state)))
    case None => None
    case Some(payload) => Some(Prefix() + c.encodeUri(payload))
  }

  /** The label given to the item at `index` when it has none: `Item {index + 1}`. */
  function DefaultLabel(index: nat): (s: string)
    ensures |s| > 5 && s[..5] == "Item " && !Blank(s)
  {
    var s := "Item " + NatToString(index + 1);
    assert !IsJsWhitespace(s[0]);
    s
  }

  /** One decoded entry as an item: a non-blank label, a known category, an amount string. */
  function NormalizeItem(c: Codecs, entry: Json, index: nat): (item: ShareableLineItem)
    ensures !Blank(item.labelText)
    ensures item.category in CategoryOptions()
    ensures (match Property(entry, "label") case Some(JString(s)) => !Blank(s) case _ => false)
              ==> item.labelText == Property(entry, "label").value.s
    ensures (match Property(entry, "label") case Some(JString(s)) => !Blank(s) case _ => false)
              || item.labelText == DefaultLabel(index)
    ensures (match Property(entry, "category") case Some(JString(_)) => false case _ => true)
              ==> item.category == Standard
    ensures (match Property(entry, "amount") case Some(JString(_)) => false case Some(JNumber(_)) => false
                                            case _ => true)
              ==> item.amount == "0"
    ensures forall s :: Property(entry, "category") == Some(JString(s)) ==> item.category == TaxCalculator.ValidateCategory(s)
    ensures forall s :: Property(entry, "amount") == Some(JString(s)) ==> item.amount == s
    ensures forall n :: Property(entry, "amount") == Some(JNumber(n)) ==> item.amount == c.numberToString(n)
  {
    CategoryOptionsComplete();
    var labelText :=
      match Property(entry, "label")
      case Some(JString(s)) => if !Blank(s) then s else DefaultLabel(index)
      case _ => DefaultLabel(index);
    var category :=
      match Property(entry, "category")
      case Some(JString(s)) => TaxCalculator.ValidateCategory(s)
      case _ => Standard;
    var amount :=
      match Property(entry, "amount")
      case Some(JString(s)) => s
      case Some(JNumber(n)) => c.numberToString(n)
      case _ => "0";
    ShareableLineItem(labelText, category, amount)
  }

  /** The `items` array of the payload, or no items when it is missing or not an array. */
  function ItemsInput(parsed: Json): (es: seq<Json>)
    ensures (match Property(parsed, "items") case Some(JArray(_)) => false case _ => true) ==> es == []
  {
    match Property(parsed, "items")
    case Some(JArray(es)) => es
    case _ => []
  }

  /** The state a parsed payload stands for, or None when it is not an object with a truthy province. */
  function FromPayload(c: Codecs, parsed: Json): (r: Option<ShareableState>)
    ensures r.Some? <==> Truthy(parsed) && TypeofObject(parsed) &&
                         Property(parsed, "province").Some? && Truthy(Property(parsed, "province").value)
    ensures r.Some? ==> r.value.province == Property(parsed, "province").value
    ensures r.Some? ==> |r.value.items| == |ItemsInput(parsed)|
    ensures r.Some? ==> forall i :: 0 <= i < |r.value.items| ==>
                          r.value.items[i] == NormalizeItem(c, ItemsInput(parsed)[i], i)
  {
    if !Truthy(parsed) || !TypeofObject(parsed) then None
    else
      var province := Property(parsed, "province");
      var itemsInput := ItemsInput(parsed);
      if province.None? || !Truthy(province.value) then None
      else
        Some(ShareableState(province.value,
          seq(|itemsInput|, i requires 0 <= i < |itemsInput| => NormalizeItem(c, itemsInput[i], i))))
  }

  /** `decodeState`: the prefix check, then percent-decoding, base64 decoding and parsing. */
  function DecodeState(c: Codecs, fragment: string): (r: Option<ShareableState>)
    ensures !StartsWith(fragment, Prefix()) ==> r.None?
    ensures r.Some? ==> Truthy(r.value.province)
    ensures r.Some? ==> forall i :: 0 <= i < |r.value.items| ==> !Blank(r.value.items[i].labelText)
    ensures StartsWith(fragment, Prefix()) ==>
              var payload := c.decodeUri(fragment[|Prefix()|..]);
              (payload.None? ==> r.None?) &&
              (payload.Some? && c.atob(payload.value).None? ==> r.None?) &&
              (payload.Some? && c.atob(payload.value).Some? ==>
                 var parsed := c.parse(c.atob(payload.value).value);
                 (parsed.None? ==> r.None?) && (parsed.Some? ==> r == FromPayload(c, parsed.value)))
  {
    if !StartsWith(fragment, Prefix()) then None
    else
      var raw := fragment[|HashKey| + 1..];
      match c.decodeUri(raw)
      case None => None
      case Some(payload) =>
        match c.atob(payload)
        case None => None
        case Some(decoded) =>
          match c.parse(decoded)
          case None => None
          case Some(parsed) => FromPayload(c, parsed)
  }

  /** `hash.replace(/^#/, '')`: one leading '#' removed. */
  function StripLeadingHash(hash: string): (r: string)
    ensures hash != [] && hash[0] == '#' ==> r == hash[1..]
    ensures (hash == [] || hash[0] != '#') ==> r == hash
  {
    if hash != [] && hash[0] == '#' then hash[1..] else hash
  }

  /** The `&`-separated segments of a location hash, leading '#' removed. */
  function Segments(hash: string): (segments: seq<string>)
    ensures |segments| >= 1 && forall i :: 0 <= i < |segments| ==> '&' !in segments[i]
  {
    Split(StripLeadingHash(hash), '&')
  }

  /** The state of the first segment from `from` on that decodes, or None when none does. */
  function FirstDecoded(c: Codecs, segments: seq<string>, from: nat): Option<ShareableState>
    decreases |segments| - from
  {
    if from >= |segments| then None
    else
      match DecodeState(c, segments[from])
      case Some(state) => Some(state)
      case None => FirstDecoded(c, segments, from + 1)
  }

  /**
   * FirstDecoded is None exactly when no segment from `from` on decodes, and
   * otherwise it is the state of a segment every earlier one of which fails.
   */
  lemma {:induction false} FirstDecodedIsFirst(c: Codecs, segments: seq<string>, from: nat)
    requires from <= |segments|
    ensures FirstDecoded(c, segments, from).None? <==>
              forall j :: from <= j < |segments| ==> DecodeState(c, segments[j]).None?
    ensures FirstDecoded(c, segments, from).Some? ==>
              exists i :: from <= i < |segments| && DecodeState(c, segments[i]) == FirstDecoded(c, segments, from) &&
                          forall j :: from <= j < i ==> DecodeState(c, segments[j]).None?
    decreases |segments| - from
  {
    if from < |segments| {
      FirstDecodedIsFirst(c, segments, from + 1);
      if DecodeState(c, segments[from]).None? && FirstDecoded(c, segments, from + 1).Some? {
        var i :| from + 1 <= i < |segments| && DecodeState(c, segments[i]) == FirstDecoded(c, segments, from + 1) &&
                 forall j :: from + 1 <= j < i ==> DecodeState(c, segments[j]).None?;
        assert forall j :: from <= j < i ==> DecodeState(c, segments[j]).None?;
      }
    }
  }

  /** `extractStateFromHash`: the first segment that decodes, or None when the hash is empty or none does. */
  method ExtractStateFromHash(c: Codecs, hash: string) returns (r: Option<ShareableState>)
    ensures hash == "" ==> r.None?
    ensures hash != "" ==> r == FirstDecoded(c, Segments(hash), 0)
  {
    if hash == "" {
      return None;
    }
    r := DecodeFirstSegment(c, Segments(hash));
  }

  /** The loop of `extractStateFromHash`: tries the segments in order and stops at the first that decodes. */
  method DecodeFirstSegment(c: Codecs, segments: seq<string>) returns (r: Option<ShareableState>)
    ensures r == FirstDecoded(c, segments, 0)
  {
    var i: nat := 0;
    while i < |segments|
      invariant i <= |segments|
      invariant FirstDecoded(c, segments, i) == FirstDecoded(c, segments, 0)
    {
      var result := DecodeState(c, segments[i]);
      if result.Some? {
        return result;
      }
      i := i + 1;
    }
    return None;
  }

  /** An item survives the trip when its label is not blank. */
  lemma NormalizeEncodedItem(c: Codecs, item: ShareableLineItem, index: nat)
    requires !Blank(item.labelText)
    ensures NormalizeItem(c, ItemToJson(item), index) == item
  {
    ItemJsonFields(item);
    TaxCalculator.ValidateCategoryOfName(item.category);
  }

  /** The three properties of an item's JSON object. */
  lemma ItemJsonFields(item: ShareableLineItem)
    ensures Property(ItemToJson(item), "label") == Some(JString(item.labelText))
    ensures Property(ItemToJson(item), "category") == Some(JString(Name(item.category)))
    ensures Property(ItemToJson(item), "amount") == Some(JString(item.amount))
  {
  }

  /** Reading back a written state gives the same state, when its province is truthy and no label is blank. */
  lemma DecodeEncodedState(c: Codecs, state: ShareableState)
    requires Lawful(c) && ParsesBack(c, StateToJson(state))
    requires EncodeState(c, state).Some?
    requires Truthy(state.province)
    requires forall i :: 0 <= i < |state.items| ==> !Blank(state.items[i].labelText)
    ensures DecodeState(c, EncodeState(c, state).value) == Some(state)
  {
    var json := StateToJson(state);
    var payload := c.btoa(c.stringify(json)).value;
    var encoded := EncodeState(c, state).value;
    assert encoded[|HashKey| + 1..] == c.encodeUri(payload);
    assert c.decodeUri(c.encodeUri(payload)) == Some(payload);
    assert c.atob(payload) == Some(c.stringify(json));
    assert c.parse(c.stringify(json)) == Some(json);
    var r := FromPayload(c, json);
    assert ItemsInput(json) == seq(|state.items|, i requires 0 <= i < |state.items| => ItemToJson(state.items[i]));
    forall i | 0 <= i < |state.items|
      ensures NormalizeItem(c, ItemsInput(json)[i], i) == state.items[i]
    {
      NormalizeEncodedItem(c, state.items[i], i);
    }
    assert r.value.items == state.items;
  }

  /** A stand-in percent-encoding: '&' becomes "%0", '%' becomes "%1", every other character stays. */
  function EscapeAmp(s: string): (r: string)
    ensures '&' !in r
  {
    if s == [] then []
    else (if s[0] == '&' then "%0" else if s[0] == '%' then "%1" else [s[0]]) + EscapeAmp(s[1..])
  }

  /** The inverse of `EscapeAmp`; None for a '%' not followed by '0' or '1'. */
  function UnescapeAmp(s: string): Option<string>
    decreases |s|
  {
    if s == [] then Some([])
    else if s[0] != '%' then
      match UnescapeAmp(s[1..])
      case None => None
      case Some(t) => Some([s[0]] + t)
    else if |s| < 2 || (s[1] != '0' && s[1] != '1') then None
    else
      match UnescapeAmp(s[2..])
      case None => None
      case Some(t) => Some((if s[1] == '0' then "&" else "%") + t)
  }

  lemma {:induction false} UnescapeEscapeAmp(s: string)
    ensures UnescapeAmp(EscapeAmp(s)) == Some(s)
  {
    if s != [] {
      UnescapeEscapeAmp(s[1..]);
      var head := if s[0] == '&' then "%0" else if s[0] == '%' then "%1" else [s[0]];
      assert EscapeAmp(s) == head + EscapeAmp(s[1..]);
      var e := EscapeAmp(s);
      if s[0] == '&' || s[0] == '%' {
        assert e[0] == '%' && e[2..] == EscapeAmp(s[1..]);
        assert (if e[1] == '0' then "&" else "%") == [s[0]];
      } else {
        assert e[0] == s[0] && e[1..] == EscapeAmp(s[1..]);
      }
      assert s == [s[0]] + s[1..];
    }
  }

  /** A library that prints every value as "" and parses any text as the JSON of `state`. */
  function WitnessCodecs(state: ShareableState): Codecs {
    Codecs(j => "", t => Some(StateToJson(state)), t => Some(t), t => Some(t), EscapeAmp, UnescapeAmp, n => "")
  }

  lemma WitnessCodecsLawful(state: ShareableState)
    ensures Lawful(WitnessCodecs(state))
  {
    var c := WitnessCodecs(state);
    forall t ensures c.decodeUri(c.encodeUri(t)) == Some(t) {
      UnescapeEscapeAmp(t);
    }
  }

  /** For every state some library obeys all the laws the round trip relies on, so its requirements can be met together. */
  lemma LawfulCodecsExist(state: ShareableState)
    ensures exists c :: Lawful(c) && ParsesBack(c, StateToJson(state)) && EncodeState(c, state).Some?
  {
    var c := WitnessCodecs(state);
    WitnessCodecsLawful(state);
    assert ParsesBack(c, StateToJson(state));
    assert EncodeState(c, state).Some?;
  }

  /** A shared link `#state=...` is a single segment, and that segment reads the state back. */
  lemma SharedLinkIsOneSegment(c: Codecs, state: ShareableState)
    requires Lawful(c) && ParsesBack(c, StateToJson(state))
    requires EncodeState(c, state).Some?
    requires Truthy(state.province)
    requires forall i :: 0 <= i < |state.items| ==> !Blank(state.items[i].labelText)
    ensures Segments("#" + EncodeState(c, state).value) == [EncodeState(c, state).value]
    ensures DecodeState(c, Segments("#" + EncodeState(c, state).value)[0]) == Some(state)
  {
    var encoded := EncodeState(c, state).value;
    var payload := c.btoa(c.stringify(StateToJson(state))).value;
    assert '&' !in encoded by {
      assert encoded == Prefix() + c.encodeUri(payload);
      assert '&' !in c.encodeUri(payload);
    }
    assert ("#" + encoded)[1..] == encoded;
    SplitJoin([encoded], '&');
    DecodeEncodedState(c, state);
  }
}
