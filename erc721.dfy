/**
 * The DIP721/ERC-721 adapter: decodes the canister's tagged variants and
 * flattens its metadata parts into one map plus an ordered property list.
 * Remote results are inputs; `JSON.stringify` and the string conversion of an
 * object are parameters, since the model does not fix their output.
 */
module Erc721Adapter {
  import opened Wrappers
  import opened Strings
  import opened Nft

  /** A decoded remote value, as JavaScript sees it after Candid decoding. */
  datatype Payload =
    | Null
    | Text(text: string)
    | Number(n: int)
    | Bool(b: bool)
    | Structured(items: seq<Payload>)   // records, vectors and blobs

  /** A single-key tagged union `{ tag: payload }` (metadata values, purposes, errors). */
  datatype Variant = Variant(tag: string, payload: Payload)

  datatype KeyVal = KeyVal(key: string, val: Variant)

  datatype MetadataPart = MetadataPart(purpose: Variant, keyValData: seq<KeyVal>)

  /** One token as returned by the batched per-user query. */
  datatype TokenMetadata = TokenMetadata(tokenId: nat, metadataDesc: seq<MetadataPart>)

  /** The answer to a call returning a Candid `Result`. */
  datatype RemoteResult<T> = Ok(value: T) | Err(error: Variant)

  /** What `extractMetadataValue` yields: the payload itself, or its JSON text. */
  datatype PropValue = Verbatim(payload: Payload) | Serialized(json: string)

  datatype Property = Property(name: string, value: PropValue)

  datatype Field = Field(value: Variant, purpose: string)

  /** The flattened metadata: last value and purpose per key, and the property list. */
  datatype Metadata = Metadata(fields: map<string, Field>, properties: seq<Property>)

  /** One key/value occurrence together with the purpose of the part it came from. */
  datatype Entry = Entry(key: string, val: Variant, purpose: string)

  const LocationKey := "location"

  /** `typeof value === 'object'`, which also holds for `null`. */
  predicate IsObject(p: Payload) { p.Null? || p.Structured? }

  /** Unwraps a single-key value variant; compound payloads are serialised. */
  function ExtractMetadataValue(v: Variant, stringify: Payload -> string): (r: PropValue)
    ensures r.Serialized? <==> IsObject(v.payload)
    ensures r.Serialized? ==> r.json == stringify(v.payload)
    ensures r.Verbatim? ==> r.payload == v.payload
  {
    if IsObject(v.payload) then Serialized(stringify(v.payload)) else Verbatim(v.payload)
  }

  // ---------------------------------------------------------------------------
  // Reference definition of the flattening
  // ---------------------------------------------------------------------------

  /** The entries of one part, each tagged with the part's purpose. */
  function Tagged(purpose: string, kvs: seq<KeyVal>): (es: seq<Entry>)
    ensures |es| == |kvs|
    ensures forall j :: 0 <= j < |kvs| ==> es[j] == Entry(kvs[j].key, kvs[j].val, purpose)
  {
    if kvs == [] then []
    else Tagged(purpose, kvs[..|kvs| - 1]) + [Entry(kvs[|kvs| - 1].key, kvs[|kvs| - 1].val, purpose)]
  }

  /** Every occurrence of every part, in part-then-entry arrival order. */
  function Flatten(parts: seq<MetadataPart>): seq<Entry>
  {
    if parts == [] then []
    else
      var last := parts[|parts| - 1];
      Flatten(parts[..|parts| - 1]) + Tagged(last.purpose.tag, last.keyValData)
  }

  /** The key map after writing every entry in order: later writes overwrite earlier ones. */
  function FieldsOf(es: seq<Entry>): map<string, Field>
  {
    if es == [] then map[]
    else
      var e := es[|es| - 1];
      FieldsOf(es[..|es| - 1])[e.key := Field(e.val, e.purpose)]
  }

  /** One property per entry, in order. */
  function PropertiesOf(es: seq<Entry>, stringify: Payload -> string): (ps: seq<Property>)
    ensures |ps| == |es|
    ensures forall k :: 0 <= k < |es| ==>
      ps[k] == Property(es[k].key, ExtractMetadataValue(es[k].val, stringify))
  {
    if es == [] then []
    else
      var e := es[|es| - 1];
      PropertiesOf(es[..|es| - 1], stringify) + [Property(e.key, ExtractMetadataValue(e.val, stringify))]
  }

  /** The entries not named "location", order kept. */
  function NonLocation(es: seq<Entry>): (r: seq<Entry>)
    ensures |r| <= |es|
    ensures forall e :: e in r <==> e in es && e.key != LocationKey
  {
    if es == [] then []
    else
      var e := es[|es| - 1];
      NonLocation(es[..|es| - 1]) + (if e.key == LocationKey then [] else [e])
  }

  /** The properties not named "location", order kept (the final `filter`). */
  function WithoutLocation(ps: seq<Property>): seq<Property>
  {
    if ps == [] then []
    else
      var p := ps[|ps| - 1];
      WithoutLocation(ps[..|ps| - 1]) + (if p.name == LocationKey then [] else [p])
  }

  /** What formatting the parts must produce. */
  function Formatted(parts: seq<MetadataPart>, stringify: Payload -> string): (m: Metadata)
    ensures m.fields.Keys == set i | 0 <= i < |Flatten(parts)| :: Flatten(parts)[i].key
    ensures forall k :: 0 <= k < |m.properties| ==> m.properties[k].name != LocationKey
  {
    var es := Flatten(parts);
    var nl := NonLocation(es);
    FieldKeys(es);
    assert forall k :: 0 <= k < |nl| ==> nl[k] in nl;
    Metadata(FieldsOf(es), PropertiesOf(nl, stringify))
  }

  // ---------------------------------------------------------------------------
  // formatMetadata, as the source runs it
  // ---------------------------------------------------------------------------

  /**
   * Walks the parts and their entries, overwriting the key map and appending a
   * property per entry, then drops the "location" properties.
   */
  method FormatMetadata(parts: seq<MetadataPart>, stringify: Payload -> string) returns (m: Metadata)
    ensures m == Formatted(parts, stringify)
  {
    var fields: map<string, Field> := map[];
    var properties: seq<Property> := [];
    for i := 0 to |parts|
      invariant fields == FieldsOf(Flatten(parts[..i]))
      invariant properties == PropertiesOf(Flatten(parts[..i]), stringify)
    {
      var part := parts[i];
      var purpose := part.purpose.tag;
      ghost var done := Flatten(parts[..i]);
      assert done + Tagged(purpose, part.keyValData[..0]) == done;
      for j := 0 to |part.keyValData|
        invariant fields == FieldsOf(done + Tagged(purpose, part.keyValData[..j]))
        invariant properties == PropertiesOf(done + Tagged(purpose, part.keyValData[..j]), stringify)
      {
        var kv := part.keyValData[j];
        AppendEntry(done, purpose, part.keyValData, j, stringify);
        fields := fields[kv.key := Field(kv.val, purpose)];
        properties := properties + [Property(kv.key, ExtractMetadataValue(kv.val, stringify))];
      }
      AppendPart(parts, i);
    }
    assert parts[..|parts|] == parts;
    var kept: seq<Property> := [];
    for k := 0 to |properties|
      invariant kept == WithoutLocation(properties[..k])
    {
      assert properties[..k + 1][..k] == properties[..k];
      if properties[k].name != LocationKey {
        kept := kept + [properties[k]];
      }
    }
    assert properties[..|properties|] == properties;
    FilterAfterMap(Flatten(parts), stringify);
    m := Metadata(fields, kept);
  }

  /** One step of the inner loop: writing entry `j` of a part extends both views by it. */
  lemma AppendEntry(done: seq<Entry>, purpose: string, kvs: seq<KeyVal>, j: nat, stringify: Payload -> string)
    requires j < |kvs|
    ensures var e := Entry(kvs[j].key, kvs[j].val, purpose);
      && FieldsOf(done + Tagged(purpose, kvs[..j + 1]))
         == FieldsOf(done + Tagged(purpose, kvs[..j]))[e.key := Field(e.val, e.purpose)]
      && PropertiesOf(done + Tagged(purpose, kvs[..j + 1]), stringify)
         == PropertiesOf(done + Tagged(purpose, kvs[..j]), stringify) + [Property(e.key, ExtractMetadataValue(e.val, stringify))]
  {
    var e := Entry(kvs[j].key, kvs[j].val, purpose);
    var before := done + Tagged(purpose, kvs[..j]);
    var after := done + Tagged(purpose, kvs[..j + 1]);
    assert kvs[..j + 1][..j] == kvs[..j];
    assert after == before + [e];
    assert after[..|after| - 1] == before;
  }

  /** One step of the outer loop: a whole part appends its tagged entries. */
  lemma AppendPart(parts: seq<MetadataPart>, i: nat)
    requires i < |parts|
    ensures Flatten(parts[..i + 1]) == Flatten(parts[..i]) + Tagged(parts[i].purpose.tag, parts[i].keyValData[..|parts[i].keyValData|])
  {
    assert parts[i].keyValData[..|parts[i].keyValData|] == parts[i].keyValData;
    assert parts[..i + 1][..i] == parts[..i];
  }

  /** Mapping every entry and then filtering equals filtering the entries first. */
  lemma {:induction false} FilterAfterMap(es: seq<Entry>, stringify: Payload -> string)
    ensures WithoutLocation(PropertiesOf(es, stringify)) == PropertiesOf(NonLocation(es), stringify)
  {
    if es != [] {
      var front := es[..|es| - 1];
      var ps := PropertiesOf(es, stringify);
      assert ps[..|ps| - 1] == PropertiesOf(front, stringify);
      FilterAfterMap(front, stringify);
      var e := es[|es| - 1];
      if e.key != LocationKey {
        var nl := NonLocation(es);
        assert nl[..|nl| - 1] == NonLocation(front);
      }
    }
  }

  // ---------------------------------------------------------------------------
  // Properties of the flattening
  // ---------------------------------------------------------------------------

  /** Part-then-entry order: flattening distributes over concatenation of the part list. */
  lemma {:induction false} FlattenAppend(ps: seq<MetadataPart>, qs: seq<MetadataPart>)
    ensures Flatten(ps + qs) == Flatten(ps) + Flatten(qs)
  {
    if qs != [] {
      var front := qs[..|qs| - 1];
      assert (ps + qs)[..|ps + qs| - 1] == ps + front;
      FlattenAppend(ps, front);
    } else {
      assert ps + qs == ps;
    }
  }

  /** A single part contributes its entries in order, each with that part's purpose. */
  lemma FlattenSingle(p: MetadataPart)
    ensures Flatten([p]) == Tagged(p.purpose.tag, p.keyValData)
  {
    assert [p][..0] == [];
  }

  /** No property of the formatted metadata is named "location". */
  lemma NoLocationProperty(parts: seq<MetadataPart>, stringify: Payload -> string)
    ensures forall p :: p in Formatted(parts, stringify).properties ==> p.name != LocationKey
  {
    var es := NonLocation(Flatten(parts));
    var ps := PropertiesOf(es, stringify);
    forall p | p in ps ensures p.name != LocationKey {
      var k :| 0 <= k < |ps| && ps[k] == p;
      assert es[k] in es;
    }
  }

  /** Dropping "location" entries keeps order: it distributes over concatenation. */
  lemma {:induction false} NonLocationAppend(a: seq<Entry>, b: seq<Entry>)
    ensures NonLocation(a + b) == NonLocation(a) + NonLocation(b)
  {
    if b != [] {
      var front := b[..|b| - 1];
      assert (a + b)[..|a + b| - 1] == a + front;
      NonLocationAppend(a, front);
    } else {
      assert a + b == a;
    }
  }

  /**
   * The properties are exactly one per (part, entry) occurrence whose key is
   * not "location", in arrival order, repeated keys included.
   */
  lemma PropertiesPerOccurrence(parts: seq<MetadataPart>, stringify: Payload -> string)
    ensures var nl := NonLocation(Flatten(parts));
      && |Formatted(parts, stringify).properties| == |nl|
      && forall k :: 0 <= k < |nl| ==>
           Formatted(parts, stringify).properties[k] == Property(nl[k].key, ExtractMetadataValue(nl[k].val, stringify))
  {
  }

  /** The keys of the map are exactly the keys that occur. */
  lemma {:induction false} FieldKeys(es: seq<Entry>)
    ensures FieldsOf(es).Keys == set i | 0 <= i < |es| :: es[i].key
  {
    if es != [] {
      var front := es[..|es| - 1];
      FieldKeys(front);
      var s := set i | 0 <= i < |es| :: es[i].key;
      var t := set i | 0 <= i < |front| :: front[i].key;
      assert s == t + {es[|es| - 1].key} by {
        forall x | x in s ensures x in t + {es[|es| - 1].key} {
          var i :| 0 <= i < |es| && es[i].key == x;
          if i < |front| { assert front[i].key == x; }
        }
        forall x | x in t ensures x in s {
          var i :| 0 <= i < |front| && front[i].key == x;
          assert es[i].key == x;
        }
      }
    }
  }

  /** Last writer wins: a key maps to the value and purpose of its last occurrence. */
  lemma {:induction false} FieldIsLastOccurrence(es: seq<Entry>, i: nat)
    requires i < |es|
    requires forall j :: i < j < |es| ==> es[j].key != es[i].key
    ensures es[i].key in FieldsOf(es)
    ensures FieldsOf(es)[es[i].key] == Field(es[i].val, es[i].purpose)
  {
    if i < |es| - 1 {
      var front := es[..|es| - 1];
      FieldIsLastOccurrence(front, i);
    }
  }

  // ---------------------------------------------------------------------------
  // Token details and errors
  // ---------------------------------------------------------------------------

  /** The map holds a "location" entry whose value is `{TextContent: s}`. */
  predicate TextLocation(m: Metadata, s: string)
  {
    LocationKey in m.fields && m.fields[LocationKey].value == Variant("TextContent", Text(s))
  }

  /** `metadata?.location?.value?.TextContent || ''` */
  function LocationUrl(m: Metadata): (url: string)
    ensures url != "" ==> TextLocation(m, url)
    ensures url == "" ==> forall s :: TextLocation(m, s) ==> s == ""
  {
    if LocationKey in m.fields then
      var v := m.fields[LocationKey].value;
      if v.tag == "TextContent" && v.payload.Text? then v.payload.text else ""
    else ""
  }

  function SerializeTokenData(canisterId: string, metadata: Metadata, tokenIndex: nat): (r: TokenDetails<Metadata>)
    ensures r.index == tokenIndex && r.canister == canisterId && r.standard == Erc721
    ensures r.metadata == metadata && r.name == None
    ensures r.url != "" ==> TextLocation(metadata, r.url)
    ensures r.url == "" ==> forall s :: TextLocation(metadata, s) ==> s == ""
  {
    TokenDetails(tokenIndex, canisterId, metadata, LocationUrl(metadata), None, Erc721)
  }

  /** The url of a token is the text of the last "location" occurrence across its parts. */
  lemma UrlFromLastLocation(parts: seq<MetadataPart>, stringify: Payload -> string,
                            canisterId: string, tokenIndex: nat, i: nat, s: string)
    requires i < |Flatten(parts)|
    requires Flatten(parts)[i].key == LocationKey
    requires forall j :: i < j < |Flatten(parts)| ==> Flatten(parts)[j].key != LocationKey
    requires Flatten(parts)[i].val == Variant("TextContent", Text(s))
    ensures SerializeTokenData(canisterId, Formatted(parts, stringify), tokenIndex).url == s
  {
    FieldIsLastOccurrence(Flatten(parts), i);
  }

  /** Without any "location" occurrence the url is the empty string. */
  lemma UrlWithoutLocation(parts: seq<MetadataPart>, stringify: Payload -> string,
                           canisterId: string, tokenIndex: nat)
    requires forall j :: 0 <= j < |Flatten(parts)| ==> Flatten(parts)[j].key != LocationKey
    ensures SerializeTokenData(canisterId, Formatted(parts, stringify), tokenIndex).url == ""
  {
    FieldKeys(Flatten(parts));
  }

  /** Template-literal conversion `${value}`; `render` is the string conversion of an object. */
  function Interpolate(p: Payload, render: Payload -> string): (r: string)
    ensures p.Text? ==> r == p.text
    ensures p.Null? ==> r == "null"
    ensures p.Number? ==> r == IntToString(p.n)
    ensures p.Bool? ==> r == (if p.b then "true" else "false")
    ensures p.Number? && p.n >= 0 ==> ParseNat(r) == p.n
    ensures p.Number? && p.n < 0 ==> |r| > 1 && r[0] == '-' && ParseNat(r[1..]) == -p.n
    ensures p.Structured? ==> r == render(p)
  {
    match p
    case Null => "null"
    case Text(s) => s
    case Number(n) => ParseNatToString(if n < 0 then -n else n); IntToString(n)
    case Bool(b) => if b then "true" else "false"
    case Structured(_) => render(p)
  }

  /** The message thrown for an `Err` variant: "<kind>: <detail>". */
  function ErrorMessage(err: Variant, render: Payload -> string): (msg: string)
    ensures |msg| == |err.tag| + 2 + |Interpolate(err.payload, render)|
    ensures msg[..|err.tag|] == err.tag && msg[|err.tag|..|err.tag| + 2] == ": "
    ensures msg[|err.tag| + 2..] == Interpolate(err.payload, render)
  {
    err.tag + ": " + Interpolate(err.payload, render)
  }

  /**
   * A consumer that parses the message by prefix recovers the error kind, and
   * the text after ": " is the detail.
   */
  lemma ErrorMessageParses(err: Variant, render: Payload -> string)
    requires forall k :: 0 <= k < |err.tag| ==> err.tag[k] != ':'
    ensures KindPrefix(ErrorMessage(err, render)) == err.tag
    ensures ErrorMessage(err, render)[|err.tag| + 2..] == Interpolate(err.payload, render)
  {
    KindPrefixBeforeColon(err.tag, " " + Interpolate(err.payload, render));
    assert ErrorMessage(err, render) == err.tag + ":" + (" " + Interpolate(err.payload, render));
  }

  /** A text detail is used verbatim: `{BadOwner: "xyz"}` gives "BadOwner: xyz". */
  lemma TextErrorMessage(kind: string, detail: string, render: Payload -> string)
    ensures ErrorMessage(Variant(kind, Text(detail)), render) == kind + ": " + detail
  {
  }

  /** A number detail is rendered in plain decimal: `{InvalidTokenId: 42n}` gives "InvalidTokenId: 42". */
  lemma NumberErrorMessage(kind: string, render: Payload -> string)
    ensures ErrorMessage(Variant(kind, Number(42)), render) == kind + ": 42"
  {
    assert NatToString(42) == NatToString(4) + [DigitChar(2)];
  }

  /** `transfer`: succeeds on `Ok`, fails with the error message on `Err`. */
  function Transfer(result: RemoteResult<()>, render: Payload -> string): (r: Outcome<string>)
    ensures r.Fail? <==> result.Err?
    ensures r.Fail? ==> r.error == ErrorMessage(result.error, render)
  {
    match result
    case Ok(_) => Pass
    case Err(e) => Fail(ErrorMessage(e, render))
  }

  /** `details`: the formatted metadata of one token, or the error message on `Err`. */
  function Details(canisterId: string, tokenIndex: nat, result: RemoteResult<seq<MetadataPart>>,
                   stringify: Payload -> string, render: Payload -> string): (r: Result<TokenDetails<Metadata>, string>)
    ensures r.Failure? <==> result.Err?
    ensures r.Failure? ==> r.error == ErrorMessage(result.error, render)
    ensures r.Success? ==> r.value == SerializeTokenData(canisterId, Formatted(result.value, stringify), tokenIndex)
  {
    match result
    case Ok(parts) => Success(SerializeTokenData(canisterId, Formatted(parts, stringify), tokenIndex))
    case Err(e) => Failure(ErrorMessage(e, render))
  }

  /** `getUserTokens` after the query answered: each token formatted, order kept. */
  function GetUserTokens(canisterId: string, result: Option<seq<TokenMetadata>>,
                         stringify: Payload -> string): (r: seq<TokenDetails<Metadata>>)
    ensures result.None? ==> r == []
    ensures result.Some? ==> |r| == |result.value|
    ensures result.Some? ==> forall k :: 0 <= k < |r| ==>
      r[k] == SerializeTokenData(canisterId, Formatted(result.value[k].metadataDesc, stringify), result.value[k].tokenId)
  {
    match result
    case None => []
    case Some(tokens) => SerializeAll(canisterId, tokens, stringify)
  }

  function SerializeAll(canisterId: string, tokens: seq<TokenMetadata>, stringify: Payload -> string): (r: seq<TokenDetails<Metadata>>)
    ensures |r| == |tokens|
    ensures forall k :: 0 <= k < |r| ==>
      r[k] == SerializeTokenData(canisterId, Formatted(tokens[k].metadataDesc, stringify), tokens[k].tokenId)
  {
    if tokens == [] then []
    else
      [SerializeTokenData(canisterId, Formatted(tokens[0].metadataDesc, stringify), tokens[0].tokenId)]
      + SerializeAll(canisterId, tokens[1..], stringify)
  }
}
