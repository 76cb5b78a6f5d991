# NFT adapter normalisation, modelled in Dafny

This project models the two token-standard adapters of DAB-js that turn what an
NFT canister returns into one `NFTDetails` shape:

- **ERC-721 / DIP721** (`src/nft_standards/erc_721.ts`). Metadata arrives as a list of
  *parts*. Each part has a single-key purpose tag and a list of key/value entries.
  `formatMetadata` folds them into a map from key to `{value, purpose}`, where the last
  writer wins. It also builds an ordered `properties` list with one entry per occurrence,
  then drops the `"location"` entries. The token url is the `TextContent` of the
  `location` value, or `''`. A Candid `Err` variant becomes the message `"<kind>: <detail>"`.
- **ICPunks** (`src/nft_standards/ic_punks.ts`). Each token is a flat record. Its image
  url is either on one of ten storage shards (chosen by `index % 10`) when the canister
  is the ICP Bunny hub, or on the canister's own host. Listing fetches one record per
  owned index and keeps the index order; one failing fetch fails the listing. A `false`
  transfer flag becomes a fixed error.

Modules:

- `Wrappers`: Option / Result / Outcome.
- `Strings`: decimal rendering of numbers as template literals produce it, with the parsers that read it back.
- `Nft`: the standard tag and `TokenDetails`.
- `Erc721Adapter`: the ERC-721 adapter.
- `IcPunksAdapter`: the ICPunks adapter.

Remote answers are parameters of the modelled operations, not calls:

- the already-fetched token list or metadata result;
- the `Ok`/`Err` variant of a transfer;
- the boolean transfer flag;
- a total `dataOf` function that may fail.

`JSON.stringify` and JavaScript's string conversion of an object are passed in as
uninterpreted functions. The hub canister id and its ten storage shards form a `Config`
parameter, because the constants file is not part of this model.

`formatMetadata` is the one stateful piece of the source. It is an imperative method
(`Erc721Adapter.FormatMetadata`) with the source's nested loop and final filter. It is
proved equal to a reference definition, `Formatted`, which filters the occurrences first
and then maps them. The lemmas about that definition carry the properties.

Two behaviours of the code are worth stating:

- The detail of an `Err` message is produced by template-literal conversion (`${value}`),
  not by JSON serialisation. A `null` payload gives `"Kind: null"`, and a record gives
  whatever the object's string conversion yields (`Interpolate`).
- `extractMetadataValue` tests `typeof value === 'object'`. That test is also true of
  `null`, so a null payload is serialised too.

## Model

| member | source | states |
|---|---|---|
| Strings.NatToString | src/nft_standards/ic_punks.ts:18 | `${index}` is a non-empty string of decimal digits that starts with '0' only for 0 |
| Strings.IntToString | src/nft_standards/erc_721.ts:59 | a bigint detail renders as '-' followed by the digits of its magnitude when negative, and as its digits otherwise |
| Strings.ParseNatToString | src/nft_standards/ic_punks.ts:18 | reading the rendered index back gives the index |
| Strings.NatToStringInjective | src/nft_standards/ic_punks.ts:18 | two indices that render alike are equal |
| Erc721Adapter.ExtractMetadataValue | src/nft_standards/erc_721.ts:20-24 | the value is serialised exactly when its payload is an object (including null), and then it is `stringify` of that payload; otherwise it is the payload verbatim |
| Erc721Adapter.Tagged | src/nft_standards/erc_721.ts:94-95 | a part yields one entry per key/value pair, in order, each carrying the part's purpose tag |
| Erc721Adapter.PropertiesOf | src/nft_standards/erc_721.ts:97 | one property per occurrence, in order, named by its key and holding the extracted value |
| Erc721Adapter.NonLocation | src/nft_standards/erc_721.ts:100 | the kept entries are exactly those not named "location", and none is added |
| Erc721Adapter.Formatted | src/nft_standards/erc_721.ts:91-102 | reference definition of the flattening: the map's keys are exactly the keys that occur, and no property is named "location" |
| Erc721Adapter.FormatMetadata | src/nft_standards/erc_721.ts:91-102 | the loop over parts and entries followed by the filter yields the last-writer map and the location-free property list of `Formatted` |
| Erc721Adapter.FilterAfterMap | src/nft_standards/erc_721.ts:97-100 | appending every property and filtering afterwards equals building properties only for non-location occurrences |
| Erc721Adapter.FlattenAppend | src/nft_standards/erc_721.ts:93-95 | occurrences are taken part after part: flattening distributes over concatenation of the parts |
| Erc721Adapter.FlattenSingle | src/nft_standards/erc_721.ts:94-95 | one part contributes its entries in order with that part's purpose |
| Erc721Adapter.NoLocationProperty | src/nft_standards/erc_721.ts:100 | no property of the formatted metadata is named "location" |
| Erc721Adapter.NonLocationAppend | src/nft_standards/erc_721.ts:100 | the filter preserves order (distributes over concatenation) |
| Erc721Adapter.PropertiesPerOccurrence | src/nft_standards/erc_721.ts:93-100 | for every input, there are exactly as many properties as non-location occurrences, repeated keys included, and the k-th property is built from the k-th such occurrence |
| Erc721Adapter.FieldKeys | src/nft_standards/erc_721.ts:96 | the map's keys are exactly the keys that occur in some part |
| Erc721Adapter.FieldIsLastOccurrence | src/nft_standards/erc_721.ts:94-96 | each key maps to the value and purpose of its last occurrence |
| Erc721Adapter.SerializeTokenData | src/nft_standards/erc_721.ts:78-89 | index, canister, standard erc721 and metadata pass through, with no name; a non-empty url is the `TextContent` text of the location value, and the url is '' when there is no such text |
| Erc721Adapter.LocationUrl | src/nft_standards/erc_721.ts:86 | a non-empty url is the `TextContent` text of the location value, and the url is '' when there is no such text |
| Erc721Adapter.UrlFromLastLocation | src/nft_standards/erc_721.ts:86-96 | the url is the `TextContent` of the last "location" occurrence across the parts |
| Erc721Adapter.UrlWithoutLocation | src/nft_standards/erc_721.ts:86 | with no "location" occurrence the url is '' |
| Erc721Adapter.Interpolate | src/nft_standards/erc_721.ts:59 | `${value}`: text verbatim, null as "null", numbers exactly as their decimal rendering (which reads back to the number, after a '-' when negative), booleans as "true"/"false", objects by their string conversion |
| Erc721Adapter.ErrorMessage | src/nft_standards/erc_721.ts:57-61 | the message is the error kind, then ": ", then the interpolated detail, and nothing else |
| Erc721Adapter.NumberErrorMessage | src/nft_standards/erc_721.ts:57-61 | a number detail appears in plain decimal: `{kind: 42n}` gives "kind: 42" |
| Erc721Adapter.ErrorMessageParses | src/nft_standards/erc_721.ts:57-61 | the message's prefix before ':' is the error kind, and the text after ": " is the interpolated detail |
| Erc721Adapter.TextErrorMessage | src/nft_standards/erc_721.ts:57-61 | a text detail appears verbatim: `{BadOwner: "xyz"}` gives "BadOwner: xyz" |
| Erc721Adapter.Transfer | src/nft_standards/erc_721.ts:53-62 | fails exactly on `Err`, with the "<kind>: <detail>" message |
| Erc721Adapter.Details | src/nft_standards/erc_721.ts:64-76 | fails exactly on `Err` with that message; otherwise returns the full token details serialised from the formatted metadata and the given index |
| Erc721Adapter.GetUserTokens | src/nft_standards/erc_721.ts:39-51 | a null answer gives []; otherwise one entry per token, same order, built from its token id and formatted metadata |
| Erc721Adapter.SerializeAll | src/nft_standards/erc_721.ts:42-50 | the per-token map keeps length and order |
| IcPunksAdapter.ShardPosition | src/nft_standards/ic_punks.ts:11-12 | the shard position is below ten and congruent to the index modulo ten |
| IcPunksAdapter.ShardFor | src/nft_standards/ic_punks.ts:11-12 | the chosen storage canister is the shard list's entry at that position |
| IcPunksAdapter.ShardPeriodic | src/nft_standards/ic_punks.ts:11-12 | tokens ten apart share a shard |
| IcPunksAdapter.ImageUrl | src/nft_standards/ic_punks.ts:14-19 | for the hub the url starts with the shard's token base and its last path segment reads back as the index; otherwise it is the canister's host followed by exactly the record's relative url |
| IcPunksAdapter.HubUrl | src/nft_standards/ic_punks.ts:14-19 | for the hub the url is `https://<storage[i % 10]>.raw.ic0.app/Token/<i>`, and its last path segment reads back as i |
| IcPunksAdapter.HubUrlInjective | src/nft_standards/ic_punks.ts:14-18 | distinct hub tokens get distinct urls |
| IcPunksAdapter.CanisterUrl | src/nft_standards/ic_punks.ts:14-19 | for another canister c the url is `https://<c>.raw.ic0.app<u>`, and dropping the host gives back u |
| IcPunksAdapter.SerializeTokenData | src/nft_standards/ic_punks.ts:57-68 | index is the record's id, name its name, metadata the whole record, canister the adapter's, standard icpunks, and the url is derived from the id and the record's url |
| IcPunksAdapter.GetUserTokens | src/nft_standards/ic_punks.ts:34-42 | succeeds exactly when every fetch does; then element k is the serialisation of the record for `indexes[k]`, same length; on failure the error is that of some failing fetch |
| IcPunksAdapter.NoTokens | src/nft_standards/ic_punks.ts:34-42 | no owned index gives the empty list |
| IcPunksAdapter.Transfer | src/nft_standards/ic_punks.ts:44-49 | fails exactly when the flag is false, always with 'Error transfering token' |
| IcPunksAdapter.Details | src/nft_standards/ic_punks.ts:51-55 | the serialisation of the single fetched record, or that fetch's error |
| IcPunksAdapter.ListingAgreesWithDetails | src/nft_standards/ic_punks.ts:34-55 | listing one index yields the one-element list of what `details` returns for it, or the same error when that fetch fails |

## Left out

- Transport: `Actor.createActor`, `HttpAgent`, the IDL descriptors and `agent.getPrincipal()`. Remote answers are parameters.
- Network failures of the first remote call in each operation, except ICPunks `data_of`, whose failure is the `Failure` answer of `dataOf`. They propagate unchanged and are not modelled.
- The adapter base class and the canister and standard constants. `src/nft_standards/default.ts` and the constants files are not part of this model. The hub id and shards are a `Config` parameter.
- IcPunksAdapter.GetUserTokens: the source fetches concurrently and rejects with the first failure to complete. The model fails with the failure at the lowest index. Its contract promises only "some failing fetch", which matches the source.
- The output of `JSON.stringify` and of an object's string conversion. Both are uninterpreted function parameters.
- Precision loss of `Number.parseInt` for record ids above 2^53, and the exponent notation `${n}` uses from 10^21 on. Indices are unbounded naturals rendered in plain decimal.
- Tagged variants with zero or several keys. Candid decoding always yields exactly one key, so `Variant` carries one tag and one payload, and "first key" is that tag.
- Erc721Adapter.SerializeTokenData: a truthy payload under `TextContent` that is not text would, in the source, become a non-string url. The model gives ''. The Candid type of `TextContent` is text, so this cannot arise from a decoded reply.
- Metadata keys that clash with the result object. A key named "properties" makes the source's spread of `metadataResult.properties` throw, and keys such as `__proto__` behave specially on a JavaScript object. The model keeps the map and the property list apart and formats such keys like any other.
- ICPunks records: only `id`, `name` and `url` are read. The other fields are kept as an uninterpreted `rest` list, because the record's interface file is not part of this model.
- ICPunks `details` on an unknown index: the model returns whatever `dataOf` answers. The source adds no check.
