/**
 * The ICPunks adapter: a flat record per token, boolean transfer results, and
 * image urls that for the ICP Bunny hub canister are spread over ten storage
 * canisters. Remote results are inputs; `dataOf` stands for the per-index
 * record fetch, which can fail.
 */
module IcPunksAdapter {
  import opened Wrappers
  import opened Strings
  import opened Nft

  const ShardCount: nat := 10

  /** The ordered list of storage canisters the hub's images live on. */
  type ShardList = s: seq<string> | |s| == ShardCount witness seq(ShardCount, _ => "")

  /** Deployment configuration: the hub canister id and its storage shards. */
  datatype Config = Config(hub: string, storage: ShardList)

  /** The per-token record of the canister; `rest` are its remaining fields, carried through. */
  datatype TokenDesc = TokenDesc(id: nat, name: string, url: string, rest: seq<(string, string)>)

  const TransferError := "Error transfering token"

  /** Which storage shard holds the image of token `index`: its residue modulo ten. */
  function ShardPosition(index: nat): (p: nat)
    ensures p < ShardCount
    ensures (index - p) % ShardCount == 0
  {
    index % ShardCount
  }

  /** `getICPBunnyCanisterId`: the storage canister for `index`. */
  function ShardFor(cfg: Config, index: nat): (shard: string)
    ensures shard in cfg.storage
    ensures shard == cfg.storage[ShardPosition(index)]
  {
    cfg.storage[ShardPosition(index)]
  }

  /** Tokens ten apart share a storage shard. */
  lemma ShardPeriodic(cfg: Config, index: nat)
    ensures ShardFor(cfg, index + ShardCount) == ShardFor(cfg, index)
  {
  }

  function HubTokenBase(cfg: Config, index: nat): string
  {
    "https://" + ShardFor(cfg, index) + ".raw.ic0.app/Token"
  }

  function CanisterHost(canisterId: string): string
  {
    "https://" + canisterId + ".raw.ic0.app"
  }

  /** `imageUrl`: a shard url for the hub canister, the canister's own host plus the relative url otherwise. */
  function ImageUrl(cfg: Config, canisterId: string, index: nat, tokenDataUrl: string): (url: string)
    ensures canisterId == cfg.hub ==>
      && |url| > |HubTokenBase(cfg, index)|
      && url[..|HubTokenBase(cfg, index)|] == HubTokenBase(cfg, index)
      && ParseNat(LastSegment(url)) == index
    ensures canisterId != cfg.hub ==>
      && |url| >= |CanisterHost(canisterId)|
      && url[..|CanisterHost(canisterId)|] == CanisterHost(canisterId)
      && url[|CanisterHost(canisterId)|..] == tokenDataUrl
  {
    if canisterId == cfg.hub then
      var digits := NatToString(index);
      assert forall k :: 0 <= k < |digits| ==> digits[k] != '/' by {
        forall k | 0 <= k < |digits| ensures digits[k] != '/' { assert IsDigit(digits[k]); }
      }
      LastSegmentAfterSlash(HubTokenBase(cfg, index), digits);
      ParseNatToString(index);
      HubTokenBase(cfg, index) + "/" + digits
    else CanisterHost(canisterId) + tokenDataUrl
  }

  /** For the hub, the url lives on shard `index % 10` and its last path segment reads back as `index`. */
  lemma HubUrl(cfg: Config, index: nat, tokenDataUrl: string)
    ensures var url := ImageUrl(cfg, cfg.hub, index, tokenDataUrl);
      && url == "https://" + cfg.storage[index % 10] + ".raw.ic0.app/Token/" + NatToString(index)
      && ParseNat(LastSegment(url)) == index
  {
    var digits := NatToString(index);
    var shard := cfg.storage[index % 10];
    assert ".raw.ic0.app/Token/" == ".raw.ic0.app/Token" + "/";
    assert HubTokenBase(cfg, index) + "/" + digits == "https://" + shard + ".raw.ic0.app/Token/" + digits;
  }

  /** Two different tokens of the hub never get the same url. */
  lemma HubUrlInjective(cfg: Config, i: nat, j: nat, u: string, v: string)
    requires ImageUrl(cfg, cfg.hub, i, u) == ImageUrl(cfg, cfg.hub, j, v)
    ensures i == j
  {
    HubUrl(cfg, i, u);
    HubUrl(cfg, j, v);
  }

  /** For any other canister the url is its host followed by the record's relative url, which reads back. */
  lemma CanisterUrl(cfg: Config, canisterId: string, index: nat, tokenDataUrl: string)
    requires canisterId != cfg.hub
    ensures var url := ImageUrl(cfg, canisterId, index, tokenDataUrl);
      && url == "https://" + canisterId + ".raw.ic0.app" + tokenDataUrl
      && url[|CanisterHost(canisterId)|..] == tokenDataUrl
  {
  }

  /** `serializeTokenData`: the record's fields passed through, the url derived. */
  function SerializeTokenData(cfg: Config, canisterId: string, desc: TokenDesc): (r: TokenDetails<TokenDesc>)
    ensures r.index == desc.id && r.name == Some(desc.name) && r.metadata == desc
    ensures r.canister == canisterId && r.standard == IcPunks
    ensures r.url == ImageUrl(cfg, canisterId, desc.id, desc.url)
  {
    TokenDetails(desc.id, canisterId, desc, ImageUrl(cfg, canisterId, desc.id, desc.url), Some(desc.name), IcPunks)
  }

  /** Every index of the list fetched successfully. */
  predicate AllFetched(indexes: seq<nat>, dataOf: nat -> Result<TokenDesc, string>)
  {
    forall k :: 0 <= k < |indexes| ==> dataOf(indexes[k]).Success?
  }

  /**
   * `getUserTokens` once the owned indexes are known: one record fetch per
   * index, all-or-nothing, results in the order of the index list.
   */
  function GetUserTokens(cfg: Config, canisterId: string, indexes: seq<nat>,
                         dataOf: nat -> Result<TokenDesc, string>): (r: Result<seq<TokenDetails<TokenDesc>>, string>)
    ensures r.Success? <==> AllFetched(indexes, dataOf)
    ensures r.Success? ==> |r.value| == |indexes|
    ensures r.Success? ==> forall k :: 0 <= k < |indexes| ==>
      r.value[k] == SerializeTokenData(cfg, canisterId, dataOf(indexes[k]).value)
    ensures r.Failure? ==> exists k :: 0 <= k < |indexes| && dataOf(indexes[k]) == Failure(r.error)
  {
    if indexes == [] then Success([])
    else
      match dataOf(indexes[0])
      case Failure(e) => Failure(e)
      case Success(desc) =>
        match GetUserTokens(cfg, canisterId, indexes[1..], dataOf)
        case Failure(e) => Failure(e)
        case Success(rest) => Success([SerializeTokenData(cfg, canisterId, desc)] + rest)
  }

  /** With no owned index the result is the empty list. */
  lemma NoTokens(cfg: Config, canisterId: string, dataOf: nat -> Result<TokenDesc, string>)
    ensures GetUserTokens(cfg, canisterId, [], dataOf) == Success([])
  {
  }

  /** `transfer`: fails exactly when the canister answers `false`, always with the same message. */
  function Transfer(success: bool): (r: Outcome<string>)
    ensures r.Fail? <==> !success
    ensures r.Fail? ==> r.error == TransferError
  {
    if success then Pass else Fail(TransferError)
  }

  /** `details`: the serialisation of the one record fetched for the index. */
  function Details(cfg: Config, canisterId: string, tokenIndex: nat,
                   dataOf: nat -> Result<TokenDesc, string>): (r: Result<TokenDetails<TokenDesc>, string>)
    ensures r.Failure? <==> dataOf(tokenIndex).Failure?
    ensures r.Failure? ==> r.error == dataOf(tokenIndex).error
    ensures r.Success? ==> r.value == SerializeTokenData(cfg, canisterId, dataOf(tokenIndex).value)
  {
    match dataOf(tokenIndex)
    case Failure(e) => Failure(e)
    case Success(desc) => Success(SerializeTokenData(cfg, canisterId, desc))
  }

  /** A one-element listing is what `details` returns for that index. */
  lemma ListingAgreesWithDetails(cfg: Config, canisterId: string, index: nat,
                                 dataOf: nat -> Result<TokenDesc, string>)
    ensures var d := Details(cfg, canisterId, index, dataOf);
      GetUserTokens(cfg, canisterId, [index], dataOf)
        == if d.Success? then Success([d.value]) else Failure(d.error)
  {
    assert [index][1..] == [];
    match dataOf(index)
    case Failure(_) =>
    case Success(desc) =>
      assert GetUserTokens(cfg, canisterId, [], dataOf) == Success([]);
      assert [SerializeTokenData(cfg, canisterId, desc)] + [] == [SerializeTokenData(cfg, canisterId, desc)];
  }
}
