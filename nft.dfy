/** The uniform shape every adapter returns, whatever standard the canister speaks. */
module Nft {
  import opened Wrappers

  /** The dialect tag an adapter reports as its `standard`. */
  datatype Standard = Erc721 | IcPunks

  /**
   * One token, normalised. `M` is what the adapter keeps as metadata: the
   * flattened parts for ERC-721, the raw record for ICPunks. `name` is absent
   * when the standard has none.
   */
  datatype TokenDetails<M> = TokenDetails(
    index: nat,
    canister: string,
    metadata: M,
    url: string,
    name: Option<string>,
    standard: Standard)
}
