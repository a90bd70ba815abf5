/**
 * The shapes the Airstack GraphQL API answers with, reduced to the fields the
 * bot reads: a trending mint's address, its popularity count and the nested
 * token records; the enums the trending query takes; and the failures that end
 * an operation (a reported query error, which the source answers with
 * process.exit, and a property read on a null list, which throws).
 */
module AirstackTypes {
  import opened Wrappers

  /** One nested token record (`token.tokenNfts[i]`, or a `TokenNft` of the detail query). */
  datatype Nft = Nft(tokenUri: string, name: string, description: string, image: string)

  /**
   * One `TrendingMint`. `address` is None when GraphQL answers null; `nfts`
   * is `token.tokenNfts`, empty when `token` or `tokenNfts` is null.
   */
  datatype Mint = Mint(address: Option<string>, criteriaCount: int, nfts: seq<Nft>)

  /** The JavaScript truthiness test `mint.address`: present and not the empty string. */
  predicate HasAddress(m: Mint) {
    m.address.Some? && m.address.value != ""
  }

  /** `mint.token?.tokenNfts?.[0]` */
  function FirstNft(m: Mint): Option<Nft> {
    if |m.nfts| > 0 then Some(m.nfts[0]) else None
  }

  datatype TimeFrame = OneHour | TwoHours | EightHours | OneDay | TwoDays | SevenDays

  datatype TrendingMintsCriteria = UniqueWallets | TotalMints

  /** Why an operation stopped. */
  datatype Failure =
    | UpstreamFailed(message: string)   // `error` set in the query response: process.exit(1)
    | NullDereference(site: string)     // a null list read as if it were an array: TypeError

  datatype Result<+T> = Ok(value: T) | Err(failure: Failure)

  /** What the trending-mints query can answer. */
  datatype TrendingResponse =
    | TrendingFailed(message: string)   // `error` is set
    | TrendingNoData                    // `data` or `data.TrendingMints` is null
    | TrendingNullList                  // `data.TrendingMints.TrendingMint` is null
    | TrendingList(mints: seq<Mint>)    // the list, possibly empty

  /** What the item-detail query can answer. */
  datatype DetailResponse =
    | DetailFailed(message: string)     // `error` is set
    | DetailNoData                      // `data` or `data.TokenNfts` is null
    | DetailNullList                    // `data.TokenNfts.TokenNft` is null
    | DetailList(nfts: seq<Nft>)        // the records, possibly none

  /**
   * The upstream provider as an oracle: the answer of the trending query for
   * given variables, and the answer of the detail query for an address.
   */
  datatype Upstream = Upstream(
    trending: (TimeFrame, TrendingMintsCriteria) -> TrendingResponse,
    detail: string -> DetailResponse)
}
