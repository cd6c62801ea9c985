/**
 * The listing controls of an NFT card: three pieces of local state
 * (`isListed`, `price`, `loading`), the effect that copies the on-chain item
 * into them, and the list and unlist handlers around contract writes.
 */
module Listing {
  import opened Wrappers
  import opened Numerals

  type TxHash = string

  /** `Number(s)` of a string: a finite number or NaN. */
  datatype JsNumber = Finite(v: real) | NaN

  /** The value sent with every listing: `parseEther("0.025")`, in wei. */
  const ListingFeeWei: nat := 25_000_000_000_000_000

  /** One wei is 10^-18 ether. */
  const WeiPerEther: nat := 1_000_000_000_000_000_000

  /** The listing fee is 0.025 ether. */
  lemma ListingFeeInEther()
    ensures ListingFeeWei as real == 0.025 * WeiPerEther as real
  {
  }

  /** What `getNFTItemByTokenId` answers about a token. */
  datatype NftItem = NftItem(isListed: bool, price: nat)

  /** A contract write the card makes, with its arguments and the value sent. */
  datatype CardCall =
    | ListItem(tokenId: nat, priceWei: int, value: nat)
    | UnlistNft(tokenId: nat)

  /** What the user is told by the list handler. `PriceUnreadable` is the
      case where `parseEther` throws before the guarded block: nothing is
      reported and the handler's promise rejects. */
  datatype ListOutcome = InvalidPrice | PriceUnreadable | Listed | ListingFailed

  /**
   * The collaborators of the card: JavaScript's `Number` conversion of the
   * price, viem's `parseEther` (which may throw), and the two contract
   * writes, each of which answers a hash or fails.
   */
  datatype CardServices = CardServices(
    toNumber: string -> JsNumber,
    parseEther: string -> Result<int>,
    listItem: (nat, int, nat) -> Result<TxHash>,
    unlistNft: nat -> Result<TxHash>)

  /** The guard of the list handler: a non-empty price that reads as a
      positive number. */
  predicate ValidPrice(toNumber: string -> JsNumber, price: string) {
    price != "" && toNumber(price).Finite? && toNumber(price).v > 0.0
  }

  class NftCard {
    const tokenId: nat
    var isListed: bool
    var price: string
    var loading: bool

    /** Between handler runs no listing is in flight. */
    ghost predicate Valid()
      reads this
    {
      !loading
    }

    constructor (id: nat)
      ensures Valid()
      ensures tokenId == id && !isListed && price == "" && !loading
    {
      tokenId := id;
      isListed, price, loading := false, "", false;
    }

    /** The price input. */
    method SetPrice(v: string)
      modifies this`price
      ensures price == v
    {
      price := v;
    }

    /** The effect run on every new read of the on-chain item: the local
        flag and price mirror it, or reset when there is none. */
    method SyncFromChain(item: Option<NftItem>)
      modifies this`isListed, this`price
      ensures item.Some? ==> isListed == item.value.isListed
      ensures item.Some? ==> AllDecimalDigits(price) && DecimalValue(price) == item.value.price
      ensures item.Some? ==> price == DecimalString(item.value.price)
      ensures item.None? ==> !isListed && price == ""
    {
      if item.Some? {
        isListed := item.value.isListed;
        price := DecimalString(item.value.price);
        DecimalStringRoundTrip(item.value.price);
      } else {
        isListed := false;
        price := "";
      }
    }

    /**
     * The list handler. An invalid price is refused before anything else;
     * otherwise the price is converted to wei, `loading` is raised, the
     * contract's `listItem` is called with the token id, the price in wei
     * and the listing fee as value, and `loading` is lowered again whatever
     * the call answered. `loadingInFlight` is the flag while the call is
     * awaited.
     */
    method HandleListNft(services: CardServices)
      returns (outcome: ListOutcome, calls: seq<CardCall>, ghost loadingInFlight: bool)
      modifies this`loading
      ensures old(Valid()) ==> Valid()
      ensures !ValidPrice(services.toNumber, price) ==>
        outcome == InvalidPrice && calls == [] && loading == old(loading)
      ensures ValidPrice(services.toNumber, price) && services.parseEther(price).Fail? ==>
        outcome == PriceUnreadable && calls == [] && loading == old(loading)
      ensures ValidPrice(services.toNumber, price) && services.parseEther(price).Ok? ==>
        && calls == [ListItem(tokenId, services.parseEther(price).value, ListingFeeWei)]
        && loadingInFlight && !loading
        && (outcome == Listed <==> services.listItem(tokenId, services.parseEther(price).value, ListingFeeWei).Ok?)
        && (outcome == ListingFailed <==> services.listItem(tokenId, services.parseEther(price).value, ListingFeeWei).Fail?)
    {
      if !ValidPrice(services.toNumber, price) {
        return InvalidPrice, [], loading;
      }
      var priceWei := services.parseEther(price);
      if priceWei.Fail? {
        return PriceUnreadable, [], loading;
      }
      var listingFee := ListingFeeWei;
      loading := true;
      calls := [ListItem(tokenId, priceWei.value, listingFee)];
      loadingInFlight := loading;
      var answer := services.listItem(tokenId, priceWei.value, listingFee);
      outcome := if answer.Ok? then Listed else ListingFailed;
      loading := false;
    }

    /** The unlist handler: one `unlistNft` call for this token, whose
        failure is swallowed; no local state changes. */
    method HandleUnlistNft(services: CardServices) returns (calls: seq<CardCall>)
      ensures calls == [UnlistNft(tokenId)]
    {
      calls := [UnlistNft(tokenId)];
      var _ := services.unlistNft(tokenId);
    }
  }
}
