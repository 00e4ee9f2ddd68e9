/** The outbound inference request and trade subscription records of the wire protocol. */
module Requests {

  import opened Wrappers

  datatype Side = Bid | Offer

  /** The `ats_indicator` flag: 'Y' or 'N'. */
  datatype Ats = Y | N

  /** The `rfq_label`: which valuation is requested. */
  datatype Label = Spread | Price

  /**
   * One entry of an `{"inference": [...]}` message. `timestamp` is absent (None) in the
   * live-subscription scripts and a list of API timestamp strings in the bulk scripts.
   */
  datatype Request = Request(
    rfqLabel: Label,
    figi: string,
    quantity: nat,
    side: Side,
    ats: Ats,
    timestamp: Option<seq<string>>,
    subscribe: bool)

  /** One entry of a `{"trade": [...]}` subscription message. */
  datatype TradeSub = TradeSub(figi: string, subscribe: bool, includeInference: bool)

  /** The quantity every bulk request asks about. */
  const BULK_QUANTITY: nat := 1_000_000
}
