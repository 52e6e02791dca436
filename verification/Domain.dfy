/** The frozen value objects that the services exchange. */
module Domain {

  datatype Option<+T> = None | Some(value: T)

  datatype Result<+T, +E> = Success(value: T) | Failure(error: E)

  /** Identifiers (UUIDs) are opaque; only equality of two of them is ever used. */
  type Id = nat

  datatype Side = Buy | Sell

  /** A quantity with the sign of its side: positive for a buy, negative for a sell. */
  function Signed(side: Side, size: real): real {
    if side == Buy then size else -size
  }

  function Abs(x: real): real {
    if x >= 0.0 then x else -x
  }

  function Min(x: real, y: real): real {
    if x <= y then x else y
  }

  /** Why a gate said no. */
  datatype Reason =
    | NoBookSnapshot
    | SizeAboveDepth
    | NoBestPrice
    | SlippageAboveCap
    | PriceBelowMinimum
    | PriceAboveMaximum
    | PositionAboveCap
    | ExposureAboveCap
    | CostAboveBalance
    | OtherReason(text: string)

  datatype GateDecision = GateDecision(gateName: string, passed: bool, reason: Option<Reason>)

  datatype Signal = Signal(
    signalId: Id,
    userId: Id,
    marketId: string,
    tokenId: string,
    side: Side,
    size: real,
    limitPrice: real)

  datatype Intent = Intent(
    intentId: Id,
    signalId: Id,
    userId: Id,
    marketId: string,
    tokenId: string,
    side: Side,
    size: real,
    limitPrice: real,
    riskDecisions: seq<GateDecision>)

  datatype Fill = Fill(
    fillId: Id,
    orderId: Id,
    intentId: Id,
    userId: Id,
    marketId: string,
    tokenId: string,
    side: Side,
    size: real,
    price: real,
    fee: real)

  /** The key of a row in the position store. */
  datatype Key = Key(userId: Id, marketId: string, tokenId: string)
}
