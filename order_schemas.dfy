/** The request body of a bet, with the field constraints the request
    validation enforces before the bet service runs. */
module OrderSchemas {
  /** The fewest and most items one bet may carry. */
  const MinItems := 1
  const MaxItems := 10

  /** One selection of a bet: the stake in cents, the odds in
      ten-thousandths. */
  datatype BetItemIn = BetItemIn(playCode: int, selection: string, odds: int, stakeAmount: int)

  datatype BetIn = BetIn(lotteryCode: string, issueCode: string, items: seq<BetItemIn>)

  /** Odds and stake strictly positive. */
  predicate ValidItem(it: BetItemIn) {
    it.odds > 0 && it.stakeAmount > 0
  }

  /** One to ten items, each valid. */
  predicate ValidBet(bet: BetIn) {
    && MinItems <= |bet.items| <= MaxItems
    && forall k :: 0 <= k < |bet.items| ==> ValidItem(bet.items[k])
  }
}
