/** The clock and the price feed as one instruction sees them, and the gates on every price read. */
module Oracle {
  import opened Checked
  import opened FixedPoint
  import opened Accounts

  /** An authenticated price update. */
  datatype PriceUpdate = PriceUpdate(price: i64, expo: i32, conf: u64, publishTime: i64, postedSlot: u64)

  datatype Env = Env(now: i64, slot: u64, feed: PriceUpdate)

  /** Positive price, not from the future, not stale, confidence interval narrow enough. */
  function LoadPrice(env: Env, p: Params): Result<PriceUpdate> {
    if env.feed.price <= 0 then Err(OracleInvalidPrice) else
    var age :- SubI64(env.now, env.feed.publishTime);
    :- Require(age >= 0, OraclePriceFromFuture);
    :- Require(age <= p.maxPriceAgeSec, OraclePriceStale);
    var width :- ConfidenceBps(env.feed.conf, env.feed.price);
    :- Require(width <= p.maxConfBps, OracleConfidenceTooWide);
    Ok(env.feed)
  }
}
