/**
 * The authority's reward instructions: the once-a-day distribution heartbeat and the update
 * of the three per-unit reward rates. Both accounts carry `has_one = authority`, so a
 * signer other than the stored authority is refused before the handler runs.
 */
module Rewards {
  import opened Types
  import opened State

  /** Minimum spacing between two distributions, in seconds. */
  const DISTRIBUTION_INTERVAL: int := 86400

  /** Whether a distribution at `now` is due after the one at `last`. */
  function DistributionDue(last: I64, now: I64): (r: Option<bool>)
    ensures r.None? <==> !(I64_MIN <= now - last <= I64_MAX)
    ensures r.Some? ==> (r.value <==> now >= last + DISTRIBUTION_INTERVAL)
  {
    IntervalElapsed(last, now, DISTRIBUTION_INTERVAL)
  }

  /**
   * `distribute_rewards`: checks the authority and the one-day spacing, then records `now`
   * as the time of the last distribution. No tokens move.
   */
  method DistributeRewards(net: NetworkState, signer: Pubkey, now: I64) returns (r: Outcome)
    modifies net`lastRewardDistribution
    ensures signer != old(net.authority) ==> r == Fail(ConstraintHasOne)
    ensures signer == old(net.authority) ==>
      match DistributionDue(old(net.lastRewardDistribution), now)
      case None => r == Fail(Overflow)
      case Some(due) => (r == Pass <==> due) && (!due ==> r == Fail(DistributionTooFrequent))
    ensures r == Pass ==> net.lastRewardDistribution == now
    ensures r != Pass ==> net.lastRewardDistribution == old(net.lastRewardDistribution)
  {
    if signer != net.authority {
      return Fail(ConstraintHasOne);
    }
    var due := DistributionDue(net.lastRewardDistribution, now);
    if due.None? {
      return Fail(Overflow);
    }
    if !due.value {
      return Fail(DistributionTooFrequent);
    }
    net.lastRewardDistribution := now;
    r := Pass;
  }

  /**
   * A distribution that succeeded is followed by a refused one at any instant less than a
   * day later.
   */
  method DistributeTwice(net: NetworkState, now: I64, later: I64) returns (first: Outcome, second: Outcome)
    requires now <= later < now + DISTRIBUTION_INTERVAL
    modifies net`lastRewardDistribution
    ensures first == Pass ==> second == Fail(DistributionTooFrequent)
  {
    first := DistributeRewards(net, net.authority, now);
    second := DistributeRewards(net, net.authority, later);
  }

  /** The three rates `update_network_params` accepts: each must be positive. */
  predicate RatesValid(wifi: U64, logistics: U64, agriculture: U64)
  {
    wifi > 0 && logistics > 0 && agriculture > 0
  }

  /**
   * `update_network_params`: after the authority check, each new rate must be positive
   * (`InvalidRewardRate`); on success the WiFi, logistics and agriculture rates are replaced
   * and the healthcare and taxation rates stay as they were.
   */
  method UpdateNetworkParams(net: NetworkState, signer: Pubkey, wifi: U64, logistics: U64, agriculture: U64)
    returns (r: Outcome)
    modifies net`wifiRewardRate, net`logisticsRewardRate, net`agricultureRewardRate
    ensures signer != old(net.authority) ==> r == Fail(ConstraintHasOne)
    ensures signer == old(net.authority) ==> (r == Pass <==> RatesValid(wifi, logistics, agriculture))
    ensures signer == old(net.authority) && !RatesValid(wifi, logistics, agriculture) ==> r == Fail(InvalidRewardRate)
    ensures r == Pass ==>
      net.wifiRewardRate == wifi && net.logisticsRewardRate == logistics && net.agricultureRewardRate == agriculture
    ensures r != Pass ==>
      net.wifiRewardRate == old(net.wifiRewardRate) && net.logisticsRewardRate == old(net.logisticsRewardRate)
      && net.agricultureRewardRate == old(net.agricultureRewardRate)
  {
    if signer != net.authority {
      return Fail(ConstraintHasOne);
    }
    if wifi == 0 || logistics == 0 || agriculture == 0 {
      return Fail(InvalidRewardRate);
    }
    net.wifiRewardRate, net.logisticsRewardRate, net.agricultureRewardRate := wifi, logistics, agriculture;
    r := Pass;
  }
}
