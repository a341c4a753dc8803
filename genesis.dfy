/**
 * `initialize`: creates the network state and the PKN mint. The mint is always created with
 * 9 decimals and the network state as its authority; the `decimals` argument is accepted and
 * ignored, and `total_supply` is only recorded (nothing is minted).
 */
module Genesis {
  import opened Types
  import opened State
  import Rewards

  /** Decimals of the mint, fixed by the account constraint. */
  const MINT_DECIMALS: U8 := 9

  /** 100, 50, 25, 100 and 150 PKN per unit, and 1000 PKN to propose, in base units. */
  const GENESIS_WIFI_RATE: U64 := 100_000_000_000
  const GENESIS_LOGISTICS_RATE: U64 := 50_000_000_000
  const GENESIS_AGRICULTURE_RATE: U64 := 25_000_000_000
  const GENESIS_HEALTHCARE_RATE: U64 := 100_000_000_000
  const GENESIS_TAXATION_RATE: U64 := 150_000_000_000
  const GENESIS_GOVERNANCE_THRESHOLD: U64 := 1000_000_000_000

  /** The network state right after `initialize`. */
  predicate IsGenesis(net: NetworkState, authority: Pubkey, mintKey: Pubkey, totalSupply: U64, bump: U8, now: I64)
    reads net
  {
    && net.authority == authority && net.mint == mintKey && net.totalSupply == totalSupply
    && net.totalStaked == 0
    && net.wifiHotspotsCount == 0 && net.logisticsPartnersCount == 0 && net.farmsCount == 0
    && net.healthcareProvidersCount == 0 && net.taxPointsCount == 0
    && net.wifiRewardRate == GENESIS_WIFI_RATE && net.logisticsRewardRate == GENESIS_LOGISTICS_RATE
    && net.agricultureRewardRate == GENESIS_AGRICULTURE_RATE
    && net.healthcareRewardRate == GENESIS_HEALTHCARE_RATE && net.taxationRewardRate == GENESIS_TAXATION_RATE
    && net.lastRewardDistribution == now && net.governanceThreshold == GENESIS_GOVERNANCE_THRESHOLD
    && net.proposalsCount == 0 && net.bump == bump
  }

  /**
   * Writes the genesis values into the freshly created accounts. `decimals` has no effect:
   * the mint gets 9 decimals whatever is passed.
   */
  method Initialize(net: NetworkState, mint: Mint, netKey: Pubkey, authority: Pubkey, mintKey: Pubkey,
                    totalSupply: U64, decimals: U8, bump: U8, now: I64)
    modifies net, mint
    ensures IsGenesis(net, authority, mintKey, totalSupply, bump, now)
    ensures mint.decimals == MINT_DECIMALS && mint.mintAuthority == netKey && mint.supply == 0
  {
    mint.decimals, mint.mintAuthority, mint.supply := MINT_DECIMALS, netKey, 0;
    net.authority, net.mint, net.totalSupply, net.totalStaked := authority, mintKey, totalSupply, 0;
    net.lastRewardDistribution, net.governanceThreshold := now, GENESIS_GOVERNANCE_THRESHOLD;
    net.proposalsCount, net.bump := 0, bump;
    ResetRegistryCounts(net);
    SetGenesisRates(net);
  }

  /** Zeroes the five infrastructure registry counts and nothing else. */
  method ResetRegistryCounts(net: NetworkState)
    modifies net`wifiHotspotsCount, net`logisticsPartnersCount, net`farmsCount
    modifies net`healthcareProvidersCount, net`taxPointsCount
    ensures net.wifiHotspotsCount == 0 && net.logisticsPartnersCount == 0 && net.farmsCount == 0
    ensures net.healthcareProvidersCount == 0 && net.taxPointsCount == 0
  {
    net.wifiHotspotsCount, net.logisticsPartnersCount, net.farmsCount := 0, 0, 0;
    net.healthcareProvidersCount, net.taxPointsCount := 0, 0;
  }

  /** Writes the five genesis reward rates and nothing else. */
  method SetGenesisRates(net: NetworkState)
    modifies net`wifiRewardRate, net`logisticsRewardRate, net`agricultureRewardRate
    modifies net`healthcareRewardRate, net`taxationRewardRate
    ensures net.wifiRewardRate == GENESIS_WIFI_RATE && net.logisticsRewardRate == GENESIS_LOGISTICS_RATE
    ensures net.agricultureRewardRate == GENESIS_AGRICULTURE_RATE
    ensures net.healthcareRewardRate == GENESIS_HEALTHCARE_RATE && net.taxationRewardRate == GENESIS_TAXATION_RATE
  {
    net.wifiRewardRate, net.logisticsRewardRate := GENESIS_WIFI_RATE, GENESIS_LOGISTICS_RATE;
    net.agricultureRewardRate := GENESIS_AGRICULTURE_RATE;
    net.healthcareRewardRate, net.taxationRewardRate := GENESIS_HEALTHCARE_RATE, GENESIS_TAXATION_RATE;
  }

  /** The genesis rates are ones `update_network_params` itself would accept. */
  lemma GenesisRatesValid()
    ensures Rewards.RatesValid(GENESIS_WIFI_RATE, GENESIS_LOGISTICS_RATE, GENESIS_AGRICULTURE_RATE)
  {
  }

  /**
   * Genesis records the current time as the last distribution, so the authority's first
   * distribution in the following day is refused.
   */
  method InitializeThenDistribute(net: NetworkState, mint: Mint, netKey: Pubkey, authority: Pubkey,
                                  mintKey: Pubkey, totalSupply: U64, bump: U8, now: I64, later: I64)
    returns (r: Outcome)
    requires now <= later < now + Rewards.DISTRIBUTION_INTERVAL
    modifies net, mint
    ensures r == Fail(DistributionTooFrequent)
  {
    Initialize(net, mint, netKey, authority, mintKey, totalSupply, 0, bump, now);
    r := Rewards.DistributeRewards(net, authority, later);
  }
}
