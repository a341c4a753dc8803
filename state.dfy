/**
 * The program's account records and enums. Each record is a class because the instructions
 * update its fields in place; a freshly allocated account is zero-filled, which is what
 * every constructor here produces. The `*_LEN` constants are the space budgets the program
 * allocates, written as in the source: an 8-byte discriminator plus one term per field.
 */
module State {
  import opened Types

  datatype PoolType = WiFiInfrastructure | LogisticsOptimization | AgricultureData | Governance | LiquidityMining

  datatype ProposalType = ParameterChange | TreasurySpend | ProtocolUpgrade | RewardRateChange | NetworkExpansion

  datatype Vote = Yes | No | Abstain

  const POOL_TYPE_VARIANTS: nat := 5
  const PROPOSAL_TYPE_VARIANTS: nat := 5
  const VOTE_VARIANTS: nat := 3

  /** The one-byte discriminant of a pool type (`pool_type as u8`), also its serialized tag. */
  function PoolTypeTag(t: PoolType): (k: nat)
    ensures k < POOL_TYPE_VARIANTS
  {
    match t
    case WiFiInfrastructure => 0
    case LogisticsOptimization => 1
    case AgricultureData => 2
    case Governance => 3
    case LiquidityMining => 4
  }

  function PoolTypeOfTag(k: nat): (t: PoolType)
    requires k < POOL_TYPE_VARIANTS
    ensures PoolTypeTag(t) == k
  {
    if k == 0 then WiFiInfrastructure
    else if k == 1 then LogisticsOptimization
    else if k == 2 then AgricultureData
    else if k == 3 then Governance
    else LiquidityMining
  }

  function ProposalTypeTag(t: ProposalType): (k: nat)
    ensures k < PROPOSAL_TYPE_VARIANTS
  {
    match t
    case ParameterChange => 0
    case TreasurySpend => 1
    case ProtocolUpgrade => 2
    case RewardRateChange => 3
    case NetworkExpansion => 4
  }

  function ProposalTypeOfTag(k: nat): (t: ProposalType)
    requires k < PROPOSAL_TYPE_VARIANTS
    ensures ProposalTypeTag(t) == k
  {
    if k == 0 then ParameterChange
    else if k == 1 then TreasurySpend
    else if k == 2 then ProtocolUpgrade
    else if k == 3 then RewardRateChange
    else NetworkExpansion
  }

  function VoteTag(v: Vote): (k: nat)
    ensures k < VOTE_VARIANTS
  {
    match v
    case Yes => 0
    case No => 1
    case Abstain => 2
  }

  function VoteOfTag(k: nat): (v: Vote)
    requires k < VOTE_VARIANTS
    ensures VoteTag(v) == k
  {
    if k == 0 then Yes else if k == 1 then No else Abstain
  }

  /** The tags number the variants one-to-one: each enum has exactly the stated number of variants. */
  lemma TagsAreBijective(p: PoolType, q: ProposalType, v: Vote)
    ensures PoolTypeOfTag(PoolTypeTag(p)) == p
    ensures ProposalTypeOfTag(ProposalTypeTag(q)) == q
    ensures VoteOfTag(VoteTag(v)) == v
  {
  }

  const DISCRIMINATOR_LEN: nat := 8

  const NETWORK_STATE_LEN: nat := 8 + 32 + 32 + 8 + 8 + 4 + 4 + 4 + 4 + 4 + 8 + 8 + 8 + 8 + 8 + 8 + 8 + 8 + 1

  const WIFI_MAX_LOCATION_LEN: nat := 100
  const WIFI_HOTSPOT_LEN: nat := 8 + 32 + 4 + WIFI_MAX_LOCATION_LEN + 4 + 4 + 4 + 8 + 8 + 8 + 1 + 1 + 1

  const LOGISTICS_MAX_NAME_LEN: nat := 50
  const LOGISTICS_MAX_SERVICE_AREAS: nat := 10
  const LOGISTICS_MAX_AREA_LEN: nat := 30
  const LOGISTICS_PARTNER_LEN: nat := 8 + 32 + 4 + LOGISTICS_MAX_NAME_LEN + 4 + (LOGISTICS_MAX_SERVICE_AREAS * (4 + LOGISTICS_MAX_AREA_LEN)) + 4 + 4 + 4 + 8 + 8 + 1 + 1 + 1

  const FARM_MAX_NAME_LEN: nat := 50
  const FARM_MAX_LOCATION_LEN: nat := 100
  const FARM_MAX_CROP_TYPES: nat := 5
  const FARM_MAX_CROP_LEN: nat := 20
  const FARM_LEN: nat := 8 + 32 + 4 + FARM_MAX_NAME_LEN + 4 + FARM_MAX_LOCATION_LEN + 4 + 4 + (FARM_MAX_CROP_TYPES * (4 + FARM_MAX_CROP_LEN)) + 4 + 8 + 8 + 1 + 1 + 1

  const HEALTHCARE_MAX_NAME_LEN: nat := 100
  const HEALTHCARE_MAX_TYPE_LEN: nat := 50
  const HEALTHCARE_MAX_LOCATION_LEN: nat := 100
  const HEALTHCARE_MAX_LICENSE_LEN: nat := 50
  const HEALTHCARE_PROVIDER_LEN: nat := 8 + 32 + 4 + HEALTHCARE_MAX_NAME_LEN + 4 + HEALTHCARE_MAX_TYPE_LEN + 4 + HEALTHCARE_MAX_LOCATION_LEN + 4 + HEALTHCARE_MAX_LICENSE_LEN + 4 + 4 + 8 + 8 + 1 + 1 + 1

  const TAX_MAX_NAME_LEN: nat := 100
  const TAX_MAX_TYPE_LEN: nat := 50
  const TAX_MAX_LOCATION_LEN: nat := 100
  const TAX_MAX_JURISDICTION_LEN: nat := 50
  const TAX_POINT_LEN: nat := 8 + 32 + 4 + TAX_MAX_NAME_LEN + 4 + TAX_MAX_TYPE_LEN + 4 + TAX_MAX_LOCATION_LEN + 4 + TAX_MAX_JURISDICTION_LEN + 4 + 8 + 8 + 8 + 1 + 1 + 1

  const STAKING_POOL_LEN: nat := 8 + 1 + 8 + 8 + 8 + 8 + 8 + 8 + 1 + 1

  const USER_STAKE_LEN: nat := 8 + 32 + 32 + 8 + 8 + 8 + 8 + 1

  const PROPOSAL_MAX_TITLE_LEN: nat := 100
  const PROPOSAL_MAX_DESCRIPTION_LEN: nat := 500
  const PROPOSAL_LEN: nat := 8 + 8 + 32 + 4 + PROPOSAL_MAX_TITLE_LEN + 4 + PROPOSAL_MAX_DESCRIPTION_LEN + 1 + 8 + 8 + 4 + 8 + 8 + 1 + 1 + 1

  const USER_PROFILE_LEN: nat := 8 + 32 + 8 + 8 + 2 + 8 + 1 + 1 + 1 + 4 + 1

  /** The space the vote instruction allocates for a `UserVote` account, as written. */
  const USER_VOTE_SPACE_AS_WRITTEN: nat := 8 + 32 + 8 + 1 + 8 + 1

  /** The space a `UserVote` needs: discriminator, voter, proposal, vote, voting power, timestamp, bump. */
  const USER_VOTE_LEN: nat := 8 + 32 + 32 + 1 + 8 + 8 + 1

  /** The singleton registry: authority, mint, global totals, per-category counts and rates. */
  class NetworkState {
    var authority: Pubkey
    var mint: Pubkey
    var totalSupply: U64
    var totalStaked: U64
    var wifiHotspotsCount: U32
    var logisticsPartnersCount: U32
    var farmsCount: U32
    var healthcareProvidersCount: U32
    var taxPointsCount: U32
    var wifiRewardRate: U64
    var logisticsRewardRate: U64
    var agricultureRewardRate: U64
    var healthcareRewardRate: U64
    var taxationRewardRate: U64
    var lastRewardDistribution: I64
    var governanceThreshold: U64
    var proposalsCount: U64
    var bump: U8

    constructor ()
      ensures authority == DEFAULT_KEY && mint == DEFAULT_KEY && totalSupply == 0 && totalStaked == 0
      ensures wifiHotspotsCount == 0 && logisticsPartnersCount == 0 && farmsCount == 0
      ensures healthcareProvidersCount == 0 && taxPointsCount == 0
      ensures wifiRewardRate == 0 && logisticsRewardRate == 0 && agricultureRewardRate == 0
      ensures healthcareRewardRate == 0 && taxationRewardRate == 0
      ensures lastRewardDistribution == 0 && governanceThreshold == 0 && proposalsCount == 0 && bump == 0
    {
      authority, mint, totalSupply, totalStaked := DEFAULT_KEY, DEFAULT_KEY, 0, 0;
      wifiHotspotsCount, logisticsPartnersCount, farmsCount := 0, 0, 0;
      healthcareProvidersCount, taxPointsCount := 0, 0;
      wifiRewardRate, logisticsRewardRate, agricultureRewardRate := 0, 0, 0;
      healthcareRewardRate, taxationRewardRate := 0, 0;
      lastRewardDistribution, governanceThreshold, proposalsCount, bump := 0, 0, 0, 0;
    }
  }

  /** The token mint the program creates at genesis. */
  class Mint {
    var mintAuthority: Pubkey
    var decimals: U8
    var supply: U64

    constructor ()
      ensures mintAuthority == DEFAULT_KEY && decimals == 0 && supply == 0
    {
      mintAuthority, decimals, supply := DEFAULT_KEY, 0, 0;
    }
  }

  class WiFiHotspot {
    var owner: Pubkey
    var location: Bytes
    var coverageRadius: U32
    var bandwidthMbps: U32
    var totalUsersServed: U32
    var totalDataTransferred: U64
    var totalRewardsEarned: U64
    var lastDataSubmission: I64
    var isActive: bool
    var reputationScore: U8
    var bump: U8

    constructor ()
      ensures owner == DEFAULT_KEY && location == [] && coverageRadius == 0 && bandwidthMbps == 0
      ensures totalUsersServed == 0 && totalDataTransferred == 0 && totalRewardsEarned == 0
      ensures lastDataSubmission == 0 && !isActive && reputationScore == 0 && bump == 0
    {
      owner, location, coverageRadius, bandwidthMbps := DEFAULT_KEY, [], 0, 0;
      totalUsersServed, totalDataTransferred, totalRewardsEarned := 0, 0, 0;
      lastDataSubmission, isActive, reputationScore, bump := 0, false, 0, 0;
    }
  }

  class LogisticsPartner {
    var owner: Pubkey
    var partnerName: Bytes
    var serviceAreas: seq<Bytes>
    var vehicleCount: U32
    var totalDeliveries: U32
    var totalDistanceKm: U32
    var totalRewardsEarned: U64
    var lastDataSubmission: I64
    var isActive: bool
    var efficiencyScore: U8
    var bump: U8

    constructor ()
      ensures owner == DEFAULT_KEY && partnerName == [] && serviceAreas == [] && vehicleCount == 0
      ensures totalDeliveries == 0 && totalDistanceKm == 0 && totalRewardsEarned == 0
      ensures lastDataSubmission == 0 && !isActive && efficiencyScore == 0 && bump == 0
    {
      owner, partnerName, serviceAreas, vehicleCount := DEFAULT_KEY, [], [], 0;
      totalDeliveries, totalDistanceKm, totalRewardsEarned := 0, 0, 0;
      lastDataSubmission, isActive, efficiencyScore, bump := 0, false, 0, 0;
    }
  }

  class Farm {
    var owner: Pubkey
    var farmName: Bytes
    var location: Bytes
    var farmSizeAcres: U32
    var cropTypes: seq<Bytes>
    var totalDataSubmissions: U32
    var totalRewardsEarned: U64
    var lastDataSubmission: I64
    var isActive: bool
    var yieldImprovement: U8
    var bump: U8

    constructor ()
      ensures owner == DEFAULT_KEY && farmName == [] && location == [] && farmSizeAcres == 0 && cropTypes == []
      ensures totalDataSubmissions == 0 && totalRewardsEarned == 0
      ensures lastDataSubmission == 0 && !isActive && yieldImprovement == 0 && bump == 0
    {
      owner, farmName, location, farmSizeAcres, cropTypes := DEFAULT_KEY, [], [], 0, [];
      totalDataSubmissions, totalRewardsEarned := 0, 0;
      lastDataSubmission, isActive, yieldImprovement, bump := 0, false, 0, 0;
    }
  }

  class HealthcareProvider {
    var owner: Pubkey
    var providerName: Bytes
    var providerType: Bytes
    var location: Bytes
    var licenseNumber: Bytes
    var totalDataSubmissions: U32
    var totalRecordsCollected: U32
    var totalRewardsEarned: U64
    var lastDataSubmission: I64
    var isActive: bool
    var complianceScore: U8
    var bump: U8

    constructor ()
      ensures owner == DEFAULT_KEY && providerName == [] && providerType == [] && location == [] && licenseNumber == []
      ensures totalDataSubmissions == 0 && totalRecordsCollected == 0 && totalRewardsEarned == 0
      ensures lastDataSubmission == 0 && !isActive && complianceScore == 0 && bump == 0
    {
      owner, providerName, providerType, location, licenseNumber := DEFAULT_KEY, [], [], [], [];
      totalDataSubmissions, totalRecordsCollected, totalRewardsEarned := 0, 0, 0;
      lastDataSubmission, isActive, complianceScore, bump := 0, false, 0, 0;
    }
  }

  class TaxCollectionPoint {
    var owner: Pubkey
    var pointName: Bytes
    var authorityType: Bytes
    var location: Bytes
    var jurisdiction: Bytes
    var totalRecordsSubmitted: U32
    var totalAmountProcessed: U64
    var totalRewardsEarned: U64
    var lastDataSubmission: I64
    var isActive: bool
    var verificationScore: U8
    var bump: U8

    constructor ()
      ensures owner == DEFAULT_KEY && pointName == [] && authorityType == [] && location == [] && jurisdiction == []
      ensures totalRecordsSubmitted == 0 && totalAmountProcessed == 0 && totalRewardsEarned == 0
      ensures lastDataSubmission == 0 && !isActive && verificationScore == 0 && bump == 0
    {
      owner, pointName, authorityType, location, jurisdiction := DEFAULT_KEY, [], [], [], [];
      totalRecordsSubmitted, totalAmountProcessed, totalRewardsEarned := 0, 0, 0;
      lastDataSubmission, isActive, verificationScore, bump := 0, false, 0, 0;
    }
  }

  /** One pool per pool type; `reward_rate` is an APY in basis points, `lock_period` in seconds. */
  class StakingPool {
    var poolType: PoolType
    var totalStaked: U64
    var rewardRate: U64
    var minStakeAmount: U64
    var maxCapacity: U64
    var lockPeriod: I64
    var totalRewardsPaid: U64
    var isActive: bool
    var bump: U8

    /** A zero-filled pool account: its pool type reads as the first variant. */
    constructor ()
      ensures poolType == WiFiInfrastructure && totalStaked == 0 && rewardRate == 0
      ensures minStakeAmount == 0 && maxCapacity == 0 && lockPeriod == 0
      ensures totalRewardsPaid == 0 && !isActive && bump == 0
    {
      poolType, totalStaked, rewardRate := WiFiInfrastructure, 0, 0;
      minStakeAmount, maxCapacity, lockPeriod := 0, 0, 0;
      totalRewardsPaid, isActive, bump := 0, false, 0;
    }
  }

  /** One position per (user, pool); `user == DEFAULT_KEY` marks a position not yet opened. */
  class UserStake {
    var user: Pubkey
    var pool: Pubkey
    var amount: U64
    var startTime: I64
    var lastRewardClaim: I64
    var pendingRewards: U64
    var bump: U8

    constructor ()
      ensures user == DEFAULT_KEY && pool == DEFAULT_KEY && amount == 0
      ensures startTime == 0 && lastRewardClaim == 0 && pendingRewards == 0 && bump == 0
    {
      user, pool, amount := DEFAULT_KEY, DEFAULT_KEY, 0;
      startTime, lastRewardClaim, pendingRewards, bump := 0, 0, 0, 0;
    }
  }

  class Proposal {
    var id: U64
    var proposer: Pubkey
    var title: Bytes
    var description: Bytes
    var proposalType: ProposalType
    var yesVotes: U64
    var noVotes: U64
    var totalVotes: U32
    var startTime: I64
    var endTime: I64
    var executed: bool
    var approved: bool
    var bump: U8

    constructor ()
      ensures id == 0 && proposer == DEFAULT_KEY && title == [] && description == []
      ensures proposalType == ParameterChange && yesVotes == 0 && noVotes == 0 && totalVotes == 0
      ensures startTime == 0 && endTime == 0 && !executed && !approved && bump == 0
    {
      id, proposer, title, description := 0, DEFAULT_KEY, [], [];
      proposalType, yesVotes, noVotes, totalVotes := ParameterChange, 0, 0, 0;
      startTime, endTime, executed, approved, bump := 0, 0, false, false, 0;
    }
  }

  /** One ballot per (proposal, voter); `voter == DEFAULT_KEY` marks a ballot not yet cast. */
  class UserVote {
    var voter: Pubkey
    var proposal: Pubkey
    var vote: Vote
    var votingPower: U64
    var timestamp: I64
    var bump: U8

    constructor ()
      ensures voter == DEFAULT_KEY && proposal == DEFAULT_KEY && vote == Yes
      ensures votingPower == 0 && timestamp == 0 && bump == 0
    {
      voter, proposal, vote, votingPower, timestamp, bump := DEFAULT_KEY, DEFAULT_KEY, Yes, 0, 0, 0;
    }
  }

  /** Per-user aggregates; `owner == DEFAULT_KEY` marks a profile not yet created. */
  class UserProfile {
    var owner: Pubkey
    var totalEarned: U64
    var totalStaked: U64
    var reputationScore: U16
    var lastActivity: I64
    var wifiHotspots: U8
    var logisticsPartners: U8
    var farms: U8
    var governanceVotes: U32
    var bump: U8

    constructor ()
      ensures owner == DEFAULT_KEY && totalEarned == 0 && totalStaked == 0 && reputationScore == 0
      ensures lastActivity == 0 && wifiHotspots == 0 && logisticsPartners == 0 && farms == 0
      ensures governanceVotes == 0 && bump == 0
    {
      owner, totalEarned, totalStaked, reputationScore := DEFAULT_KEY, 0, 0, 0;
      lastActivity, wifiHotspots, logisticsPartners, farms := 0, 0, 0, 0;
      governanceVotes, bump := 0, 0;
    }
  }
}
