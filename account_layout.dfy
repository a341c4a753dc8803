/**
 * The wire schema of every account record, the record an account object serializes to, and
 * the lemmas that tie each record to the `LEN` space budget the program allocates for it.
 */
module AccountLayout {
  import opened Types
  import opened State
  import opened Layout

  /** Authority, mint, supply, stake and the five registry counts. */
  function NetworkStateHead(): seq<FieldType>
  {
    [KEY, KEY, U64F, U64F, U32F, U32F, U32F, U32F, U32F]
  }

  /** The five reward rates, the distribution time, the threshold, the proposal count and the bump. */
  function NetworkStateTail(): seq<FieldType>
  {
    [U64F, U64F, U64F, U64F, U64F, I64F, U64F, U64F, U8F]
  }

  function NetworkStateSchema(): seq<FieldType>
  {
    NetworkStateHead() + NetworkStateTail()
  }

  function NetworkStateRecord(n: NetworkState): (vs: seq<Value>)
    reads n
    ensures RecordEncodable(NetworkStateSchema(), vs)
  {
    [IntV(n.authority), IntV(n.mint), IntV(n.totalSupply), IntV(n.totalStaked), IntV(n.wifiHotspotsCount),
     IntV(n.logisticsPartnersCount), IntV(n.farmsCount), IntV(n.healthcareProvidersCount),
     IntV(n.taxPointsCount), IntV(n.wifiRewardRate), IntV(n.logisticsRewardRate),
     IntV(n.agricultureRewardRate), IntV(n.healthcareRewardRate), IntV(n.taxationRewardRate),
     IntV(n.lastRewardDistribution), IntV(n.governanceThreshold), IntV(n.proposalsCount), IntV(n.bump)]
  }

  /** `NetworkState::LEN` is the 8-byte discriminator plus the largest encoding of each field in declaration order. */
  lemma NetworkStateSchemaMatchesLen()
    ensures DISCRIMINATOR_LEN + SchemaSize(NetworkStateSchema()) == NETWORK_STATE_LEN
  {
    SchemaSizeAppend(NetworkStateHead(), NetworkStateTail());
  }

  lemma NetworkStateRecordWithinBounds(n: NetworkState)
    ensures RecordWithinBounds(NetworkStateSchema(), NetworkStateRecord(n))
  {
  }

  /** `NetworkState::LEN` is exactly the discriminator plus the encoded size of every field. */
  lemma NetworkStateLen(disc: Bytes, n: NetworkState)
    requires |disc| == DISCRIMINATOR_LEN
    ensures |EncodeAccount(disc, NetworkStateSchema(), NetworkStateRecord(n))| == NETWORK_STATE_LEN
  {
    var ts := NetworkStateSchema();
    var vs := NetworkStateRecord(n);
    NetworkStateSchemaMatchesLen();
    NetworkStateRecordWithinBounds(n);
    NetworkStateSchemaFixed();
    AccountSize(disc, ts, vs);
  }

  /** Every network-state field has a fixed width. */
  lemma NetworkStateSchemaFixed()
    ensures forall i :: 0 <= i < |NetworkStateSchema()| ==> IsFixed(NetworkStateSchema()[i])
  {
    var h, t := NetworkStateHead(), NetworkStateTail();
    assert forall i :: 0 <= i < |h| ==> IsFixed(h[i]);
    assert forall i :: 0 <= i < |t| ==> IsFixed(t[i]);
    assert forall i :: 0 <= i < |h + t| ==> (h + t)[i] == if i < |h| then h[i] else t[i - |h|];
  }

  function WiFiHotspotSchema(): seq<FieldType>
  {
    [KEY, Str(WIFI_MAX_LOCATION_LEN), U32F, U32F, U32F, U64F, U64F, I64F, Bool, U8F, U8F]
  }

  function WiFiHotspotRecord(h: WiFiHotspot): (vs: seq<Value>)
    reads h
    ensures |h.location| <= U32_MAX ==> RecordEncodable(WiFiHotspotSchema(), vs)
  {
    [IntV(h.owner), StrV(h.location), IntV(h.coverageRadius), IntV(h.bandwidthMbps),
     IntV(h.totalUsersServed), IntV(h.totalDataTransferred), IntV(h.totalRewardsEarned),
     IntV(h.lastDataSubmission), BoolV(h.isActive), IntV(h.reputationScore), IntV(h.bump)]
  }

  /** `WiFiHotspot::LEN` is the 8-byte discriminator plus the largest encoding of each field in declaration order. */
  lemma WiFiHotspotSchemaMatchesLen()
    ensures DISCRIMINATOR_LEN + SchemaSize(WiFiHotspotSchema()) == WIFI_HOTSPOT_LEN
  {
  }

  lemma WiFiHotspotRecordWithinBounds(h: WiFiHotspot)
    requires |h.location| <= WIFI_MAX_LOCATION_LEN
    ensures RecordWithinBounds(WiFiHotspotSchema(), WiFiHotspotRecord(h))
  {
  }

  /** A hotspot whose location is within `MAX_LOCATION_LEN` encodes into at most `LEN` bytes, and reads back unchanged. */
  lemma WiFiHotspotLen(disc: Bytes, h: WiFiHotspot, padding: Bytes)
    requires |disc| == DISCRIMINATOR_LEN
    requires |h.location| <= WIFI_MAX_LOCATION_LEN
    ensures |EncodeAccount(disc, WiFiHotspotSchema(), WiFiHotspotRecord(h))| <= WIFI_HOTSPOT_LEN
    ensures DecodeAccount(disc, WiFiHotspotSchema(), EncodeAccount(disc, WiFiHotspotSchema(), WiFiHotspotRecord(h)) + padding)
            == Some(WiFiHotspotRecord(h))
  {
    WiFiHotspotSchemaMatchesLen();
    WiFiHotspotRecordWithinBounds(h);
    AccountSize(disc, WiFiHotspotSchema(), WiFiHotspotRecord(h));
    AccountRoundTrip(disc, WiFiHotspotSchema(), WiFiHotspotRecord(h), padding);
  }

  function LogisticsPartnerSchema(): seq<FieldType>
  {
    [KEY, Str(LOGISTICS_MAX_NAME_LEN), StrVec(LOGISTICS_MAX_SERVICE_AREAS, LOGISTICS_MAX_AREA_LEN),
     U32F, U32F, U32F, U64F, I64F, Bool, U8F, U8F]
  }

  predicate LogisticsPartnerStringsFit(p: LogisticsPartner)
    reads p
  {
    |p.partnerName| <= LOGISTICS_MAX_NAME_LEN && |p.serviceAreas| <= LOGISTICS_MAX_SERVICE_AREAS &&
    forall i :: 0 <= i < |p.serviceAreas| ==> |p.serviceAreas[i]| <= LOGISTICS_MAX_AREA_LEN
  }

  function LogisticsPartnerRecord(p: LogisticsPartner): (vs: seq<Value>)
    reads p
    ensures LogisticsPartnerStringsFit(p) ==> RecordEncodable(LogisticsPartnerSchema(), vs)
  {
    [IntV(p.owner), StrV(p.partnerName), StrVecV(p.serviceAreas), IntV(p.vehicleCount),
     IntV(p.totalDeliveries), IntV(p.totalDistanceKm), IntV(p.totalRewardsEarned),
     IntV(p.lastDataSubmission), BoolV(p.isActive), IntV(p.efficiencyScore), IntV(p.bump)]
  }

  /** `LogisticsPartner::LEN` is the 8-byte discriminator plus the largest encoding of each field in declaration order. */
  lemma LogisticsPartnerSchemaMatchesLen()
    ensures DISCRIMINATOR_LEN + SchemaSize(LogisticsPartnerSchema()) == LOGISTICS_PARTNER_LEN
  {
  }

  lemma LogisticsPartnerRecordWithinBounds(p: LogisticsPartner)
    requires LogisticsPartnerStringsFit(p)
    ensures RecordWithinBounds(LogisticsPartnerSchema(), LogisticsPartnerRecord(p))
  {
  }

  /** A partner within its name, area-count and area-length bounds fits `LogisticsPartner::LEN`. */
  lemma LogisticsPartnerLen(disc: Bytes, p: LogisticsPartner)
    requires |disc| == DISCRIMINATOR_LEN
    requires LogisticsPartnerStringsFit(p)
    ensures |EncodeAccount(disc, LogisticsPartnerSchema(), LogisticsPartnerRecord(p))| <= LOGISTICS_PARTNER_LEN
  {
    LogisticsPartnerSchemaMatchesLen();
    LogisticsPartnerRecordWithinBounds(p);
    AccountSize(disc, LogisticsPartnerSchema(), LogisticsPartnerRecord(p));
  }

  function FarmSchema(): seq<FieldType>
  {
    [KEY, Str(FARM_MAX_NAME_LEN), Str(FARM_MAX_LOCATION_LEN), U32F, StrVec(FARM_MAX_CROP_TYPES, FARM_MAX_CROP_LEN),
     U32F, U64F, I64F, Bool, U8F, U8F]
  }

  predicate FarmStringsFit(f: Farm)
    reads f
  {
    |f.farmName| <= FARM_MAX_NAME_LEN && |f.location| <= FARM_MAX_LOCATION_LEN &&
    |f.cropTypes| <= FARM_MAX_CROP_TYPES && forall i :: 0 <= i < |f.cropTypes| ==> |f.cropTypes[i]| <= FARM_MAX_CROP_LEN
  }

  function FarmRecord(f: Farm): (vs: seq<Value>)
    reads f
    ensures FarmStringsFit(f) ==> RecordEncodable(FarmSchema(), vs)
  {
    [IntV(f.owner), StrV(f.farmName), StrV(f.location), IntV(f.farmSizeAcres), StrVecV(f.cropTypes),
     IntV(f.totalDataSubmissions), IntV(f.totalRewardsEarned), IntV(f.lastDataSubmission), BoolV(f.isActive),
     IntV(f.yieldImprovement), IntV(f.bump)]
  }

  /** `Farm::LEN` is the 8-byte discriminator plus the largest encoding of each field in declaration order. */
  lemma FarmSchemaMatchesLen()
    ensures DISCRIMINATOR_LEN + SchemaSize(FarmSchema()) == FARM_LEN
  {
  }

  lemma FarmRecordWithinBounds(f: Farm)
    requires FarmStringsFit(f)
    ensures RecordWithinBounds(FarmSchema(), FarmRecord(f))
  {
  }

  lemma FarmLen(disc: Bytes, f: Farm)
    requires |disc| == DISCRIMINATOR_LEN
    requires FarmStringsFit(f)
    ensures |EncodeAccount(disc, FarmSchema(), FarmRecord(f))| <= FARM_LEN
  {
    FarmSchemaMatchesLen();
    FarmRecordWithinBounds(f);
    AccountSize(disc, FarmSchema(), FarmRecord(f));
  }

  function HealthcareProviderSchema(): seq<FieldType>
  {
    [KEY, Str(HEALTHCARE_MAX_NAME_LEN), Str(HEALTHCARE_MAX_TYPE_LEN), Str(HEALTHCARE_MAX_LOCATION_LEN),
     Str(HEALTHCARE_MAX_LICENSE_LEN), U32F, U32F, U64F, I64F, Bool, U8F, U8F]
  }

  predicate HealthcareProviderStringsFit(p: HealthcareProvider)
    reads p
  {
    |p.providerName| <= HEALTHCARE_MAX_NAME_LEN && |p.providerType| <= HEALTHCARE_MAX_TYPE_LEN &&
    |p.location| <= HEALTHCARE_MAX_LOCATION_LEN && |p.licenseNumber| <= HEALTHCARE_MAX_LICENSE_LEN
  }

  function HealthcareProviderRecord(p: HealthcareProvider): (vs: seq<Value>)
    reads p
    ensures HealthcareProviderStringsFit(p) ==> RecordEncodable(HealthcareProviderSchema(), vs)
  {
    [IntV(p.owner), StrV(p.providerName), StrV(p.providerType), StrV(p.location), StrV(p.licenseNumber),
     IntV(p.totalDataSubmissions), IntV(p.totalRecordsCollected), IntV(p.totalRewardsEarned),
     IntV(p.lastDataSubmission), BoolV(p.isActive), IntV(p.complianceScore), IntV(p.bump)]
  }

  /** `HealthcareProvider::LEN` is the 8-byte discriminator plus the largest encoding of each field in declaration order. */
  lemma HealthcareProviderSchemaMatchesLen()
    ensures DISCRIMINATOR_LEN + SchemaSize(HealthcareProviderSchema()) == HEALTHCARE_PROVIDER_LEN
  {
  }

  lemma HealthcareProviderRecordWithinBounds(p: HealthcareProvider)
    requires HealthcareProviderStringsFit(p)
    ensures RecordWithinBounds(HealthcareProviderSchema(), HealthcareProviderRecord(p))
  {
  }

  lemma HealthcareProviderLen(disc: Bytes, p: HealthcareProvider)
    requires |disc| == DISCRIMINATOR_LEN
    requires HealthcareProviderStringsFit(p)
    ensures |EncodeAccount(disc, HealthcareProviderSchema(), HealthcareProviderRecord(p))| <= HEALTHCARE_PROVIDER_LEN
  {
    HealthcareProviderSchemaMatchesLen();
    HealthcareProviderRecordWithinBounds(p);
    AccountSize(disc, HealthcareProviderSchema(), HealthcareProviderRecord(p));
  }

  function TaxPointSchema(): seq<FieldType>
  {
    [KEY, Str(TAX_MAX_NAME_LEN), Str(TAX_MAX_TYPE_LEN), Str(TAX_MAX_LOCATION_LEN), Str(TAX_MAX_JURISDICTION_LEN),
     U32F, U64F, U64F, I64F, Bool, U8F, U8F]
  }

  predicate TaxPointStringsFit(t: TaxCollectionPoint)
    reads t
  {
    |t.pointName| <= TAX_MAX_NAME_LEN && |t.authorityType| <= TAX_MAX_TYPE_LEN &&
    |t.location| <= TAX_MAX_LOCATION_LEN && |t.jurisdiction| <= TAX_MAX_JURISDICTION_LEN
  }

  function TaxPointRecord(t: TaxCollectionPoint): (vs: seq<Value>)
    reads t
    ensures TaxPointStringsFit(t) ==> RecordEncodable(TaxPointSchema(), vs)
  {
    [IntV(t.owner), StrV(t.pointName), StrV(t.authorityType), StrV(t.location), StrV(t.jurisdiction),
     IntV(t.totalRecordsSubmitted), IntV(t.totalAmountProcessed), IntV(t.totalRewardsEarned),
     IntV(t.lastDataSubmission), BoolV(t.isActive), IntV(t.verificationScore), IntV(t.bump)]
  }

  /** `TaxCollectionPoint::LEN` is the 8-byte discriminator plus the largest encoding of each field in declaration order. */
  lemma TaxPointSchemaMatchesLen()
    ensures DISCRIMINATOR_LEN + SchemaSize(TaxPointSchema()) == TAX_POINT_LEN
  {
  }

  lemma TaxPointRecordWithinBounds(t: TaxCollectionPoint)
    requires TaxPointStringsFit(t)
    ensures RecordWithinBounds(TaxPointSchema(), TaxPointRecord(t))
  {
  }

  lemma TaxPointLen(disc: Bytes, t: TaxCollectionPoint)
    requires |disc| == DISCRIMINATOR_LEN
    requires TaxPointStringsFit(t)
    ensures |EncodeAccount(disc, TaxPointSchema(), TaxPointRecord(t))| <= TAX_POINT_LEN
  {
    TaxPointSchemaMatchesLen();
    TaxPointRecordWithinBounds(t);
    AccountSize(disc, TaxPointSchema(), TaxPointRecord(t));
  }

  function StakingPoolSchema(): seq<FieldType>
  {
    [ENUM, U64F, U64F, U64F, U64F, I64F, U64F, Bool, U8F]
  }

  function StakingPoolRecord(p: StakingPool): (vs: seq<Value>)
    reads p
    ensures RecordEncodable(StakingPoolSchema(), vs)
  {
    [IntV(PoolTypeTag(p.poolType)), IntV(p.totalStaked), IntV(p.rewardRate), IntV(p.minStakeAmount),
     IntV(p.maxCapacity), IntV(p.lockPeriod), IntV(p.totalRewardsPaid), BoolV(p.isActive), IntV(p.bump)]
  }

  /** `StakingPool::LEN` is the 8-byte discriminator plus the largest encoding of each field in declaration order. */
  lemma StakingPoolSchemaMatchesLen()
    ensures DISCRIMINATOR_LEN + SchemaSize(StakingPoolSchema()) == STAKING_POOL_LEN
  {
  }

  lemma StakingPoolRecordWithinBounds(p: StakingPool)
    ensures RecordWithinBounds(StakingPoolSchema(), StakingPoolRecord(p))
  {
  }

  /** `StakingPool::LEN` is exactly the size of a pool record. */
  lemma StakingPoolLen(disc: Bytes, p: StakingPool)
    requires |disc| == DISCRIMINATOR_LEN
    ensures |EncodeAccount(disc, StakingPoolSchema(), StakingPoolRecord(p))| == STAKING_POOL_LEN
  {
    var ts := StakingPoolSchema();
    var vs := StakingPoolRecord(p);
    StakingPoolSchemaMatchesLen();
    StakingPoolRecordWithinBounds(p);
    StakingPoolSchemaFixed();
    AccountSize(disc, ts, vs);
  }

  /** Every field of the record has a fixed width. */
  lemma StakingPoolSchemaFixed()
    ensures forall i :: 0 <= i < |StakingPoolSchema()| ==> IsFixed(StakingPoolSchema()[i])
  {
  }

  function UserStakeSchema(): seq<FieldType>
  {
    [KEY, KEY, U64F, I64F, I64F, U64F, U8F]
  }

  function UserStakeRecord(s: UserStake): (vs: seq<Value>)
    reads s
    ensures RecordEncodable(UserStakeSchema(), vs)
  {
    [IntV(s.user), IntV(s.pool), IntV(s.amount), IntV(s.startTime), IntV(s.lastRewardClaim),
     IntV(s.pendingRewards), IntV(s.bump)]
  }

  /** `UserStake::LEN` is the 8-byte discriminator plus the largest encoding of each field in declaration order. */
  lemma UserStakeSchemaMatchesLen()
    ensures DISCRIMINATOR_LEN + SchemaSize(UserStakeSchema()) == USER_STAKE_LEN
  {
  }

  lemma UserStakeRecordWithinBounds(s: UserStake)
    ensures RecordWithinBounds(UserStakeSchema(), UserStakeRecord(s))
  {
  }

  /** `UserStake::LEN` is exactly the size of a position record. */
  lemma UserStakeLen(disc: Bytes, s: UserStake)
    requires |disc| == DISCRIMINATOR_LEN
    ensures |EncodeAccount(disc, UserStakeSchema(), UserStakeRecord(s))| == USER_STAKE_LEN
  {
    UserStakeSchemaMatchesLen();
    UserStakeRecordWithinBounds(s);
    AccountSize(disc, UserStakeSchema(), UserStakeRecord(s));
  }

  function ProposalSchema(): seq<FieldType>
  {
    [U64F, KEY, Str(PROPOSAL_MAX_TITLE_LEN), Str(PROPOSAL_MAX_DESCRIPTION_LEN), ENUM,
     U64F, U64F, U32F, I64F, I64F, Bool, Bool, U8F]
  }

  function ProposalRecord(p: Proposal): (vs: seq<Value>)
    reads p
    ensures |p.title| <= U32_MAX && |p.description| <= U32_MAX ==> RecordEncodable(ProposalSchema(), vs)
  {
    [IntV(p.id), IntV(p.proposer), StrV(p.title), StrV(p.description), IntV(ProposalTypeTag(p.proposalType)),
     IntV(p.yesVotes), IntV(p.noVotes), IntV(p.totalVotes), IntV(p.startTime), IntV(p.endTime),
     BoolV(p.executed), BoolV(p.approved), IntV(p.bump)]
  }

  /** `Proposal::LEN` is the 8-byte discriminator plus the largest encoding of each field in declaration order. */
  lemma ProposalSchemaMatchesLen()
    ensures DISCRIMINATOR_LEN + SchemaSize(ProposalSchema()) == PROPOSAL_LEN
  {
  }

  lemma ProposalRecordWithinBounds(p: Proposal)
    requires |p.title| <= PROPOSAL_MAX_TITLE_LEN && |p.description| <= PROPOSAL_MAX_DESCRIPTION_LEN
    ensures RecordWithinBounds(ProposalSchema(), ProposalRecord(p))
  {
  }

  /** A proposal whose title and description are within 100 and 500 bytes fits `Proposal::LEN`. */
  lemma ProposalLen(disc: Bytes, p: Proposal)
    requires |disc| == DISCRIMINATOR_LEN
    requires |p.title| <= PROPOSAL_MAX_TITLE_LEN && |p.description| <= PROPOSAL_MAX_DESCRIPTION_LEN
    ensures |EncodeAccount(disc, ProposalSchema(), ProposalRecord(p))| <= PROPOSAL_LEN
  {
    ProposalSchemaMatchesLen();
    ProposalRecordWithinBounds(p);
    AccountSize(disc, ProposalSchema(), ProposalRecord(p));
  }

  function UserProfileSchema(): seq<FieldType>
  {
    [KEY, U64F, U64F, U16F, I64F, U8F, U8F, U8F, U32F, U8F]
  }

  function UserProfileRecord(u: UserProfile): (vs: seq<Value>)
    reads u
    ensures RecordEncodable(UserProfileSchema(), vs)
  {
    [IntV(u.owner), IntV(u.totalEarned), IntV(u.totalStaked), IntV(u.reputationScore), IntV(u.lastActivity),
     IntV(u.wifiHotspots), IntV(u.logisticsPartners), IntV(u.farms), IntV(u.governanceVotes), IntV(u.bump)]
  }

  /** `UserProfile::LEN` is the 8-byte discriminator plus the largest encoding of each field in declaration order. */
  lemma UserProfileSchemaMatchesLen()
    ensures DISCRIMINATOR_LEN + SchemaSize(UserProfileSchema()) == USER_PROFILE_LEN
  {
  }

  lemma UserProfileRecordWithinBounds(u: UserProfile)
    ensures RecordWithinBounds(UserProfileSchema(), UserProfileRecord(u))
  {
  }

  /** `UserProfile::LEN` is exactly the size of a profile record. */
  lemma UserProfileLen(disc: Bytes, u: UserProfile)
    requires |disc| == DISCRIMINATOR_LEN
    ensures |EncodeAccount(disc, UserProfileSchema(), UserProfileRecord(u))| == USER_PROFILE_LEN
  {
    var ts := UserProfileSchema();
    var vs := UserProfileRecord(u);
    UserProfileSchemaMatchesLen();
    UserProfileRecordWithinBounds(u);
    UserProfileSchemaFixed();
    AccountSize(disc, ts, vs);
  }

  /** Every field of the record has a fixed width. */
  lemma UserProfileSchemaFixed()
    ensures forall i :: 0 <= i < |UserProfileSchema()| ==> IsFixed(UserProfileSchema()[i])
  {
  }

  function UserVoteSchema(): seq<FieldType>
  {
    [KEY, KEY, ENUM, U64F, I64F, U8F]
  }

  function UserVoteRecord(v: UserVote): (vs: seq<Value>)
    reads v
    ensures RecordEncodable(UserVoteSchema(), vs)
  {
    [IntV(v.voter), IntV(v.proposal), IntV(VoteTag(v.vote)), IntV(v.votingPower), IntV(v.timestamp),
     IntV(v.bump)]
  }

  /** `UserVote::LEN` is the 8-byte discriminator plus the largest encoding of each field in declaration order. */
  lemma UserVoteSchemaMatchesLen()
    ensures DISCRIMINATOR_LEN + SchemaSize(UserVoteSchema()) == USER_VOTE_LEN
  {
  }

  lemma UserVoteRecordWithinBounds(v: UserVote)
    ensures RecordWithinBounds(UserVoteSchema(), UserVoteRecord(v))
  {
  }

  /**
   * As written, the vote instruction allocates 58 bytes for a ballot whose encoding always
   * takes 90, so no ballot can ever be stored in the space it is given.
   */
  lemma UserVoteExceedsSpaceAsWritten(disc: Bytes, v: UserVote)
    requires |disc| == DISCRIMINATOR_LEN
    ensures |EncodeAccount(disc, UserVoteSchema(), UserVoteRecord(v))| > USER_VOTE_SPACE_AS_WRITTEN
  {
    UserVoteSchemaMatchesLen();
    UserVoteRecordWithinBounds(v);
    AccountSize(disc, UserVoteSchema(), UserVoteRecord(v));
  }

  /** With the corrected budget every ballot fits exactly. */
  lemma UserVoteFitsCorrectedLen(disc: Bytes, v: UserVote)
    requires |disc| == DISCRIMINATOR_LEN
    ensures |EncodeAccount(disc, UserVoteSchema(), UserVoteRecord(v))| == USER_VOTE_LEN
  {
    UserVoteSchemaMatchesLen();
    UserVoteRecordWithinBounds(v);
    AccountSize(disc, UserVoteSchema(), UserVoteRecord(v));
  }
}
