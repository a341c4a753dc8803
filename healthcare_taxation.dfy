/**
 * Registration of healthcare providers and tax collection points, and their data
 * submissions. These follow the infrastructure instructions, except that the user profile
 * has no counter for either kind: an existing profile only records the activity time.
 */
module HealthcareTaxation {
  import opened Types
  import opened State
  import opened Submission
  import Profile

  /** The compliance and verification scores new registrations start with. */
  const INITIAL_SCORE: int := 100

  /** The argument checks of `register_healthcare_provider`, in the order it runs them. */
  function ProviderArgsCheck(name: Bytes, providerType: Bytes, location: Bytes, license: Bytes): (r: Outcome)
    ensures r == Pass <==>
      |name| <= HEALTHCARE_MAX_NAME_LEN && |providerType| <= HEALTHCARE_MAX_TYPE_LEN
      && |location| <= HEALTHCARE_MAX_LOCATION_LEN && |license| <= HEALTHCARE_MAX_LICENSE_LEN
    ensures |name| > HEALTHCARE_MAX_NAME_LEN || (|name| <= HEALTHCARE_MAX_NAME_LEN && |providerType| > HEALTHCARE_MAX_TYPE_LEN)
            ==> r == Fail(NameTooLong)
    ensures (|name| <= HEALTHCARE_MAX_NAME_LEN && |providerType| <= HEALTHCARE_MAX_TYPE_LEN
             && |location| > HEALTHCARE_MAX_LOCATION_LEN) ==> r == Fail(LocationTooLong)
    ensures (|name| <= HEALTHCARE_MAX_NAME_LEN && |providerType| <= HEALTHCARE_MAX_TYPE_LEN
             && |location| <= HEALTHCARE_MAX_LOCATION_LEN && |license| > HEALTHCARE_MAX_LICENSE_LEN) ==> r == Fail(NameTooLong)
  {
    if |name| > HEALTHCARE_MAX_NAME_LEN then Fail(NameTooLong)
    else if |providerType| > HEALTHCARE_MAX_TYPE_LEN then Fail(NameTooLong)
    else if |location| > HEALTHCARE_MAX_LOCATION_LEN then Fail(LocationTooLong)
    else if |license| > HEALTHCARE_MAX_LICENSE_LEN then Fail(NameTooLong)
    else Pass
  }

  predicate IsNewProvider(h: HealthcareProvider, owner: Pubkey, name: Bytes, providerType: Bytes, location: Bytes,
                          license: Bytes, bump: U8)
    reads h
  {
    && h.owner == owner && h.providerName == name && h.providerType == providerType && h.location == location
    && h.licenseNumber == license && h.totalDataSubmissions == 0 && h.totalRecordsCollected == 0
    && h.totalRewardsEarned == 0 && h.lastDataSubmission == 0 && h.isActive
    && h.complianceScore == INITIAL_SCORE && h.bump == bump
  }

  method OpenProvider(h: HealthcareProvider, owner: Pubkey, name: Bytes, providerType: Bytes, location: Bytes,
                      license: Bytes, bump: U8)
    modifies h
    ensures IsNewProvider(h, owner, name, providerType, location, license, bump)
  {
    h.owner, h.providerName, h.providerType, h.location, h.licenseNumber := owner, name, providerType, location, license;
    h.totalDataSubmissions, h.totalRecordsCollected, h.totalRewardsEarned := 0, 0, 0;
    h.lastDataSubmission, h.isActive, h.complianceScore, h.bump := 0, true, INITIAL_SCORE, bump;
  }

  /**
   * `register_healthcare_provider`: validates the four strings, writes the provider with
   * compliance 100, counts it and initialises or touches the owner's profile.
   */
  method RegisterHealthcareProvider(provider: HealthcareProvider, net: NetworkState, profile: UserProfile, owner: Pubkey,
                                    name: Bytes, providerType: Bytes, location: Bytes, license: Bytes,
                                    providerBump: U8, profileBump: U8, now: I64)
    returns (r: Outcome)
    modifies provider, net`healthcareProvidersCount, profile
    ensures ProviderArgsCheck(name, providerType, location, license) != Pass ==>
      r == ProviderArgsCheck(name, providerType, location, license)
    ensures ProviderArgsCheck(name, providerType, location, license) == Pass ==>
      (r == Pass <==> old(net.healthcareProvidersCount) < U32_MAX) && (r != Pass ==> r == Fail(Overflow))
    ensures r == Pass ==>
      && IsNewProvider(provider, owner, name, providerType, location, license, providerBump)
      && net.healthcareProvidersCount == old(net.healthcareProvidersCount) + 1
      && Profile.Recorded(profile, owner, None, profileBump, now)
    ensures r != Pass ==> unchanged(provider, profile) && net.healthcareProvidersCount == old(net.healthcareProvidersCount)
  {
    r := ProviderArgsCheck(name, providerType, location, license);
    if r != Pass {
      return;
    }
    if net.healthcareProvidersCount == U32_MAX {
      return Fail(Overflow);
    }
    OpenProvider(provider, owner, name, providerType, location, license, providerBump);
    net.healthcareProvidersCount := net.healthcareProvidersCount + 1;
    Profile.Record(profile, owner, None, profileBump, now);
  }

  /** The argument checks of `register_tax_point`, in the order it runs them. */
  function TaxPointArgsCheck(name: Bytes, authorityType: Bytes, location: Bytes, jurisdiction: Bytes): (r: Outcome)
    ensures r == Pass <==>
      |name| <= TAX_MAX_NAME_LEN && |authorityType| <= TAX_MAX_TYPE_LEN
      && |location| <= TAX_MAX_LOCATION_LEN && |jurisdiction| <= TAX_MAX_JURISDICTION_LEN
    ensures |name| > TAX_MAX_NAME_LEN || (|name| <= TAX_MAX_NAME_LEN && |authorityType| > TAX_MAX_TYPE_LEN)
            ==> r == Fail(NameTooLong)
    ensures (|name| <= TAX_MAX_NAME_LEN && |authorityType| <= TAX_MAX_TYPE_LEN
             && |location| > TAX_MAX_LOCATION_LEN) ==> r == Fail(LocationTooLong)
    ensures (|name| <= TAX_MAX_NAME_LEN && |authorityType| <= TAX_MAX_TYPE_LEN
             && |location| <= TAX_MAX_LOCATION_LEN && |jurisdiction| > TAX_MAX_JURISDICTION_LEN) ==> r == Fail(NameTooLong)
  {
    if |name| > TAX_MAX_NAME_LEN then Fail(NameTooLong)
    else if |authorityType| > TAX_MAX_TYPE_LEN then Fail(NameTooLong)
    else if |location| > TAX_MAX_LOCATION_LEN then Fail(LocationTooLong)
    else if |jurisdiction| > TAX_MAX_JURISDICTION_LEN then Fail(NameTooLong)
    else Pass
  }

  predicate IsNewTaxPoint(t: TaxCollectionPoint, owner: Pubkey, name: Bytes, authorityType: Bytes, location: Bytes,
                          jurisdiction: Bytes, bump: U8)
    reads t
  {
    && t.owner == owner && t.pointName == name && t.authorityType == authorityType && t.location == location
    && t.jurisdiction == jurisdiction && t.totalRecordsSubmitted == 0 && t.totalAmountProcessed == 0
    && t.totalRewardsEarned == 0 && t.lastDataSubmission == 0 && t.isActive
    && t.verificationScore == INITIAL_SCORE && t.bump == bump
  }

  method OpenTaxPoint(t: TaxCollectionPoint, owner: Pubkey, name: Bytes, authorityType: Bytes, location: Bytes,
                      jurisdiction: Bytes, bump: U8)
    modifies t
    ensures IsNewTaxPoint(t, owner, name, authorityType, location, jurisdiction, bump)
  {
    t.owner, t.pointName, t.authorityType, t.location, t.jurisdiction := owner, name, authorityType, location, jurisdiction;
    t.totalRecordsSubmitted, t.totalAmountProcessed, t.totalRewardsEarned := 0, 0, 0;
    t.lastDataSubmission, t.isActive, t.verificationScore, t.bump := 0, true, INITIAL_SCORE, bump;
  }

  /**
   * `register_tax_point`: validates the four strings, writes the collection point with
   * verification score 100, counts it and initialises or touches the owner's profile.
   */
  method RegisterTaxPoint(point: TaxCollectionPoint, net: NetworkState, profile: UserProfile, owner: Pubkey,
                          name: Bytes, authorityType: Bytes, location: Bytes, jurisdiction: Bytes,
                          pointBump: U8, profileBump: U8, now: I64)
    returns (r: Outcome)
    modifies point, net`taxPointsCount, profile
    ensures TaxPointArgsCheck(name, authorityType, location, jurisdiction) != Pass ==>
      r == TaxPointArgsCheck(name, authorityType, location, jurisdiction)
    ensures TaxPointArgsCheck(name, authorityType, location, jurisdiction) == Pass ==>
      (r == Pass <==> old(net.taxPointsCount) < U32_MAX) && (r != Pass ==> r == Fail(Overflow))
    ensures r == Pass ==>
      && IsNewTaxPoint(point, owner, name, authorityType, location, jurisdiction, pointBump)
      && net.taxPointsCount == old(net.taxPointsCount) + 1
      && Profile.Recorded(profile, owner, None, profileBump, now)
    ensures r != Pass ==> unchanged(point, profile) && net.taxPointsCount == old(net.taxPointsCount)
  {
    r := TaxPointArgsCheck(name, authorityType, location, jurisdiction);
    if r != Pass {
      return;
    }
    if net.taxPointsCount == U32_MAX {
      return Fail(Overflow);
    }
    OpenTaxPoint(point, owner, name, authorityType, location, jurisdiction, pointBump);
    net.taxPointsCount := net.taxPointsCount + 1;
    Profile.Record(profile, owner, None, profileBump, now);
  }


  predicate HealthcareSubmissionFits(h: HealthcareProvider, p: UserProfile, net: NetworkState, records: U32, quality: U8)
    reads h, p, net
  {
    var reward := ScaledReward(records, net.healthcareRewardRate, quality);
    && reward.Some?
    && h.totalDataSubmissions + 1 <= U32_MAX
    && h.totalRecordsCollected + records <= U32_MAX
    && h.totalRewardsEarned + reward.value <= U64_MAX
    && p.totalEarned + reward.value <= U64_MAX
  }

  method RecordHealthcareSubmission(h: HealthcareProvider, records: U32, reward: U64, quality: U8, now: I64)
    requires h.totalDataSubmissions + 1 <= U32_MAX && h.totalRecordsCollected + records <= U32_MAX
    requires h.totalRewardsEarned + reward <= U64_MAX
    modifies h`totalDataSubmissions, h`totalRecordsCollected, h`totalRewardsEarned, h`lastDataSubmission
    modifies h`complianceScore
    ensures h.totalDataSubmissions == old(h.totalDataSubmissions) + 1
    ensures h.totalRecordsCollected == old(h.totalRecordsCollected) + records
    ensures h.totalRewardsEarned == old(h.totalRewardsEarned) + reward
    ensures h.lastDataSubmission == now
    ensures h.complianceScore == ScoreAfter(old(h.complianceScore), quality, 95, 80)
  {
    h.totalDataSubmissions := h.totalDataSubmissions + 1;
    h.totalRecordsCollected := h.totalRecordsCollected + records;
    h.totalRewardsEarned := h.totalRewardsEarned + reward;
    h.lastDataSubmission := now;
    h.complianceScore := ScoreAfter(h.complianceScore, quality, 95, 80);
  }

  /**
   * `submit_healthcare_data`: after the gate (ownership, quality at most 100, at least one
   * record, one hour since the last submission) the reward
   * `records * healthcare_rate * quality / 100` is added to the provider and to the owner's
   * profile and the compliance score moves by one (corrected update, see `ScoreAfter`).
   */
  method SubmitHealthcareData(provider: HealthcareProvider, profile: UserProfile, net: NetworkState, signer: Pubkey,
                              records: U32, quality: U8, now: I64) returns (r: Outcome)
    modifies provider`totalDataSubmissions, provider`totalRecordsCollected, provider`totalRewardsEarned
    modifies provider`lastDataSubmission, provider`complianceScore, profile`totalEarned, profile`lastActivity
    ensures var gate := old(SubmissionGate(provider.owner == signer && profile.owner == signer, quality, InvalidScore,
                                           records, NoDataTransferred, provider.lastDataSubmission, now));
      && (gate != Pass ==> r == gate)
      && (gate == Pass ==> (r == Pass <==> old(HealthcareSubmissionFits(provider, profile, net, records, quality))))
      && (gate == Pass && r != Pass ==> r == Fail(Overflow))
    ensures r == Pass ==>
      var reward := ScaledReward(records, net.healthcareRewardRate, quality).value;
      && provider.totalDataSubmissions == old(provider.totalDataSubmissions) + 1
      && provider.totalRecordsCollected == old(provider.totalRecordsCollected) + records
      && provider.totalRewardsEarned == old(provider.totalRewardsEarned) + reward
      && profile.totalEarned == old(profile.totalEarned) + reward
      && provider.lastDataSubmission == now && profile.lastActivity == now
      && provider.complianceScore == ScoreAfter(old(provider.complianceScore), quality, 95, 80)
    ensures old(provider.complianceScore) <= 100 ==> provider.complianceScore <= 100
    ensures r != Pass ==> unchanged(provider, profile)
  {
    r := SubmissionGate(provider.owner == signer && profile.owner == signer, quality, InvalidScore,
                        records, NoDataTransferred, provider.lastDataSubmission, now);
    if r != Pass {
      return;
    }
    if !HealthcareSubmissionFits(provider, profile, net, records, quality) {
      return Fail(Overflow);
    }
    var reward := ScaledReward(records, net.healthcareRewardRate, quality).value;
    RecordHealthcareSubmission(provider, records, reward, quality, now);
    Profile.Credit(profile, reward, now);
  }

  predicate TaxationSubmissionFits(t: TaxCollectionPoint, p: UserProfile, net: NetworkState, records: U32,
                                   amount: U64, verification: U8)
    reads t, p, net
  {
    var reward := ScaledReward(records, net.taxationRewardRate, verification);
    && reward.Some?
    && t.totalRecordsSubmitted + records <= U32_MAX
    && t.totalAmountProcessed + amount <= U64_MAX
    && t.totalRewardsEarned + reward.value <= U64_MAX
    && p.totalEarned + reward.value <= U64_MAX
  }

  method RecordTaxationSubmission(t: TaxCollectionPoint, records: U32, amount: U64, reward: U64, verification: U8, now: I64)
    requires t.totalRecordsSubmitted + records <= U32_MAX && t.totalAmountProcessed + amount <= U64_MAX
    requires t.totalRewardsEarned + reward <= U64_MAX
    modifies t`totalRecordsSubmitted, t`totalAmountProcessed, t`totalRewardsEarned, t`lastDataSubmission
    modifies t`verificationScore
    ensures t.totalRecordsSubmitted == old(t.totalRecordsSubmitted) + records
    ensures t.totalAmountProcessed == old(t.totalAmountProcessed) + amount
    ensures t.totalRewardsEarned == old(t.totalRewardsEarned) + reward
    ensures t.lastDataSubmission == now
    ensures t.verificationScore == ScoreAfter(old(t.verificationScore), verification, 95, 80)
  {
    t.totalRecordsSubmitted := t.totalRecordsSubmitted + records;
    t.totalAmountProcessed := t.totalAmountProcessed + amount;
    t.totalRewardsEarned := t.totalRewardsEarned + reward;
    t.lastDataSubmission := now;
    t.verificationScore := ScoreAfter(t.verificationScore, verification, 95, 80);
  }

  /**
   * `submit_taxation_data`: after the gate (ownership, verification score at most 100, at
   * least one record, one hour since the last submission) the reward
   * `records * taxation_rate * verification / 100` is added to the collection point and to the
   * owner's profile, the processed amount accumulates and the verification score moves by one
   * (corrected update, see `ScoreAfter`).
   */
  method SubmitTaxationData(point: TaxCollectionPoint, profile: UserProfile, net: NetworkState, signer: Pubkey,
                            records: U32, amount: U64, verification: U8, now: I64) returns (r: Outcome)
    modifies point`totalRecordsSubmitted, point`totalAmountProcessed, point`totalRewardsEarned
    modifies point`lastDataSubmission, point`verificationScore, profile`totalEarned, profile`lastActivity
    ensures var gate := old(SubmissionGate(point.owner == signer && profile.owner == signer, verification, InvalidScore,
                                           records, NoDataTransferred, point.lastDataSubmission, now));
      && (gate != Pass ==> r == gate)
      && (gate == Pass ==> (r == Pass <==> old(TaxationSubmissionFits(point, profile, net, records, amount, verification))))
      && (gate == Pass && r != Pass ==> r == Fail(Overflow))
    ensures r == Pass ==>
      var reward := ScaledReward(records, net.taxationRewardRate, verification).value;
      && point.totalRecordsSubmitted == old(point.totalRecordsSubmitted) + records
      && point.totalAmountProcessed == old(point.totalAmountProcessed) + amount
      && point.totalRewardsEarned == old(point.totalRewardsEarned) + reward
      && profile.totalEarned == old(profile.totalEarned) + reward
      && point.lastDataSubmission == now && profile.lastActivity == now
      && point.verificationScore == ScoreAfter(old(point.verificationScore), verification, 95, 80)
    ensures old(point.verificationScore) <= 100 ==> point.verificationScore <= 100
    ensures r != Pass ==> unchanged(point, profile)
  {
    r := SubmissionGate(point.owner == signer && profile.owner == signer, verification, InvalidScore,
                        records, NoDataTransferred, point.lastDataSubmission, now);
    if r != Pass {
      return;
    }
    if !TaxationSubmissionFits(point, profile, net, records, amount, verification) {
      return Fail(Overflow);
    }
    var reward := ScaledReward(records, net.taxationRewardRate, verification).value;
    RecordTaxationSubmission(point, records, amount, reward, verification, now);
    Profile.Credit(profile, reward, now);
  }
}
