/**
 * Registration of WiFi hotspots, logistics partners and farms, and the data submissions that
 * earn their owners rewards. A failed instruction reverts the whole transaction, so every
 * method runs all of its guards before it writes anything; an arithmetic overflow is a panic
 * and reverts like any other error. Rewards are only recorded, never minted.
 */
module Infrastructure {
  import opened Types
  import opened State
  import opened Submission
  import Utils
  import Profile

  /** The score a newly registered hotspot or logistics partner starts with. */
  const INITIAL_SCORE: int := 100

  /* ---------------------------------------------------------------- helpers */

  /** Every item of `items` is at most `maxLen` bytes long. */
  predicate ItemsWithin(items: seq<Bytes>, maxLen: nat)
  {
    forall i :: 0 <= i < |items| ==> |items[i]| <= maxLen
  }

  /** The per-item length check the registrations run over a list of strings, stopping at the first long one. */
  method AllWithin(items: seq<Bytes>, maxLen: nat) returns (ok: bool)
    ensures ok <==> ItemsWithin(items, maxLen)
  {
    var i := 0;
    while i < |items|
      invariant 0 <= i <= |items|
      invariant ItemsWithin(items[..i], maxLen)
    {
      if |items[i]| > maxLen {
        return false;
      }
      assert items[..i + 1] == items[..i] + [items[i]];
      i := i + 1;
    }
    assert items[..i] == items;
    ok := true;
  }


  /* ---------------------------------------------------------------- WiFi hotspots */

  /** The argument checks of `register_wifi_hotspot`, in the order it runs them. */
  function HotspotArgsCheck(location: Bytes, radius: U32, bandwidth: U32): (r: Outcome)
    ensures r == Pass <==> |location| <= WIFI_MAX_LOCATION_LEN && 0 < radius <= 5000 && 10 <= bandwidth <= 1000
    ensures |location| > WIFI_MAX_LOCATION_LEN ==> r == Fail(LocationTooLong)
    ensures |location| <= WIFI_MAX_LOCATION_LEN && !(0 < radius <= 5000) ==> r == Fail(InvalidCoverageRadius)
    ensures |location| <= WIFI_MAX_LOCATION_LEN && 0 < radius <= 5000 && !(10 <= bandwidth <= 1000) ==>
              r == Fail(InvalidBandwidth)
  {
    if |location| > WIFI_MAX_LOCATION_LEN then Fail(LocationTooLong)
    else if radius == 0 || radius > 5000 then Fail(InvalidCoverageRadius)
    else if bandwidth < 10 || bandwidth > 1000 then Fail(InvalidBandwidth)
    else Pass
  }

  predicate IsNewHotspot(h: WiFiHotspot, owner: Pubkey, location: Bytes, radius: U32, bandwidth: U32, bump: U8)
    reads h
  {
    && h.owner == owner && h.location == location && h.coverageRadius == radius && h.bandwidthMbps == bandwidth
    && h.totalUsersServed == 0 && h.totalDataTransferred == 0 && h.totalRewardsEarned == 0
    && h.lastDataSubmission == 0 && h.isActive && h.reputationScore == INITIAL_SCORE && h.bump == bump
  }

  method OpenHotspot(h: WiFiHotspot, owner: Pubkey, location: Bytes, radius: U32, bandwidth: U32, bump: U8)
    modifies h
    ensures IsNewHotspot(h, owner, location, radius, bandwidth, bump)
  {
    h.owner, h.location, h.coverageRadius, h.bandwidthMbps := owner, location, radius, bandwidth;
    h.totalUsersServed, h.totalDataTransferred, h.totalRewardsEarned := 0, 0, 0;
    h.lastDataSubmission, h.isActive, h.reputationScore, h.bump := 0, true, INITIAL_SCORE, bump;
  }

  /**
   * `register_wifi_hotspot`: validates the arguments, writes the new hotspot with reputation
   * 100, counts it in the network state and records it in the owner's profile.
   */
  method RegisterWiFiHotspot(hotspot: WiFiHotspot, net: NetworkState, profile: UserProfile, owner: Pubkey,
                             location: Bytes, radius: U32, bandwidth: U32, hotspotBump: U8, profileBump: U8, now: I64)
    returns (r: Outcome)
    modifies hotspot, net`wifiHotspotsCount, profile
    ensures HotspotArgsCheck(location, radius, bandwidth) != Pass ==> r == HotspotArgsCheck(location, radius, bandwidth)
    ensures HotspotArgsCheck(location, radius, bandwidth) == Pass ==>
      (r == Pass <==> old(net.wifiHotspotsCount) < U32_MAX && old(Profile.CanRecord(profile, Some(Profile.WiFiInfra))))
      && (r != Pass ==> r == Fail(Overflow))
    ensures r == Pass ==>
      && IsNewHotspot(hotspot, owner, location, radius, bandwidth, hotspotBump)
      && net.wifiHotspotsCount == old(net.wifiHotspotsCount) + 1
      && Profile.Recorded(profile, owner, Some(Profile.WiFiInfra), profileBump, now)
    ensures r != Pass ==> unchanged(hotspot, profile) && net.wifiHotspotsCount == old(net.wifiHotspotsCount)
  {
    r := HotspotArgsCheck(location, radius, bandwidth);
    if r != Pass {
      return;
    }
    if net.wifiHotspotsCount == U32_MAX || !Profile.CanRecord(profile, Some(Profile.WiFiInfra)) {
      return Fail(Overflow);
    }
    OpenHotspot(hotspot, owner, location, radius, bandwidth, hotspotBump);
    net.wifiHotspotsCount := net.wifiHotspotsCount + 1;
    Profile.Record(profile, owner, Some(Profile.WiFiInfra), profileBump, now);
  }

  /** The reward a WiFi submission earns, and whether every counter it touches stays in range. */
  predicate WiFiSubmissionFits(h: WiFiHotspot, p: UserProfile, net: NetworkState, users: U32, dataGb: U64, uptime: U8)
    reads h, p, net
  {
    var reward := ScaledReward(dataGb, net.wifiRewardRate, uptime);
    && reward.Some?
    && h.totalUsersServed + users <= U32_MAX
    && h.totalDataTransferred + dataGb <= U64_MAX
    && h.totalRewardsEarned + reward.value <= U64_MAX
    && p.totalEarned + reward.value <= U64_MAX
  }

  method RecordWiFiSubmission(h: WiFiHotspot, users: U32, dataGb: U64, reward: U64, uptime: U8, now: I64)
    requires h.totalUsersServed + users <= U32_MAX && h.totalDataTransferred + dataGb <= U64_MAX
    requires h.totalRewardsEarned + reward <= U64_MAX
    modifies h`totalUsersServed, h`totalDataTransferred, h`totalRewardsEarned, h`lastDataSubmission, h`reputationScore
    ensures h.totalUsersServed == old(h.totalUsersServed) + users
    ensures h.totalDataTransferred == old(h.totalDataTransferred) + dataGb
    ensures h.totalRewardsEarned == old(h.totalRewardsEarned) + reward
    ensures h.lastDataSubmission == now
    ensures h.reputationScore == ScoreAfter(old(h.reputationScore), uptime, 95, 80)
  {
    h.totalUsersServed := h.totalUsersServed + users;
    h.totalDataTransferred := h.totalDataTransferred + dataGb;
    h.totalRewardsEarned := h.totalRewardsEarned + reward;
    h.lastDataSubmission := now;
    h.reputationScore := ScoreAfter(h.reputationScore, uptime, 95, 80);
  }

  /**
   * `submit_wifi_data`: after the gate (ownership, uptime at most 100, some data, one hour
   * since the last submission) the reward `data * wifi_rate * uptime / 100` is added to the
   * hotspot and to the owner's profile, the usage counters grow and the reputation moves by
   * one. The reputation update is the corrected one (see `ScoreAfter`).
   */
  method SubmitWiFiData(hotspot: WiFiHotspot, profile: UserProfile, net: NetworkState, signer: Pubkey,
                        users: U32, dataGb: U64, uptime: U8, now: I64) returns (r: Outcome)
    modifies hotspot`totalUsersServed, hotspot`totalDataTransferred, hotspot`totalRewardsEarned
    modifies hotspot`lastDataSubmission, hotspot`reputationScore, profile`totalEarned, profile`lastActivity
    ensures var gate := old(SubmissionGate(hotspot.owner == signer && profile.owner == signer, uptime, InvalidUptime,
                                           dataGb, NoDataTransferred, hotspot.lastDataSubmission, now));
      && (gate != Pass ==> r == gate)
      && (gate == Pass ==> (r == Pass <==> old(WiFiSubmissionFits(hotspot, profile, net, users, dataGb, uptime))))
      && (gate == Pass && r != Pass ==> r == Fail(Overflow))
    ensures r == Pass ==>
      var reward := ScaledReward(dataGb, net.wifiRewardRate, uptime).value;
      && hotspot.totalUsersServed == old(hotspot.totalUsersServed) + users
      && hotspot.totalDataTransferred == old(hotspot.totalDataTransferred) + dataGb
      && hotspot.totalRewardsEarned == old(hotspot.totalRewardsEarned) + reward
      && profile.totalEarned == old(profile.totalEarned) + reward
      && hotspot.lastDataSubmission == now && profile.lastActivity == now
      && hotspot.reputationScore == ScoreAfter(old(hotspot.reputationScore), uptime, 95, 80)
    ensures old(hotspot.reputationScore) <= 100 ==> hotspot.reputationScore <= 100
    ensures r != Pass ==> unchanged(hotspot, profile)
  {
    r := SubmissionGate(hotspot.owner == signer && profile.owner == signer, uptime, InvalidUptime,
                        dataGb, NoDataTransferred, hotspot.lastDataSubmission, now);
    if r != Pass {
      return;
    }
    if !WiFiSubmissionFits(hotspot, profile, net, users, dataGb, uptime) {
      return Fail(Overflow);
    }
    var reward := ScaledReward(dataGb, net.wifiRewardRate, uptime).value;
    RecordWiFiSubmission(hotspot, users, dataGb, reward, uptime, now);
    Profile.Credit(profile, reward, now);
  }

  /* ---------------------------------------------------------------- logistics partners */

  /** The argument checks of `register_logistics_partner`, in the order it runs them. */
  function LogisticsArgsCheck(name: Bytes, areas: seq<Bytes>, vehicles: U32): (r: Outcome)
    ensures r == Pass <==>
      |name| <= LOGISTICS_MAX_NAME_LEN && |areas| <= LOGISTICS_MAX_SERVICE_AREAS && 0 < vehicles <= 1000
      && ItemsWithin(areas, LOGISTICS_MAX_AREA_LEN)
    ensures |name| > LOGISTICS_MAX_NAME_LEN ==> r == Fail(NameTooLong)
    ensures |name| <= LOGISTICS_MAX_NAME_LEN && |areas| > LOGISTICS_MAX_SERVICE_AREAS ==> r == Fail(TooManyServiceAreas)
    ensures |name| <= LOGISTICS_MAX_NAME_LEN && |areas| <= LOGISTICS_MAX_SERVICE_AREAS && !(0 < vehicles <= 1000) ==>
              r == Fail(InvalidVehicleCount)
    ensures (|name| <= LOGISTICS_MAX_NAME_LEN && |areas| <= LOGISTICS_MAX_SERVICE_AREAS && 0 < vehicles <= 1000
             && !ItemsWithin(areas, LOGISTICS_MAX_AREA_LEN)) ==> r == Fail(ServiceAreaTooLong)
  {
    if |name| > LOGISTICS_MAX_NAME_LEN then Fail(NameTooLong)
    else if |areas| > LOGISTICS_MAX_SERVICE_AREAS then Fail(TooManyServiceAreas)
    else if vehicles == 0 || vehicles > 1000 then Fail(InvalidVehicleCount)
    else if !ItemsWithin(areas, LOGISTICS_MAX_AREA_LEN) then Fail(ServiceAreaTooLong)
    else Pass
  }

  predicate IsNewLogisticsPartner(l: LogisticsPartner, owner: Pubkey, name: Bytes, areas: seq<Bytes>, vehicles: U32, bump: U8)
    reads l
  {
    && l.owner == owner && l.partnerName == name && l.serviceAreas == areas && l.vehicleCount == vehicles
    && l.totalDeliveries == 0 && l.totalDistanceKm == 0 && l.totalRewardsEarned == 0
    && l.lastDataSubmission == 0 && l.isActive && l.efficiencyScore == INITIAL_SCORE && l.bump == bump
  }

  method OpenLogisticsPartner(l: LogisticsPartner, owner: Pubkey, name: Bytes, areas: seq<Bytes>, vehicles: U32, bump: U8)
    modifies l
    ensures IsNewLogisticsPartner(l, owner, name, areas, vehicles, bump)
  {
    l.owner, l.partnerName, l.serviceAreas, l.vehicleCount := owner, name, areas, vehicles;
    l.totalDeliveries, l.totalDistanceKm, l.totalRewardsEarned := 0, 0, 0;
    l.lastDataSubmission, l.isActive, l.efficiencyScore, l.bump := 0, true, INITIAL_SCORE, bump;
  }

  /**
   * `register_logistics_partner`: validates the name, the number of service areas, the
   * vehicle count and then each area in turn, writes the partner with efficiency 100, counts
   * it and records it in the owner's profile.
   */
  method RegisterLogisticsPartner(partner: LogisticsPartner, net: NetworkState, profile: UserProfile, owner: Pubkey,
                                  name: Bytes, areas: seq<Bytes>, vehicles: U32, partnerBump: U8, profileBump: U8, now: I64)
    returns (r: Outcome)
    modifies partner, net`logisticsPartnersCount, profile
    ensures LogisticsArgsCheck(name, areas, vehicles) != Pass ==> r == LogisticsArgsCheck(name, areas, vehicles)
    ensures LogisticsArgsCheck(name, areas, vehicles) == Pass ==>
      (r == Pass <==> old(net.logisticsPartnersCount) < U32_MAX && old(Profile.CanRecord(profile, Some(Profile.LogisticsInfra))))
      && (r != Pass ==> r == Fail(Overflow))
    ensures r == Pass ==>
      && IsNewLogisticsPartner(partner, owner, name, areas, vehicles, partnerBump)
      && net.logisticsPartnersCount == old(net.logisticsPartnersCount) + 1
      && Profile.Recorded(profile, owner, Some(Profile.LogisticsInfra), profileBump, now)
    ensures r != Pass ==> unchanged(partner, profile) && net.logisticsPartnersCount == old(net.logisticsPartnersCount)
  {
    if |name| > LOGISTICS_MAX_NAME_LEN {
      return Fail(NameTooLong);
    }
    if |areas| > LOGISTICS_MAX_SERVICE_AREAS {
      return Fail(TooManyServiceAreas);
    }
    if vehicles == 0 || vehicles > 1000 {
      return Fail(InvalidVehicleCount);
    }
    var areasOk := AllWithin(areas, LOGISTICS_MAX_AREA_LEN);
    if !areasOk {
      return Fail(ServiceAreaTooLong);
    }
    if net.logisticsPartnersCount == U32_MAX || !Profile.CanRecord(profile, Some(Profile.LogisticsInfra)) {
      return Fail(Overflow);
    }
    OpenLogisticsPartner(partner, owner, name, areas, vehicles, partnerBump);
    net.logisticsPartnersCount := net.logisticsPartnersCount + 1;
    Profile.Record(profile, owner, Some(Profile.LogisticsInfra), profileBump, now);
    r := Pass;
  }

  predicate LogisticsSubmissionFits(l: LogisticsPartner, p: UserProfile, net: NetworkState,
                                    deliveries: U32, distance: U32, routeScore: U8)
    reads l, p, net
  {
    var reward := ScaledReward(deliveries, net.logisticsRewardRate, routeScore);
    && reward.Some?
    && l.totalDeliveries + deliveries <= U32_MAX
    && l.totalDistanceKm + distance <= U32_MAX
    && l.totalRewardsEarned + reward.value <= U64_MAX
    && p.totalEarned + reward.value <= U64_MAX
  }

  method RecordLogisticsSubmission(l: LogisticsPartner, deliveries: U32, distance: U32, reward: U64, routeScore: U8, now: I64)
    requires l.totalDeliveries + deliveries <= U32_MAX && l.totalDistanceKm + distance <= U32_MAX
    requires l.totalRewardsEarned + reward <= U64_MAX
    modifies l`totalDeliveries, l`totalDistanceKm, l`totalRewardsEarned, l`lastDataSubmission, l`efficiencyScore
    ensures l.totalDeliveries == old(l.totalDeliveries) + deliveries
    ensures l.totalDistanceKm == old(l.totalDistanceKm) + distance
    ensures l.totalRewardsEarned == old(l.totalRewardsEarned) + reward
    ensures l.lastDataSubmission == now
    ensures l.efficiencyScore == ScoreAfter(old(l.efficiencyScore), routeScore, 90, 70)
  {
    l.totalDeliveries := l.totalDeliveries + deliveries;
    l.totalDistanceKm := l.totalDistanceKm + distance;
    l.totalRewardsEarned := l.totalRewardsEarned + reward;
    l.lastDataSubmission := now;
    l.efficiencyScore := ScoreAfter(l.efficiencyScore, routeScore, 90, 70);
  }

  /**
   * `submit_logistics_data`: after the gate (ownership, route score at most 100, at least one
   * delivery, one hour since the last submission) the reward
   * `deliveries * logistics_rate * route_score / 100` is added to the partner and to the
   * owner's profile, and the efficiency score moves by one (at or above 90 up, below 70 down).
   * The fuel-efficiency argument is accepted and unused.
   */
  method SubmitLogisticsData(partner: LogisticsPartner, profile: UserProfile, net: NetworkState, signer: Pubkey,
                             deliveries: U32, distance: U32, fuelEfficiency: U32, routeScore: U8, now: I64)
    returns (r: Outcome)
    modifies partner`totalDeliveries, partner`totalDistanceKm, partner`totalRewardsEarned
    modifies partner`lastDataSubmission, partner`efficiencyScore, profile`totalEarned, profile`lastActivity
    ensures var gate := old(SubmissionGate(partner.owner == signer && profile.owner == signer, routeScore, InvalidScore,
                                           deliveries, NoDeliveries, partner.lastDataSubmission, now));
      && (gate != Pass ==> r == gate)
      && (gate == Pass ==> (r == Pass <==> old(LogisticsSubmissionFits(partner, profile, net, deliveries, distance, routeScore))))
      && (gate == Pass && r != Pass ==> r == Fail(Overflow))
    ensures r == Pass ==>
      var reward := ScaledReward(deliveries, net.logisticsRewardRate, routeScore).value;
      && partner.totalDeliveries == old(partner.totalDeliveries) + deliveries
      && partner.totalDistanceKm == old(partner.totalDistanceKm) + distance
      && partner.totalRewardsEarned == old(partner.totalRewardsEarned) + reward
      && profile.totalEarned == old(profile.totalEarned) + reward
      && partner.lastDataSubmission == now && profile.lastActivity == now
      && partner.efficiencyScore == ScoreAfter(old(partner.efficiencyScore), routeScore, 90, 70)
    ensures old(partner.efficiencyScore) <= 100 ==> partner.efficiencyScore <= 100
    ensures r != Pass ==> unchanged(partner, profile)
  {
    r := SubmissionGate(partner.owner == signer && profile.owner == signer, routeScore, InvalidScore,
                        deliveries, NoDeliveries, partner.lastDataSubmission, now);
    if r != Pass {
      return;
    }
    if !LogisticsSubmissionFits(partner, profile, net, deliveries, distance, routeScore) {
      return Fail(Overflow);
    }
    var reward := ScaledReward(deliveries, net.logisticsRewardRate, routeScore).value;
    RecordLogisticsSubmission(partner, deliveries, distance, reward, routeScore, now);
    Profile.Credit(profile, reward, now);
  }

  /* ---------------------------------------------------------------- farms */

  /** The argument checks of `register_farm`, in the order it runs them. */
  function FarmArgsCheck(name: Bytes, location: Bytes, acres: U32, crops: seq<Bytes>): (r: Outcome)
    ensures r == Pass <==>
      |name| <= FARM_MAX_NAME_LEN && |location| <= FARM_MAX_LOCATION_LEN && 0 < acres <= 10000
      && |crops| <= FARM_MAX_CROP_TYPES && ItemsWithin(crops, FARM_MAX_CROP_LEN)
    ensures |name| > FARM_MAX_NAME_LEN ==> r == Fail(NameTooLong)
    ensures |name| <= FARM_MAX_NAME_LEN && |location| > FARM_MAX_LOCATION_LEN ==> r == Fail(LocationTooLong)
    ensures |name| <= FARM_MAX_NAME_LEN && |location| <= FARM_MAX_LOCATION_LEN && !(0 < acres <= 10000) ==>
              r == Fail(InvalidFarmSize)
    ensures (|name| <= FARM_MAX_NAME_LEN && |location| <= FARM_MAX_LOCATION_LEN && 0 < acres <= 10000
             && |crops| > FARM_MAX_CROP_TYPES) ==> r == Fail(TooManyCropTypes)
    ensures (|name| <= FARM_MAX_NAME_LEN && |location| <= FARM_MAX_LOCATION_LEN && 0 < acres <= 10000
             && |crops| <= FARM_MAX_CROP_TYPES && !ItemsWithin(crops, FARM_MAX_CROP_LEN)) ==> r == Fail(CropNameTooLong)
  {
    if |name| > FARM_MAX_NAME_LEN then Fail(NameTooLong)
    else if |location| > FARM_MAX_LOCATION_LEN then Fail(LocationTooLong)
    else if acres == 0 || acres > 10000 then Fail(InvalidFarmSize)
    else if |crops| > FARM_MAX_CROP_TYPES then Fail(TooManyCropTypes)
    else if !ItemsWithin(crops, FARM_MAX_CROP_LEN) then Fail(CropNameTooLong)
    else Pass
  }

  predicate IsNewFarm(f: Farm, owner: Pubkey, name: Bytes, location: Bytes, acres: U32, crops: seq<Bytes>, bump: U8)
    reads f
  {
    && f.owner == owner && f.farmName == name && f.location == location && f.farmSizeAcres == acres
    && f.cropTypes == crops && f.totalDataSubmissions == 0 && f.totalRewardsEarned == 0
    && f.lastDataSubmission == 0 && f.isActive && f.yieldImprovement == 0 && f.bump == bump
  }

  method OpenFarm(f: Farm, owner: Pubkey, name: Bytes, location: Bytes, acres: U32, crops: seq<Bytes>, bump: U8)
    modifies f
    ensures IsNewFarm(f, owner, name, location, acres, crops, bump)
  {
    f.owner, f.farmName, f.location, f.farmSizeAcres, f.cropTypes := owner, name, location, acres, crops;
    f.totalDataSubmissions, f.totalRewardsEarned := 0, 0;
    f.lastDataSubmission, f.isActive, f.yieldImprovement, f.bump := 0, true, 0, bump;
  }

  /**
   * `register_farm`: validates the name, location, size, number of crops and then each crop
   * in turn, writes the farm, counts it and records it in the owner's profile.
   */
  method RegisterFarm(farm: Farm, net: NetworkState, profile: UserProfile, owner: Pubkey, name: Bytes, location: Bytes,
                      acres: U32, crops: seq<Bytes>, farmBump: U8, profileBump: U8, now: I64)
    returns (r: Outcome)
    modifies farm, net`farmsCount, profile
    ensures FarmArgsCheck(name, location, acres, crops) != Pass ==> r == FarmArgsCheck(name, location, acres, crops)
    ensures FarmArgsCheck(name, location, acres, crops) == Pass ==>
      (r == Pass <==> old(net.farmsCount) < U32_MAX && old(Profile.CanRecord(profile, Some(Profile.FarmInfra))))
      && (r != Pass ==> r == Fail(Overflow))
    ensures r == Pass ==>
      && IsNewFarm(farm, owner, name, location, acres, crops, farmBump)
      && net.farmsCount == old(net.farmsCount) + 1
      && Profile.Recorded(profile, owner, Some(Profile.FarmInfra), profileBump, now)
    ensures r != Pass ==> unchanged(farm, profile) && net.farmsCount == old(net.farmsCount)
  {
    if |name| > FARM_MAX_NAME_LEN {
      return Fail(NameTooLong);
    }
    if |location| > FARM_MAX_LOCATION_LEN {
      return Fail(LocationTooLong);
    }
    if acres == 0 || acres > 10000 {
      return Fail(InvalidFarmSize);
    }
    if |crops| > FARM_MAX_CROP_TYPES {
      return Fail(TooManyCropTypes);
    }
    var cropsOk := AllWithin(crops, FARM_MAX_CROP_LEN);
    if !cropsOk {
      return Fail(CropNameTooLong);
    }
    if net.farmsCount == U32_MAX || !Profile.CanRecord(profile, Some(Profile.FarmInfra)) {
      return Fail(Overflow);
    }
    OpenFarm(farm, owner, name, location, acres, crops, farmBump);
    net.farmsCount := net.farmsCount + 1;
    Profile.Record(profile, owner, Some(Profile.FarmInfra), profileBump, now);
    r := Pass;
  }

  /**
   * The guards of `submit_agriculture_data` before its counters: ownership, then moisture,
   * humidity, pH and temperature in that order, then the one-hour rate limit.
   */
  function AgricultureGate(ownerOk: bool, moisture: U8, temperature: I16, humidity: U8, ph: U8,
                           last: I64, now: I64): (r: Outcome)
    ensures r == Pass <==>
      ownerOk && Utils.ValidateSensorData(moisture, temperature, humidity, ph)
      && IntervalElapsed(last, now, MIN_SUBMISSION_INTERVAL) == Some(true)
    ensures !ownerOk ==> r == Fail(ConstraintHasOne)
    ensures ownerOk && moisture > 100 ==> r == Fail(InvalidMoisture)
    ensures ownerOk && moisture <= 100 && humidity > 100 ==> r == Fail(InvalidHumidity)
    ensures ownerOk && moisture <= 100 && humidity <= 100 && ph > 14 ==> r == Fail(InvalidPH)
    ensures ownerOk && moisture <= 100 && humidity <= 100 && ph <= 14 && !(-50 <= temperature <= 70) ==>
              r == Fail(InvalidTemperature)
    ensures ownerOk && Utils.ValidateSensorData(moisture, temperature, humidity, ph) ==>
              match IntervalElapsed(last, now, MIN_SUBMISSION_INTERVAL)
              case None => r == Fail(Overflow)
              case Some(due) => due || r == Fail(SubmissionTooFrequent)
  {
    if !ownerOk then Fail(ConstraintHasOne)
    else if moisture > 100 then Fail(InvalidMoisture)
    else if humidity > 100 then Fail(InvalidHumidity)
    else if ph > 14 then Fail(InvalidPH)
    else if temperature < -50 || temperature > 70 then Fail(InvalidTemperature)
    else match IntervalElapsed(last, now, MIN_SUBMISSION_INTERVAL)
      case None => Fail(Overflow)
      case Some(due) => if due then Pass else Fail(SubmissionTooFrequent)
  }

  /**
   * `validate_sensor_data` and the inline checks of `submit_agriculture_data` accept the same
   * readings: the helper refuses exactly the readings the handler refuses with a sensor error.
   */
  lemma SensorHelperAgreesWithHandler(moisture: U8, temperature: I16, humidity: U8, ph: U8,
                                      last: I64, now: I64)
    ensures Utils.ValidateSensorData(moisture, temperature, humidity, ph) <==>
      AgricultureGate(true, moisture, temperature, humidity, ph, last, now)
        !in {Fail(InvalidMoisture), Fail(InvalidHumidity), Fail(InvalidPH), Fail(InvalidTemperature)}
  {
  }

  predicate AgricultureSubmissionFits(f: Farm, p: UserProfile, net: NetworkState)
    reads f, p, net
  {
    && f.totalDataSubmissions + 1 <= U32_MAX
    && f.totalRewardsEarned + net.agricultureRewardRate <= U64_MAX
    && p.totalEarned + net.agricultureRewardRate <= U64_MAX
  }

  method RecordAgricultureSubmission(f: Farm, reward: U64, now: I64)
    requires f.totalDataSubmissions + 1 <= U32_MAX && f.totalRewardsEarned + reward <= U64_MAX
    modifies f`totalDataSubmissions, f`totalRewardsEarned, f`lastDataSubmission
    ensures f.totalDataSubmissions == old(f.totalDataSubmissions) + 1
    ensures f.totalRewardsEarned == old(f.totalRewardsEarned) + reward
    ensures f.lastDataSubmission == now
  {
    f.totalDataSubmissions := f.totalDataSubmissions + 1;
    f.totalRewardsEarned := f.totalRewardsEarned + reward;
    f.lastDataSubmission := now;
  }

  /**
   * `submit_agriculture_data`: after the sensor-range checks and the rate limit, a flat
   * reward of `agriculture_reward_rate` is added to the farm and to the owner's profile and
   * the farm's submission count grows by one. The sensor readings themselves are not stored.
   */
  method SubmitAgricultureData(farm: Farm, profile: UserProfile, net: NetworkState, signer: Pubkey,
                               moisture: U8, temperature: I16, humidity: U8, ph: U8, now: I64)
    returns (r: Outcome)
    modifies farm`totalDataSubmissions, farm`totalRewardsEarned, farm`lastDataSubmission
    modifies profile`totalEarned, profile`lastActivity
    ensures var gate := old(AgricultureGate(farm.owner == signer && profile.owner == signer, moisture, temperature,
                                            humidity, ph, farm.lastDataSubmission, now));
      && (gate != Pass ==> r == gate)
      && (gate == Pass ==> (r == Pass <==> old(AgricultureSubmissionFits(farm, profile, net))))
      && (gate == Pass && r != Pass ==> r == Fail(Overflow))
    ensures r == Pass ==>
      && farm.totalDataSubmissions == old(farm.totalDataSubmissions) + 1
      && farm.totalRewardsEarned == old(farm.totalRewardsEarned) + net.agricultureRewardRate
      && profile.totalEarned == old(profile.totalEarned) + net.agricultureRewardRate
      && farm.lastDataSubmission == now && profile.lastActivity == now
    ensures r != Pass ==> unchanged(farm, profile)
  {
    r := AgricultureGate(farm.owner == signer && profile.owner == signer, moisture, temperature,
                         humidity, ph, farm.lastDataSubmission, now);
    if r != Pass {
      return;
    }
    if !AgricultureSubmissionFits(farm, profile, net) {
      return Fail(Overflow);
    }
    RecordAgricultureSubmission(farm, net.agricultureRewardRate, now);
    Profile.Credit(profile, net.agricultureRewardRate, now);
  }
}
