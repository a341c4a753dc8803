/**
 * The `init_if_needed` user profile the five registration instructions share. A profile whose
 * owner is still the default key is a freshly zero-filled account and is initialised;
 * otherwise the registration bumps the matching infrastructure counter, if the kind has one,
 * and records the activity time.
 */
module Profile {
  import opened Types
  import opened State

  /** Infrastructure kinds that have a counter in the profile. Healthcare and taxation have none. */
  datatype Infra = WiFiInfra | LogisticsInfra | FarmInfra

  const INITIAL_REPUTATION: int := 100

  function InfraCount(p: UserProfile, k: Infra): U8
    reads p
  {
    match k
    case WiFiInfra => p.wifiHotspots
    case LogisticsInfra => p.logisticsPartners
    case FarmInfra => p.farms
  }

  /** The registration can update the profile without its `u8` counter overflowing. */
  predicate CanRecord(p: UserProfile, kind: Option<Infra>)
    reads p
  {
    p.owner == DEFAULT_KEY || kind.None? || InfraCount(p, kind.value) < U8_MAX
  }

  /** A profile just initialised for `owner` by the registration of a `kind`. */
  predicate IsNewProfile(p: UserProfile, owner: Pubkey, kind: Option<Infra>, bump: U8, now: I64)
    reads p
  {
    && p.owner == owner && p.totalEarned == 0 && p.totalStaked == 0
    && p.reputationScore == INITIAL_REPUTATION && p.lastActivity == now
    && (forall k :: InfraCount(p, k) == if kind == Some(k) then 1 else 0)
    && p.governanceVotes == 0 && p.bump == bump
  }

  /** The profile after a registration, relative to the profile before it. */
  twostate predicate Recorded(p: UserProfile, owner: Pubkey, kind: Option<Infra>, bump: U8, now: I64)
    reads p
  {
    if old(p.owner) == DEFAULT_KEY then IsNewProfile(p, owner, kind, bump, now)
    else
      && p.owner == old(p.owner) && p.totalEarned == old(p.totalEarned) && p.totalStaked == old(p.totalStaked)
      && p.reputationScore == old(p.reputationScore) && p.lastActivity == now
      && (forall k :: InfraCount(p, k) == old(InfraCount(p, k)) + if kind == Some(k) then 1 else 0)
      && p.governanceVotes == old(p.governanceVotes) && p.bump == old(p.bump)
  }

  /** The profile branch of a registration. */
  method Record(p: UserProfile, owner: Pubkey, kind: Option<Infra>, bump: U8, now: I64)
    requires CanRecord(p, kind)
    modifies p
    ensures Recorded(p, owner, kind, bump, now)
  {
    if p.owner == DEFAULT_KEY {
      p.owner, p.totalEarned, p.totalStaked, p.reputationScore := owner, 0, 0, INITIAL_REPUTATION;
      p.lastActivity, p.governanceVotes, p.bump := now, 0, bump;
      p.wifiHotspots := if kind == Some(WiFiInfra) then 1 else 0;
      p.logisticsPartners := if kind == Some(LogisticsInfra) then 1 else 0;
      p.farms := if kind == Some(FarmInfra) then 1 else 0;
    } else {
      match kind {
        case None =>
        case Some(WiFiInfra) => p.wifiHotspots := p.wifiHotspots + 1;
        case Some(LogisticsInfra) => p.logisticsPartners := p.logisticsPartners + 1;
        case Some(FarmInfra) => p.farms := p.farms + 1;
      }
      p.lastActivity := now;
    }
  }

  /** A submission's reward credited to the owner's profile, with the activity time. */
  method Credit(p: UserProfile, reward: U64, now: I64)
    requires p.totalEarned + reward <= U64_MAX
    modifies p`totalEarned, p`lastActivity
    ensures p.totalEarned == old(p.totalEarned) + reward && p.lastActivity == now
  {
    p.totalEarned, p.lastActivity := p.totalEarned + reward, now;
  }
}
