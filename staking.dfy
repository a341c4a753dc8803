/**
 * Staking: depositing tokens into a per-type pool, withdrawing them after the pool's lock
 * period, and claiming accrued rewards. A position and a pool are updated together with the
 * network-wide and per-user totals, which all move by the same amount. Any failed check, any
 * failed transfer and any checked-arithmetic panic reverts the whole transaction, so a
 * failing instruction leaves every account as it was.
 */
module Staking {
  import opened Types
  import opened State
  import opened Utils
  import opened Token

  const SECONDS_PER_DAY: int := 86400
  const MIN_STAKE_AMOUNT: U64 := 100 * TOKEN_SCALE
  const POOL_MAX_CAPACITY: U64 := 1_000_000 * TOKEN_SCALE

  /** The APY, in basis points, a pool of each type is opened with. */
  function PresetRewardRate(t: PoolType): (r: U64)
    ensures 800 <= r <= 2500
  {
    match t
    case WiFiInfrastructure => 1200
    case LogisticsOptimization => 1500
    case AgricultureData => 1800
    case Governance => 800
    case LiquidityMining => 2500
  }

  /** The lock period, in seconds, a pool of each type is opened with; only governance stakes are never locked. */
  function PresetLockPeriod(t: PoolType): (r: I64)
    ensures 0 <= r <= 180 * SECONDS_PER_DAY
    ensures r == 0 <==> t == Governance
  {
    match t
    case WiFiInfrastructure => 30 * SECONDS_PER_DAY
    case LogisticsOptimization => 90 * SECONDS_PER_DAY
    case AgricultureData => 180 * SECONDS_PER_DAY
    case Governance => 0
    case LiquidityMining => 14 * SECONDS_PER_DAY
  }

  /**
   * The rewards accrued since the last claim: an i64 difference of timestamps, the truncated
   * per-second rate, two checked u64 products and a division by 10^9. `None` is a panic.
   */
  function Accrual(amount: U64, rewardRate: U64, lastClaim: I64, now: I64): (r: Option<U64>)
    ensures ApyToPerSecondRate(rewardRate) == 0 && I64_MIN <= now - lastClaim <= I64_MAX ==> r == Some(0)
    ensures r.None? ==> !(I64_MIN <= now - lastClaim <= I64_MAX) || ApyToPerSecondRate(rewardRate) > 0
    ensures r.Some? && amount == 0 ==> r.value == 0
  {
    var elapsed := now - lastClaim;
    if elapsed < I64_MIN || elapsed > I64_MAX then None
    else
      var perSecond := ApyToPerSecondRate(rewardRate);
      var scaled := amount * perSecond;
      if scaled > U64_MAX then None
      else
        var product := scaled * I64AsU64(elapsed);
        if product > U64_MAX then None
        else Some(product / TOKEN_SCALE)
  }

  /** Every preset rate is below one year of seconds times 100, so staking in any preset pool accrues nothing. */
  lemma PresetPoolsAccrueNothing(t: PoolType, amount: U64, lastClaim: I64, now: I64)
    requires I64_MIN <= now - lastClaim <= I64_MAX
    ensures Accrual(amount, PresetRewardRate(t), lastClaim, now) == Some(0)
  {
    PerSecondRateZeroBelowYear(PresetRewardRate(t));
  }

  /** 500 tokens staked at the WiFi preset of 1200 basis points for 30 days earn nothing. */
  lemma WiFiThirtyDaysEarnsNothing()
    ensures Accrual(500 * TOKEN_SCALE, 1200, 0, 30 * SECONDS_PER_DAY) == Some(0)
  {
    PerSecondRateZeroBelowYear(1200);
  }

  /** The formula itself is live: a rate of one unit per second pays 1000 tokens on 1000 tokens for one second. */
  lemma AccrualAtUnitRate()
    ensures Accrual(1000 * TOKEN_SCALE, SECONDS_PER_YEAR_TIMES_100, 0, 1) == Some(1000)
  {
  }

  // ---------------------------------------------------------------- pool lazy initialisation

  /**
   * The stake instruction (re)initialises a pool whose type reads as WiFi and whose total
   * is zero: a freshly allocated, zero-filled pool, but also a drained WiFi pool.
   */
  predicate PoolResets(pool: StakingPool)
    reads pool
  {
    pool.poolType == WiFiInfrastructure && pool.totalStaked == 0
  }

  predicate EffectiveActive(pool: StakingPool)
    reads pool
  {
    PoolResets(pool) || pool.isActive
  }

  function EffectiveMinStake(pool: StakingPool): U64
    reads pool
  {
    if PoolResets(pool) then MIN_STAKE_AMOUNT else pool.minStakeAmount
  }

  function EffectiveCapacity(pool: StakingPool): U64
    reads pool
  {
    if PoolResets(pool) then POOL_MAX_CAPACITY else pool.maxCapacity
  }

  /** A position whose `user` is still the default key has never been opened. */
  predicate IsNewPosition(stake: UserStake)
    reads stake
  {
    stake.user == DEFAULT_KEY
  }

  function PositionAmount(stake: UserStake): U64
    reads stake
  {
    if IsNewPosition(stake) then 0 else stake.amount
  }

  /** The fields of a pool other than its total. */
  function PoolSettings(pool: StakingPool): (PoolType, U64, U64, U64, I64, U64, bool, U8)
    reads pool
  {
    (pool.poolType, pool.rewardRate, pool.minStakeAmount, pool.maxCapacity, pool.lockPeriod,
     pool.totalRewardsPaid, pool.isActive, pool.bump)
  }

  /** The fields of a position other than its amount. */
  function PositionMeta(stake: UserStake): (Pubkey, Pubkey, I64, I64, U64, U8)
    reads stake
  {
    (stake.user, stake.pool, stake.startTime, stake.lastRewardClaim, stake.pendingRewards, stake.bump)
  }

  /** The pool's preset parameters, written when it is (re)initialised; its total is left alone. */
  method OpenPool(pool: StakingPool, poolType: PoolType, poolBump: U8)
    modifies pool
    ensures PoolSettings(pool) == (poolType, PresetRewardRate(poolType), MIN_STAKE_AMOUNT, POOL_MAX_CAPACITY,
                                   PresetLockPeriod(poolType), 0, true, poolBump)
    ensures pool.totalStaked == old(pool.totalStaked)
  {
    pool.poolType := poolType;
    pool.rewardRate := PresetRewardRate(poolType);
    pool.minStakeAmount := MIN_STAKE_AMOUNT;
    pool.maxCapacity := POOL_MAX_CAPACITY;
    pool.lockPeriod := PresetLockPeriod(poolType);
    pool.totalRewardsPaid := 0;
    pool.isActive := true;
    pool.bump := poolBump;
  }

  /** A new position's owner, pool, clocks and bump; its amount is left alone. */
  method OpenPosition(stake: UserStake, user: Pubkey, poolKey: Pubkey, stakeBump: U8, now: I64)
    modifies stake
    ensures PositionMeta(stake) == (user, poolKey, now, now, 0, stakeBump)
    ensures stake.amount == old(stake.amount)
  {
    stake.user := user;
    stake.pool := poolKey;
    stake.startTime := now;
    stake.lastRewardClaim := now;
    stake.pendingRewards := 0;
    stake.bump := stakeBump;
  }

  /** All the checks of `stake_tokens` pass, the transfer goes through and no total overflows. */
  predicate StakeAdmissible(
    pool: StakingPool, stake: UserStake, net: NetworkState, profile: UserProfile,
    userToken: TokenAccount, poolToken: TokenAccount, amount: U64)
    reads pool, stake, net, profile, userToken, poolToken
  {
    && amount > 0
    && EffectiveActive(pool)
    && amount >= EffectiveMinStake(pool)
    && pool.totalStaked + amount <= EffectiveCapacity(pool)
    && CanTransfer(userToken, poolToken, amount)
    && PositionAmount(stake) + amount <= U64_MAX
    && net.totalStaked + amount <= U64_MAX
    && profile.totalStaked + amount <= U64_MAX
  }

  /**
   * `stake_tokens`: lazily opens the pool and the position, moves `amount` from the user's
   * token account to the pool's, and adds `amount` to the position, the pool, the network
   * total and the user's profile.
   */
  method StakeTokens(
    pool: StakingPool, stake: UserStake, net: NetworkState, profile: UserProfile,
    userToken: TokenAccount, poolToken: TokenAccount,
    amount: U64, poolType: PoolType, user: Pubkey, poolKey: Pubkey, poolBump: U8, stakeBump: U8, now: I64)
    returns (r: Outcome)
    modifies pool, stake, net`totalStaked, profile`totalStaked, userToken`amount, poolToken`amount
    ensures r == Pass <==> old(StakeAdmissible(pool, stake, net, profile, userToken, poolToken, amount))
    ensures amount == 0 ==> r == Fail(InvalidStakeAmount)
    ensures amount > 0 && !old(EffectiveActive(pool)) ==> r == Fail(PoolInactive)
    ensures amount > 0 && old(EffectiveActive(pool)) && amount < old(EffectiveMinStake(pool)) ==> r == Fail(BelowMinimumStake)
    ensures amount > 0 && old(EffectiveActive(pool)) && amount >= old(EffectiveMinStake(pool))
            && old(pool.totalStaked) + amount <= U64_MAX && old(pool.totalStaked) + amount > old(EffectiveCapacity(pool))
            ==> r == Fail(PoolCapacityExceeded)
    ensures r != Pass ==>
              && unchanged(pool, stake)
              && net.totalStaked == old(net.totalStaked) && profile.totalStaked == old(profile.totalStaked)
              && userToken.amount == old(userToken.amount) && poolToken.amount == old(poolToken.amount)
    // the lazy initialisation of the pool
    ensures r == Pass && old(PoolResets(pool)) ==>
              PoolSettings(pool) == (poolType, PresetRewardRate(poolType), MIN_STAKE_AMOUNT, POOL_MAX_CAPACITY,
                                     PresetLockPeriod(poolType), 0, true, poolBump)
    ensures r == Pass && !old(PoolResets(pool)) ==> PoolSettings(pool) == old(PoolSettings(pool))
    // the lazy initialisation of the position
    ensures r == Pass && old(IsNewPosition(stake)) ==> PositionMeta(stake) == (user, poolKey, now, now, 0, stakeBump)
    ensures r == Pass && !old(IsNewPosition(stake)) ==> PositionMeta(stake) == old(PositionMeta(stake))
    // the four mirrored totals
    ensures r == Pass ==>
              && stake.amount == old(PositionAmount(stake)) + amount
              && pool.totalStaked == old(pool.totalStaked) + amount
              && net.totalStaked == old(net.totalStaked) + amount
              && profile.totalStaked == old(profile.totalStaked) + amount
    // the tokens move from the user to the pool
    ensures r == Pass && userToken != poolToken ==>
              userToken.amount == old(userToken.amount) - amount && poolToken.amount == old(poolToken.amount) + amount
  {
    if amount == 0 {
      return Fail(InvalidStakeAmount);
    }
    var resets := PoolResets(pool);
    var isActive := if resets then true else pool.isActive;
    var minStake := if resets then MIN_STAKE_AMOUNT else pool.minStakeAmount;
    var capacity := if resets then POOL_MAX_CAPACITY else pool.maxCapacity;
    if !isActive {
      return Fail(PoolInactive);
    }
    if amount < minStake {
      return Fail(BelowMinimumStake);
    }
    if pool.totalStaked + amount > U64_MAX {
      return Fail(Overflow);
    }
    if pool.totalStaked + amount > capacity {
      return Fail(PoolCapacityExceeded);
    }
    var newPosition := IsNewPosition(stake);
    var base := if newPosition then 0 else stake.amount;
    var overflows := base + amount > U64_MAX || net.totalStaked + amount > U64_MAX || profile.totalStaked + amount > U64_MAX;
    if overflows && CanTransfer(userToken, poolToken, amount) {
      // the transfer would go through, then one of the additions panics and everything reverts
      return Fail(Overflow);
    }
    r := Transfer(userToken, poolToken, amount);
    if r != Pass {
      return;
    }
    if resets {
      OpenPool(pool, poolType, poolBump);
    }
    if newPosition {
      OpenPosition(stake, user, poolKey, stakeBump, now);
    }
    stake.amount := base + amount;
    pool.totalStaked := pool.totalStaked + amount;
    net.totalStaked := net.totalStaked + amount;
    profile.totalStaked := profile.totalStaked + amount;
  }

  // ---------------------------------------------------------------- unstake

  /** The lock has expired, or the pool has none. `None` when `start_time + lock_period` overflows i64. */
  function LockExpired(startTime: I64, lockPeriod: I64, now: I64): (r: Option<bool>)
    ensures lockPeriod <= 0 ==> r == Some(true)
    ensures r == Some(true) ==> lockPeriod <= 0 || now >= startTime + lockPeriod
    ensures lockPeriod > 0 && startTime + lockPeriod <= I64_MAX ==> r == Some(now >= startTime + lockPeriod)
  {
    if lockPeriod <= 0 then Some(true)
    else if startTime + lockPeriod > I64_MAX then None
    else Some(now >= startTime + lockPeriod)
  }

  /** All the checks of `unstake_tokens` pass, accrual does not panic, the transfer goes through and no total underflows. */
  predicate UnstakeAdmissible(
    pool: StakingPool, stake: UserStake, net: NetworkState, profile: UserProfile,
    userToken: TokenAccount, poolToken: TokenAccount, amount: U64, now: I64)
    reads pool, stake, net, profile, userToken, poolToken
  {
    && amount > 0
    && stake.amount >= amount
    && LockExpired(stake.startTime, pool.lockPeriod, now) == Some(true)
    && var accrued := Accrual(stake.amount, pool.rewardRate, stake.lastRewardClaim, now);
    && accrued.Some?
    && stake.pendingRewards + accrued.value <= U64_MAX
    && CanTransfer(poolToken, userToken, amount)
    && pool.totalStaked >= amount && net.totalStaked >= amount && profile.totalStaked >= amount
  }

  /**
   * `unstake_tokens`: after the lock period, books the rewards accrued so far into
   * `pending_rewards`, moves `amount` back from the pool's token account, and subtracts it
   * from the position, the pool, the network total and the user's profile.
   */
  method UnstakeTokens(
    pool: StakingPool, stake: UserStake, net: NetworkState, profile: UserProfile,
    userToken: TokenAccount, poolToken: TokenAccount, amount: U64, now: I64)
    returns (r: Outcome)
    modifies stake`amount, stake`pendingRewards, stake`lastRewardClaim, pool`totalStaked,
             net`totalStaked, profile`totalStaked, userToken`amount, poolToken`amount
    ensures r == Pass <==> old(UnstakeAdmissible(pool, stake, net, profile, userToken, poolToken, amount, now))
    ensures amount == 0 ==> r == Fail(InvalidStakeAmount)
    ensures amount > 0 && old(stake.amount) < amount ==> r == Fail(InsufficientStake)
    ensures amount > 0 && old(stake.amount) >= amount && old(LockExpired(stake.startTime, pool.lockPeriod, now)) == Some(false)
            ==> r == Fail(StakeLocked)
    ensures r != Pass ==>
              && stake.amount == old(stake.amount) && stake.pendingRewards == old(stake.pendingRewards)
              && stake.lastRewardClaim == old(stake.lastRewardClaim)
              && pool.totalStaked == old(pool.totalStaked) && net.totalStaked == old(net.totalStaked)
              && profile.totalStaked == old(profile.totalStaked)
              && userToken.amount == old(userToken.amount) && poolToken.amount == old(poolToken.amount)
    ensures r == Pass ==>
              && stake.pendingRewards == old(stake.pendingRewards) + old(Accrual(stake.amount, pool.rewardRate, stake.lastRewardClaim, now)).value
              && stake.lastRewardClaim == now
              && stake.amount == old(stake.amount) - amount
              && pool.totalStaked == old(pool.totalStaked) - amount
              && net.totalStaked == old(net.totalStaked) - amount
              && profile.totalStaked == old(profile.totalStaked) - amount
    ensures r == Pass && userToken != poolToken ==>
              userToken.amount == old(userToken.amount) + amount && poolToken.amount == old(poolToken.amount) - amount
  {
    if amount == 0 {
      return Fail(InvalidStakeAmount);
    }
    if stake.amount < amount {
      return Fail(InsufficientStake);
    }
    var unlocked := LockExpired(stake.startTime, pool.lockPeriod, now);
    if unlocked.None? {
      return Fail(Overflow);
    }
    if !unlocked.value {
      return Fail(StakeLocked);
    }
    var accrued := Accrual(stake.amount, pool.rewardRate, stake.lastRewardClaim, now);
    if accrued.None? || stake.pendingRewards + accrued.value > U64_MAX {
      return Fail(Overflow);
    }
    var underflows := pool.totalStaked < amount || net.totalStaked < amount || profile.totalStaked < amount;
    if underflows && CanTransfer(poolToken, userToken, amount) {
      // the transfer would go through, then one of the subtractions panics and everything reverts
      return Fail(Overflow);
    }
    r := Transfer(poolToken, userToken, amount);
    if r != Pass {
      return;
    }
    stake.pendingRewards := stake.pendingRewards + accrued.value;
    stake.lastRewardClaim := now;
    stake.amount := stake.amount - amount;
    pool.totalStaked := pool.totalStaked - amount;
    net.totalStaked := net.totalStaked - amount;
    profile.totalStaked := profile.totalStaked - amount;
  }

  // ---------------------------------------------------------------- claim

  /** The rewards a claim pays: what is pending plus what accrued since the last claim. `None` on a panic. */
  function ClaimTotal(amount: U64, pending: U64, rewardRate: U64, lastClaim: I64, now: I64): (r: Option<U64>)
    ensures r.Some? ==> r.value >= pending
    ensures ApyToPerSecondRate(rewardRate) == 0 && I64_MIN <= now - lastClaim <= I64_MAX ==> r == Some(pending)
  {
    match Accrual(amount, rewardRate, lastClaim, now)
    case None => None
    case Some(accrued) => if pending + accrued > U64_MAX then None else Some(pending + accrued)
  }

  /** Under every preset rate a claim pays exactly what is pending, so it succeeds only with pending rewards. */
  lemma PresetClaimPaysPending(t: PoolType, amount: U64, pending: U64, lastClaim: I64, now: I64)
    requires I64_MIN <= now - lastClaim <= I64_MAX
    ensures ClaimTotal(amount, pending, PresetRewardRate(t), lastClaim, now) == Some(pending)
  {
    PresetPoolsAccrueNothing(t, amount, lastClaim, now);
  }

  predicate ClaimAdmissible(pool: StakingPool, stake: UserStake, profile: UserProfile, now: I64)
    reads pool, stake, profile
  {
    && stake.amount > 0
    && var total := ClaimTotal(stake.amount, stake.pendingRewards, pool.rewardRate, stake.lastRewardClaim, now);
    && total.Some? && total.value > 0
    && pool.totalRewardsPaid + total.value <= U64_MAX
    && profile.totalEarned + total.value <= U64_MAX
  }

  /**
   * `claim_rewards`: pays out pending plus newly accrued rewards by booking them into the
   * pool's paid total and the user's earned total; no tokens move.
   */
  method ClaimRewards(pool: StakingPool, stake: UserStake, profile: UserProfile, now: I64) returns (r: Outcome)
    modifies stake`pendingRewards, stake`lastRewardClaim, pool`totalRewardsPaid, profile`totalEarned
    ensures r == Pass <==> old(ClaimAdmissible(pool, stake, profile, now))
    ensures old(stake.amount) == 0 ==> r == Fail(NoStakeFound)
    ensures old(stake.amount) > 0 && old(ClaimTotal(stake.amount, stake.pendingRewards, pool.rewardRate, stake.lastRewardClaim, now)) == Some(0)
            ==> r == Fail(NoRewardsToClaim)
    ensures r != Pass ==>
              && stake.pendingRewards == old(stake.pendingRewards) && stake.lastRewardClaim == old(stake.lastRewardClaim)
              && pool.totalRewardsPaid == old(pool.totalRewardsPaid) && profile.totalEarned == old(profile.totalEarned)
    ensures r == Pass ==>
              && var total := old(ClaimTotal(stake.amount, stake.pendingRewards, pool.rewardRate, stake.lastRewardClaim, now)).value;
              && total > 0
              && stake.pendingRewards == 0 && stake.lastRewardClaim == now
              && pool.totalRewardsPaid == old(pool.totalRewardsPaid) + total
              && profile.totalEarned == old(profile.totalEarned) + total
  {
    if stake.amount == 0 {
      return Fail(NoStakeFound);
    }
    var total := ClaimTotal(stake.amount, stake.pendingRewards, pool.rewardRate, stake.lastRewardClaim, now);
    if total.None? {
      return Fail(Overflow);
    }
    if total.value == 0 {
      return Fail(NoRewardsToClaim);
    }
    if pool.totalRewardsPaid + total.value > U64_MAX || profile.totalEarned + total.value > U64_MAX {
      return Fail(Overflow);
    }
    stake.pendingRewards := 0;
    stake.lastRewardClaim := now;
    pool.totalRewardsPaid := pool.totalRewardsPaid + total.value;
    profile.totalEarned := profile.totalEarned + total.value;
    r := Pass;
  }
}
