/** Machine integers, keys, errors and outcomes shared by every instruction of the on-chain program. */
module Types {

  const U8_MAX: int := 0xFF
  const U16_MAX: int := 0xFFFF
  const U32_MAX: int := 0xFFFF_FFFF
  const U64_MAX: int := 0xFFFF_FFFF_FFFF_FFFF
  const I16_MIN: int := -0x8000
  const I16_MAX: int := 0x7FFF
  const I64_MIN: int := -0x8000_0000_0000_0000
  const I64_MAX: int := 0x7FFF_FFFF_FFFF_FFFF

  type U8 = x: int | 0 <= x <= U8_MAX
  type U16 = x: int | 0 <= x <= U16_MAX
  type U32 = x: int | 0 <= x <= U32_MAX
  type U64 = x: int | 0 <= x <= U64_MAX
  type I16 = x: int | I16_MIN <= x <= I16_MAX
  type I64 = x: int | I64_MIN <= x <= I64_MAX

  /** A UTF-8 string as the program sees it: `len()` counts bytes. */
  type Bytes = seq<U8>

  /** A 32-byte public key, read as a little-endian number. */
  const KEY_SPACE: int := 0x1_0000_0000_0000_0000_0000_0000_0000_0000_0000_0000_0000_0000_0000_0000_0000_0000
  type Pubkey = x: int | 0 <= x < KEY_SPACE

  /** `Pubkey::default()`, the all-zero key that a zero-filled account holds before it is written. */
  const DEFAULT_KEY: Pubkey := 0

  /** One unit of the reward token has 9 decimals. */
  const TOKEN_SCALE: int := 1_000_000_000

  /**
   * The program's error codes, plus the three ways the runtime aborts an instruction
   * that the handlers do not name: a checked-arithmetic panic, a failed token transfer,
   * and an account too small for the record serialized into it.
   */
  datatype Error =
    | LocationTooLong | InvalidCoverageRadius | InvalidBandwidth | NameTooLong
    | TooManyServiceAreas | ServiceAreaTooLong | InvalidVehicleCount | InvalidFarmSize
    | TooManyCropTypes | CropNameTooLong | InvalidUptime | NoDataTransferred
    | SubmissionTooFrequent | InvalidScore | NoDeliveries | InvalidMoisture
    | InvalidHumidity | InvalidPH | InvalidTemperature | InvalidStakeAmount
    | PoolInactive | BelowMinimumStake | PoolCapacityExceeded | InsufficientStake
    | StakeLocked | NoStakeFound | NoRewardsToClaim | TitleTooLong
    | DescriptionTooLong | InsufficientTokensForProposal | VotingPeriodEnded
    | ProposalAlreadyExecuted | AlreadyVoted | NoVotingPower | VotingStillActive
    | NoVotesCast | DistributionTooFrequent | InvalidRewardRate | Unauthorized
    | ConstraintRaw | ConstraintHasOne
    | Overflow
    | InsufficientFunds
    | AccountDidNotSerialize

  /** The result of an instruction: it commits (`Pass`) or the whole transaction is reverted. */
  datatype Outcome = Pass | Fail(error: Error)

  datatype Option<+T> = None | Some(value: T)

  function Min(a: int, b: int): int { if a <= b then a else b }

  function Max(a: int, b: int): int { if a >= b then a else b }

  /** `x as u64` on a signed 64-bit value: two's-complement reinterpretation. */
  function I64AsU64(x: I64): (r: U64)
    ensures x >= 0 ==> r == x
    ensures x < 0 ==> r == x + U64_MAX + 1
  {
    if x >= 0 then x else x + U64_MAX + 1
  }

  /**
   * The guard `now - last >= interval` on two `i64` timestamps: `None` when the checked
   * subtraction overflows (a panic), otherwise whether at least `interval` seconds passed.
   */
  function IntervalElapsed(last: I64, now: I64, interval: nat): (r: Option<bool>)
    ensures r.None? <==> !(I64_MIN <= now - last <= I64_MAX)
    ensures r.Some? ==> (r.value <==> now >= last + interval)
  {
    var d := now - last;
    if d < I64_MIN || d > I64_MAX then None else Some(d >= interval)
  }

  /** Two non-negative timestamps never overflow the subtraction. */
  lemma NonNegativeTimesNeverOverflow(last: I64, now: I64, interval: nat)
    requires 0 <= last && 0 <= now
    ensures IntervalElapsed(last, now, interval) == Some(now - last >= interval)
  {
  }
}
