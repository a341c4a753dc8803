# DePIN network: a Dafny model of the staking, rewards and governance program and its local back end

The system is a decentralised physical-infrastructure network (DePIN). Its participants register infrastructure and submit usage data, and they earn the network's PKN token for it. The infrastructure kinds are WiFi hotspots, logistics fleets, farms, healthcare providers and tax-collection points. Participants can also stake PKN in typed pools and vote on proposals. The system has two halves, and this project models both.

* **The on-chain program** is a Solana program written with Anchor.
  * Every account it owns is a Dafny `class` in `State`, with the same fields at machine widths (`U8` … `U64`, `I64`, `Pubkey`).
  * Every instruction handler is a method that takes those accounts.
    * Its `modifies` clause names exactly the fields the handler writes.
    * It returns an `Outcome`: either `Pass` or `Fail(error)`, where the error is one of the program's error codes.
    * Every `require!` becomes a `Fail` branch, and every checked arithmetic overflow becomes `Fail(Overflow)`.
    * A failed instruction is reverted as a whole, so every handler promises that nothing changed when it fails.
  * The modules follow the program's files:
    * `Genesis`: initialize.rs
    * `Rewards`: rewards.rs
    * `Staking`: staking.rs
    * `Governance`: governance.rs
    * `Infrastructure`: infrastructure.rs
    * `HealthcareTaxation`: healthcare_taxation.rs
    * `Utils`: utils.rs
    * `Submission`: the reward and score arithmetic shared by all five submit handlers
    * `Profile`: the user-profile updates shared by all registrations
    * `Token`: the SPL token transfer the staking handlers call
  * `Layout` and `AccountLayout` model Borsh serialisation of the account records, which is what the `LEN` constants in state.rs size. They prove two things:
    * decoding an encoded account gives the record back;
    * every record fits in the space its `LEN` allots.
* **The local back end** is used by the web application when no chain is available.
  * `LocalStore.LocalDatabase` models the browser-storage database in utils/localDb.ts.
    * It has one `seq` field per stored table.
    * Look-ups use `find`/`findIndex` semantics, modelled by `IndexOf`: the first match wins.
    * Reading a missing token balance creates a default record: 100 tokens, 0 staked.
  * `LocalApi.LocalApiClient` models the client in utils/localApi.ts. It covers staking, plot trading, charger installation and the charging-points marketplace, on top of the database.
  * In the source, `createTransaction` credits the transaction's amount to the user's balance a second time. The model keeps this behaviour, and the contracts state its net effect:
    * staking leaves the token count unchanged;
    * unstaking credits twice the amount;
    * buying a plot or installing a charger costs twice the price.

Clock reads, generated ids and timestamps are parameters. Examples are the `now` of every handler and the `txId` of every local operation.

## Model

| member | source | states |
|---|---|---|
| State.PoolTypeTag | smart-contracts/programs/depin-network/src/state.rs:215-223 | the Borsh tag of a pool type is below the number of variants |
| State.PoolTypeOfTag | smart-contracts/programs/depin-network/src/state.rs:215-223 | every valid tag decodes to the pool type whose tag it is |
| State.ProposalTypeTag | smart-contracts/programs/depin-network/src/state.rs:224-232 | the tag of a proposal type is below the number of variants |
| State.ProposalTypeOfTag | smart-contracts/programs/depin-network/src/state.rs:224-232 | every valid tag decodes to the proposal type whose tag it is |
| State.VoteTag | smart-contracts/programs/depin-network/src/state.rs:233-237 | the tag of a vote is below 3 |
| State.VoteOfTag | smart-contracts/programs/depin-network/src/state.rs:233-237 | every valid tag decodes to the vote whose tag it is |
| State.TagsAreBijective | smart-contracts/programs/depin-network/src/state.rs:215-237 | encoding then decoding a tag gives back the enum value, for all three enums |
| State.NetworkState.constructor | smart-contracts/programs/depin-network/src/state.rs:4-27 | a fresh network-state account is all zeroes and default keys |
| State.Mint.constructor | smart-contracts/programs/depin-network/src/instructions/initialize.rs:15-25 | a fresh mint has no authority, 0 decimals and no supply |
| State.WiFiHotspot.constructor | smart-contracts/programs/depin-network/src/state.rs:30-47 | a fresh hotspot account is zeroed and inactive |
| State.LogisticsPartner.constructor | smart-contracts/programs/depin-network/src/state.rs:50-69 | a fresh logistics account is zeroed and inactive |
| State.Farm.constructor | smart-contracts/programs/depin-network/src/state.rs:72-92 | a fresh farm account is zeroed and inactive |
| State.HealthcareProvider.constructor | smart-contracts/programs/depin-network/src/state.rs:95-116 | a fresh provider account is zeroed and inactive |
| State.TaxCollectionPoint.constructor | smart-contracts/programs/depin-network/src/state.rs:119-140 | a fresh tax-point account is zeroed and inactive |
| State.StakingPool.constructor | smart-contracts/programs/depin-network/src/state.rs:143-157 | a fresh pool has tag 0 (WiFi) and total 0, which is what makes stake_tokens initialise it |
| State.UserStake.constructor | smart-contracts/programs/depin-network/src/state.rs:160-172 | a fresh position is zeroed |
| State.Proposal.constructor | smart-contracts/programs/depin-network/src/state.rs:175-195 | a fresh proposal is zeroed, not executed and not approved |
| State.UserVote.constructor | smart-contracts/programs/depin-network/src/instructions/governance.rs:113-120 | a fresh ballot has the default voter key, which is what vote_proposal tests for a first vote |
| State.UserProfile.constructor | smart-contracts/programs/depin-network/src/state.rs:198-213 | a fresh profile is zeroed |
| Token.TokenAccount.constructor | smart-contracts/programs/depin-network/src/instructions/staking.rs:128-135 | a token account holds the owner, mint and amount it is made with |
| Token.Transfer | smart-contracts/programs/depin-network/src/instructions/staking.rs:128-135 | the transfer succeeds exactly when the source holds the amount and the destination does not overflow; on success the amount moves, on failure nothing changes, and the sum of the two balances is conserved |
| Types.I64AsU64 | smart-contracts/programs/depin-network/src/instructions/staking.rs:231 | `as u64` on an i64 is the identity on non-negative values and adds 2^64 to negative ones |
| Types.IntervalElapsed | smart-contracts/programs/depin-network/src/instructions/infrastructure.rs:329-333 | undefined (overflow) exactly when `now - last` leaves the i64 range; otherwise true exactly when `now >= last + interval` |
| Types.NonNegativeTimesNeverOverflow | smart-contracts/programs/depin-network/src/instructions/infrastructure.rs:329-333 | for non-negative timestamps the interval test never overflows and is `now - last >= interval` |
| Utils.ValidateStringLength | smart-contracts/programs/depin-network/src/utils.rs:4-10 | passes exactly when the string is at most the limit, else fails with a constraint error |
| Utils.PerformanceMultiplier | smart-contracts/programs/depin-network/src/utils.rs:13-25 | 120 exactly at or above `excellent`, 100 exactly between `poor` and `excellent`, 80 exactly below both |
| Utils.ApyToPerSecondRate | smart-contracts/programs/depin-network/src/utils.rs:28-31 | the result is the floor of the basis points divided by the seconds in a year times 100 |
| Utils.PerSecondRateZeroBelowYear | smart-contracts/programs/depin-network/src/utils.rs:28-31 | every rate below 3 153 600 000 basis points becomes 0 per second |
| Utils.UpdateReputationScore | smart-contracts/programs/depin-network/src/utils.rs:57-70 | overflows only for a score of 255 with an excellent performance; otherwise it adds 1 capped at 100, subtracts 2 floored at 0, or keeps the score |
| Utils.ReputationStaysInRange | smart-contracts/programs/depin-network/src/utils.rs:57-70 | a score in 0..100 stays in 0..100 and never overflows |
| Submission.ScaledReward | smart-contracts/programs/depin-network/src/instructions/infrastructure.rs:336-338 | defined exactly when `units * rate` and `units * rate * score` fit in u64, and then equal to the floor of the product divided by 100 |
| Submission.ScaledRewardAtMostBase | smart-contracts/programs/depin-network/src/instructions/infrastructure.rs:336-338 | with a score of at most 100 the scaled reward never exceeds the base reward |
| Submission.ScaledRewardEndpoints | smart-contracts/programs/depin-network/src/instructions/healthcare_taxation.rs:230-233 | a score of 100 pays the base reward (or overflows), and a score of 0 pays nothing |
| Submission.ScoreAfterAsWritten | smart-contracts/programs/depin-network/src/instructions/infrastructure.rs:347-351 | the u8 score update as written aborts exactly on 255 with a good metric or on 0 with a poor one |
| Submission.ScoreAtZeroPanics | smart-contracts/programs/depin-network/src/instructions/infrastructure.rs:347-351 | a score of 0 with a poor metric makes the update as written abort |
| Submission.ScoreAfter | smart-contracts/programs/depin-network/src/instructions/infrastructure.rs:347-351 | the corrected update adds 1 capped at 100, subtracts 1 floored at 0, or keeps the score; it keeps scores within 0..100 |
| Submission.ScoreAfterAgrees | smart-contracts/programs/depin-network/src/instructions/infrastructure.rs:347-351 | wherever the update as written does not abort, it agrees with the corrected one |
| Submission.SubmissionGate | smart-contracts/programs/depin-network/src/instructions/infrastructure.rs:321-333 | a submission passes exactly when the signer owns both accounts, the score is at most 100, the amount is positive and an hour has passed; each failure gives the error of the first check that fails, in source order |
| Submission.SecondSubmissionWithinHourRefused | smart-contracts/programs/depin-network/src/instructions/infrastructure.rs:329-333 | a second submission less than an hour after the last one is refused as too frequent |
| Genesis.Initialize | smart-contracts/programs/depin-network/src/instructions/initialize.rs:35-68 | after initialisation the network holds the authority, mint and supply, zero counts and totals, the five genesis reward rates, the distribution time `now` and the governance threshold; the mint has 9 decimals and the network as authority |
| Genesis.ResetRegistryCounts | smart-contracts/programs/depin-network/src/instructions/initialize.rs:44-50 | all five registry counters are zero |
| Genesis.SetGenesisRates | smart-contracts/programs/depin-network/src/instructions/initialize.rs:51-55 | the five reward rates take their genesis values |
| Genesis.GenesisRatesValid | smart-contracts/programs/depin-network/src/instructions/initialize.rs:51-55 | the genesis rates pass the non-zero rule of update_network_params |
| Genesis.InitializeThenDistribute | smart-contracts/programs/depin-network/src/instructions/rewards.rs:30-33 | a distribution less than a day after initialisation is refused as too frequent |
| Rewards.DistributeRewards | smart-contracts/programs/depin-network/src/instructions/rewards.rs:25-48 | only the authority may distribute; it succeeds exactly when a day has passed, recording `now`; too early or an overflowing interval fails and leaves the time unchanged |
| Rewards.DistributionDue | smart-contracts/programs/depin-network/src/instructions/rewards.rs:30-33 | undefined exactly when `now - last` overflows an i64; otherwise due exactly when at least 86 400 seconds separate `last` and `now` |
| Rewards.DistributeTwice | smart-contracts/programs/depin-network/src/instructions/rewards.rs:25-48 | two distributions less than a day apart cannot both succeed |
| Rewards.UpdateNetworkParams | smart-contracts/programs/depin-network/src/instructions/rewards.rs:63-92 | only the authority may update; it succeeds exactly when all three rates are non-zero, and then sets exactly those rates; otherwise nothing changes |
| Profile.Record | smart-contracts/programs/depin-network/src/instructions/infrastructure.rs:70-84 | a fresh profile is initialised for its owner; the count of the registered infrastructure kind grows by one and the last activity becomes `now` |
| Profile.Credit | smart-contracts/programs/depin-network/src/instructions/infrastructure.rs:354-355 | the profile's earnings grow by the reward and the last activity becomes `now` |
| Staking.PresetRewardRate | smart-contracts/programs/depin-network/src/instructions/staking.rs:86-92 | every pool type's preset APY is between 8% and 25% |
| Staking.PresetLockPeriod | smart-contracts/programs/depin-network/src/instructions/staking.rs:95-101 | lock periods are between 0 and 180 days, and 0 exactly for the governance pool |
| Staking.Accrual | smart-contracts/programs/depin-network/src/instructions/staking.rs:229-231 | with a per-second rate of 0 accrual is 0 (undefined only on overflow), and no stake accrues nothing |
| Staking.PresetPoolsAccrueNothing | smart-contracts/programs/depin-network/src/instructions/staking.rs:229-231 | every preset APY rounds to a per-second rate of 0, so preset pools never accrue rewards |
| Staking.WiFiThirtyDaysEarnsNothing | smart-contracts/programs/depin-network/src/instructions/staking.rs:229-231 | 500 PKN in the WiFi pool for 30 days accrues 0 |
| Staking.AccrualAtUnitRate | smart-contracts/programs/depin-network/src/instructions/staking.rs:229-231 | at a per-second rate of 1, 1000 PKN for one second accrues 1000 base units |
| Staking.OpenPool | smart-contracts/programs/depin-network/src/instructions/staking.rs:83-105 | the pool takes the requested type, its preset rate and lock, the 100 PKN minimum, the 1M PKN capacity and is active, keeping its total |
| Staking.OpenPosition | smart-contracts/programs/depin-network/src/instructions/staking.rs:117-125 | a new position records user, pool, start and claim time `now` and no pending rewards |
| Staking.StakeTokens | smart-contracts/programs/depin-network/src/instructions/staking.rs:70-147 | succeeds exactly when the amount is positive, the pool is active, the amount reaches the minimum, the capacity holds and the transfer succeeds; errors in source order; the pool and position are set up lazily; the position, pool, network and profile totals all grow by the amount and the tokens move to the pool; on failure nothing changes |
| Staking.LockExpired | smart-contracts/programs/depin-network/src/instructions/staking.rs:214-226 | no lock is always expired; otherwise expired exactly when `now` reaches start plus the lock period |
| Staking.UnstakeTokens | smart-contracts/programs/depin-network/src/instructions/staking.rs:206-264 | succeeds exactly when the amount is positive, staked, unlocked and the accrual and transfer succeed; pending rewards grow by the accrual, the claim time becomes `now`, the four totals shrink by the amount and the tokens return; on failure nothing changes |
| Staking.ClaimTotal | smart-contracts/programs/depin-network/src/instructions/staking.rs:318-323 | the claimable total is at least the pending rewards, and equals them when the per-second rate is 0 |
| Staking.PresetClaimPaysPending | smart-contracts/programs/depin-network/src/instructions/staking.rs:318-323 | in preset pools a claim pays exactly the pending rewards |
| Staking.ClaimRewards | smart-contracts/programs/depin-network/src/instructions/staking.rs:309-337 | fails without a stake or with nothing to claim; on success pending rewards are zeroed, the claim time becomes `now` and the pool's paid total and the profile's earnings grow by the claimed total |
| Governance.Approved | smart-contracts/programs/depin-network/src/instructions/governance.rs:204-208 | a proposal is approved exactly when yes votes exceed no votes |
| Governance.ApprovalExamples | smart-contracts/programs/depin-network/src/instructions/governance.rs:204-208 | 70 to 30 passes, a 50-50 tie fails, 0 to 1 fails and 1 to 0 passes |
| Governance.OpenProposal | smart-contracts/programs/depin-network/src/instructions/governance.rs:58-70 | a new proposal holds its id, proposer, texts and type, no votes, a seven-day window from `now` and is neither executed nor approved |
| Governance.CreateProposal | smart-contracts/programs/depin-network/src/instructions/governance.rs:37-79 | succeeds exactly when the title and description fit, the proposer's stake reaches the threshold and nothing overflows; the proposal gets the current count as id and the count grows by one; on failure nothing changes |
| Governance.TallyDeltas | smart-contracts/programs/depin-network/src/instructions/governance.rs:157-160 | an abstention changes no tally, and any other vote adds its power to exactly one tally |
| Governance.VoteProposal | smart-contracts/programs/depin-network/src/instructions/governance.rs:122-169 | succeeds exactly inside the voting window, before execution, on a first ballot with non-zero stake; the ballot records voter, proposal, vote, power and time; the tallies, vote count and the profile's vote count grow; on failure nothing changes |
| Governance.ExecuteProposal | smart-contracts/programs/depin-network/src/instructions/governance.rs:190-244 | succeeds exactly after the window, once, with at least one vote; it marks the proposal executed and approved exactly when yes exceeds no |
| Governance.VoteTwice | smart-contracts/programs/depin-network/src/instructions/governance.rs:141 | a voter's second ballot on the same proposal is refused |
| Governance.ExecuteTwice | smart-contracts/programs/depin-network/src/instructions/governance.rs:198 | a proposal cannot be executed twice |
| Infrastructure.AllWithin | smart-contracts/programs/depin-network/src/instructions/infrastructure.rs:136-138 | the loop answers true exactly when every item is within the length limit |
| Infrastructure.HotspotArgsCheck | smart-contracts/programs/depin-network/src/instructions/infrastructure.rs:47-49 | passes exactly when the location fits, the radius is in 1..5000 m and the bandwidth in 10..1000 Mbps; otherwise the error of the first failing check |
| Infrastructure.OpenHotspot | smart-contracts/programs/depin-network/src/instructions/infrastructure.rs:55-65 | the hotspot holds its owner and arguments, zero totals, an active flag and a starting reputation of 100 |
| Infrastructure.RegisterWiFiHotspot | smart-contracts/programs/depin-network/src/instructions/infrastructure.rs:41-90 | argument errors are returned as checked; otherwise it succeeds exactly when the hotspot count and the profile's hotspot count do not overflow; on success the hotspot is opened, the count grows by one and the profile records the hotspot; on failure nothing changes |
| Infrastructure.RecordWiFiSubmission | smart-contracts/programs/depin-network/src/instructions/infrastructure.rs:341-351 | the users, data and reward totals grow by the submitted amounts, the submission time is `now` and the reputation follows the corrected score update at 95/80 |
| Infrastructure.SubmitWiFiData | smart-contracts/programs/depin-network/src/instructions/infrastructure.rs:315-365 | the submission gate's error is returned; past the gate it succeeds exactly when no total overflows; the reward is data × rate × uptime / 100 and is credited to hotspot and profile; reputation stays within 0..100; on failure nothing changes |
| Infrastructure.LogisticsArgsCheck | smart-contracts/programs/depin-network/src/instructions/infrastructure.rs:132-138 | passes exactly when the name fits, there are at most 10 service areas, the fleet has 1..1000 vehicles and every area name fits; otherwise the error of the first failing check |
| Infrastructure.OpenLogisticsPartner | smart-contracts/programs/depin-network/src/instructions/infrastructure.rs:140-155 | the partner holds its owner and arguments, zero totals, an active flag and a starting efficiency of 100 |
| Infrastructure.RegisterLogisticsPartner | smart-contracts/programs/depin-network/src/instructions/infrastructure.rs:126-179 | argument errors are returned as checked; otherwise it succeeds exactly when the counts do not overflow; on success the partner is opened, the count grows by one and the profile records it; on failure nothing changes |
| Infrastructure.RecordLogisticsSubmission | smart-contracts/programs/depin-network/src/instructions/infrastructure.rs:420-431 | the delivery, distance and reward totals grow by the submitted amounts, the submission time is `now` and the efficiency follows the corrected score update at 90/70 |
| Infrastructure.SubmitLogisticsData | smart-contracts/programs/depin-network/src/instructions/infrastructure.rs:394-443 | the gate's error is returned; past it, success exactly when no total overflows; the reward is deliveries × rate × route score / 100, credited to partner and profile; efficiency stays within 0..100; on failure nothing changes |
| Infrastructure.FarmArgsCheck | smart-contracts/programs/depin-network/src/instructions/infrastructure.rs:222-229 | passes exactly when name and location fit, the farm has 1..10000 acres, at most 5 crop types and every crop name fits; otherwise the error of the first failing check |
| Infrastructure.OpenFarm | smart-contracts/programs/depin-network/src/instructions/infrastructure.rs:231-250 | the farm holds its owner and arguments, zero totals, an active flag and no yield improvement |
| Infrastructure.RegisterFarm | smart-contracts/programs/depin-network/src/instructions/infrastructure.rs:215-270 | argument errors are returned as checked; otherwise it succeeds exactly when the counts do not overflow; on success the farm is opened, the count grows by one and the profile records it; on failure nothing changes |
| Infrastructure.AgricultureGate | smart-contracts/programs/depin-network/src/instructions/infrastructure.rs:479-493 | passes exactly when the signer owns the accounts, the sensor readings are valid and an hour has passed; the moisture, humidity, pH and temperature errors come in source order |
| Infrastructure.SensorHelperAgreesWithHandler | smart-contracts/programs/depin-network/src/utils.rs:73-83 | `validate_sensor_data` accepts a reading exactly when the agriculture handler raises none of its moisture, humidity, pH or temperature errors for it |
| Infrastructure.RecordAgricultureSubmission | smart-contracts/programs/depin-network/src/instructions/infrastructure.rs:499-501 | the submission count grows by one, the reward total by the reward, and the submission time is `now` |
| Infrastructure.SubmitAgricultureData | smart-contracts/programs/depin-network/src/instructions/infrastructure.rs:472-513 | the gate's error is returned; past it, success exactly when no total overflows; the flat agriculture rate is credited to farm and profile; on failure nothing changes |
| HealthcareTaxation.ProviderArgsCheck | smart-contracts/programs/depin-network/src/instructions/healthcare_taxation.rs:48-51 | passes exactly when all four strings fit; an over-long name, type or licence is `NameTooLong` and an over-long location `LocationTooLong`, in source order |
| HealthcareTaxation.OpenProvider | smart-contracts/programs/depin-network/src/instructions/healthcare_taxation.rs:57-68 | the provider holds its owner and strings, zero totals, an active flag and a starting compliance of 100 |
| HealthcareTaxation.RegisterHealthcareProvider | smart-contracts/programs/depin-network/src/instructions/healthcare_taxation.rs:41-92 | argument errors are returned as checked; otherwise it succeeds exactly when the counts do not overflow; on success the provider is opened, the count grows by one and the profile is recorded; on failure nothing changes |
| HealthcareTaxation.TaxPointArgsCheck | smart-contracts/programs/depin-network/src/instructions/healthcare_taxation.rs:136-139 | passes exactly when all four strings fit; an over-long name, authority type or jurisdiction is `NameTooLong` and an over-long location `LocationTooLong`, in source order |
| HealthcareTaxation.OpenTaxPoint | smart-contracts/programs/depin-network/src/instructions/healthcare_taxation.rs:145-156 | the tax point holds its owner and strings, zero totals, an active flag and a starting verification score of 100 |
| HealthcareTaxation.RegisterTaxPoint | smart-contracts/programs/depin-network/src/instructions/healthcare_taxation.rs:129-180 | argument errors are returned as checked; otherwise it succeeds exactly when the counts do not overflow; on success the point is opened, the count grows by one and the profile is recorded; on failure nothing changes |
| HealthcareTaxation.RecordHealthcareSubmission | smart-contracts/programs/depin-network/src/instructions/healthcare_taxation.rs:235-245 | submissions grow by one, records and rewards by the submitted amounts, the time is `now` and compliance follows the corrected score update at 95/80 |
| HealthcareTaxation.SubmitHealthcareData | smart-contracts/programs/depin-network/src/instructions/healthcare_taxation.rs:210-256 | the gate's error is returned; past it, success exactly when no total overflows; the reward is records × rate × quality / 100, credited to provider and profile; compliance stays within 0..100; on failure nothing changes |
| HealthcareTaxation.RecordTaxationSubmission | smart-contracts/programs/depin-network/src/instructions/healthcare_taxation.rs:312-322 | records, processed amount and rewards grow by the submitted amounts, the time is `now` and the verification score follows the corrected update at 95/80 |
| HealthcareTaxation.SubmitTaxationData | smart-contracts/programs/depin-network/src/instructions/healthcare_taxation.rs:286-334 | the gate's error is returned; past it, success exactly when no total overflows; the reward is records × rate × verification / 100, credited to point and profile; the score stays within 0..100; on failure nothing changes |
| Layout.DecodeEncodeLE | smart-contracts/programs/depin-network/src/state.rs:26 | reading back the little-endian bytes of an integer of width w gives the integer |
| Layout.ToRaw | smart-contracts/programs/depin-network/src/state.rs:26 | the two's-complement raw value of an in-range integer fits in its width, and for signed fields it lies in the low half exactly when the integer is non-negative |
| Layout.FromRawToRaw | smart-contracts/programs/depin-network/src/state.rs:26 | decoding the raw value of an in-range integer gives the integer back |
| Layout.StrRoundTrip | smart-contracts/programs/depin-network/src/state.rs:46 | a Borsh string (u32 length prefix and bytes) decodes back to the string, whatever follows it |
| Layout.StrsRoundTrip | smart-contracts/programs/depin-network/src/state.rs:68 | a Borsh vector of strings decodes back to the same strings, whatever follows it |
| Layout.FieldRoundTrip | smart-contracts/programs/depin-network/src/state.rs:26 | every field kind (integers, keys, enum tags, bools, strings, string vectors) decodes back to its value |
| Layout.FieldsRoundTrip | smart-contracts/programs/depin-network/src/state.rs:26 | a record encoded field by field in declaration order decodes back to the same record |
| Layout.AccountRoundTrip | smart-contracts/programs/depin-network/src/state.rs:26 | an account (8-byte discriminator and record) decodes back to its record, whatever padding follows |
| Layout.WrongDiscriminatorRejected | smart-contracts/programs/depin-network/src/state.rs:26 | an account read with another type's discriminator is rejected |
| Layout.StrsSize | smart-contracts/programs/depin-network/src/state.rs:68 | a vector of at most k strings of at most m bytes encodes in at most k × (4 + m) bytes |
| Layout.FieldSize | smart-contracts/programs/depin-network/src/state.rs:46 | a field within its bounds encodes in at most its maximum size, and a fixed-width field in exactly that size |
| Layout.FieldsSize | smart-contracts/programs/depin-network/src/state.rs:46 | a record within its bounds encodes in at most the schema's size, exactly that size when every field is fixed |
| Layout.AccountSize | smart-contracts/programs/depin-network/src/state.rs:46 | an account within bounds takes at most 8 plus the schema size, exactly that when every field is fixed |
| AccountLayout.NetworkStateRecord | smart-contracts/programs/depin-network/src/state.rs:4-24 | the network-state record is encodable under its schema |
| AccountLayout.NetworkStateSchemaMatchesLen | smart-contracts/programs/depin-network/src/state.rs:26 | `NetworkState::LEN` is the discriminator plus the schema's field sizes in declaration order |
| AccountLayout.NetworkStateRecordWithinBounds | smart-contracts/programs/depin-network/src/state.rs:4-24 | every network-state record is within its schema's bounds |
| AccountLayout.NetworkStateLen | smart-contracts/programs/depin-network/src/state.rs:26 | every network-state account encodes in exactly `LEN` bytes |
| AccountLayout.NetworkStateSchemaFixed | smart-contracts/programs/depin-network/src/state.rs:4-24 | every network-state field has a fixed width |
| AccountLayout.WiFiHotspotRecord | smart-contracts/programs/depin-network/src/state.rs:30-44 | a hotspot whose location fits a u32 length is encodable |
| AccountLayout.WiFiHotspotSchemaMatchesLen | smart-contracts/programs/depin-network/src/state.rs:46 | `WiFiHotspot::LEN` is the discriminator plus the schema's maximum field sizes |
| AccountLayout.WiFiHotspotRecordWithinBounds | smart-contracts/programs/depin-network/src/state.rs:30-46 | a hotspot whose location is within the limit is within bounds |
| AccountLayout.WiFiHotspotLen | smart-contracts/programs/depin-network/src/state.rs:46 | every hotspot the register handler accepts fits in `LEN` bytes and decodes back to its record |
| AccountLayout.LogisticsPartnerRecord | smart-contracts/programs/depin-network/src/state.rs:50-66 | a partner whose strings fit u32 lengths is encodable |
| AccountLayout.LogisticsPartnerSchemaMatchesLen | smart-contracts/programs/depin-network/src/state.rs:68 | `LogisticsPartner::LEN` is the discriminator plus the schema's maximum field sizes |
| AccountLayout.LogisticsPartnerRecordWithinBounds | smart-contracts/programs/depin-network/src/state.rs:50-68 | a partner whose name, areas and area count are within the limits is within bounds |
| AccountLayout.LogisticsPartnerLen | smart-contracts/programs/depin-network/src/state.rs:68 | every partner within the limits fits in `LEN` bytes |
| AccountLayout.FarmRecord | smart-contracts/programs/depin-network/src/state.rs:72-89 | a farm whose strings fit u32 lengths is encodable |
| AccountLayout.FarmSchemaMatchesLen | smart-contracts/programs/depin-network/src/state.rs:91 | `Farm::LEN` is the discriminator plus the schema's maximum field sizes |
| AccountLayout.FarmRecordWithinBounds | smart-contracts/programs/depin-network/src/state.rs:72-91 | a farm within the limits is within bounds |
| AccountLayout.FarmLen | smart-contracts/programs/depin-network/src/state.rs:91 | every farm within the limits fits in `LEN` bytes |
| AccountLayout.HealthcareProviderRecord | smart-contracts/programs/depin-network/src/state.rs:95-113 | a provider whose strings fit u32 lengths is encodable |
| AccountLayout.HealthcareProviderSchemaMatchesLen | smart-contracts/programs/depin-network/src/state.rs:115 | `HealthcareProvider::LEN` is the discriminator plus the schema's maximum field sizes |
| AccountLayout.HealthcareProviderRecordWithinBounds | smart-contracts/programs/depin-network/src/state.rs:95-115 | a provider within the limits is within bounds |
| AccountLayout.HealthcareProviderLen | smart-contracts/programs/depin-network/src/state.rs:115 | every provider within the limits fits in `LEN` bytes |
| AccountLayout.TaxPointRecord | smart-contracts/programs/depin-network/src/state.rs:119-137 | a tax point whose strings fit u32 lengths is encodable |
| AccountLayout.TaxPointSchemaMatchesLen | smart-contracts/programs/depin-network/src/state.rs:139 | `TaxCollectionPoint::LEN` is the discriminator plus the schema's maximum field sizes |
| AccountLayout.TaxPointRecordWithinBounds | smart-contracts/programs/depin-network/src/state.rs:119-139 | a tax point within the limits is within bounds |
| AccountLayout.TaxPointLen | smart-contracts/programs/depin-network/src/state.rs:139 | every tax point within the limits fits in `LEN` bytes |
| AccountLayout.StakingPoolRecord | smart-contracts/programs/depin-network/src/state.rs:143-154 | every pool record is encodable |
| AccountLayout.StakingPoolSchemaMatchesLen | smart-contracts/programs/depin-network/src/state.rs:156 | `StakingPool::LEN` is the discriminator plus the schema's field sizes |
| AccountLayout.StakingPoolRecordWithinBounds | smart-contracts/programs/depin-network/src/state.rs:143-154 | every pool record is within bounds |
| AccountLayout.StakingPoolLen | smart-contracts/programs/depin-network/src/state.rs:156 | every pool encodes in exactly `LEN` bytes |
| AccountLayout.StakingPoolSchemaFixed | smart-contracts/programs/depin-network/src/state.rs:143-154 | every pool field has a fixed width |
| AccountLayout.UserStakeRecord | smart-contracts/programs/depin-network/src/state.rs:160-169 | every position record is encodable |
| AccountLayout.UserStakeSchemaMatchesLen | smart-contracts/programs/depin-network/src/state.rs:171 | `UserStake::LEN` is the discriminator plus the schema's field sizes |
| AccountLayout.UserStakeRecordWithinBounds | smart-contracts/programs/depin-network/src/state.rs:160-169 | every position record is within bounds |
| AccountLayout.UserStakeLen | smart-contracts/programs/depin-network/src/state.rs:171 | every position encodes in exactly `LEN` bytes |
| AccountLayout.ProposalRecord | smart-contracts/programs/depin-network/src/state.rs:175-192 | a proposal whose texts fit u32 lengths is encodable |
| AccountLayout.ProposalSchemaMatchesLen | smart-contracts/programs/depin-network/src/state.rs:194 | `Proposal::LEN` is the discriminator plus the schema's maximum field sizes |
| AccountLayout.ProposalRecordWithinBounds | smart-contracts/programs/depin-network/src/state.rs:175-194 | a proposal whose title and description are within the limits is within bounds |
| AccountLayout.ProposalLen | smart-contracts/programs/depin-network/src/state.rs:194 | every proposal create_proposal accepts fits in `LEN` bytes |
| AccountLayout.UserProfileRecord | smart-contracts/programs/depin-network/src/state.rs:198-210 | every profile record is encodable |
| AccountLayout.UserProfileSchemaMatchesLen | smart-contracts/programs/depin-network/src/state.rs:212 | `UserProfile::LEN` is the discriminator plus the schema's field sizes |
| AccountLayout.UserProfileRecordWithinBounds | smart-contracts/programs/depin-network/src/state.rs:198-210 | every profile record is within bounds |
| AccountLayout.UserProfileLen | smart-contracts/programs/depin-network/src/state.rs:212 | every profile encodes in exactly `LEN` bytes |
| AccountLayout.UserProfileSchemaFixed | smart-contracts/programs/depin-network/src/state.rs:198-210 | every profile field has a fixed width |
| AccountLayout.UserVoteRecord | smart-contracts/programs/depin-network/src/instructions/governance.rs:113-120 | every ballot record is encodable |
| AccountLayout.UserVoteSchemaMatchesLen | smart-contracts/programs/depin-network/src/instructions/governance.rs:113-120 | the corrected ballot size 90 is the discriminator plus the schema's field sizes |
| AccountLayout.UserVoteRecordWithinBounds | smart-contracts/programs/depin-network/src/instructions/governance.rs:113-120 | every ballot record is within bounds |
| AccountLayout.UserVoteExceedsSpaceAsWritten | smart-contracts/programs/depin-network/src/instructions/governance.rs:101 | every ballot needs more than the 58 bytes the vote instruction allocates |
| AccountLayout.UserVoteFitsCorrectedLen | smart-contracts/programs/depin-network/src/instructions/governance.rs:113-120 | every ballot encodes in exactly the corrected 90 bytes |
| LocalStore.IndexOf | utils/localDb.ts:367 | the look-up answers the first index whose key matches, or none when no element matches |
| LocalStore.IndexOfSameKeys | utils/localDb.ts:388-391 | rewriting records without changing their keys changes no look-up |
| LocalStore.IndexOfAppend | utils/localDb.ts:380-381 | after a push, a key already present is still found where it was, and a new key is found at the end |
| LocalStore.IndexOfAfterReplace | utils/localDb.ts:390-391 | replacing a record by one with the same key changes no look-up |
| LocalStore.WithBalanceReportsSame | utils/localDb.ts:365-384 | reading a balance creates the default record when missing but changes no user's reported tokens or stake, and the user is found afterwards |
| LocalStore.UpdatedBalancesReport | utils/localDb.ts:386-407 | after an update of a present user, that user reports the updated fields, falling back to the old values for omitted ones, and every other user reports the same |
| LocalStore.GetThenUpdate | utils/localDb.ts:365-407 | the read-then-update pattern of the client leaves every user except the updated one with the same balance |
| LocalStore.WithPointsReportsSame | utils/localDb.ts:1149-1169 | reading points creates the default record when missing but changes no user's reported points or trades |
| LocalStore.UpdatedPointsReport | utils/localDb.ts:1171-1193 | after an update of a present user, that user reports the updated fields and every other user reports the same |
| LocalStore.GetThenUpdatePoints | utils/localDb.ts:1149-1193 | read-then-update of points leaves every other user's points and trades unchanged |
| LocalStore.ApplyReviewUpdate | utils/localDb.ts:712-723 | a status other than pending stamps the review time with `now`; otherwise the old review time is kept; the status is the update's or the old one |
| LocalStore.Tally | utils/localDb.ts:791-798 | a vote adds its power to exactly one of the three tallies, leaving id and status alone |
| LocalStore.WithoutId | utils/localDb.ts:1253-1261 | the filtered listings are exactly the old ones without the id, and the length is unchanged exactly when no listing had that id |
| LocalStore.LocalDatabase.constructor | utils/localDb.ts:297-311 | an empty store reads every table as empty |
| LocalStore.LocalDatabase.GetTokenBalance | utils/localDb.ts:365-384 | returns the first record of the user, creating the 100-token default when missing; the returned tokens and stake are the user's reported balance |
| LocalStore.LocalDatabase.UpdateTokenBalance | utils/localDb.ts:386-407 | the table becomes the updated table; records of other users are untouched and the table never shrinks |
| LocalStore.LocalDatabase.CreateTransaction | utils/localDb.ts:415-432 | the transaction is appended, and the user's tokens grow by its amount while every other balance and every stake is unchanged |
| LocalStore.LocalDatabase.GetChargingPoints | utils/localDb.ts:1149-1169 | returns the user's first points record, creating the zero default when missing |
| LocalStore.LocalDatabase.UpdateChargingPoints | utils/localDb.ts:1171-1193 | the points table becomes the updated table; other users' records are untouched |
| LocalStore.LocalDatabase.UpdateChargingPlot | utils/localDb.ts:1040-1049 | the first plot with the id is merged with the update and returned; without such a plot nothing changes and none is returned |
| LocalStore.LocalDatabase.CreatePlotListing | utils/localDb.ts:1055-1064 | the listing is appended and returned |
| LocalStore.LocalDatabase.UpdatePlotListingStatus | utils/localDb.ts:1066-1075 | the first listing with the id takes the new status and is returned; otherwise nothing changes |
| LocalStore.LocalDatabase.RemovePlotListing | utils/localDb.ts:1077-1086 | answers true exactly when a listing has the id, and then removes only the first such listing; otherwise nothing changes |
| LocalStore.LocalDatabase.CreateEVCharger | utils/localDb.ts:1092-1101 | the charger is appended and returned |
| LocalStore.LocalDatabase.CreatePointTransaction | utils/localDb.ts:1209-1218 | the point transaction is appended and returned |
| LocalStore.LocalDatabase.UpdateMarketplaceListing | utils/localDb.ts:1242-1251 | the first listing with the id is merged with the update and returned; otherwise nothing changes |
| LocalStore.LocalDatabase.DeleteMarketplaceListing | utils/localDb.ts:1253-1261 | answers true exactly when a listing has the id; every listing with the id is removed and all others kept |
| LocalStore.LocalDatabase.UpdateVerificationRequest | utils/localDb.ts:712-723 | the first request with the id receives the review update; otherwise nothing changes |
| LocalStore.LocalDatabase.CreateProposal | utils/localDb.ts:736-749 | the proposal is appended with its fields and all three tallies at 0 |
| LocalStore.LocalDatabase.CreateVote | utils/localDb.ts:771-801 | refused exactly when the voter already voted on the proposal, changing nothing; otherwise the vote is recorded and the first proposal with the id is tallied |
| LocalStore.VoteTwice | utils/localDb.ts:775-780 | a second vote by the same voter on the same proposal is refused |
| LocalStore.GetTokenBalanceTwice | utils/localDb.ts:365-384 | reading a balance twice gives the same record, and adds at most one record |
| LocalApi.CeilDiv | utils/localApi.ts:739 | the result is the least integer at or above the exact quotient |
| LocalApi.PointsCostWithinPrice | utils/localApi.ts:735-739 | buying at most the listed points costs between 0 and the listing's price, and buying all costs exactly the price |
| LocalApi.PartialSaleKeepsPrice | utils/localApi.ts:770-776 | the cost paid plus the re-priced remainder is never less than the original price |
| LocalApi.LocalApiClient.constructor | utils/localApi.ts:3-5 | a new client has no current user |
| LocalApi.LocalApiClient.SetCurrentUserId | utils/localApi.ts:11-13 | the current user becomes the given one |
| LocalApi.LocalApiClient.StakeTokens | utils/localApi.ts:287-312 | fails without a user, or when the tokens are short, changing no balance; on success the stake grows by the amount, the tokens are unchanged (debited, then credited back by the transaction) and one transaction is recorded; other users are untouched |
| LocalApi.LocalApiClient.UnstakeTokens | utils/localApi.ts:314-339 | fails without a user or when the stake is short; on success the stake shrinks by the amount and the tokens grow by twice the amount; other users are untouched |
| LocalApi.LocalApiClient.PurchasePlot | utils/localApi.ts:370-405 | succeeds exactly for a found, available plot the user can afford; the plot becomes the user's and occupied, the tokens fall by twice the price and one transaction is recorded; on failure plots and transactions are unchanged |
| LocalApi.LocalApiClient.SellPlot | utils/localApi.ts:407-443 | every call fails; past the guards it fails on the missing user look-up |
| LocalApi.LocalApiClient.SellPlotCorrected | utils/localApi.ts:407-443 | succeeds exactly for the owner's occupied, unlisted plot; the active listing is appended at the sale price and the plot is reserved |
| LocalApi.LocalApiClient.BuyPlotFromListing | utils/localApi.ts:450-501 | succeeds exactly for an active listing of another seller whose plot exists and which the buyer can afford; the plot and listing change hands; the buyer's tokens fall and the seller's rise by twice the price; on failure plots, listings and transactions are unchanged |
| LocalApi.LocalApiClient.CancelPlotListing | utils/localApi.ts:503-523 | succeeds exactly for the seller's active listing; the listing is cancelled and its plot is occupied again |
| LocalApi.LocalApiClient.InstallCharger | utils/localApi.ts:534-572 | succeeds exactly for the user's plot when the tokens cover the cost; the charger is appended and the tokens fall by twice the cost |
| LocalApi.LocalApiClient.BuyPoints | utils/localApi.ts:724-791 | succeeds exactly for an active listing with enough points that the buyer can afford; tokens move from buyer to seller, points move from seller to buyer, both trade counters grow, the listing is sold or shrunk and re-priced, and one point transaction is recorded |
| LocalApi.LocalApiClient.PayForPoints | utils/localApi.ts:739-791 | succeeds exactly when the buyer's tokens cover the rounded-up cost, and then settles the sale |
| LocalApi.LocalApiClient.TransferTokens | utils/localApi.ts:746-754 | the cost moves from buyer to seller, and no other balance or stake changes |
| LocalApi.LocalApiClient.SettlePlotSale | utils/localApi.ts:466-498 | the buyer's tokens fall and the seller's rise by twice the price, the plot and listing change hands, and two transactions are recorded |
| LocalApi.LocalApiClient.RecordPlotSale | utils/localApi.ts:486-498 | the two sale transactions move the price once more from buyer to seller |
| LocalApi.LocalApiClient.SettlePointsSale | utils/localApi.ts:746-788 | tokens and points change hands, the listing is sold or re-priced, and the point transaction is appended |
| LocalApi.LocalApiClient.TransferPoints | utils/localApi.ts:756-767 | the bought points move from seller to buyer and both trade counters grow by them |
| LocalApi.WithBalanceReportsSameAll | utils/localDb.ts:365-384 | reading a balance changes no user's tokens or stake |
| LocalApi.SellPlotTwiceRefused | utils/localApi.ts:407-443 | once the corrected sale lists a plot, listing it again is refused |

## Left out

- Anchor account constraints are not modelled. These are the PDA seeds and bumps, `has_one`, `init`/`init_if_needed` space allocation and rent, and signer checks. Ownership checks that the handlers depend on are passed in as a boolean or a key comparison. `Rewards.DistributeRewards` and `Rewards.UpdateNetworkParams` model `has_one = authority` as a key comparison.
- Account allocation is modelled only through the `LEN` lemmas in `AccountLayout`. The zero-initialised fresh account is the class constructor.
- The mint CPI of `initialize` and the mint account's creation are not modelled. `Genesis.Initialize` sets the `Mint` fields the constraints declare. The token program is modelled only as `Token.Transfer` on two token accounts.
- `msg!` logging, events and `window` events are left out, because they have no effect on state.
- `Clock::get()`, `new Date()` and `generateId` become parameters, because they are I/O.
- `calculate_staking_rewards`, `calculate_distance_km` and `validate_coordinates` (utils.rs:86-94, 39-49, 34-37) use floating point and are not called by the modelled handlers. `is_within_period` (utils.rs:51-55) reads the clock and is not called either.
- `Infrastructure.SubmitLogisticsData`: the `fuel_efficiency` argument is accepted and ignored, as in the source.
- `Genesis.Initialize`: the `decimals` argument is accepted and ignored, because the mint is created with 9 decimals.
- `Infrastructure.SubmitWiFiData`, `Infrastructure.SubmitLogisticsData`, `HealthcareTaxation.SubmitHealthcareData` and `HealthcareTaxation.SubmitTaxationData` use the corrected score update `Submission.ScoreAfter`, not the panicking `score - 1` (see Findings). For a score of 0 with a poor metric they therefore succeed where the program aborts.
- `LocalApi.LocalApiClient.BuyPoints` computes the cost `Math.ceil(points / listing.points * buildTokens)` and the re-price `Math.ceil(buildTokens * remaining / points)` exactly on integers, with `CeilDiv`. The source uses floating point, so rounding of non-representable quotients is not modelled.
- `LocalApi.LocalApiClient.BuyPoints`: a listing with 0 points returns `Err(ListingHasNoPoints)`. In JavaScript the division yields `NaN`, and the purchase goes ahead with a `NaN` cost.
- `LocalApi.LocalApiClient.SellPlot` models the thrown `TypeError` as `Err(GetUserIsNotAFunction)`.
- JavaScript numbers are modelled as unbounded integers. Non-integer amounts and `NaN`/`undefined` inputs are not modelled.
- `claimRewards` in utils/localApi.ts draws a random amount and is not part of this model. `endChargingSession` computes floating-point energy costs and is not part of this model either.
- The remaining localApi/localDb operations are outside this model. These are the create/record calls for hotspots, deliveries, farms, healthcare and tax data, sessions, notifications and the read-only getters. They only append a record or read one.
- Browser storage serialisation (`JSON.stringify` into `localStorage`) and the simulated network delay are left out.
- The program as written would not compile. Five `has_one` constraints name fields the `UserProfile` record (state.rs:198-209) does not have: `has_one = user` at staking.rs:60, 198 and 301, `has_one = proposer` at governance.rs:28 and `has_one = voter` at governance.rs:94. Two `has_one = pool @ staking_pool` constraints (staking.rs:163, 280) give an account name as the error. Nine `msg!(\"…\")` lines (healthcare_taxation.rs:88-89, 176-177, 251-253, 328-331) carry a backslash outside any string literal. These sit in the stake, unstake, claim, create_proposal, vote_proposal and healthcare/taxation handlers; the model covers those handlers' logic, models the evident intent of the ownership constraints as a key comparison (`ownerOk`), and leaves the logging out.
- Governance.VoteProposal: modelled with the ballot account given the 90 bytes its record needs (`AccountLayout.UserVoteFitsCorrectedLen`). As written, governance.rs:101 allocates 58 bytes, so every `vote_proposal` call fails when the ballot is serialised (`AccountLayout.UserVoteExceedsSpaceAsWritten`); `Governance.VoteTwice` likewise describes the corrected program.
- LocalApi.LocalApiClient.SellPlotCorrected: the seller's wallet address is a parameter; a user record without a `walletAddress` (on which localApi.ts:429 would throw) is folded into `Err(UserNotFound)`.

## Findings

| source | as written | input that shows it | evidently intended | confidence | as-written member | corrected member |
|---|---|---|---|---|---|---|
| smart-contracts/programs/depin-network/src/instructions/infrastructure.rs:347-351 | on a poor metric the score is lowered with `max(score - 1, 0)` on a `u8`, so `score - 1` overflows first; the logistics, healthcare and taxation handlers repeat this (infrastructure.rs lines 427-431, healthcare_taxation.rs lines 241-245 and 318-322) | reputation score 0, uptime 0: the subtraction panics and the whole submission aborts | a score of 0 stays 0 (`saturating_sub`) | high, not executed | Submission.ScoreAtZeroPanics | Submission.ScoreAfter |
| smart-contracts/programs/depin-network/src/instructions/governance.rs:101 | the ballot account is given `8 + 32 + 8 + 1 + 8 + 1` = 58 bytes | any vote: the `UserVote` record (two keys, enum, u64, i64, u8) always serialises to 90 bytes with its discriminator | space for the whole record, 8 + 32 + 32 + 1 + 8 + 8 + 1 = 90 | high, not executed | AccountLayout.UserVoteExceedsSpaceAsWritten | AccountLayout.UserVoteFitsCorrectedLen |
| utils/localApi.ts:423 | `sellPlot` calls `localDb.getUser`, which the database does not define | any owned, occupied plot: the call throws after the guards, so no listing is ever created | the seller's wallet is read and the listing is created | high, not executed | LocalApi.LocalApiClient.SellPlot | LocalApi.LocalApiClient.SellPlotCorrected |
