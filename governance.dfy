/**
 * Governance: stakers above the network's threshold open week-long proposals, every staker
 * casts one ballot per proposal weighted by their staked total, and anyone may execute a
 * proposal once its voting window has closed.
 */
module Governance {
  import opened Types
  import opened State

  /** Seven days, in seconds. */
  const VOTING_PERIOD: int := 7 * 24 * 3600

  /**
   * The approval rule: the yes weight must exceed half of the yes-plus-no weight, rounded
   * down. Abstentions do not take part. This is the same as yes outweighing no.
   */
  function Approved(yesVotes: U64, noVotes: U64): (r: bool)
    ensures r <==> yesVotes > noVotes
  {
    yesVotes > (yesVotes + noVotes) / 2
  }

  /** 70 yes against 30 no passes; an even 50/50 split does not. */
  lemma ApprovalExamples()
    ensures Approved(70, 30)
    ensures !Approved(50, 50)
    ensures !Approved(0, 1) && Approved(1, 0)
  {
  }

  /** The fields a proposal is created with, apart from its bump. */
  function ProposalContents(p: Proposal): (U64, Pubkey, Bytes, Bytes, ProposalType, U64, U64, U32, I64, I64, bool, bool)
    reads p
  {
    (p.id, p.proposer, p.title, p.description, p.proposalType, p.yesVotes, p.noVotes, p.totalVotes,
     p.startTime, p.endTime, p.executed, p.approved)
  }

  /** Writes a fresh proposal: no votes, open from `now` for the voting period, neither executed nor approved. */
  method OpenProposal(p: Proposal, id: U64, proposer: Pubkey, title: Bytes, description: Bytes,
                      proposalType: ProposalType, bump: U8, now: I64)
    requires now + VOTING_PERIOD <= I64_MAX
    modifies p
    ensures ProposalContents(p) == (id, proposer, title, description, proposalType, 0, 0, 0, now, now + VOTING_PERIOD, false, false)
    ensures p.bump == bump
  {
    p.id, p.proposer, p.title, p.description, p.proposalType := id, proposer, title, description, proposalType;
    p.yesVotes, p.noVotes, p.totalVotes := 0, 0, 0;
    p.startTime, p.endTime, p.executed, p.approved, p.bump := now, now + VOTING_PERIOD, false, false, bump;
  }

  /**
   * `create_proposal`: checks the title and description lengths and the proposer's stake
   * against the governance threshold, then writes a fresh proposal numbered by the network's
   * proposal counter, open for seven days from `now`, and advances the counter.
   */
  method CreateProposal(
    net: NetworkState, profile: UserProfile, proposal: Proposal,
    title: Bytes, description: Bytes, proposalType: ProposalType, proposer: Pubkey, bump: U8, now: I64)
    returns (r: Outcome)
    modifies net`proposalsCount, proposal
    ensures |title| > PROPOSAL_MAX_TITLE_LEN ==> r == Fail(TitleTooLong)
    ensures |title| <= PROPOSAL_MAX_TITLE_LEN && |description| > PROPOSAL_MAX_DESCRIPTION_LEN ==> r == Fail(DescriptionTooLong)
    ensures (|title| <= PROPOSAL_MAX_TITLE_LEN && |description| <= PROPOSAL_MAX_DESCRIPTION_LEN
             && old(profile.totalStaked) < old(net.governanceThreshold)) ==> r == Fail(InsufficientTokensForProposal)
    ensures r == Pass <==>
              && |title| <= PROPOSAL_MAX_TITLE_LEN && |description| <= PROPOSAL_MAX_DESCRIPTION_LEN
              && old(profile.totalStaked) >= old(net.governanceThreshold)
              && now + VOTING_PERIOD <= I64_MAX && old(net.proposalsCount) < U64_MAX
    ensures r != Pass ==> unchanged(proposal) && net.proposalsCount == old(net.proposalsCount)
    ensures r == Pass ==>
              && ProposalContents(proposal)
                 == (old(net.proposalsCount), proposer, title, description, proposalType, 0, 0, 0, now, now + VOTING_PERIOD, false, false)
              && proposal.bump == bump
              && net.proposalsCount == old(net.proposalsCount) + 1
  {
    if |title| > PROPOSAL_MAX_TITLE_LEN {
      return Fail(TitleTooLong);
    }
    if |description| > PROPOSAL_MAX_DESCRIPTION_LEN {
      return Fail(DescriptionTooLong);
    }
    if profile.totalStaked < net.governanceThreshold {
      return Fail(InsufficientTokensForProposal);
    }
    if now + VOTING_PERIOD > I64_MAX || net.proposalsCount + 1 > U64_MAX {
      return Fail(Overflow);
    }
    OpenProposal(proposal, net.proposalsCount, proposer, title, description, proposalType, bump, now);
    net.proposalsCount := net.proposalsCount + 1;
    r := Pass;
  }

  /** The yes weight after a ballot: only a Yes adds the voter's power. */
  function YesAfter(yesVotes: U64, vote: Vote, power: U64): int
  {
    if vote == Yes then yesVotes + power else yesVotes
  }

  /** The no weight after a ballot: only a No adds the voter's power. */
  function NoAfter(noVotes: U64, vote: Vote, power: U64): int
  {
    if vote == No then noVotes + power else noVotes
  }

  /** An abstention changes neither weight; a Yes or No moves exactly one of them, by the voter's power. */
  lemma TallyDeltas(yesVotes: U64, noVotes: U64, vote: Vote, power: U64)
    ensures vote == Abstain ==> YesAfter(yesVotes, vote, power) == yesVotes && NoAfter(noVotes, vote, power) == noVotes
    ensures YesAfter(yesVotes, vote, power) + NoAfter(noVotes, vote, power) == yesVotes + noVotes + (if vote == Abstain then 0 else power)
  {
  }

  predicate VoteAdmissible(proposal: Proposal, profile: UserProfile, ballot: UserVote, vote: Vote, now: I64)
    reads proposal, profile, ballot
  {
    && proposal.startTime <= now <= proposal.endTime
    && !proposal.executed
    && ballot.voter == DEFAULT_KEY
    && profile.totalStaked > 0
    && YesAfter(proposal.yesVotes, vote, profile.totalStaked) <= U64_MAX
    && NoAfter(proposal.noVotes, vote, profile.totalStaked) <= U64_MAX
    && proposal.totalVotes < U32_MAX
    && profile.governanceVotes < U32_MAX
  }

  /**
   * `vote_proposal`: within the voting window, on an unexecuted proposal, by a voter whose
   * ballot account is still blank and who has something staked, records the ballot with the
   * voter's current staked total as its weight, adds that weight to the chosen side, and
   * counts one more ballot on the proposal and on the voter's profile. The ballot account is
   * taken to be allocated with the space its fields need (see `AccountLayout`).
   */
  method VoteProposal(
    proposal: Proposal, profile: UserProfile, ballot: UserVote,
    vote: Vote, voter: Pubkey, proposalKey: Pubkey, bump: U8, now: I64)
    returns (r: Outcome)
    modifies proposal`yesVotes, proposal`noVotes, proposal`totalVotes, profile`governanceVotes, ballot
    ensures r == Pass <==> old(VoteAdmissible(proposal, profile, ballot, vote, now))
    ensures !(old(proposal.startTime) <= now <= old(proposal.endTime)) ==> r == Fail(VotingPeriodEnded)
    ensures old(proposal.startTime) <= now <= old(proposal.endTime) && old(proposal.executed) ==> r == Fail(ProposalAlreadyExecuted)
    ensures (old(proposal.startTime) <= now <= old(proposal.endTime) && !old(proposal.executed)
             && old(ballot.voter) != DEFAULT_KEY) ==> r == Fail(AlreadyVoted)
    ensures (old(proposal.startTime) <= now <= old(proposal.endTime) && !old(proposal.executed)
             && old(ballot.voter) == DEFAULT_KEY && old(profile.totalStaked) == 0) ==> r == Fail(NoVotingPower)
    ensures r != Pass ==>
              && unchanged(ballot)
              && proposal.yesVotes == old(proposal.yesVotes) && proposal.noVotes == old(proposal.noVotes)
              && proposal.totalVotes == old(proposal.totalVotes) && profile.governanceVotes == old(profile.governanceVotes)
    ensures r == Pass ==>
              && ballot.voter == voter && ballot.proposal == proposalKey && ballot.vote == vote
              && ballot.votingPower == old(profile.totalStaked) && ballot.timestamp == now && ballot.bump == bump
              && proposal.yesVotes == YesAfter(old(proposal.yesVotes), vote, old(profile.totalStaked))
              && proposal.noVotes == NoAfter(old(proposal.noVotes), vote, old(profile.totalStaked))
              && proposal.totalVotes == old(proposal.totalVotes) + 1
              && profile.governanceVotes == old(profile.governanceVotes) + 1
  {
    if !(proposal.startTime <= now <= proposal.endTime) {
      return Fail(VotingPeriodEnded);
    }
    if proposal.executed {
      return Fail(ProposalAlreadyExecuted);
    }
    if ballot.voter != DEFAULT_KEY {
      return Fail(AlreadyVoted);
    }
    var power := profile.totalStaked;
    if power == 0 {
      return Fail(NoVotingPower);
    }
    var yes := YesAfter(proposal.yesVotes, vote, power);
    var no := NoAfter(proposal.noVotes, vote, power);
    if yes > U64_MAX || no > U64_MAX || proposal.totalVotes + 1 > U32_MAX || profile.governanceVotes + 1 > U32_MAX {
      return Fail(Overflow);
    }
    ballot.voter := voter;
    ballot.proposal := proposalKey;
    ballot.vote := vote;
    ballot.votingPower := power;
    ballot.timestamp := now;
    ballot.bump := bump;
    proposal.yesVotes := yes;
    proposal.noVotes := no;
    proposal.totalVotes := proposal.totalVotes + 1;
    profile.governanceVotes := profile.governanceVotes + 1;
    r := Pass;
  }

  /**
   * `execute_proposal`: once the voting window has closed, on a proposal not yet executed and
   * with some yes or no weight, marks it executed and records whether it was approved.
   */
  method ExecuteProposal(proposal: Proposal, now: I64) returns (r: Outcome)
    modifies proposal`executed, proposal`approved
    ensures old(proposal.endTime) >= now ==> r == Fail(VotingStillActive)
    ensures now > old(proposal.endTime) && old(proposal.executed) ==> r == Fail(ProposalAlreadyExecuted)
    ensures (now > old(proposal.endTime) && !old(proposal.executed) && proposal.yesVotes + proposal.noVotes == 0)
            ==> r == Fail(NoVotesCast)
    ensures r == Pass <==>
              now > old(proposal.endTime) && !old(proposal.executed)
              && 0 < proposal.yesVotes + proposal.noVotes <= U64_MAX
    ensures r != Pass ==> proposal.executed == old(proposal.executed) && proposal.approved == old(proposal.approved)
    ensures r == Pass ==> proposal.executed && (proposal.approved <==> proposal.yesVotes > proposal.noVotes)
  {
    if now <= proposal.endTime {
      return Fail(VotingStillActive);
    }
    if proposal.executed {
      return Fail(ProposalAlreadyExecuted);
    }
    if proposal.yesVotes + proposal.noVotes > U64_MAX {
      return Fail(Overflow);
    }
    if proposal.yesVotes + proposal.noVotes == 0 {
      return Fail(NoVotesCast);
    }
    proposal.approved := Approved(proposal.yesVotes, proposal.noVotes);
    proposal.executed := true;
    r := Pass;
  }

  /** A voter whose first ballot on a proposal was recorded is refused a second one. */
  method VoteTwice(
    proposal: Proposal, profile: UserProfile, ballot: UserVote,
    first: Vote, second: Vote, voter: Pubkey, proposalKey: Pubkey, bump: U8, now: I64, later: I64)
    returns (r1: Outcome, r2: Outcome)
    requires voter != DEFAULT_KEY
    modifies proposal`yesVotes, proposal`noVotes, proposal`totalVotes, profile`governanceVotes, ballot
    ensures r1 == Pass ==> r2 != Pass
    ensures r1 == Pass && proposal.startTime <= later <= proposal.endTime && !proposal.executed ==> r2 == Fail(AlreadyVoted)
  {
    r1 := VoteProposal(proposal, profile, ballot, first, voter, proposalKey, bump, now);
    r2 := VoteProposal(proposal, profile, ballot, second, voter, proposalKey, bump, later);
  }

  /** A proposal executes at most once. */
  method ExecuteTwice(proposal: Proposal, now: I64, later: I64) returns (r1: Outcome, r2: Outcome)
    requires later >= now
    modifies proposal`executed, proposal`approved
    ensures r1 == Pass ==> r2 == Fail(ProposalAlreadyExecuted)
  {
    r1 := ExecuteProposal(proposal, now);
    r2 := ExecuteProposal(proposal, later);
  }
}
