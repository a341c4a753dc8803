/**
 * The browser-side ledger the app runs against: arrays of plain records (balances,
 * transactions, plots, listings, points, proposals, votes, verification requests) kept in
 * one database object and updated in place. Lookups are first-match by key, as `find` and
 * `findIndex` are; partial updates (`{ ...record, ...updates }`) are modelled by update
 * records whose absent fields leave the stored value alone. Record ids and timestamps are
 * generated from the clock and a random source, so they are parameters here.
 */
module LocalStore {
  import opened Types

  type Id = string
  type Timestamp = string

  /** What an operation threw instead of returning. */
  datatype Thrown =
    | AuthenticationRequired
    | InsufficientTokensForStaking
    | InsufficientStakedTokens
    | PlotNotFound
    | PlotNotAvailable
    | InsufficientBuildTokens
    | NotPlotOwner
    | PlotNotForSale
    | PlotAlreadyListed
    | GetUserIsNotAFunction
    | UserNotFound
    | ListingNotFound
    | ListingNotActive
    | CannotBuyOwnListing
    | NotListingOwner
    | InsufficientTokensForInstallation
    | ListingUnavailable
    | NotEnoughPointsInListing
    | ListingHasNoPoints
    | DuplicateVote

  datatype Result<T> = Ok(value: T) | Err(error: Thrown)

  /* ---------------------------------------------------------------- records */

  datatype TokenBalance = TokenBalance(userId: Id, tokens: int, staked: int, lastUpdated: Timestamp)

  datatype TxKind = TxEarned | TxStaked | TxUnstaked | TxTransferred

  datatype Transaction = Transaction(id: Id, userId: Id, kind: TxKind, amount: int, description: string, timestamp: Timestamp)

  datatype PlotStatus = PlotAvailable | PlotOccupied | PlotReserved

  datatype ChargingPlot = ChargingPlot(id: Id, location: string, city: string, ownerId: Id, status: PlotStatus,
                                       price: int, purchasedAt: Option<Timestamp>)

  datatype ListingStatus = ListingActive | ListingSold | ListingCancelled

  datatype PlotListing = PlotListing(id: Id, plotId: Id, sellerId: Id, sellerName: string, location: string, city: string,
                                     originalPrice: int, salePrice: int, listedAt: Timestamp, status: ListingStatus)

  datatype EVCharger = EVCharger(id: Id, plotId: Id, ownerId: Id, name: string, chargerType: string, installCost: int,
                                 totalSessions: int, totalEnergy: int, earnings: int, installedAt: Timestamp)

  datatype ChargingPoints = ChargingPoints(userId: Id, points: int, earned: int, traded: int, lastUpdated: Timestamp)

  datatype PointTxKind = PointBuy | PointSell

  datatype PointTransaction = PointTransaction(id: Id, from: Id, to: Id, points: int, buildTokens: int, discount: int,
                                               kind: PointTxKind, timestamp: Timestamp)

  datatype MarketplaceListing = MarketplaceListing(id: Id, sellerId: Id, sellerName: string, points: int, buildTokens: int,
                                                   discount: int, regularPrice: int, location: string,
                                                   status: ListingStatus, createdAt: Timestamp)

  datatype ReviewStatus = ReviewPending | ReviewApproved | ReviewRejected

  datatype VerificationRequest = VerificationRequest(id: Id, resourceType: string, resourceId: Id, requestedBy: Id,
                                                     status: ReviewStatus, reviewedBy: Option<Id>,
                                                     reviewNotes: Option<string>, createdAt: Timestamp,
                                                     reviewedAt: Option<Timestamp>)

  datatype ProposalStatus = ProposalActive | ProposalPassed | ProposalRejected | ProposalExecuted

  datatype GovernanceProposal = GovernanceProposal(id: Id, proposerId: Id, title: string, description: string,
                                                   proposalType: string, status: ProposalStatus, votesFor: int,
                                                   votesAgainst: int, votesAbstain: int, quorum: int,
                                                   startTime: Timestamp, endTime: Timestamp, createdAt: Timestamp)

  datatype Choice = VoteFor | VoteAgainst | VoteAbstain

  datatype VoteRecord = VoteRecord(id: Id, proposalId: Id, voterId: Id, vote: Choice, votingPower: int, createdAt: Timestamp)

  /** The fields of a partial update; `None` leaves the stored value. */
  datatype BalanceUpdate = BalanceUpdate(tokens: Option<int>, staked: Option<int>)

  datatype PointsUpdate = PointsUpdate(points: Option<int>, earned: Option<int>, traded: Option<int>)

  datatype PlotUpdate = PlotUpdate(ownerId: Option<Id>, status: Option<PlotStatus>, purchasedAt: Option<Timestamp>)

  datatype MarketUpdate = MarketUpdate(status: Option<ListingStatus>, points: Option<int>, buildTokens: Option<int>)

  datatype ReviewUpdate = ReviewUpdate(status: Option<ReviewStatus>, reviewedBy: Option<Id>, reviewNotes: Option<string>)

  function OrElse<T>(o: Option<T>, d: T): T
  {
    if o.Some? then o.value else d
  }

  /* ---------------------------------------------------------------- first-match lookup */

  /** The position of the first element whose key is `k`, as `findIndex` returns it. */
  function IndexOf<T, K(==)>(s: seq<T>, key: T -> K, k: K): (r: Option<nat>)
    ensures r.Some? ==> r.value < |s| && key(s[r.value]) == k && forall j :: 0 <= j < r.value ==> key(s[j]) != k
    ensures r.None? ==> forall j :: 0 <= j < |s| ==> key(s[j]) != k
  {
    if |s| == 0 then None
    else if key(s[0]) == k then Some(0)
    else
      var rest := IndexOf(s[1..], key, k);
      assert forall j :: 1 <= j < |s| ==> s[j] == s[1..][j - 1];
      if rest.Some? then Some(rest.value + 1) else None
  }

  /** Sequences with the same keys position by position answer every lookup alike. */
  lemma {:induction false} IndexOfSameKeys<T, K>(s: seq<T>, t: seq<T>, key: T -> K, k: K)
    requires |s| == |t| && forall j :: 0 <= j < |s| ==> key(s[j]) == key(t[j])
    ensures IndexOf(s, key, k) == IndexOf(t, key, k)
  {
    if |s| > 0 && key(s[0]) != k {
      assert forall j :: 0 <= j < |s| - 1 ==> s[1..][j] == s[j + 1] && t[1..][j] == t[j + 1];
      IndexOfSameKeys(s[1..], t[1..], key, k);
    }
  }

  /** Appending a record is seen by a lookup only when no earlier record has the key. */
  lemma {:induction false} IndexOfAppend<T, K>(s: seq<T>, x: T, key: T -> K, k: K)
    ensures IndexOf(s + [x], key, k) ==
              if IndexOf(s, key, k).Some? then IndexOf(s, key, k)
              else if key(x) == k then Some(|s|) else None
  {
    if |s| > 0 && key(s[0]) != k {
      assert (s + [x])[1..] == s[1..] + [x];
      IndexOfAppend(s[1..], x, key, k);
    }
  }

  /** Replacing a record by one with the same key leaves every lookup as it was. */
  lemma IndexOfAfterReplace<T, K>(s: seq<T>, i: nat, x: T, key: T -> K, k: K)
    requires i < |s| && key(x) == key(s[i])
    ensures IndexOf(s[i := x], key, k) == IndexOf(s, key, k)
  {
    IndexOfSameKeys(s, s[i := x], key, k);
  }

  function BalanceUser(b: TokenBalance): Id { b.userId }
  function PointsUser(p: ChargingPoints): Id { p.userId }
  function PlotId(p: ChargingPlot): Id { p.id }
  function PlotListingId(l: PlotListing): Id { l.id }
  function MarketListingId(l: MarketplaceListing): Id { l.id }
  function MarketListingIdStatus(l: MarketplaceListing): (Id, ListingStatus) { (l.id, l.status) }
  function RequestId(q: VerificationRequest): Id { q.id }
  function ProposalId(p: GovernanceProposal): Id { p.id }

  /* ---------------------------------------------------------------- token balances */

  const STARTING_TOKENS: int := 100

  /** The tokens `getTokenBalance` reports for `u`: the first record's, or the 100-token starting bonus. */
  function Tokens(bs: seq<TokenBalance>, u: Id): int
  {
    match IndexOf(bs, BalanceUser, u)
    case Some(i) => bs[i].tokens
    case None => STARTING_TOKENS
  }

  /** The staked amount `getTokenBalance` reports for `u`: the first record's, or 0. */
  function Staked(bs: seq<TokenBalance>, u: Id): int
  {
    match IndexOf(bs, BalanceUser, u)
    case Some(i) => bs[i].staked
    case None => 0
  }

  /** The balances after `getTokenBalance(u)`: a default record is appended for an unknown user. */
  function WithBalance(bs: seq<TokenBalance>, u: Id, now: Timestamp): seq<TokenBalance>
  {
    if IndexOf(bs, BalanceUser, u).Some? then bs else bs + [TokenBalance(u, STARTING_TOKENS, 0, now)]
  }

  /** The balances after `updateTokenBalance(u, upd)`: a merge into the first record, or a new record. */
  function UpdatedBalances(bs: seq<TokenBalance>, u: Id, upd: BalanceUpdate, now: Timestamp): seq<TokenBalance>
  {
    match IndexOf(bs, BalanceUser, u)
    case Some(i) => bs[i := bs[i].(tokens := OrElse(upd.tokens, bs[i].tokens),
                                   staked := OrElse(upd.staked, bs[i].staked), lastUpdated := now)]
    case None => bs + [TokenBalance(u, OrElse(upd.tokens, 0), OrElse(upd.staked, 0), now)]
  }

  /** Creating the default record changes nobody's reported balance, and leaves `u` with a record. */
  lemma WithBalanceReportsSame(bs: seq<TokenBalance>, u: Id, now: Timestamp, v: Id)
    ensures Tokens(WithBalance(bs, u, now), v) == Tokens(bs, v)
    ensures Staked(WithBalance(bs, u, now), v) == Staked(bs, v)
    ensures IndexOf(WithBalance(bs, u, now), BalanceUser, u).Some?
  {
    if IndexOf(bs, BalanceUser, u).None? {
      IndexOfAppend(bs, TokenBalance(u, STARTING_TOKENS, 0, now), BalanceUser, v);
      IndexOfAppend(bs, TokenBalance(u, STARTING_TOKENS, 0, now), BalanceUser, u);
    }
  }

  /**
   * Updating a user who has a record sets the fields the update names and leaves every
   * other user's reported balance unchanged.
   */
  lemma UpdatedBalancesReport(bs: seq<TokenBalance>, u: Id, upd: BalanceUpdate, now: Timestamp, v: Id)
    requires IndexOf(bs, BalanceUser, u).Some?
    ensures IndexOf(UpdatedBalances(bs, u, upd, now), BalanceUser, u).Some?
    ensures Tokens(UpdatedBalances(bs, u, upd, now), v) == if v == u then OrElse(upd.tokens, Tokens(bs, u)) else Tokens(bs, v)
    ensures Staked(UpdatedBalances(bs, u, upd, now), v) == if v == u then OrElse(upd.staked, Staked(bs, u)) else Staked(bs, v)
  {
    var i := IndexOf(bs, BalanceUser, u).value;
    var x := bs[i].(tokens := OrElse(upd.tokens, bs[i].tokens), staked := OrElse(upd.staked, bs[i].staked), lastUpdated := now);
    IndexOfAfterReplace(bs, i, x, BalanceUser, v);
    IndexOfAfterReplace(bs, i, x, BalanceUser, u);
  }

  /**
   * `getTokenBalance(u)` followed by `updateTokenBalance(u, upd)`, the pattern every caller
   * uses: `u` reports what the update names, and every other user reports what they did.
   */
  lemma GetThenUpdate(bs: seq<TokenBalance>, u: Id, upd: BalanceUpdate, now: Timestamp)
    ensures IndexOf(UpdatedBalances(WithBalance(bs, u, now), u, upd, now), BalanceUser, u).Some?
    ensures forall v :: Tokens(UpdatedBalances(WithBalance(bs, u, now), u, upd, now), v) ==
                          if v == u then OrElse(upd.tokens, Tokens(bs, u)) else Tokens(bs, v)
    ensures forall v :: Staked(UpdatedBalances(WithBalance(bs, u, now), u, upd, now), v) ==
                          if v == u then OrElse(upd.staked, Staked(bs, u)) else Staked(bs, v)
  {
    var mid := WithBalance(bs, u, now);
    WithBalanceReportsSame(bs, u, now, u);
    forall v
      ensures Tokens(UpdatedBalances(mid, u, upd, now), v) == if v == u then OrElse(upd.tokens, Tokens(bs, u)) else Tokens(bs, v)
      ensures Staked(UpdatedBalances(mid, u, upd, now), v) == if v == u then OrElse(upd.staked, Staked(bs, u)) else Staked(bs, v)
    {
      WithBalanceReportsSame(bs, u, now, v);
      UpdatedBalancesReport(mid, u, upd, now, v);
    }
    UpdatedBalancesReport(mid, u, upd, now, u);
  }

  /* ---------------------------------------------------------------- charging points */

  /** The points `getChargingPoints` reports: the first record's, or zero for a new user. */
  function Points(ps: seq<ChargingPoints>, u: Id): int
  {
    match IndexOf(ps, PointsUser, u)
    case Some(i) => ps[i].points
    case None => 0
  }

  function Traded(ps: seq<ChargingPoints>, u: Id): int
  {
    match IndexOf(ps, PointsUser, u)
    case Some(i) => ps[i].traded
    case None => 0
  }

  function WithPoints(ps: seq<ChargingPoints>, u: Id, now: Timestamp): seq<ChargingPoints>
  {
    if IndexOf(ps, PointsUser, u).Some? then ps else ps + [ChargingPoints(u, 0, 0, 0, now)]
  }

  function UpdatedPoints(ps: seq<ChargingPoints>, u: Id, upd: PointsUpdate, now: Timestamp): seq<ChargingPoints>
  {
    match IndexOf(ps, PointsUser, u)
    case Some(i) => ps[i := ps[i].(points := OrElse(upd.points, ps[i].points), earned := OrElse(upd.earned, ps[i].earned),
                                   traded := OrElse(upd.traded, ps[i].traded), lastUpdated := now)]
    case None => ps + [ChargingPoints(u, OrElse(upd.points, 0), OrElse(upd.earned, 0), OrElse(upd.traded, 0), now)]
  }

  lemma WithPointsReportsSame(ps: seq<ChargingPoints>, u: Id, now: Timestamp, v: Id)
    ensures Points(WithPoints(ps, u, now), v) == Points(ps, v)
    ensures Traded(WithPoints(ps, u, now), v) == Traded(ps, v)
    ensures IndexOf(WithPoints(ps, u, now), PointsUser, u).Some?
  {
    if IndexOf(ps, PointsUser, u).None? {
      IndexOfAppend(ps, ChargingPoints(u, 0, 0, 0, now), PointsUser, v);
      IndexOfAppend(ps, ChargingPoints(u, 0, 0, 0, now), PointsUser, u);
    }
  }

  lemma UpdatedPointsReport(ps: seq<ChargingPoints>, u: Id, upd: PointsUpdate, now: Timestamp, v: Id)
    requires IndexOf(ps, PointsUser, u).Some?
    ensures IndexOf(UpdatedPoints(ps, u, upd, now), PointsUser, u).Some?
    ensures Points(UpdatedPoints(ps, u, upd, now), v) == if v == u then OrElse(upd.points, Points(ps, u)) else Points(ps, v)
    ensures Traded(UpdatedPoints(ps, u, upd, now), v) == if v == u then OrElse(upd.traded, Traded(ps, u)) else Traded(ps, v)
  {
    var i := IndexOf(ps, PointsUser, u).value;
    var x := ps[i].(points := OrElse(upd.points, ps[i].points), earned := OrElse(upd.earned, ps[i].earned),
                    traded := OrElse(upd.traded, ps[i].traded), lastUpdated := now);
    IndexOfAfterReplace(ps, i, x, PointsUser, v);
    IndexOfAfterReplace(ps, i, x, PointsUser, u);
  }

  /** `getChargingPoints(u)` followed by `updateChargingPoints(u, upd)`. */
  lemma GetThenUpdatePoints(ps: seq<ChargingPoints>, u: Id, upd: PointsUpdate, now: Timestamp)
    ensures forall v :: Points(UpdatedPoints(WithPoints(ps, u, now), u, upd, now), v) ==
                          if v == u then OrElse(upd.points, Points(ps, u)) else Points(ps, v)
    ensures forall v :: Traded(UpdatedPoints(WithPoints(ps, u, now), u, upd, now), v) ==
                          if v == u then OrElse(upd.traded, Traded(ps, u)) else Traded(ps, v)
  {
    var mid := WithPoints(ps, u, now);
    WithPointsReportsSame(ps, u, now, u);
    forall v
      ensures Points(UpdatedPoints(mid, u, upd, now), v) == if v == u then OrElse(upd.points, Points(ps, u)) else Points(ps, v)
      ensures Traded(UpdatedPoints(mid, u, upd, now), v) == if v == u then OrElse(upd.traded, Traded(ps, u)) else Traded(ps, v)
    {
      WithPointsReportsSame(ps, u, now, v);
      UpdatedPointsReport(mid, u, upd, now, v);
    }
  }

  /* ---------------------------------------------------------------- other record updates */

  function ApplyPlotUpdate(p: ChargingPlot, upd: PlotUpdate): ChargingPlot
  {
    p.(ownerId := OrElse(upd.ownerId, p.ownerId), status := OrElse(upd.status, p.status),
       purchasedAt := if upd.purchasedAt.Some? then upd.purchasedAt else p.purchasedAt)
  }

  function ApplyMarketUpdate(l: MarketplaceListing, upd: MarketUpdate): MarketplaceListing
  {
    l.(status := OrElse(upd.status, l.status), points := OrElse(upd.points, l.points),
       buildTokens := OrElse(upd.buildTokens, l.buildTokens))
  }

  /**
   * A review update: the named fields are merged, and `reviewedAt` becomes `now` exactly when
   * the update sets a status other than pending; otherwise it keeps its old value.
   */
  function ApplyReviewUpdate(q: VerificationRequest, upd: ReviewUpdate, now: Timestamp): (r: VerificationRequest)
    ensures upd.status.Some? && upd.status.value != ReviewPending ==> r.reviewedAt == Some(now)
    ensures upd.status.None? || upd.status.value == ReviewPending ==> r.reviewedAt == q.reviewedAt
    ensures r.status == OrElse(upd.status, q.status) && r.id == q.id
  {
    q.(status := OrElse(upd.status, q.status),
       reviewedBy := if upd.reviewedBy.Some? then upd.reviewedBy else q.reviewedBy,
       reviewNotes := if upd.reviewNotes.Some? then upd.reviewNotes else q.reviewNotes,
       reviewedAt := if upd.status.Some? && upd.status.value != ReviewPending then Some(now) else q.reviewedAt)
  }

  /** A proposal with `power` added to the tally of `choice`. */
  function Tally(p: GovernanceProposal, choice: Choice, power: int): (r: GovernanceProposal)
    ensures r.votesFor + r.votesAgainst + r.votesAbstain == p.votesFor + p.votesAgainst + p.votesAbstain + power
    ensures r.id == p.id && r.status == p.status
  {
    match choice
    case VoteFor => p.(votesFor := p.votesFor + power)
    case VoteAgainst => p.(votesAgainst := p.votesAgainst + power)
    case VoteAbstain => p.(votesAbstain := p.votesAbstain + power)
  }

  predicate HasVoted(votes: seq<VoteRecord>, proposalId: Id, voterId: Id)
  {
    exists j :: 0 <= j < |votes| && votes[j].proposalId == proposalId && votes[j].voterId == voterId
  }

  /** The listings `filter(l => l.id !== id)` keeps, in order. */
  function WithoutId(ls: seq<MarketplaceListing>, id: Id): (r: seq<MarketplaceListing>)
    ensures |r| <= |ls|
    ensures forall x :: x in r <==> x in ls && x.id != id
    ensures |r| == |ls| <==> forall j :: 0 <= j < |ls| ==> ls[j].id != id
  {
    if |ls| == 0 then []
    else
      var rest := WithoutId(ls[1..], id);
      assert forall j :: 1 <= j < |ls| ==> ls[j] == ls[1..][j - 1];
      assert forall x :: x in ls <==> x == ls[0] || x in ls[1..];
      if ls[0].id == id then rest else [ls[0]] + rest
  }

  /* ---------------------------------------------------------------- the database */

  class LocalDatabase {
    var balances: seq<TokenBalance>
    var transactions: seq<Transaction>
    var plots: seq<ChargingPlot>
    var plotListings: seq<PlotListing>
    var chargers: seq<EVCharger>
    var points: seq<ChargingPoints>
    var pointTransactions: seq<PointTransaction>
    var marketListings: seq<MarketplaceListing>
    var verificationQueue: seq<VerificationRequest>
    var proposals: seq<GovernanceProposal>
    var votes: seq<VoteRecord>

    /** An empty store: every table reads as the empty array. */
    constructor ()
      ensures balances == [] && transactions == [] && plots == [] && plotListings == [] && chargers == []
      ensures points == [] && pointTransactions == [] && marketListings == [] && verificationQueue == []
      ensures proposals == [] && votes == []
    {
      balances, transactions, plots, plotListings, chargers := [], [], [], [], [];
      points, pointTransactions, marketListings, verificationQueue := [], [], [], [];
      proposals, votes := [], [];
    }

    /**
     * `getTokenBalance`: the user's first record, or a new `{tokens: 100, staked: 0}` record,
     * which is stored so that later calls return it.
     */
    method GetTokenBalance(userId: Id, now: Timestamp) returns (b: TokenBalance)
      modifies this`balances
      ensures balances == WithBalance(old(balances), userId, now)
      ensures b.userId == userId && b.tokens == Tokens(old(balances), userId) && b.staked == Staked(old(balances), userId)
      ensures IndexOf(balances, BalanceUser, userId).Some? && b == balances[IndexOf(balances, BalanceUser, userId).value]
    {
      var i := IndexOf(balances, BalanceUser, userId);
      if i.Some? {
        return balances[i.value];
      }
      b := TokenBalance(userId, STARTING_TOKENS, 0, now);
      balances := balances + [b];
      IndexOfAppend(old(balances), b, BalanceUser, userId);
    }

    /**
     * `updateTokenBalance`: merges the update into the user's first record (stamping it), or
     * appends a record built from the update with absent fields as 0. Other records are untouched.
     */
    method UpdateTokenBalance(userId: Id, upd: BalanceUpdate, now: Timestamp)
      modifies this`balances
      ensures balances == UpdatedBalances(old(balances), userId, upd, now)
      ensures |balances| >= |old(balances)|
      ensures forall j :: 0 <= j < |old(balances)| && old(balances)[j].userId != userId ==> balances[j] == old(balances)[j]
    {
      var i := IndexOf(balances, BalanceUser, userId);
      if i.Some? {
        var b := balances[i.value];
        balances := balances[i.value := b.(tokens := OrElse(upd.tokens, b.tokens), staked := OrElse(upd.staked, b.staked),
                                           lastUpdated := now)];
      } else {
        balances := balances + [TokenBalance(userId, OrElse(upd.tokens, 0), OrElse(upd.staked, 0), now)];
      }
    }

    /**
     * `createTransaction`: appends exactly one transaction, then credits its amount to the
     * user's tokens through `getTokenBalance` and `updateTokenBalance`.
     */
    method CreateTransaction(userId: Id, kind: TxKind, amount: int, description: string, id: Id, now: Timestamp)
      returns (t: Transaction)
      modifies this`transactions, this`balances
      ensures t == Transaction(id, userId, kind, amount, description, now)
      ensures transactions == old(transactions) + [t]
      ensures Tokens(balances, userId) == Tokens(old(balances), userId) + amount
      ensures Staked(balances, userId) == Staked(old(balances), userId)
      ensures forall v :: v != userId ==> Tokens(balances, v) == Tokens(old(balances), v) && Staked(balances, v) == Staked(old(balances), v)
      ensures IndexOf(balances, BalanceUser, userId).Some?
    {
      t := Transaction(id, userId, kind, amount, description, now);
      transactions := transactions + [t];
      var b := GetTokenBalance(userId, now);
      UpdateTokenBalance(userId, BalanceUpdate(Some(b.tokens + amount), None), now);
      GetThenUpdate(old(balances), userId, BalanceUpdate(Some(b.tokens + amount), None), now);
    }

    /** `getChargingPoints`: the user's first record, or a new all-zero record, which is stored. */
    method GetChargingPoints(userId: Id, now: Timestamp) returns (p: ChargingPoints)
      modifies this`points
      ensures points == WithPoints(old(points), userId, now)
      ensures p.userId == userId && p.points == Points(old(points), userId) && p.traded == Traded(old(points), userId)
    {
      var i := IndexOf(points, PointsUser, userId);
      if i.Some? {
        return points[i.value];
      }
      p := ChargingPoints(userId, 0, 0, 0, now);
      points := points + [p];
    }

    /** `updateChargingPoints`: merge into the first record, or append one with absent fields as 0. */
    method UpdateChargingPoints(userId: Id, upd: PointsUpdate, now: Timestamp)
      modifies this`points
      ensures points == UpdatedPoints(old(points), userId, upd, now)
      ensures forall j :: 0 <= j < |old(points)| && old(points)[j].userId != userId ==> points[j] == old(points)[j]
    {
      var i := IndexOf(points, PointsUser, userId);
      if i.Some? {
        var p := points[i.value];
        points := points[i.value := p.(points := OrElse(upd.points, p.points), earned := OrElse(upd.earned, p.earned),
                                       traded := OrElse(upd.traded, p.traded), lastUpdated := now)];
      } else {
        points := points + [ChargingPoints(userId, OrElse(upd.points, 0), OrElse(upd.earned, 0), OrElse(upd.traded, 0), now)];
      }
    }

    /** `updateChargingPlot`: merge into the first plot with the id and return it, or `None`. */
    method UpdateChargingPlot(id: Id, upd: PlotUpdate) returns (r: Option<ChargingPlot>)
      modifies this`plots
      ensures match IndexOf(old(plots), PlotId, id)
              case None => plots == old(plots) && r.None?
              case Some(i) => plots == old(plots)[i := ApplyPlotUpdate(old(plots)[i], upd)] && r == Some(plots[i])
    {
      var i := IndexOf(plots, PlotId, id);
      if i.None? {
        return None;
      }
      plots := plots[i.value := ApplyPlotUpdate(plots[i.value], upd)];
      r := Some(plots[i.value]);
    }

    /** `createPlotListing`: appends the listing under a fresh id. */
    method CreatePlotListing(listing: PlotListing) returns (l: PlotListing)
      modifies this`plotListings
      ensures l == listing && plotListings == old(plotListings) + [l]
    {
      l := listing;
      plotListings := plotListings + [l];
    }

    /** `updatePlotListing` with a new status: applied to the first listing with the id, if any. */
    method UpdatePlotListingStatus(id: Id, status: ListingStatus) returns (r: Option<PlotListing>)
      modifies this`plotListings
      ensures match IndexOf(old(plotListings), PlotListingId, id)
              case None => plotListings == old(plotListings) && r.None?
              case Some(i) => plotListings == old(plotListings)[i := old(plotListings)[i].(status := status)]
                              && r == Some(plotListings[i])
    {
      var i := IndexOf(plotListings, PlotListingId, id);
      if i.None? {
        return None;
      }
      plotListings := plotListings[i.value := plotListings[i.value].(status := status)];
      r := Some(plotListings[i.value]);
    }

    /**
     * `removePlotListing`: splices out the first listing with the id. The answer is true iff
     * such a listing existed; nothing else is removed.
     */
    method RemovePlotListing(id: Id) returns (removed: bool)
      modifies this`plotListings
      ensures removed <==> exists j :: 0 <= j < |old(plotListings)| && old(plotListings)[j].id == id
      ensures !removed ==> plotListings == old(plotListings)
      ensures removed ==> var i := IndexOf(old(plotListings), PlotListingId, id).value;
                          plotListings == old(plotListings)[..i] + old(plotListings)[i + 1..]
                          && |plotListings| == |old(plotListings)| - 1
                          && multiset(plotListings) + multiset{old(plotListings)[i]} == multiset(old(plotListings))
    {
      var i := IndexOf(plotListings, PlotListingId, id);
      if i.None? {
        return false;
      }
      var k := i.value;
      assert plotListings == plotListings[..k] + [plotListings[k]] + plotListings[k + 1..];
      plotListings := plotListings[..k] + plotListings[k + 1..];
      removed := true;
    }

    /** `createEVCharger`: appends the charger. */
    method CreateEVCharger(charger: EVCharger) returns (c: EVCharger)
      modifies this`chargers
      ensures c == charger && chargers == old(chargers) + [c]
    {
      c := charger;
      chargers := chargers + [c];
    }

    /** `createPointTransaction`: appends the record. */
    method CreatePointTransaction(tx: PointTransaction) returns (t: PointTransaction)
      modifies this`pointTransactions
      ensures t == tx && pointTransactions == old(pointTransactions) + [t]
    {
      t := tx;
      pointTransactions := pointTransactions + [t];
    }

    /** `updateMarketplaceListing`: merge into the first listing with the id, whatever its status. */
    method UpdateMarketplaceListing(id: Id, upd: MarketUpdate) returns (r: Option<MarketplaceListing>)
      modifies this`marketListings
      ensures match IndexOf(old(marketListings), MarketListingId, id)
              case None => marketListings == old(marketListings) && r.None?
              case Some(i) => marketListings == old(marketListings)[i := ApplyMarketUpdate(old(marketListings)[i], upd)]
                              && r == Some(marketListings[i])
    {
      var i := IndexOf(marketListings, MarketListingId, id);
      if i.None? {
        return None;
      }
      marketListings := marketListings[i.value := ApplyMarketUpdate(marketListings[i.value], upd)];
      r := Some(marketListings[i.value]);
    }

    /**
     * `deleteMarketplaceListing`: keeps only the listings with another id; true iff that
     * removed at least one.
     */
    method DeleteMarketplaceListing(id: Id) returns (deleted: bool)
      modifies this`marketListings
      ensures deleted <==> exists j :: 0 <= j < |old(marketListings)| && old(marketListings)[j].id == id
      ensures deleted ==> marketListings == WithoutId(old(marketListings), id)
      ensures !deleted ==> marketListings == old(marketListings)
      ensures forall x :: x in marketListings <==> x in old(marketListings) && x.id != id
    {
      var filtered := WithoutId(marketListings, id);
      if |filtered| < |marketListings| {
        marketListings := filtered;
        return true;
      }
      deleted := false;
    }

    /**
     * `updateVerificationRequest`: merges the update into the first request with the id; its
     * `reviewedAt` is stamped only when the new status is not pending. An unknown id changes nothing.
     */
    method UpdateVerificationRequest(id: Id, upd: ReviewUpdate, now: Timestamp)
      modifies this`verificationQueue
      ensures match IndexOf(old(verificationQueue), RequestId, id)
              case None => verificationQueue == old(verificationQueue)
              case Some(i) => verificationQueue == old(verificationQueue)[i := ApplyReviewUpdate(old(verificationQueue)[i], upd, now)]
    {
      var i := IndexOf(verificationQueue, RequestId, id);
      if i.Some? {
        verificationQueue := verificationQueue[i.value := ApplyReviewUpdate(verificationQueue[i.value], upd, now)];
      }
    }

    /** `createProposal`: appends a proposal whose three tallies start at 0. */
    method CreateProposal(proposerId: Id, title: string, description: string, proposalType: string,
                          status: ProposalStatus, quorum: int, startTime: Timestamp, endTime: Timestamp,
                          id: Id, now: Timestamp)
      returns (p: GovernanceProposal)
      modifies this`proposals
      ensures proposals == old(proposals) + [p]
      ensures p.id == id && p.proposerId == proposerId && p.title == title && p.status == status
      ensures p.votesFor == 0 && p.votesAgainst == 0 && p.votesAbstain == 0
    {
      p := GovernanceProposal(id, proposerId, title, description, proposalType, status, 0, 0, 0, quorum,
                              startTime, endTime, now);
      proposals := proposals + [p];
    }

    /**
     * `createVote`: throws when the voter already voted on the proposal, changing nothing;
     * otherwise appends the vote and adds its power to the matching tally of the first
     * proposal with that id, and to no other proposal.
     */
    method CreateVote(proposalId: Id, voterId: Id, choice: Choice, votingPower: int, id: Id, now: Timestamp)
      returns (r: Result<VoteRecord>)
      modifies this`votes, this`proposals
      ensures r.Err? <==> old(HasVoted(votes, proposalId, voterId))
      ensures r.Err? ==> r.error == DuplicateVote && votes == old(votes) && proposals == old(proposals)
      ensures r.Ok? ==> r.value == VoteRecord(id, proposalId, voterId, choice, votingPower, now)
                        && votes == old(votes) + [r.value] && HasVoted(votes, proposalId, voterId)
      ensures r.Ok? ==> match IndexOf(old(proposals), ProposalId, proposalId)
                        case None => proposals == old(proposals)
                        case Some(i) => proposals == old(proposals)[i := Tally(old(proposals)[i], choice, votingPower)]
    {
      if exists j :: 0 <= j < |votes| && votes[j].proposalId == proposalId && votes[j].voterId == voterId {
        return Err(DuplicateVote);
      }
      var v := VoteRecord(id, proposalId, voterId, choice, votingPower, now);
      votes := votes + [v];
      assert votes[|votes| - 1] == v;
      var i := IndexOf(proposals, ProposalId, proposalId);
      if i.Some? {
        proposals := proposals[i.value := Tally(proposals[i.value], choice, votingPower)];
      }
      r := Ok(v);
    }
  }

  /** A second vote by the same voter on the same proposal is refused and leaves the tallies as they were. */
  method VoteTwice(db: LocalDatabase, proposalId: Id, voterId: Id, first: Choice, second: Choice, power: int,
                   id1: Id, id2: Id, now: Timestamp)
    returns (r1: Result<VoteRecord>, r2: Result<VoteRecord>)
    modifies db`votes, db`proposals
    ensures r2 == Err(DuplicateVote)
  {
    r1 := db.CreateVote(proposalId, voterId, first, power, id1, now);
    ghost var tallies := db.proposals;
    r2 := db.CreateVote(proposalId, voterId, second, power, id2, now);
    assert db.proposals == tallies;
  }

  /** `getTokenBalance` creates a user's default record once; a later call returns the stored one. */
  method GetTokenBalanceTwice(db: LocalDatabase, userId: Id, t1: Timestamp, t2: Timestamp)
    returns (b1: TokenBalance, b2: TokenBalance)
    modifies db`balances
    ensures b1 == b2
    ensures |db.balances| <= |old(db.balances)| + 1
  {
    b1 := db.GetTokenBalance(userId, t1);
    b2 := db.GetTokenBalance(userId, t2);
  }
}
