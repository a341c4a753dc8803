/**
 * The client the app calls in place of a server: each operation checks the signed-in user
 * and its guards, then reads and writes the local store step by step. A thrown error is
 * the `Err` result; writes made before the throw (a default balance created by
 * `getTokenBalance`) stay, as they do in the store. The simulated network delay is left out;
 * record ids and timestamps are parameters.
 */
module LocalApi {
  import opened Types
  import opened LocalStore

  /** `Math.ceil(n / d)` on exact rationals, for a non-zero `d`. */
  function CeilDiv(n: int, d: int): (r: int)
    requires d != 0
    ensures d > 0 ==> (r - 1) * d < n <= r * d
    ensures d < 0 ==> r * d <= n < (r - 1) * d
  {
    if d > 0 then -((-n) / d) else -(n / (-d))
  }

  /** What a buyer pays for `bought` of a listing's `points`, priced at `buildTokens` for all of them. */
  function PointsCost(bought: int, points: int, buildTokens: int): int
    requires points != 0
  {
    CeilDiv(bought * buildTokens, points)
  }

  /** What the listing asks for its remaining points after a partial sale. */
  function RemainingPrice(bought: int, points: int, buildTokens: int): int
    requires points != 0
  {
    CeilDiv(buildTokens * (points - bought), points)
  }

  lemma MulRight(a: int, b: int, k: int)
    requires a <= b && k >= 0
    ensures a * k <= b * k
  {
    assert b * k - a * k == (b - a) * k;
  }

  /** A purchase of part of a listing never costs more than the whole listing, and all of it costs exactly its price. */
  lemma PointsCostWithinPrice(bought: int, points: int, buildTokens: int)
    requires 0 <= bought <= points && points > 0 && buildTokens >= 0
    ensures 0 <= PointsCost(bought, points, buildTokens) <= buildTokens
    ensures bought == points ==> PointsCost(bought, points, buildTokens) == buildTokens
  {
    var n := bought * buildTokens;
    var c := CeilDiv(n, points);
    assert (c - 1) * points < n <= c * points;
    MulRight(bought, points, buildTokens);
    assert 0 <= n <= points * buildTokens;
    if c < 0 {
      MulRight(c, -1, points);
    }
    if c > buildTokens {
      MulRight(buildTokens, c - 1, points);
    }
    if bought == points && c < buildTokens {
      MulRight(c, buildTokens - 1, points);
    }
  }

  /**
   * Rounding up both the sale and the re-priced remainder never lets the seller's asking
   * total fall below the original price: cost + remaining price >= price.
   */
  lemma PartialSaleKeepsPrice(bought: int, points: int, buildTokens: int)
    requires points > 0
    ensures PointsCost(bought, points, buildTokens) + RemainingPrice(bought, points, buildTokens) >= buildTokens
  {
    var c := PointsCost(bought, points, buildTokens);
    var m := RemainingPrice(bought, points, buildTokens);
    assert bought * buildTokens + buildTokens * (points - bought) == buildTokens * points;
    assert (c + m) * points >= buildTokens * points;
  }

  /** Some listing for the plot is still active. */
  predicate HasActiveListing(ls: seq<PlotListing>, plotId: Id)
  {
    exists j :: 0 <= j < |ls| && ls[j].plotId == plotId && ls[j].status == ListingActive
  }

  /** What the user reports before and after, for everyone but the named users. */
  ghost predicate OthersKeepBalances(before: seq<TokenBalance>, after: seq<TokenBalance>, u: Id, w: Id)
  {
    forall v :: v != u && v != w ==> Tokens(after, v) == Tokens(before, v) && Staked(after, v) == Staked(before, v)
  }

  function Prefix8(w: string): string
  {
    if |w| <= 8 then w else w[..8]
  }

  class LocalApiClient {
    const db: LocalDatabase
    var currentUserId: Option<Id>

    /** A client over the store with nobody signed in. */
    constructor (db: LocalDatabase)
      ensures this.db == db && currentUserId.None?
    {
      this.db := db;
      currentUserId := None;
    }

    method SetCurrentUserId(userId: Option<Id>)
      modifies this`currentUserId
      ensures currentUserId == userId
    {
      currentUserId := userId;
    }

    /**
     * `stakeTokens`: moves `amount` from the user's tokens to their stake, then records a
     * `staked` transaction, which credits the amount back to the tokens. Net: the tokens are
     * unchanged and the stake grows by `amount`.
     */
    method StakeTokens(amount: int, txId: Id, now: Timestamp) returns (r: Result<()>)
      modifies db`balances, db`transactions
      ensures currentUserId.None? ==> r == Err(AuthenticationRequired) && db.balances == old(db.balances)
      ensures currentUserId.Some? ==> OthersKeepBalances(old(db.balances), db.balances, currentUserId.value, currentUserId.value)
      ensures currentUserId.Some? && Tokens(old(db.balances), currentUserId.value) < amount ==>
                r == Err(InsufficientTokensForStaking) && db.balances == WithBalance(old(db.balances), currentUserId.value, now)
      ensures r.Err? ==> db.transactions == old(db.transactions)
      ensures r.Ok? <==> currentUserId.Some? && Tokens(old(db.balances), currentUserId.value) >= amount
      ensures r.Ok? ==> var u := currentUserId.value;
                        && Tokens(db.balances, u) == Tokens(old(db.balances), u)
                        && Staked(db.balances, u) == Staked(old(db.balances), u) + amount
                        && db.transactions == old(db.transactions) +
                                              [Transaction(txId, u, TxStaked, amount, "Tokens staked for network rewards", now)]
    {
      if currentUserId.None? {
        return Err(AuthenticationRequired);
      }
      var u := currentUserId.value;
      var balance := db.GetTokenBalance(u, now);
      if balance.tokens < amount {
        WithBalanceReportsSameAll(old(db.balances), u, now);
        return Err(InsufficientTokensForStaking);
      }
      var upd := BalanceUpdate(Some(balance.tokens - amount), Some(balance.staked + amount));
      db.UpdateTokenBalance(u, upd, now);
      GetThenUpdate(old(db.balances), u, upd, now);
      var _ := db.CreateTransaction(u, TxStaked, amount, "Tokens staked for network rewards", txId, now);
      r := Ok(());
    }

    /**
     * `unstakeTokens`: moves `amount` from the stake back to the tokens, then records an
     * `unstaked` transaction, which credits the amount to the tokens a second time. Net: the
     * tokens grow by twice `amount` and the stake shrinks by `amount`.
     */
    method UnstakeTokens(amount: int, txId: Id, now: Timestamp) returns (r: Result<()>)
      modifies db`balances, db`transactions
      ensures currentUserId.None? ==> r == Err(AuthenticationRequired) && db.balances == old(db.balances)
      ensures currentUserId.Some? ==> OthersKeepBalances(old(db.balances), db.balances, currentUserId.value, currentUserId.value)
      ensures currentUserId.Some? && Staked(old(db.balances), currentUserId.value) < amount ==>
                r == Err(InsufficientStakedTokens) && db.balances == WithBalance(old(db.balances), currentUserId.value, now)
      ensures r.Err? ==> db.transactions == old(db.transactions)
      ensures r.Ok? <==> currentUserId.Some? && Staked(old(db.balances), currentUserId.value) >= amount
      ensures r.Ok? ==> var u := currentUserId.value;
                        && Tokens(db.balances, u) == Tokens(old(db.balances), u) + 2 * amount
                        && Staked(db.balances, u) == Staked(old(db.balances), u) - amount
                        && db.transactions == old(db.transactions) +
                                              [Transaction(txId, u, TxUnstaked, amount, "Tokens unstaked from network pools", now)]
    {
      if currentUserId.None? {
        return Err(AuthenticationRequired);
      }
      var u := currentUserId.value;
      var balance := db.GetTokenBalance(u, now);
      if balance.staked < amount {
        WithBalanceReportsSameAll(old(db.balances), u, now);
        return Err(InsufficientStakedTokens);
      }
      var upd := BalanceUpdate(Some(balance.tokens + amount), Some(balance.staked - amount));
      db.UpdateTokenBalance(u, upd, now);
      GetThenUpdate(old(db.balances), u, upd, now);
      var _ := db.CreateTransaction(u, TxUnstaked, amount, "Tokens unstaked from network pools", txId, now);
      r := Ok(());
    }

    /**
     * `purchasePlot`: an available plot is bought at its price. The price is deducted, the
     * plot becomes the user's and occupied, and a transaction of minus the price is recorded,
     * which deducts the price a second time: the buyer's tokens fall by twice the price.
     */
    method PurchasePlot(plotId: Id, txId: Id, now: Timestamp) returns (r: Result<ChargingPlot>)
      modifies db`balances, db`transactions, db`plots
      ensures currentUserId.None? ==> r == Err(AuthenticationRequired) && db.balances == old(db.balances)
      ensures currentUserId.Some? ==> OthersKeepBalances(old(db.balances), db.balances, currentUserId.value, currentUserId.value)
      ensures currentUserId.Some? && IndexOf(old(db.plots), PlotId, plotId).None? ==>
                r == Err(PlotNotFound) && db.balances == old(db.balances)
      ensures r.Err? ==> db.plots == old(db.plots) && db.transactions == old(db.transactions)
      ensures r.Ok? <==> && currentUserId.Some? && IndexOf(old(db.plots), PlotId, plotId).Some?
                         && old(db.plots)[IndexOf(old(db.plots), PlotId, plotId).value].status == PlotAvailable
                         && Tokens(old(db.balances), currentUserId.value) >= old(db.plots)[IndexOf(old(db.plots), PlotId, plotId).value].price
      ensures r.Ok? ==> var u := currentUserId.value;
                        var i := IndexOf(old(db.plots), PlotId, plotId).value;
                        && r.value == old(db.plots)[i]
                        && Tokens(db.balances, u) == Tokens(old(db.balances), u) - 2 * r.value.price
                        && Staked(db.balances, u) == Staked(old(db.balances), u)
                        && db.plots == old(db.plots)[i := r.value.(ownerId := u, status := PlotOccupied, purchasedAt := Some(now))]
                        && db.transactions == old(db.transactions) +
                             [Transaction(txId, u, TxTransferred, -r.value.price, "Purchased charging plot: " + r.value.location, now)]
    {
      if currentUserId.None? {
        return Err(AuthenticationRequired);
      }
      var u := currentUserId.value;
      var i := IndexOf(db.plots, PlotId, plotId);
      if i.None? {
        return Err(PlotNotFound);
      }
      var plot := db.plots[i.value];
      if plot.status != PlotAvailable {
        return Err(PlotNotAvailable);
      }
      var balance := db.GetTokenBalance(u, now);
      WithBalanceReportsSameAll(old(db.balances), u, now);
      if balance.tokens < plot.price {
        return Err(InsufficientBuildTokens);
      }
      var upd := BalanceUpdate(Some(balance.tokens - plot.price), None);
      db.UpdateTokenBalance(u, upd, now);
      GetThenUpdate(old(db.balances), u, upd, now);
      var _ := db.UpdateChargingPlot(plotId, PlotUpdate(Some(u), Some(PlotOccupied), Some(now)));
      var _ := db.CreateTransaction(u, TxTransferred, -plot.price, "Purchased charging plot: " + plot.location, txId, now);
      r := Ok(plot);
    }

    /**
     * `sellPlot` as written: after its guards it calls `localDb.getUser`, which the store does
     * not define, so every call that passes the guards throws and no listing is ever created.
     */
    method SellPlot(plotId: Id, salePrice: int, now: Timestamp) returns (r: Result<PlotListing>)
      ensures r.Err?
      ensures currentUserId.None? ==> r == Err(AuthenticationRequired)
      ensures currentUserId.Some? && IndexOf(db.plots, PlotId, plotId).None? ==> r == Err(PlotNotFound)
      ensures (&& currentUserId.Some? && IndexOf(db.plots, PlotId, plotId).Some?
               && db.plots[IndexOf(db.plots, PlotId, plotId).value].ownerId == currentUserId.value
               && db.plots[IndexOf(db.plots, PlotId, plotId).value].status == PlotOccupied
               && !HasActiveListing(db.plotListings, plotId)) ==> r == Err(GetUserIsNotAFunction)
    {
      if currentUserId.None? {
        return Err(AuthenticationRequired);
      }
      var u := currentUserId.value;
      var i := IndexOf(db.plots, PlotId, plotId);
      if i.None? {
        return Err(PlotNotFound);
      }
      var plot := db.plots[i.value];
      if plot.ownerId != u {
        return Err(NotPlotOwner);
      }
      if plot.status != PlotOccupied {
        return Err(PlotNotForSale);
      }
      if HasActiveListing(db.plotListings, plotId) {
        return Err(PlotAlreadyListed);
      }
      r := Err(GetUserIsNotAFunction);
    }

    /**
     * `sellPlot` with the user looked up by id (`sellerWallet` is that user's wallet address,
     * or `None` when there is no such user or the user record has no wallet address, on which
     * the original would throw when it shortens the address): the listing is created active at `salePrice` and
     * the plot is reserved, so it cannot be listed again until the listing ends.
     */
    method SellPlotCorrected(plotId: Id, salePrice: int, sellerWallet: Option<string>, listingId: Id, now: Timestamp)
      returns (r: Result<PlotListing>)
      modifies db`plotListings, db`plots
      ensures r.Err? ==> db.plotListings == old(db.plotListings) && db.plots == old(db.plots)
      ensures r.Ok? <==> && currentUserId.Some? && IndexOf(old(db.plots), PlotId, plotId).Some?
                         && old(db.plots)[IndexOf(old(db.plots), PlotId, plotId).value].ownerId == currentUserId.value
                         && old(db.plots)[IndexOf(old(db.plots), PlotId, plotId).value].status == PlotOccupied
                         && !HasActiveListing(old(db.plotListings), plotId) && sellerWallet.Some?
      ensures r.Ok? ==> var i := IndexOf(old(db.plots), PlotId, plotId).value;
                        && r.value.plotId == plotId && r.value.sellerId == currentUserId.value
                        && r.value.salePrice == salePrice && r.value.status == ListingActive
                        && r.value.originalPrice == old(db.plots)[i].price
                        && db.plotListings == old(db.plotListings) + [r.value]
                        && db.plots == old(db.plots)[i := old(db.plots)[i].(status := PlotReserved)]
                        && HasActiveListing(db.plotListings, plotId)
    {
      if currentUserId.None? {
        return Err(AuthenticationRequired);
      }
      var u := currentUserId.value;
      var i := IndexOf(db.plots, PlotId, plotId);
      if i.None? {
        return Err(PlotNotFound);
      }
      var plot := db.plots[i.value];
      if plot.ownerId != u {
        return Err(NotPlotOwner);
      }
      if plot.status != PlotOccupied {
        return Err(PlotNotForSale);
      }
      if HasActiveListing(db.plotListings, plotId) {
        return Err(PlotAlreadyListed);
      }
      if sellerWallet.None? {
        return Err(UserNotFound);
      }
      var listing := db.CreatePlotListing(PlotListing(listingId, plotId, u, Prefix8(sellerWallet.value) + "...",
                                                      plot.location, plot.city, plot.price, salePrice, now, ListingActive));
      assert db.plotListings[|db.plotListings| - 1] == listing;
      var _ := db.UpdateChargingPlot(plotId, PlotUpdate(None, Some(PlotReserved), None));
      r := Ok(listing);
    }

    /**
     * `buyPlotFromListing`: the buyer pays the sale price to the seller, the plot becomes the
     * buyer's and occupied, the listing is sold, and two transactions are recorded (minus the
     * price for the buyer, plus the price for the seller), which move the price a second
     * time: the buyer's tokens fall and the seller's rise by twice the sale price.
     */
    method BuyPlotFromListing(listingId: Id, buyerTxId: Id, sellerTxId: Id, now: Timestamp)
      returns (r: Result<ChargingPlot>)
      modifies db`balances, db`transactions, db`plots, db`plotListings
      ensures currentUserId.None? ==> r == Err(AuthenticationRequired) && db.balances == old(db.balances)
      ensures currentUserId.Some? && IndexOf(old(db.plotListings), PlotListingId, listingId).None? ==>
                r == Err(ListingNotFound) && db.balances == old(db.balances)
      ensures r.Err? ==> db.plots == old(db.plots) && db.plotListings == old(db.plotListings)
                         && db.transactions == old(db.transactions)
      ensures r.Err? && currentUserId.Some? ==> OthersKeepBalances(old(db.balances), db.balances, currentUserId.value, currentUserId.value)
      ensures r.Ok? <==> && currentUserId.Some? && IndexOf(old(db.plotListings), PlotListingId, listingId).Some?
                         && var l := old(db.plotListings)[IndexOf(old(db.plotListings), PlotListingId, listingId).value];
                         && l.status == ListingActive && l.sellerId != currentUserId.value
                         && IndexOf(old(db.plots), PlotId, l.plotId).Some?
                         && Tokens(old(db.balances), currentUserId.value) >= l.salePrice
      ensures r.Ok? ==> var u := currentUserId.value;
                        var k := IndexOf(old(db.plotListings), PlotListingId, listingId).value;
                        var l := old(db.plotListings)[k];
                        var i := IndexOf(old(db.plots), PlotId, l.plotId).value;
                        && r.value == old(db.plots)[i]
                        && Tokens(db.balances, u) == Tokens(old(db.balances), u) - 2 * l.salePrice
                        && Tokens(db.balances, l.sellerId) == Tokens(old(db.balances), l.sellerId) + 2 * l.salePrice
                        && Staked(db.balances, u) == Staked(old(db.balances), u)
                        && Staked(db.balances, l.sellerId) == Staked(old(db.balances), l.sellerId)
                        && OthersKeepBalances(old(db.balances), db.balances, u, l.sellerId)
                        && db.plots == old(db.plots)[i := r.value.(ownerId := u, status := PlotOccupied, purchasedAt := Some(now))]
                        && db.plotListings == old(db.plotListings)[k := l.(status := ListingSold)]
                        && |db.transactions| == |old(db.transactions)| + 2
    {
      if currentUserId.None? {
        return Err(AuthenticationRequired);
      }
      var u := currentUserId.value;
      var k := IndexOf(db.plotListings, PlotListingId, listingId);
      if k.None? {
        return Err(ListingNotFound);
      }
      var listing := db.plotListings[k.value];
      if listing.status != ListingActive {
        return Err(ListingNotActive);
      }
      if listing.sellerId == u {
        return Err(CannotBuyOwnListing);
      }
      var i := IndexOf(db.plots, PlotId, listing.plotId);
      if i.None? {
        return Err(PlotNotFound);
      }
      var plot := db.plots[i.value];
      var balance := db.GetTokenBalance(u, now);
      WithBalanceReportsSameAll(old(db.balances), u, now);
      if balance.tokens < listing.salePrice {
        return Err(InsufficientBuildTokens);
      }
      SettlePlotSale(u, listing.sellerId, listing.salePrice, balance.tokens, listing.plotId, listingId, plot.location,
                     buyerTxId, sellerTxId, now);
      r := Ok(plot);
    }

    /**
     * `cancelPlotListing`: the seller withdraws an active listing; it becomes cancelled and
     * the plot (if it is still in the store) returns to occupied.
     */
    method CancelPlotListing(listingId: Id) returns (r: Result<()>)
      modifies db`plotListings, db`plots
      ensures r.Err? ==> db.plotListings == old(db.plotListings) && db.plots == old(db.plots)
      ensures currentUserId.None? ==> r == Err(AuthenticationRequired)
      ensures r.Ok? <==> && currentUserId.Some? && IndexOf(old(db.plotListings), PlotListingId, listingId).Some?
                         && var l := old(db.plotListings)[IndexOf(old(db.plotListings), PlotListingId, listingId).value];
                         && l.sellerId == currentUserId.value && l.status == ListingActive
      ensures r.Ok? ==> var k := IndexOf(old(db.plotListings), PlotListingId, listingId).value;
                        var l := old(db.plotListings)[k];
                        && db.plotListings == old(db.plotListings)[k := l.(status := ListingCancelled)]
                        && match IndexOf(old(db.plots), PlotId, l.plotId)
                           case None => db.plots == old(db.plots)
                           case Some(i) => db.plots == old(db.plots)[i := old(db.plots)[i].(status := PlotOccupied)]
    {
      if currentUserId.None? {
        return Err(AuthenticationRequired);
      }
      var k := IndexOf(db.plotListings, PlotListingId, listingId);
      if k.None? {
        return Err(ListingNotFound);
      }
      var listing := db.plotListings[k.value];
      if listing.sellerId != currentUserId.value {
        return Err(NotListingOwner);
      }
      if listing.status != ListingActive {
        return Err(ListingNotActive);
      }
      var _ := db.UpdatePlotListingStatus(listingId, ListingCancelled);
      var _ := db.UpdateChargingPlot(listing.plotId, PlotUpdate(None, Some(PlotOccupied), None));
      r := Ok(());
    }

    /**
     * `installCharger`: the owner of a plot pays the install cost, the charger is created
     * with zero sessions, energy and earnings, and a transaction of minus the cost is
     * recorded, which deducts the cost a second time.
     */
    method InstallCharger(plotId: Id, name: string, chargerType: string, installCost: int,
                          chargerId: Id, txId: Id, now: Timestamp)
      returns (r: Result<EVCharger>)
      modifies db`balances, db`transactions, db`chargers
      ensures currentUserId.None? ==> r == Err(AuthenticationRequired) && db.balances == old(db.balances)
      ensures currentUserId.Some? ==> OthersKeepBalances(old(db.balances), db.balances, currentUserId.value, currentUserId.value)
      ensures r.Err? ==> db.chargers == old(db.chargers) && db.transactions == old(db.transactions)
      ensures r.Ok? <==> && currentUserId.Some? && IndexOf(old(db.plots), PlotId, plotId).Some?
                         && old(db.plots)[IndexOf(old(db.plots), PlotId, plotId).value].ownerId == currentUserId.value
                         && Tokens(old(db.balances), currentUserId.value) >= installCost
      ensures r.Ok? ==> var u := currentUserId.value;
                        && r.value == EVCharger(chargerId, plotId, u, name, chargerType, installCost, 0, 0, 0, now)
                        && db.chargers == old(db.chargers) + [r.value]
                        && Tokens(db.balances, u) == Tokens(old(db.balances), u) - 2 * installCost
                        && Staked(db.balances, u) == Staked(old(db.balances), u)
                        && |db.transactions| == |old(db.transactions)| + 1
    {
      if currentUserId.None? {
        return Err(AuthenticationRequired);
      }
      var u := currentUserId.value;
      var i := IndexOf(db.plots, PlotId, plotId);
      if i.None? {
        return Err(PlotNotFound);
      }
      if db.plots[i.value].ownerId != u {
        return Err(NotPlotOwner);
      }
      var balance := db.GetTokenBalance(u, now);
      WithBalanceReportsSameAll(old(db.balances), u, now);
      if balance.tokens < installCost {
        return Err(InsufficientTokensForInstallation);
      }
      var upd := BalanceUpdate(Some(balance.tokens - installCost), None);
      db.UpdateTokenBalance(u, upd, now);
      GetThenUpdate(old(db.balances), u, upd, now);
      var charger := db.CreateEVCharger(EVCharger(chargerId, plotId, u, name, chargerType, installCost, 0, 0, 0, now));
      var _ := db.CreateTransaction(u, TxTransferred, -installCost, "Installed " + chargerType + " charger: " + name, txId, now);
      r := Ok(charger);
    }

    /**
     * `buyPoints`: the buyer takes `bought` points from an active listing at the listing's
     * rate rounded up. Tokens move from buyer to seller, points move from seller to buyer,
     * both sides' traded counters grow, and the listing is sold when it is emptied or else
     * shrinks and is re-priced (rounded up). No token transaction is recorded; one point
     * transaction is.
     */
    method BuyPoints(listingId: Id, bought: int, pointTxId: Id, now: Timestamp) returns (r: Result<PointTransaction>)
      modifies db`balances, db`points, db`marketListings, db`pointTransactions
      ensures currentUserId.None? ==> r == Err(AuthenticationRequired) && db.balances == old(db.balances)
      ensures currentUserId.Some? && IndexOf(old(db.marketListings), MarketListingIdStatus, (listingId, ListingActive)).None? ==>
                r == Err(ListingUnavailable) && db.balances == old(db.balances)
      ensures r.Err? ==> && db.points == old(db.points) && db.marketListings == old(db.marketListings)
                         && db.pointTransactions == old(db.pointTransactions)
                         && (currentUserId.Some? ==>
                              OthersKeepBalances(old(db.balances), db.balances, currentUserId.value, currentUserId.value)
                              && Tokens(db.balances, currentUserId.value) == Tokens(old(db.balances), currentUserId.value))
      ensures r.Ok? <==> && currentUserId.Some?
                         && IndexOf(old(db.marketListings), MarketListingIdStatus, (listingId, ListingActive)).Some?
                         && var l := old(db.marketListings)[IndexOf(old(db.marketListings), MarketListingIdStatus, (listingId, ListingActive)).value];
                         && bought <= l.points && l.points != 0
                         && Tokens(old(db.balances), currentUserId.value) >= PointsCost(bought, l.points, l.buildTokens)
      ensures r.Ok? ==> var u := currentUserId.value;
                        var l := old(db.marketListings)[IndexOf(old(db.marketListings), MarketListingIdStatus, (listingId, ListingActive)).value];
                        var cost := PointsCost(bought, l.points, l.buildTokens);
                        && (forall v :: Tokens(db.balances, v) == Tokens(old(db.balances), v) - (if v == u then cost else 0)
                                                                                            + (if v == l.sellerId then cost else 0))
                        && (forall v :: Staked(db.balances, v) == Staked(old(db.balances), v))
                        && (forall v :: Points(db.points, v) == Points(old(db.points), v) + (if v == u then bought else 0)
                                                                                       - (if v == l.sellerId then bought else 0))
                        && (forall v :: Traded(db.points, v) == Traded(old(db.points), v) + (if v == u then bought else 0)
                                                                                       + (if v == l.sellerId then bought else 0))
                        && r.value == PointTransaction(pointTxId, u, l.sellerId, bought, cost, l.discount, PointBuy, now)
                        && db.pointTransactions == old(db.pointTransactions) + [r.value]
                        && var m := IndexOf(old(db.marketListings), MarketListingId, listingId).value;
                           db.marketListings == old(db.marketListings)[m := ApplyMarketUpdate(old(db.marketListings)[m],
                             if bought >= l.points then MarketUpdate(Some(ListingSold), None, None)
                             else MarketUpdate(None, Some(l.points - bought), Some(RemainingPrice(bought, l.points, l.buildTokens))))]
    {
      if currentUserId.None? {
        return Err(AuthenticationRequired);
      }
      var u := currentUserId.value;
      var a := IndexOf(db.marketListings, MarketListingIdStatus, (listingId, ListingActive));
      if a.None? {
        return Err(ListingUnavailable);
      }
      var listing := db.marketListings[a.value];
      if bought > listing.points {
        return Err(NotEnoughPointsInListing);
      }
      if listing.points == 0 {
        return Err(ListingHasNoPoints);
      }
      assert IndexOf(db.marketListings, MarketListingId, listingId).Some? by {
        assert MarketListingId(db.marketListings[a.value]) == listingId;
      }
      r := PayForPoints(u, listing, listingId, bought, pointTxId, now);
    }

    /**
     * The rest of `buyPoints` once the listing is found and large enough: the buyer's balance
     * is read (created if missing), the rounded-up cost is checked against it, and the sale is
     * settled.
     */
    method PayForPoints(u: Id, listing: MarketplaceListing, listingId: Id, bought: int, pointTxId: Id, now: Timestamp)
      returns (r: Result<PointTransaction>)
      requires IndexOf(db.marketListings, MarketListingId, listingId).Some? && listing.points != 0
      modifies db`balances, db`points, db`marketListings, db`pointTransactions
      ensures r.Ok? <==> Tokens(old(db.balances), u) >= PointsCost(bought, listing.points, listing.buildTokens)
      ensures r.Err? ==> && r == Err(InsufficientBuildTokens) && db.balances == WithBalance(old(db.balances), u, now)
                         && db.points == old(db.points) && db.marketListings == old(db.marketListings)
                         && db.pointTransactions == old(db.pointTransactions)
                         && forall v :: Tokens(db.balances, v) == Tokens(old(db.balances), v) && Staked(db.balances, v) == Staked(old(db.balances), v)
      ensures r.Ok? ==> var cost := PointsCost(bought, listing.points, listing.buildTokens);
                        && (forall v :: Tokens(db.balances, v) == Tokens(old(db.balances), v) - (if v == u then cost else 0)
                                                                                            + (if v == listing.sellerId then cost else 0))
                        && (forall v :: Staked(db.balances, v) == Staked(old(db.balances), v))
                        && (forall v :: Points(db.points, v) == Points(old(db.points), v) + (if v == u then bought else 0)
                                                                                       - (if v == listing.sellerId then bought else 0))
                        && (forall v :: Traded(db.points, v) == Traded(old(db.points), v) + (if v == u then bought else 0)
                                                                                       + (if v == listing.sellerId then bought else 0))
                        && r.value == PointTransaction(pointTxId, u, listing.sellerId, bought, cost, listing.discount, PointBuy, now)
                        && db.pointTransactions == old(db.pointTransactions) + [r.value]
                        && var m := IndexOf(old(db.marketListings), MarketListingId, listingId).value;
                           db.marketListings == old(db.marketListings)[m := ApplyMarketUpdate(old(db.marketListings)[m],
                             if bought >= listing.points then MarketUpdate(Some(ListingSold), None, None)
                             else MarketUpdate(None, Some(listing.points - bought), Some(RemainingPrice(bought, listing.points, listing.buildTokens))))]
    {
      var cost := PointsCost(bought, listing.points, listing.buildTokens);
      var buyerBalance := db.GetTokenBalance(u, now);
      WithBalanceReportsSameAll(old(db.balances), u, now);
      if buyerBalance.tokens < cost {
        return Err(InsufficientBuildTokens);
      }
      var tx := SettlePointsSale(u, listing, listingId, bought, cost, buyerBalance.tokens, pointTxId, now);
      r := Ok(tx);
    }

    /**
     * The token transfer of a sale: the buyer's tokens (already read as `buyerTokens`) are set
     * `cost` lower, then the seller's balance is read and set `cost` higher.
     */
    method TransferTokens(u: Id, s: Id, cost: int, buyerTokens: int, now: Timestamp)
      requires IndexOf(db.balances, BalanceUser, u).Some? && buyerTokens == Tokens(db.balances, u)
      modifies db`balances
      ensures forall v :: Tokens(db.balances, v) == Tokens(old(db.balances), v) - (if v == u then cost else 0)
                                                                                  + (if v == s then cost else 0)
      ensures forall v :: Staked(db.balances, v) == Staked(old(db.balances), v)
    {
      var upd := BalanceUpdate(Some(buyerTokens - cost), None);
      db.UpdateTokenBalance(u, upd, now);
      forall v
        ensures Tokens(db.balances, v) == if v == u then buyerTokens - cost else Tokens(old(db.balances), v)
        ensures Staked(db.balances, v) == Staked(old(db.balances), v)
      {
        UpdatedBalancesReport(old(db.balances), u, upd, now, v);
      }
      ghost var paid := db.balances;
      var sellerBalance := db.GetTokenBalance(s, now);
      db.UpdateTokenBalance(s, BalanceUpdate(Some(sellerBalance.tokens + cost), None), now);
      GetThenUpdate(paid, s, BalanceUpdate(Some(sellerBalance.tokens + cost), None), now);
    }

    /**
     * The settlement of `buyPlotFromListing` once its guards pass: the price moves from buyer
     * to seller, the plot is handed over, the listing is sold, and the two transactions are
     * recorded, each of which moves the price once more.
     */
    method SettlePlotSale(u: Id, s: Id, price: int, buyerTokens: int, plotId: Id, listingId: Id, location: string,
                          buyerTxId: Id, sellerTxId: Id, now: Timestamp)
      requires IndexOf(db.balances, BalanceUser, u).Some? && buyerTokens == Tokens(db.balances, u) && u != s
      modifies db`balances, db`transactions, db`plots, db`plotListings
      ensures Tokens(db.balances, u) == Tokens(old(db.balances), u) - 2 * price
      ensures Tokens(db.balances, s) == Tokens(old(db.balances), s) + 2 * price
      ensures forall v :: Staked(db.balances, v) == Staked(old(db.balances), v)
      ensures OthersKeepBalances(old(db.balances), db.balances, u, s)
      ensures match IndexOf(old(db.plots), PlotId, plotId)
              case None => db.plots == old(db.plots)
              case Some(i) => db.plots == old(db.plots)[i := ApplyPlotUpdate(old(db.plots)[i], PlotUpdate(Some(u), Some(PlotOccupied), Some(now)))]
      ensures match IndexOf(old(db.plotListings), PlotListingId, listingId)
              case None => db.plotListings == old(db.plotListings)
              case Some(k) => db.plotListings == old(db.plotListings)[k := old(db.plotListings)[k].(status := ListingSold)]
      ensures |db.transactions| == |old(db.transactions)| + 2
    {
      TransferTokens(u, s, price, buyerTokens, now);
      var _ := db.UpdateChargingPlot(plotId, PlotUpdate(Some(u), Some(PlotOccupied), Some(now)));
      var _ := db.UpdatePlotListingStatus(listingId, ListingSold);
      RecordPlotSale(u, s, price, location, buyerTxId, sellerTxId, now);
    }

    /** The two transactions of a plot sale, each of which moves the price once more. */
    method RecordPlotSale(u: Id, s: Id, price: int, location: string, buyerTxId: Id, sellerTxId: Id, now: Timestamp)
      requires u != s
      modifies db`balances, db`transactions
      ensures Tokens(db.balances, u) == Tokens(old(db.balances), u) - price
      ensures Tokens(db.balances, s) == Tokens(old(db.balances), s) + price
      ensures forall v :: Staked(db.balances, v) == Staked(old(db.balances), v)
      ensures OthersKeepBalances(old(db.balances), db.balances, u, s)
      ensures |db.transactions| == |old(db.transactions)| + 2
    {
      var _ := db.CreateTransaction(u, TxTransferred, -price, "Purchased plot from marketplace: " + location, buyerTxId, now);
      var _ := db.CreateTransaction(s, TxEarned, price, "Sold plot on marketplace: " + location, sellerTxId, now);
    }

    /**
     * The settlement of `buyPoints` once its guards pass: tokens and points change hands, the
     * listing (the first with the id) is sold or shrunk and re-priced, and the point
     * transaction is recorded.
     */
    method SettlePointsSale(u: Id, listing: MarketplaceListing, listingId: Id, bought: int, cost: int, buyerTokens: int,
                            pointTxId: Id, now: Timestamp)
      returns (tx: PointTransaction)
      requires IndexOf(db.balances, BalanceUser, u).Some? && buyerTokens == Tokens(db.balances, u)
      requires IndexOf(db.marketListings, MarketListingId, listingId).Some? && listing.points != 0
      modifies db`balances, db`points, db`marketListings, db`pointTransactions
      ensures forall v :: Tokens(db.balances, v) == Tokens(old(db.balances), v) - (if v == u then cost else 0)
                                                                                  + (if v == listing.sellerId then cost else 0)
      ensures forall v :: Staked(db.balances, v) == Staked(old(db.balances), v)
      ensures forall v :: Points(db.points, v) == Points(old(db.points), v) + (if v == u then bought else 0)
                                                                            - (if v == listing.sellerId then bought else 0)
      ensures forall v :: Traded(db.points, v) == Traded(old(db.points), v) + (if v == u then bought else 0)
                                                                            + (if v == listing.sellerId then bought else 0)
      ensures tx == PointTransaction(pointTxId, u, listing.sellerId, bought, cost, listing.discount, PointBuy, now)
      ensures db.pointTransactions == old(db.pointTransactions) + [tx]
      ensures var m := IndexOf(old(db.marketListings), MarketListingId, listingId).value;
              db.marketListings == old(db.marketListings)[m := ApplyMarketUpdate(old(db.marketListings)[m],
                if bought >= listing.points then MarketUpdate(Some(ListingSold), None, None)
                else MarketUpdate(None, Some(listing.points - bought), Some(RemainingPrice(bought, listing.points, listing.buildTokens))))]
    {
      TransferTokens(u, listing.sellerId, cost, buyerTokens, now);
      TransferPoints(u, listing.sellerId, bought, now);
      if bought >= listing.points {
        var _ := db.UpdateMarketplaceListing(listingId, MarketUpdate(Some(ListingSold), None, None));
      } else {
        var _ := db.UpdateMarketplaceListing(listingId, MarketUpdate(None, Some(listing.points - bought),
                                                                     Some(RemainingPrice(bought, listing.points, listing.buildTokens))));
      }
      tx := db.CreatePointTransaction(PointTransaction(pointTxId, u, listing.sellerId, bought, cost, listing.discount, PointBuy, now));
    }

    /** The points half of `buyPoints`: the seller gives `bought` points, then the buyer takes them; both trade them. */
    method TransferPoints(u: Id, s: Id, bought: int, now: Timestamp)
      modifies db`points
      ensures forall v :: Points(db.points, v) == Points(old(db.points), v) + (if v == u then bought else 0)
                                                                            - (if v == s then bought else 0)
      ensures forall v :: Traded(db.points, v) == Traded(old(db.points), v) + (if v == u then bought else 0)
                                                                            + (if v == s then bought else 0)
    {
      var sellerPoints := db.GetChargingPoints(s, now);
      var give := PointsUpdate(Some(sellerPoints.points - bought), None, Some(sellerPoints.traded + bought));
      db.UpdateChargingPoints(s, give, now);
      GetThenUpdatePoints(old(db.points), s, give, now);
      ghost var given := db.points;
      var buyerPoints := db.GetChargingPoints(u, now);
      var take := PointsUpdate(Some(buyerPoints.points + bought), None, Some(buyerPoints.traded + bought));
      db.UpdateChargingPoints(u, take, now);
      GetThenUpdatePoints(given, u, take, now);
    }
  }

  /** `getTokenBalance` changes no user's reported balance. */
  lemma WithBalanceReportsSameAll(bs: seq<TokenBalance>, u: Id, now: Timestamp)
    ensures forall v :: Tokens(WithBalance(bs, u, now), v) == Tokens(bs, v) && Staked(WithBalance(bs, u, now), v) == Staked(bs, v)
    ensures IndexOf(WithBalance(bs, u, now), BalanceUser, u).Some?
  {
    forall v
      ensures Tokens(WithBalance(bs, u, now), v) == Tokens(bs, v) && Staked(WithBalance(bs, u, now), v) == Staked(bs, v)
    {
      WithBalanceReportsSame(bs, u, now, v);
    }
    WithBalanceReportsSame(bs, u, now, u);
  }

  /**
   * Once the corrected `sellPlot` has listed a plot, listing it again is refused: the plot is
   * now reserved, not occupied.
   */
  method SellPlotTwiceRefused(api: LocalApiClient, plotId: Id, p1: int, p2: int, wallet: Option<string>,
                              id1: Id, id2: Id, now: Timestamp)
    returns (r1: Result<PlotListing>, r2: Result<PlotListing>)
    modifies api.db`plotListings, api.db`plots
    ensures r1.Ok? ==> r2.Err?
  {
    r1 := api.SellPlotCorrected(plotId, p1, wallet, id1, now);
    r2 := api.SellPlotCorrected(plotId, p2, wallet, id2, now);
  }
}
