/**
 Margin positions against the order book: borrowing and covering, the black-swan test, and the loop
 that fills called positions from resting orders (libraries/chain/market_evaluator.cpp,
 libraries/chain/db_update.cpp, libraries/chain/db_market.cpp).
 */
module MarginCalls {
  import opened Options
  import opened Sums
  import opened Money
  import opened SmartCoin
  import opened SettlementPool
  import LimitBook

  // ------------------------------------------------------------ the first position

  /** The index by price: the position with the least key, the oldest of equal ones. */
  function Least(calls: seq<Call>, key: Call -> Price): (i: nat)
    requires calls != []
    ensures i < |calls|
  {
    var front := calls[..|calls| - 1];
    if front == [] then 0
    else
      var i := Least(front, key);
      if key(calls[|calls| - 1]).AtLeast(key(calls[i])) then i else |calls| - 1
  }

  function CallPrice(k: Call): Price { k.callPrice }
  function Collateralization(k: Call): Price { Price(k.collateral, k.debt) }

  /** Least really finds a least element wherever prices can be compared at all. */
  lemma {:induction false} LeastIsLeast(calls: seq<Call>, key: Call -> Price, j: nat)
    requires j < |calls| && forall i | 0 <= i < |calls| :: key(calls[i]).quote > 0
    ensures key(calls[j]).AtLeast(key(calls[Least(calls, key)]))
  {
    var front, last := calls[..|calls| - 1], calls[|calls| - 1];
    if front != [] {
      var i := Least(front, key);
      var k := if j < |front| then j else i;
      LeastIsLeast(front, key, k);
      assert front[k] == calls[k] && front[i] == calls[i];
      if j < |front| && !key(last).AtLeast(key(calls[i])) { PriceTransitive(key(calls[j]), key(calls[i]), key(last)); }
    }
  }

  /** Of equal ones it is the oldest: every earlier one has a greater key. */
  lemma {:induction false} LeastIsOldest(calls: seq<Call>, key: Call -> Price, j: nat)
    requires calls != [] && j < Least(calls, key) && forall i | 0 <= i < |calls| :: key(calls[i]).quote > 0
    ensures !key(calls[Least(calls, key)]).AtLeast(key(calls[j]))
  {
    var front := calls[..|calls| - 1];
    if front != [] {
      var i := Least(front, key);
      assert front[i] == calls[i] && front[j] == calls[j];
      if Least(calls, key) == i { LeastIsOldest(front, key, j); }
      else {
        LeastIsLeast(front, key, j);
        if key(calls[|calls| - 1]).AtLeast(key(calls[j])) { PriceTransitive(key(calls[|calls| - 1]), key(calls[j]), key(calls[i])); }
      }
    }
  }

  /** A position whose call price is unchanged keeps its place. */
  lemma {:induction false} LeastSame(calls: seq<Call>, i: nat, k: Call)
    requires i < |calls| && k.callPrice == calls[i].callPrice
    ensures Least(calls[i := k], CallPrice) == Least(calls, CallPrice)
  {
    var n := |calls| - 1;
    if n > 0 {
      if i < n {
        LeastSame(calls[..n], i, k);
        assert calls[i := k][..n] == calls[..n][i := k];
      } else {
        assert calls[i := k][..n] == calls[..n];
      }
    }
  }

  // ---------------------------------------------------------------- black swans

  function Highest(c: Coin): Price
    requires c.feed.Feed?
  {
    if c.limits != [] && c.limits[0].price.AtLeast(c.feed.price) then c.limits[0].price else c.feed.price
  }

  /** Not even the best order or the feed would let the first position pay its debt. */
  predicate Insolvent(c: Coin)
  {
    && c.swan.None? && c.feed.Feed? && c.calls != []
    && Collateralization(c.calls[Least(c.calls, CallPrice)]).Inverse().AtLeast(Highest(c))
  }

  function SwanPrice(c: Coin): Price
    requires c.calls != []
  {
    Collateralization(c.calls[Least(c.calls, CallPrice)]).Inverse()
  }

  /** A black swan is there exactly when the first position could pay its debt neither at the feed nor from any order. */
  lemma InsolventExactly(c: Coin)
    requires WellFormed(c) && BestPriceFirst(c.limits) && c.swan.None? && c.feed.Feed? && c.calls != []
    ensures var k, feed := c.calls[Least(c.calls, CallPrice)], c.feed.price;
            Insolvent(c) <==>
            k.debt * feed.quote >= feed.base * k.collateral && forall o <- c.limits :: k.debt * o.price.quote >= o.price.base * k.collateral
  {
    hide Least;
    var k := c.calls[Least(c.calls, CallPrice)];
    if k.collateral == 0 {
      UnsecuredIsInsolvent(c);
    } else {
      var swan := Price(k.debt, k.collateral);
      if swan.AtLeast(Highest(c)) {
        PriceTransitive(swan, Highest(c), c.feed.price);
        forall o <- c.limits ensures swan.AtLeast(o.price) { BestIsHighest(c, o); PriceTransitive(swan, Highest(c), o.price); }
      }
    }
  }

  lemma BestIsHighest(c: Coin, o: Order)
    requires WellFormed(c) && BestPriceFirst(c.limits) && c.feed.Feed? && o in c.limits
    ensures Highest(c).quote > 0 && Highest(c).AtLeast(o.price)
  {
    var j :| 0 <= j < |c.limits| && c.limits[j] == o;
    if !c.limits[0].price.AtLeast(c.feed.price) { PriceTransitive(c.feed.price, c.limits[0].price, o.price); }
  }

  /** Settled at that price the first position gives up exactly its collateral, and any other pays the same share of its debt. */
  lemma SwanTakesAll(c: Coin, k: Call)
    requires c.calls != [] && SwanPrice(c).base > 0
    ensures var first := c.calls[Least(c.calls, CallPrice)];
            && SwanPays(first, SwanPrice(c)) == first.collateral
            && SwanPays(k, SwanPrice(c)) * first.debt <= k.debt * first.collateral
  {
    hide Least;
    var first := c.calls[Least(c.calls, CallPrice)];
    SwanPaysAll(first, SwanPrice(c));
    SwanPaysAll(k, SwanPrice(c));
    var p := SwanPays(first, SwanPrice(c));
    if p < first.collateral { MulMonotone(first.debt, p + 1, first.collateral); }
  }

  /** check_for_blackswan */
  method CheckForBlackSwan(c: Coin, enable: bool) returns (ok: bool, swan: bool, r: Coin)
    requires Solid(c)
    ensures ok <==> (Insolvent(c) ==> enable && CanSettle(c, SwanPrice(c)))
    ensures swan <==> ok && (c.swan.Some? || Insolvent(c))
    ensures r == if ok && Insolvent(c) then Settled(c, SwanPrice(c)) else c
  {
    if c.swan.Some? { return true, true, c; }
    if c.feed.NoFeed? || c.calls == [] { return true, false, c; }
    var highest := Highest(c);
    var price := SwanPrice(c);
    if !price.AtLeast(highest) { return true, false, c; }
    if !enable { return false, false, c; }
    ok, r := GloballySettle(c, price);
    swan := ok;
  }

  /** A position without collateral is insolvent at any price. */
  lemma UnsecuredIsInsolvent(c: Coin)
    requires c.swan.None? && c.feed.Feed? && c.calls != [] && c.calls[Least(c.calls, CallPrice)].collateral == 0
    ensures Insolvent(c)
  {
    assert Highest(c).base * 0 == 0;
  }

  /** Margin calls touch neither settlement requests nor bids. */
  predicate SameQueues(a: Coin, b: Coin) { a.settles == b.settles && a.bids == b.bids }

  // ------------------------------------------------------------------ one fill

  /** A called position and a resting order trade at the order's price, as much as the smaller side has. */
  function CallFill(c: Coin, i: nat, p: nat, t: Terms): Coin
    requires t.Ok() && i < |c.calls| && p < |c.limits| && c.limits[p].price.base > 0
    requires Times(Amount(c, i, p), c.limits[p].price) <= c.calls[i].collateral && c.calls[i].debt <= c.supply
  {
    var amount := Amount(c, i, p);
    var pays := Times(amount, c.limits[p].price);
    FillLimit(FillCall(c, i, pays, amount), p, amount, pays, t)
  }

  function Amount(c: Coin, i: nat, p: nat): (a: nat)
    requires i < |c.calls| && p < |c.limits|
    ensures a <= c.calls[i].debt && a <= c.limits[p].forSale
  {
    if c.calls[i].debt >= c.limits[p].forSale then c.limits[p].forSale else c.calls[i].debt
  }

  /** Positions other than the first are backed by something. */
  ghost predicate NearlySecured(c: Coin)
  {
    forall i | 0 <= i < |c.calls| && i != Least(c.calls, CallPrice) :: c.calls[i].collateral > 0
  }

  lemma AffordableFill(c: Coin, i: nat, p: nat)
    requires WellFormed(c) && i < |c.calls| && p < |c.limits|
    requires Times(c.calls[i].debt, c.limits[p].price) <= c.calls[i].collateral
    ensures Times(Amount(c, i, p), c.limits[p].price) <= c.calls[i].collateral
  {
    var price := c.limits[p].price;
    MulMonotone(price.quote, Amount(c, i, p), c.calls[i].debt);
    FloorMonotone(Amount(c, i, p) * price.quote, c.calls[i].debt * price.quote, price.base);
  }

  /** A fill keeps the books of a living coin and uses up the position or the order. */
  lemma CallFillBooks(c: Coin, i: nat, p: nat, t: Terms)
    requires Solid(c) && c.swan.None? && t.Ok() && i < |c.calls| && p < |c.limits|
    requires Times(c.calls[i].debt, c.limits[p].price) <= c.calls[i].collateral
    ensures c.calls[i].debt <= c.supply && Times(Amount(c, i, p), c.limits[p].price) <= c.calls[i].collateral
    ensures var r := CallFill(c, i, p, t);
            && Solid(r) && r.swan.None? && Backing(r) == Backing(c) && r.feed == c.feed && SameQueues(r, c)
            && |r.calls| + |r.limits| < |c.calls| + |c.limits|
            && r.calls == FillCall(c, i, Times(Amount(c, i, p), c.limits[p].price), Amount(c, i, p)).calls
  {
    hide Sum, Total, Credit, MarketFee, Times, NonNegative;
    AffordableFill(c, i, p);
    DebtsAreOwed(c, i);
    var amount := Amount(c, i, p);
    var pays := Times(amount, c.limits[p].price);
    FillCallBooks(c, i, pays, amount);
    FillLimitBooks(FillCall(c, i, pays, amount), p, amount, pays, t);
  }

  lemma FillKeepsSecured(c: Coin, pays: nat, receives: nat)
    requires c.calls != []
    requires var i := Least(c.calls, CallPrice); pays <= c.calls[i].collateral && receives <= c.calls[i].debt && receives <= c.supply
    requires Secured(c)
    ensures NearlySecured(FillCall(c, Least(c.calls, CallPrice), pays, receives))
  {
    hide Least, Credit;
    var i := Least(c.calls, CallPrice);
    var k := c.calls[i];
    if receives < k.debt { LeastSame(c.calls, i, k.(debt := k.debt - receives, collateral := k.collateral - pays)); }
  }

  // --------------------------------------------------------------- the call loop

  datatype Called = Done(coin: Coin, called: bool) | Thrown | Undefined

  /** There is an order at `p` no worse than the short-squeeze limit. */
  predicate InReach(c: Coin, p: nat)
    requires c.feed.Feed?
  {
    p < |c.limits| && c.limits[p].price.AtLeast(c.feed.squeeze)
  }

  /** With the book in order the orders in reach are exactly those in front of the first one that is not, which is where
      the index's upper bound lies. */
  lemma ReachIsPrefix(c: Coin, p: nat, q: nat)
    requires WellFormed(c) && c.feed.Feed? && c.feed.squeeze.quote > 0 && BestPriceFirst(c.limits) && q <= p && InReach(c, p)
    ensures InReach(c, q)
  {
    if q < p { PriceTransitive(c.limits[q].price, c.limits[p].price, c.feed.squeeze); }
  }

  /** The position in front is not called: the feed protects it, or the order at `p` asks too much. */
  predicate AtRest(c: Coin, p: nat)
    requires c.feed.Feed? && c.calls != []
  {
    var limit := c.calls[Least(c.calls, CallPrice)].callPrice.Inverse();
    !InReach(c, p) || !limit.AtLeast(c.feed.price) || !limit.AtLeast(c.limits[p].price)
  }

  /** Positions are called exactly like this: by an order within the short-squeeze limit, when both the order and the feed
      have fallen to the inverse of the call price. */
  lemma CalledExactly(c: Coin, p: nat)
    requires c.feed.Feed? && c.calls != []
    ensures var at, feed, limit := c.calls[Least(c.calls, CallPrice)].callPrice, c.feed.price, c.feed.squeeze;
            !AtRest(c, p) <==>
            && p < |c.limits| && c.limits[p].price.base * limit.quote >= limit.base * c.limits[p].price.quote
            && at.quote * feed.quote >= feed.base * at.base && at.quote * c.limits[p].price.quote >= c.limits[p].price.base * at.base
  {
  }

  /** No order's remainder can be too small to ask for anything. */
  ghost predicate Coarse(limits: seq<Order>)
  {
    forall i | 0 <= i < |limits| :: limits[i].price.quote >= limits[i].price.base
  }

  ghost predicate Running(c0: Coin, c: Coin, p: nat, dangling: bool)
  {
    && Solid(c) && c.swan.None? && Backing(c) == Backing(c0) && c.feed == c0.feed && SameQueues(c, c0)
    && p + |c.calls| <= |c0.calls|
    && (Secured(c0) ==> NearlySecured(c))
    && (Coarse(c0.limits) ==> Coarse(c.limits) && !dangling)
    && (BestPriceFirst(c0.limits) ==> BestPriceFirst(c.limits))
  }

  lemma Swan(c: Coin)
    requires Solid(c) && (c.swan.Some? || (Insolvent(c) && CanSettle(c, SwanPrice(c))))
    ensures var r := if c.swan.Some? then c else Settled(c, SwanPrice(c));
            && Solid(r) && Secured(r) && Backing(r) == Backing(c) && r.swan.Some? && r.calls == [] && r.feed == c.feed
            && SameQueues(r, c) && r.limits == c.limits
  {
    hide WellFormed, Backing, Held, CanSettle, Insolvent, Settled;
    if c.swan.None? { AllClosed(c, SwanPrice(c)); }
  }

  lemma AllClosed(c: Coin, price: Price)
    requires Solid(c) && CanSettle(c, price)
    ensures var r := Settled(c, price);
            && Solid(r) && Secured(r) && Backing(r) == Backing(c) && r.swan.Some? && r.calls == [] && r.feed == c.feed
            && SameQueues(r, c) && r.limits == c.limits
  {
    hide Solid, WellFormed, Backing, Held, CanSettle;
    SettledBooks(c, price);
  }

  lemma Begins(c: Coin)
    requires Solid(c) && c.swan.None?
    ensures Running(c, c, 0, false)
  {
  }

  lemma Solvent(c0: Coin, c: Coin, p: nat, dangling: bool)
    requires Running(c0, c, p, dangling) && c.feed.Feed? && !Insolvent(c)
    ensures Secured(c0) ==> Secured(c)
  {
    hide Solid, Backing, Insolvent, Coarse, Least;
    if c.calls != [] && c.calls[Least(c.calls, CallPrice)].collateral == 0 { UnsecuredIsInsolvent(c); }
  }

  lemma Sizes(c: Coin, i: nat, p: nat)
    requires Solid(c) && c.swan.None? && i < |c.calls| && p < |c.limits|
    ensures c.limits[p].price.base > 0 && c.calls[i].debt <= c.supply && (c.feed.Feed? ==> c.feed.price.base > 0)
  {
    DebtsAreOwed(c, i);
  }

  lemma FillStep(c0: Coin, c: Coin, p: nat, filledLimit: bool, t: Terms)
    requires Running(c0, c, p, false) && (Secured(c0) ==> Secured(c)) && t.Ok() && c.calls != [] && p < |c.limits|
    requires var k := c.calls[Least(c.calls, CallPrice)];
             && c.limits[p].price.base > 0
             && (k.debt >= c.limits[p].forSale ==> filledLimit) && Times(k.debt, c.limits[p].price) <= k.collateral
    ensures var i := Least(c.calls, CallPrice);
            && c.calls[i].debt <= c.supply && Times(Amount(c, i, p), c.limits[p].price) <= c.calls[i].collateral
            && var r := CallFill(c, i, p, t);
               && |r.calls| + |r.limits| < |c.calls| + |c.limits|
               && (if |r.limits| < |c.limits| then Running(c0, r, p, !filledLimit)
                   else if filledLimit then Running(c0, r, p + 1, false) else Running(c0, r, p, false))
  {
    hide Solid, WellFormed, Backing, Coarse, NearlySecured, Secured, CallFill, Times, BestPriceFirst;
    var i := Least(c.calls, CallPrice);
    CallFillBooks(c, i, p, t);
    LimitAfter(c, i, p, t);
    if Secured(c0) {
      var amount := Amount(c, i, p);
      FillKeepsSecured(c, Times(amount, c.limits[p].price), amount);
      SameCalls(FillCall(c, i, Times(amount, c.limits[p].price), amount), CallFill(c, i, p, t));
    }
  }

  lemma SameCalls(a: Coin, b: Coin)
    requires a.calls == b.calls && NearlySecured(a)
    ensures NearlySecured(b)
  {
  }

  /** What becomes of the order: it leaves the book when used up or when its remainder is too small. */
  lemma LimitAfter(c: Coin, i: nat, p: nat, t: Terms)
    requires t.Ok() && i < |c.calls| && p < |c.limits| && c.limits[p].price.base > 0
    requires Times(Amount(c, i, p), c.limits[p].price) <= c.calls[i].collateral && c.calls[i].debt <= c.supply
    ensures var r, whole := CallFill(c, i, p, t), c.calls[i].debt >= c.limits[p].forSale;
            && |r.calls| <= |c.calls| && |r.limits| <= |c.limits|
            && (whole ==> |r.limits| < |c.limits|) && (!whole ==> |r.calls| < |c.calls|)
            && (Coarse(c.limits) ==> Coarse(r.limits) && (|r.limits| < |c.limits| ==> whole))
            && (BestPriceFirst(c.limits) ==> BestPriceFirst(r.limits))
  {
    hide Times, Credit, MarketFee, BestPriceFirst;
    if BestPriceFirst(c.limits) {
      WithoutOne(c.limits, p);
      if c.calls[i].debt < c.limits[p].forSale {
        WithLess(c.limits, p, c.limits[p].(forSale := c.limits[p].forSale - c.calls[i].debt));
      }
    }
    if Coarse(c.limits) && c.calls[i].debt < c.limits[p].forSale {
      NeverSmall(c.limits[p].forSale - c.calls[i].debt, c.limits[p].price);
    }
  }

  lemma WithoutOne(limits: seq<Order>, p: nat)
    requires p < |limits| && BestPriceFirst(limits)
    ensures BestPriceFirst(limits[..p] + limits[p + 1..])
  {
  }

  lemma WithLess(limits: seq<Order>, p: nat, o: Order)
    requires p < |limits| && o.price == limits[p].price && o.id == limits[p].id && BestPriceFirst(limits)
    ensures BestPriceFirst(limits[p := o])
  {
  }

  lemma NeverSmall(rest: nat, price: Price)
    requires price.base > 0 && price.quote >= price.base && rest > 0
    ensures Times(rest, price) > 0
  {
    MulMonotone(rest, price.base, price.quote);
    assert price.base * 1 <= price.base * rest;
    FloorIsGreatest(rest * price.quote, price.base, 1);
  }

  /** One margin call: the first position, still solvent, is called by the feed and by an order in reach whose price it can
      pay, and trades with that order at that price. */
  ghost predicate MarginCall(c: Coin, r: Coin, p: nat, t: Terms)
  {
    && t.Ok() && c.swan.None? && c.feed.Feed? && c.calls != [] && !Insolvent(c) && p < |c.limits| && !AtRest(c, p)
    && var i := Least(c.calls, CallPrice);
       && c.limits[p].price.base > 0 && c.calls[i].debt <= c.supply
       && Times(c.calls[i].debt, c.limits[p].price) <= c.calls[i].collateral
       && Times(Amount(c, i, p), c.limits[p].price) <= c.calls[i].collateral
       && r == CallFill(c, i, p, t)
  }

  /** The borrower has paid collateral for an amount of its debt, the seller has given up that amount and got the payment less
      the fee, and nobody else is touched. */
  ghost predicate CallMoved(c: Coin, r: Coin, k: Call, o: Order, amount: nat, pays: nat, fee: nat, who: Account)
  {
    && Owns(r, who) == Owns(c, who) - (if k.borrower == who then pays else 0) + (if o.seller == who then pays - fee else 0)
    && Holds(r, who) == Holds(c, who) - (if o.seller == who then amount else 0)
    && Owing(r, who) == Owing(c, who) - (if k.borrower == who then amount else 0)
  }

  /** Who pays whom in a margin call: the first position trades with the order at the order's price, as much as the smaller of
      them has. */
  lemma MarginCallMoves(c: Coin, r: Coin, p: nat, t: Terms) returns (amount: nat, pays: nat, fee: nat)
    requires MarginCall(c, r, p, t)
    ensures var k, o := c.calls[Least(c.calls, CallPrice)], c.limits[p];
            && amount <= k.debt && amount <= o.forSale && (amount == k.debt || amount == o.forSale)
            && o.price.base * pays <= amount * o.price.quote < o.price.base * (pays + 1) && IsFee(t.backFee, pays, fee)
            && (forall who: Account :: CallMoved(c, r, k, o, amount, pays, fee, who))
            && r.backFees == c.backFees + fee && r.supply == c.supply - amount
  {
    hide Least, Insolvent, AtRest, CallMoved, CallFill, Times, MarketFee, IsFee;
    var i := Least(c.calls, CallPrice);
    var price := c.limits[p].price;
    amount := Amount(c, i, p);
    pays := Times(amount, price);
    fee := MarketFee(t.backFee, pays);
    TimesIsGreatest(amount, price, pays);
    TimesIsGreatest(amount, price, pays + 1);
    FeeIsGreatest(t.backFee, pays);
    forall who: Account ensures CallMoved(c, r, c.calls[i], c.limits[p], amount, pays, fee, who) { MovesFor(c, i, p, t, who); }
    MovesFor(c, i, p, t, 0);
  }

  lemma MovesFor(c: Coin, i: nat, p: nat, t: Terms, who: Account)
    requires t.Ok() && i < |c.calls| && p < |c.limits| && c.limits[p].price.base > 0
    requires Times(Amount(c, i, p), c.limits[p].price) <= c.calls[i].collateral && c.calls[i].debt <= c.supply
    ensures var r, amount := CallFill(c, i, p, t), Amount(c, i, p);
            var pays := Times(amount, c.limits[p].price);
            var fee := MarketFee(t.backFee, pays);
            && CallMoved(c, r, c.calls[i], c.limits[p], amount, pays, fee, who)
            && r.backFees == c.backFees + fee && r.supply == c.supply - amount
  {
    hide Owns, Holds, Owing, FillLimit, Times, MarketFee, FillCall, Amount;
    var amount := Amount(c, i, p);
    var pays := Times(amount, c.limits[p].price);
    var d := FillCall(c, i, pays, amount);
    Filled(c, i, pays, amount);
    FillCallAccounts(c, i, pays, amount, who);
    FillLimitAccounts(d, p, amount, pays, t, who);
    FillLimitSupply(d, p, amount, pays, t);
  }

  lemma Filled(c: Coin, i: nat, pays: nat, amount: nat)
    requires i < |c.calls| && pays <= c.calls[i].collateral && amount <= c.calls[i].debt && amount <= c.supply
    ensures FillCall(c, i, pays, amount).limits == c.limits && FillCall(c, i, pays, amount).supply == c.supply - amount
  {
  }

  /** Margin calls leave everybody at most one position. */
  lemma {:induction false} TraceKeepsOne(c0: Coin, c: Coin, trace: seq<Coin>, t: Terms)
    requires Trace(c0, c, trace, t) && OnePositionEach(c0)
    ensures forall d <- trace :: OnePositionEach(d)
    decreases |trace|
  {
    hide MarginCalled, OnePositionEach;
    var n := |trace| - 1;
    if n > 0 {
      var front := trace[..n];
      assert forall i | 0 <= i < n :: front[i] == trace[i];
      TraceKeepsOne(c0, front[n - 1], front, t);
      assert trace[n - 1] in front && MarginCalled(trace[n - 1], trace[n - 1 + 1], t);
      MarginCallKeepsOne(trace[n - 1], trace[n], t);
      forall d <- trace ensures OnePositionEach(d) { if d !in front { assert d == trace[n]; } }
    }
  }

  lemma MarginCallKeepsOne(c: Coin, r: Coin, t: Terms)
    requires MarginCalled(c, r, t) && OnePositionEach(c)
    ensures OnePositionEach(r)
  {
    hide Least, Insolvent, AtRest, Times, MarketFee, Credit, FillCall;
    var p: nat :| MarginCall(c, r, p, t);
    var i := Least(c.calls, CallPrice);
    var amount := Amount(c, i, p);
    FillCallKeepsOne(c, i, Times(amount, c.limits[p].price), amount);
  }

  lemma SwanKeepsOne(c: Coin, r: Coin)
    requires SwanAfter(c, r) && OnePositionEach(c)
    ensures OnePositionEach(r)
  {
    hide Insolvent, Overdrawn, SwanPrice;
  }

  lemma FillLimitSupply(c: Coin, j: nat, pays: nat, receives: nat, t: Terms)
    requires t.Ok() && j < |c.limits| && pays <= c.limits[j].forSale && c.limits[j].price.base > 0
    ensures FillLimit(c, j, pays, receives, t).supply == c.supply
  {
  }

  /** A called position that could not pay the order's price for all its debt. */
  ghost predicate Overdrawn(c: Coin, p: nat)
  {
    && c.feed.Feed? && c.calls != [] && p < |c.limits| && !AtRest(c, p) && c.limits[p].price.base > 0
    && var k := c.calls[Least(c.calls, CallPrice)]; Times(k.debt, c.limits[p].price) > k.collateral
  }

  ghost predicate MarginCalled(c: Coin, r: Coin, t: Terms) { exists p: nat :: MarginCall(c, r, p, t) }

  /** Nothing but margin calls leads from `c0` to `c`. */
  ghost predicate Trace(c0: Coin, c: Coin, trace: seq<Coin>, t: Terms)
  {
    && trace != [] && trace[0] == c0 && trace[|trace| - 1] == c
    && forall i | 0 <= i < |trace| - 1 :: MarginCalled(trace[i], trace[i + 1], t)
  }

  /** Why a coin may be found settled: it was already, its first position is insolvent, or one is overdrawn. */
  ghost predicate SwanAfter(c: Coin, r: Coin)
  {
    || (c.swan.Some? && r == c)
    || (Insolvent(c) && SwanPrice(c).base > 0 && r == Settled(c, SwanPrice(c)))
    || (c.feed.Feed? && c.feed.price.base > 0 && (exists p: nat :: Overdrawn(c, p)) && r == Settled(c, c.feed.price))
  }

  /** What makes the loop throw: a black swan that is not allowed or not payable, or a price too large for the debt. */
  ghost predicate Refused(c: Coin, p: nat, enable: bool)
  {
    || (Insolvent(c) && !(enable && CanSettle(c, SwanPrice(c))))
    || (c.feed.Feed? && c.calls != [] && p < |c.limits| && !AtRest(c, p) && c.limits[p].price.base > 0
        && Times(c.calls[Least(c.calls, CallPrice)].debt, c.limits[p].price) > MAX_SHARES)
    || (Overdrawn(c, p) && !(enable && CanSettle(c, c.feed.price)))
  }

  /** The last order traded with was taken out of the book although it was not used up. */
  ghost predicate Undercut(trace: seq<Coin>, t: Terms)
  {
    |trace| >= 2 && UndercutBy(trace[|trace| - 2], trace[|trace| - 1], t)
  }

  ghost predicate UndercutBy(c: Coin, r: Coin, t: Terms) { exists p: nat :: UndercutAt(c, r, p, t) }

  ghost predicate UndercutAt(c: Coin, r: Coin, p: nat, t: Terms)
  {
    MarginCall(c, r, p, t) && c.calls[Least(c.calls, CallPrice)].debt < c.limits[p].forSale && |r.limits| < |c.limits|
  }

  lemma TraceGrows(c0: Coin, c: Coin, trace: seq<Coin>, r: Coin, p: nat, t: Terms)
    requires Trace(c0, c, trace, t) && MarginCall(c, r, p, t)
    ensures Trace(c0, r, trace + [r], t)
  {
    hide MarginCall;
    assert MarginCalled(c, r, t);
  }

  // -------------------------------------------------------- the loop as a function

  /** Where the loop ends, and the place in the book it has come to. */
  datatype Ended = Ended(out: Called, place: nat)

  /** The first position, still solvent, is called by the order at `p` and can pay it for all its debt. */
  predicate Trades(c: Coin, p: nat)
  {
    && c.swan.None? && c.feed.Feed? && c.calls != [] && !Insolvent(c) && !AtRest(c, p) && c.limits[p].price.base > 0
    && var k := c.calls[Least(c.calls, CallPrice)];
       Times(k.debt, c.limits[p].price) <= MAX_SHARES && Times(k.debt, c.limits[p].price) <= k.collateral
  }

  ghost function SettleAt(c: Coin, price: Price, enable: bool, called: bool): Called
  {
    if enable && CanSettle(c, price) then Done(Settled(c, price), called) else Thrown
  }

  /** How the loop ends when there is no trade. */
  ghost function Stops(c: Coin, p: nat, dangling: bool, enable: bool, called: bool): Called
    requires Solid(c) && c.swan.None? && c.feed.Feed?
  {
    if Insolvent(c) then SettleAt(c, SwanPrice(c), enable, called)
    else if c.calls == [] then Done(c, called)
    else if dangling then Undefined
    else if AtRest(c, p) then Done(c, called)
    else if Times(c.calls[Least(c.calls, CallPrice)].debt, c.limits[p].price) > MAX_SHARES then Thrown
    else SettleAt(c, c.feed.price, enable, true)
  }

  /** The loop of check_call_orders: `used` is the flag for a filled order, never cleared, and `dangling` says that the
      iterator is left on a removed order. */
  ghost function Loop(c: Coin, p: nat, used: bool, dangling: bool, enable: bool, called: bool, t: Terms): Ended
    requires Solid(c) && c.swan.None? && c.feed.Feed? && t.Ok()
    decreases |c.calls| + |c.limits|
  {
    if dangling || !Trades(c, p) then Ended(Stops(c, p, dangling, enable, called), p)
    else
      var i := Least(c.calls, CallPrice);
      CallFillBooks(c, i, p, t);
      var r, now := CallFill(c, i, p, t), used || c.calls[i].debt >= c.limits[p].forSale;
      if |r.limits| < |c.limits| then Loop(r, p, now, !now, enable, true, t)
      else Loop(r, if now then p + 1 else p, now, false, enable, true, t)
  }

  /** The loop as its comment describes it: the first position always meets the best order. */
  ghost function Ideal(c: Coin, enable: bool, called: bool, t: Terms): Called
    requires Solid(c) && c.swan.None? && c.feed.Feed? && t.Ok()
    decreases |c.calls| + |c.limits|
  {
    if !Trades(c, 0) then Stops(c, 0, false, enable, called)
    else
      var i := Least(c.calls, CallPrice);
      CallFillBooks(c, i, 0, t);
      Ideal(CallFill(c, i, 0, t), enable, true, t)
  }

  /** In it, some order outlives a fill that comes after another order was used up. */
  ghost predicate Outlives(c: Coin, used: bool, t: Terms)
    requires Solid(c) && c.swan.None? && c.feed.Feed? && t.Ok()
    decreases |c.calls| + |c.limits|
  {
    && Trades(c, 0)
    && var i := Least(c.calls, CallPrice);
       CallFillBooks(c, i, 0, t);
       var r, whole := CallFill(c, i, 0, t), c.calls[i].debt >= c.limits[0].forSale;
       (used && |r.limits| == |c.limits|) || Outlives(r, used || whole, t)
  }

  lemma {:induction false} PlaceGrows(c: Coin, p: nat, used: bool, dangling: bool, enable: bool, called: bool, t: Terms)
    requires Solid(c) && c.swan.None? && c.feed.Feed? && t.Ok()
    ensures Loop(c, p, used, dangling, enable, called, t).place >= p
    ensures used && !dangling ==> !Loop(c, p, used, dangling, enable, called, t).out.Undefined?
    decreases |c.calls| + |c.limits|
  {
    hide Solid, Stops, Trades, CallFill, Times, Insolvent, Least;
    if !dangling && Trades(c, p) {
      Tradable(c, p);
      var i := Least(c.calls, CallPrice);
      CallFillBooks(c, i, p, t);
      var r, now := CallFill(c, i, p, t), used || c.calls[i].debt >= c.limits[p].forSale;
      if |r.limits| < |c.limits| { PlaceGrows(r, p, now, !now, enable, true, t); }
      else { PlaceGrows(r, if now then p + 1 else p, now, false, enable, true, t); }
    } else {
      StopsDefined(c, p, dangling, enable, called);
    }
  }

  lemma Tradable(c: Coin, p: nat)
    requires Trades(c, p)
    ensures c.calls != [] && p < |c.limits| && c.limits[p].price.base > 0 && !AtRest(c, p) && !Insolvent(c)
    ensures var k := c.calls[Least(c.calls, CallPrice)];
            Times(k.debt, c.limits[p].price) <= MAX_SHARES && Times(k.debt, c.limits[p].price) <= k.collateral
  {
  }

  lemma StopsDefined(c: Coin, p: nat, dangling: bool, enable: bool, called: bool)
    requires Solid(c) && c.swan.None? && c.feed.Feed?
    ensures Stops(c, p, dangling, enable, called).Undefined? <==> dangling && c.calls != [] && !Insolvent(c)
    ensures dangling && !Stops(c, p, dangling, enable, called).Undefined? ==> Stops(c, p, dangling, enable, called) == Stops(c, 0, false, enable, called) && !Trades(c, 0)
  {
    hide Solid, CanSettle, Settled, Times;
  }

  /** Unless an iterator is left dangling, the loop does what it should and stays at the best order exactly when no order
      outlives such a fill. */
  lemma {:induction false} LoopIsIdeal(c: Coin, used: bool, enable: bool, called: bool, t: Terms)
    requires Solid(c) && c.swan.None? && c.feed.Feed? && t.Ok()
    ensures var e := Loop(c, 0, used, false, enable, called, t);
            !e.out.Undefined? ==> (e.place == 0 <==> !Outlives(c, used, t)) && (e.place == 0 ==> e.out == Ideal(c, enable, called, t))
    decreases |c.calls| + |c.limits|
  {
    hide Solid, Stops, Trades, CallFill, Times, Insolvent, Least;
    if Trades(c, 0) {
      Tradable(c, 0);
      var i := Least(c.calls, CallPrice);
      CallFillBooks(c, i, 0, t);
      LimitAfter(c, i, 0, t);
      var r, now := CallFill(c, i, 0, t), used || c.calls[i].debt >= c.limits[0].forSale;
      if |r.limits| < |c.limits| && !now {
        StopsDefined(r, 0, true, enable, true);
        if !Stops(r, 0, true, enable, true).Undefined? { LoopIsIdeal(r, false, enable, true, t); }
      } else if |r.limits| == |c.limits| && used {
        PlaceGrows(r, 1, true, false, enable, true, t);
      } else {
        LoopIsIdeal(r, now, enable, true, t);
      }
    }
  }

  /** A fill of the best order leaves the others as they are, and of that order what was not bought. */
  lemma RestOfBook(c: Coin, i: nat, t: Terms)
    requires t.Ok() && i < |c.calls| && c.limits != [] && c.limits[0].price.base > 0
    requires Times(Amount(c, i, 0), c.limits[0].price) <= c.calls[i].collateral && c.calls[i].debt <= c.supply
    ensures var r := CallFill(c, i, 0, t);
            r.limits == if |r.limits| < |c.limits| then c.limits[1..] else c.limits[0 := c.limits[0].(forSale := c.limits[0].forSale - c.calls[i].debt)]
  {
    hide Times, Credit, MarketFee;
  }

  /** With a single order in reach no order outlives such a fill, whatever the positions are. */
  lemma {:induction false} OneOrderInReach(c: Coin, t: Terms)
    requires Solid(c) && c.swan.None? && c.feed.Feed? && t.Ok() && !InReach(c, 1)
    ensures !Outlives(c, false, t)
    decreases |c.calls| + |c.limits|
  {
    hide Solid, CallFill, Times, Insolvent, Least;
    if Trades(c, 0) {
      Tradable(c, 0);
      var i := Least(c.calls, CallPrice);
      CallFillBooks(c, i, 0, t);
      LimitAfter(c, i, 0, t);
      RestOfBook(c, i, t);
      var r := CallFill(c, i, 0, t);
      if |r.limits| < |c.limits| { assert !InReach(r, 0); } else { OneOrderInReach(r, t); }
    }
  }

  /** Nor does one when the best order sells at least what all positions together owe and no remainder is too small. */
  lemma {:induction false} BestOrderCovers(c: Coin, t: Terms)
    requires Solid(c) && c.swan.None? && c.feed.Feed? && t.Ok() && Coarse(c.limits)
    requires c.limits != [] && Sum(Debt, c.calls) <= c.limits[0].forSale
    ensures !Outlives(c, false, t)
    decreases |c.calls| + |c.limits|
  {
    hide CallFill, FillCall, Times, Insolvent, Least, Sum, Held, Backed;
    if Trades(c, 0) {
      Tradable(c, 0);
      var i := Least(c.calls, CallPrice);
      CallFillBooks(c, i, 0, t);
      LimitAfter(c, i, 0, t);
      RestOfBook(c, i, t);
      var r, amount := CallFill(c, i, 0, t), Amount(c, i, 0);
      FillCallBooks(c, i, Times(amount, c.limits[0].price), amount);
      DebtsAreOwed(c, i);
      if |r.limits| < |c.limits| {
        if r.calls != [] { DebtsAreOwed(r, 0); }
      } else {
        BestOrderCovers(r, t);
      }
    }
  }

  // ------------------------------------------- when the iterator is left dangling

  /** The positions as the index by call price lists them. */
  function ByPrice(calls: seq<Call>): (s: seq<Call>)
    ensures |s| == |calls|
    decreases |calls|
  {
    if calls == [] then []
    else
      var i := Least(calls, CallPrice);
      [calls[i]] + ByPrice(calls[..i] + calls[i + 1..])
  }

  function Owed(calls: seq<Call>, n: nat): int
    requires n <= |calls|
  {
    Sum(Debt, ByPrice(calls)[..n])
  }

  /** So much bought from an order leaves something of it, but nothing worth a unit. */
  predicate Scrap(o: Order, bought: int)
  {
    o.price.base > 0 && 0 <= bought < o.forSale && Times(o.forSale - bought, o.price) == 0
  }

  /** Neither the feed nor the best order would let this position pay its debt. */
  predicate Sinks(c: Coin, k: Call)
    requires c.feed.Feed?
  {
    Collateralization(k).Inverse().AtLeast(Highest(c))
  }

  /** The best order calls this solvent position, which can pay for all its debt. */
  predicate Callable(c: Coin, k: Call)
    requires c.feed.Feed?
  {
    && InReach(c, 0) && c.limits[0].price.base > 0 && !Sinks(c, k)
    && k.callPrice.Inverse().AtLeast(c.feed.price) && k.callPrice.Inverse().AtLeast(c.limits[0].price)
    && Times(k.debt, c.limits[0].price) <= MAX_SHARES && Times(k.debt, c.limits[0].price) <= k.collateral
  }

  /** The first `n` positions are callable and use up the best order all but a scrap, fewer do not, and the next one is
      solvent without that order. */
  ghost predicate StrandsAt(c: Coin, n: nat)
    requires c.feed.Feed?
  {
    && c.limits != [] && 0 < n < |c.calls|
    && (forall j | 0 <= j < n :: Callable(c, ByPrice(c.calls)[j]))
    && Scrap(c.limits[0], Owed(c.calls, n)) && (forall j | 0 < j < n :: !Scrap(c.limits[0], Owed(c.calls, j)))
    && !Sinks(c.(limits := c.limits[1..]), ByPrice(c.calls)[n])
  }

  ghost predicate Strands(c: Coin)
  {
    c.swan.None? && c.feed.Feed? && exists n: nat :: StrandsAt(c, n)
  }

  lemma FirstIsLeast(c: Coin)
    requires c.swan.None? && c.feed.Feed? && c.calls != []
    ensures ByPrice(c.calls)[0] == c.calls[Least(c.calls, CallPrice)]
    ensures Insolvent(c) <==> Sinks(c, ByPrice(c.calls)[0])
    ensures Trades(c, 0) <==> Callable(c, ByPrice(c.calls)[0])
  {
  }

  /** A position bought out by the best order: the next ones move up. */
  lemma BoughtOut(c: Coin, t: Terms)
    requires Solid(c) && t.Ok() && Trades(c, 0) && c.calls[Least(c.calls, CallPrice)].debt < c.limits[0].forSale
    ensures var i := Least(c.calls, CallPrice);
            var k, o := c.calls[i], c.limits[0];
            && c.calls[i].debt <= c.supply && Times(Amount(c, i, 0), o.price) <= k.collateral
            && var r := CallFill(c, i, 0, t);
               && r.calls == c.calls[..i] + c.calls[i + 1..] && r.feed == c.feed && r.swan.None?
               && r.limits == if Scrap(o, k.debt) then c.limits[1..] else c.limits[0 := o.(forSale := o.forSale - k.debt)]
  {
    hide Solid, Times, Credit, MarketFee;
    var i := Least(c.calls, CallPrice);
    CallFillBooks(c, i, 0, t);
    assert c.limits[..0] + c.limits[1..] == c.limits[1..];
  }

  lemma FirstThenRest(calls: seq<Call>)
    requires calls != []
    ensures var i := Least(calls, CallPrice); ByPrice(calls) == [calls[i]] + ByPrice(calls[..i] + calls[i + 1..])
  {
  }

  lemma {:induction false} OwedShifts(calls: seq<Call>, n: nat)
    requires 0 < n <= |calls|
    ensures var i := Least(calls, CallPrice);
            Owed(calls, n) == calls[i].debt + Owed(calls[..i] + calls[i + 1..], n - 1)
  {
    hide Least, Sum, ByPrice;
    FirstThenRest(calls);
    var i := Least(calls, CallPrice);
    var s, rest := ByPrice(calls), ByPrice(calls[..i] + calls[i + 1..]);
    assert s[..n] == [calls[i]] + rest[..n - 1];
    SumConcat(Debt, [calls[i]], rest[..n - 1]);
    OneCall(calls[i]);
  }

  lemma OwedSome(calls: seq<Call>, n: nat)
    requires n <= |calls|
    ensures Owed(calls, n) >= 0
  {
    SumNonNegative(Debt, ByPrice(calls)[..n]);
  }

  /** A best order that only sells less calls the same positions, and leaves the same book behind it. */
  lemma SamePrices(c: Coin, r: Coin, k: Call)
    requires c.feed.Feed? && r.feed == c.feed && c.limits != [] && r.limits != []
    requires r.limits[0].price == c.limits[0].price && r.limits[1..] == c.limits[1..]
    ensures Callable(r, k) <==> Callable(c, k)
    ensures Sinks(r.(limits := r.limits[1..]), k) <==> Sinks(c.(limits := c.limits[1..]), k)
  {
    hide Times;
  }

  lemma {:induction false} SameScrap(c: Coin, r: Coin, j: nat)
    requires c.calls != [] && c.limits != [] && j < |c.calls|
    requires var i := Least(c.calls, CallPrice);
             var k, o := c.calls[i], c.limits[0];
             k.debt < o.forSale && r.calls == c.calls[..i] + c.calls[i + 1..] && r.limits == c.limits[0 := o.(forSale := o.forSale - k.debt)]
    ensures Scrap(r.limits[0], Owed(r.calls, j)) <==> Scrap(c.limits[0], Owed(c.calls, j + 1))
  {
    hide Times, Owed, Least;
    OwedShifts(c.calls, j + 1);
    OwedSome(r.calls, j);
  }

  /** After such a purchase the book strands one position sooner. */
  lemma {:induction false} StrandsSooner(c: Coin, r: Coin, n: nat)
    requires WellFormed(c) && c.feed.Feed? && r.feed == c.feed && c.calls != [] && c.limits != [] && n > 0 && Callable(c, ByPrice(c.calls)[0])
    requires var i := Least(c.calls, CallPrice);
             var k, o := c.calls[i], c.limits[0];
             && k.debt < o.forSale && !Scrap(o, k.debt)
             && r.calls == c.calls[..i] + c.calls[i + 1..] && r.limits == c.limits[0 := o.(forSale := o.forSale - k.debt)]
    ensures StrandsAt(c, n + 1) <==> StrandsAt(r, n)
  {
    hide Callable, Sinks, Times, Owed, Least, WellFormed, ByPrice, Scrap;
    FirstThenRest(c.calls);
    var o, s := c.limits[0], ByPrice(c.calls);
    if n < |r.calls| {
      forall j | 0 <= j < |r.calls| ensures Callable(r, ByPrice(r.calls)[j]) <==> Callable(c, s[j + 1]) { SamePrices(c, r, s[j + 1]); }
      SamePrices(c, r, s[n + 1]);
      forall j | 0 <= j < |r.calls| ensures Scrap(r.limits[0], Owed(r.calls, j)) <==> Scrap(o, Owed(c.calls, j + 1)) { SameScrap(c, r, j); }
      OwedFirst(c.calls);
      if StrandsAt(r, n) { Later(c, r, n); }
      if StrandsAt(c, n + 1) { Sooner(c, r, n); }
    }
  }

  lemma Later(c: Coin, r: Coin, n: nat)
    requires c.feed.Feed? && r.feed.Feed? && c.limits != [] && |c.calls| == |r.calls| + 1 && StrandsAt(r, n) && Callable(c, ByPrice(c.calls)[0])
    requires ByPrice(c.calls)[1..] == ByPrice(r.calls) && !Scrap(c.limits[0], Owed(c.calls, 1))
    requires forall j | 0 <= j < |r.calls| :: Callable(r, ByPrice(r.calls)[j]) <==> Callable(c, ByPrice(c.calls)[j + 1])
    requires forall j | 0 <= j < |r.calls| :: Scrap(r.limits[0], Owed(r.calls, j)) <==> Scrap(c.limits[0], Owed(c.calls, j + 1))
    requires Sinks(r.(limits := r.limits[1..]), ByPrice(r.calls)[n]) <==> Sinks(c.(limits := c.limits[1..]), ByPrice(c.calls)[n + 1])
    ensures StrandsAt(c, n + 1)
  {
    hide Callable, Sinks, Owed, Scrap, ByPrice;
    forall j | 0 <= j < n + 1 ensures Callable(c, ByPrice(c.calls)[j]) {
      if j > 0 { assert Callable(r, ByPrice(r.calls)[j - 1]); }
    }
    forall j | 0 < j < n + 1 ensures !Scrap(c.limits[0], Owed(c.calls, j)) {
      if j > 1 { assert !Scrap(r.limits[0], Owed(r.calls, j - 1)); }
    }
  }

  lemma Sooner(c: Coin, r: Coin, n: nat)
    requires c.feed.Feed? && r.feed.Feed? && c.limits != [] && r.limits != [] && |c.calls| == |r.calls| + 1 && n > 0 && StrandsAt(c, n + 1)
    requires ByPrice(c.calls)[1..] == ByPrice(r.calls)
    requires forall j | 0 <= j < |r.calls| :: Callable(r, ByPrice(r.calls)[j]) <==> Callable(c, ByPrice(c.calls)[j + 1])
    requires forall j | 0 <= j < |r.calls| :: Scrap(r.limits[0], Owed(r.calls, j)) <==> Scrap(c.limits[0], Owed(c.calls, j + 1))
    requires Sinks(r.(limits := r.limits[1..]), ByPrice(r.calls)[n]) <==> Sinks(c.(limits := c.limits[1..]), ByPrice(c.calls)[n + 1])
    ensures StrandsAt(r, n)
  {
    hide Callable, Sinks, Owed, Scrap, ByPrice;
    forall j | 0 <= j < n ensures Callable(r, ByPrice(r.calls)[j]) { assert Callable(c, ByPrice(c.calls)[j + 1]); }
    forall j | 0 < j < n ensures !Scrap(r.limits[0], Owed(r.calls, j)) { assert !Scrap(c.limits[0], Owed(c.calls, j + 1)); }
  }

  lemma OwedFirst(calls: seq<Call>)
    requires calls != []
    ensures Owed(calls, 1) == calls[Least(calls, CallPrice)].debt
  {
    OwedShifts(calls, 1);
  }

  /** A first position that takes all of the best order leaves no scrap of it. */
  lemma UsedUpNeverStrands(c: Coin, n: nat)
    requires c.feed.Feed? && c.calls != [] && c.limits != [] && c.calls[Least(c.calls, CallPrice)].debt >= c.limits[0].forSale
    ensures !StrandsAt(c, n)
  {
    hide Callable, Sinks, Owed, ByPrice, Least;
    if 0 < n < |c.calls| {
      var i := Least(c.calls, CallPrice);
      OwedShifts(c.calls, n);
      OwedSome(c.calls[..i] + c.calls[i + 1..], n - 1);
    }
  }

  /** When the first position leaves a scrap, all depends on the next. */
  lemma StrandsNow(c: Coin, r: Coin)
    requires c.swan.None? && r.swan.None? && c.feed.Feed? && r.feed == c.feed && c.calls != [] && c.limits != [] && Callable(c, ByPrice(c.calls)[0])
    requires var i := Least(c.calls, CallPrice);
             && Scrap(c.limits[0], c.calls[i].debt) && r.calls == c.calls[..i] + c.calls[i + 1..] && r.limits == c.limits[1..]
    ensures Strands(c) <==> r.calls != [] && !Insolvent(r)
  {
    hide Callable, Owed, Least, Scrap, Insolvent, Sinks;
    OwedFirst(c.calls);
    var s := ByPrice(c.calls);
    assert s == [c.calls[Least(c.calls, CallPrice)]] + ByPrice(r.calls);
    if r.calls != [] {
      FirstIsLeast(r);
      SinksAlike(c.(limits := c.limits[1..]), r, s[1]);
      if !Insolvent(r) { assert StrandsAt(c, 1); }
    }
    if n: nat :| StrandsAt(c, n) {
      assert n == 1;
    }
  }

  lemma SinksAlike(c: Coin, r: Coin, k: Call)
    requires c.feed.Feed? && r.feed == c.feed && r.limits == c.limits
    ensures Sinks(r, k) <==> Sinks(c, k)
  {
  }

  lemma LoopTrades(c: Coin, p: nat, used: bool, enable: bool, called: bool, t: Terms)
    requires Solid(c) && c.swan.None? && c.feed.Feed? && t.Ok() && Trades(c, p)
    ensures var i := Least(c.calls, CallPrice);
            var k, o := c.calls[i], c.limits[p];
            && k.debt <= c.supply && Times(k.debt, o.price) <= k.collateral && Times(Amount(c, i, p), o.price) <= k.collateral
            && var r, now := CallFill(c, i, p, t), used || k.debt >= o.forSale;
               && Solid(r) && r.swan.None? && r.feed == c.feed && |r.calls| + |r.limits| < |c.calls| + |c.limits|
               && Loop(c, p, used, false, enable, called, t)
                  == if |r.limits| < |c.limits| then Loop(r, p, now, !now, enable, true, t) else Loop(r, if now then p + 1 else p, now, false, enable, true, t)
  {
    hide Solid, Stops, CallFill, Times, Insolvent;
    CallFillBooks(c, Least(c.calls, CallPrice), p, t);
  }

  lemma LoopStops(c: Coin, p: nat, used: bool, dangling: bool, enable: bool, called: bool, t: Terms)
    requires Solid(c) && c.swan.None? && c.feed.Feed? && t.Ok() && (dangling || !Trades(c, p))
    ensures Loop(c, p, used, dangling, enable, called, t) == Ended(Stops(c, p, dangling, enable, called), p)
  {
    hide Solid, Stops, CallFill, Times, Insolvent;
  }

  /** The loop runs into undefined behaviour exactly when the book strands. */
  lemma {:induction false} LoopStrands(c: Coin, enable: bool, called: bool, t: Terms)
    requires Solid(c) && c.swan.None? && c.feed.Feed? && t.Ok()
    ensures Loop(c, 0, false, false, enable, called, t).out.Undefined? <==> Strands(c)
    decreases |c.calls| + |c.limits|
  {
    hide Solid, Stops, Loop, Trades, CallFill, Times, Insolvent, Least, Strands, StrandsAt, ByPrice, Callable, Scrap, AtRest, WellFormed;
    if c.calls != [] { FirstIsLeast(c); }
    if Trades(c, 0) {
      Tradable(c, 0);
      LoopTrades(c, 0, false, enable, called, t);
      var i := Least(c.calls, CallPrice);
      LimitAfter(c, i, 0, t);
      var r := CallFill(c, i, 0, t);
      if c.calls[i].debt >= c.limits[0].forSale {
        PlaceGrows(r, 0, true, false, enable, true, t);
        UsedUp(c);
      } else {
        BoughtOut(c, t);
        if Scrap(c.limits[0], c.calls[i].debt) {
          StrandsNow(c, r);
          StopsDefined(r, 0, true, enable, true);
          LoopStops(r, 0, false, true, enable, true, t);
        } else {
          LoopStrands(r, enable, true, t);
          Formed(c);
          SoonerOrLater(c, r);
        }
      }
    } else {
      NoTrade(c);
      StopsDefined(c, 0, false, enable, called);
      LoopStops(c, 0, false, false, enable, called, t);
    }
  }

  lemma Formed(c: Coin)
    requires Solid(c)
    ensures WellFormed(c)
  {
  }

  lemma UsedUp(c: Coin)
    requires c.feed.Feed? && c.calls != [] && c.limits != [] && c.calls[Least(c.calls, CallPrice)].debt >= c.limits[0].forSale
    ensures !Strands(c)
  {
    hide StrandsAt;
    forall n: nat ensures !StrandsAt(c, n) { UsedUpNeverStrands(c, n); }
  }

  lemma NoTrade(c: Coin)
    requires c.feed.Feed? && (c.calls == [] || !Callable(c, ByPrice(c.calls)[0]))
    ensures !Strands(c)
  {
    hide StrandsAt;
    forall n: nat ensures !StrandsAt(c, n) { NoTradeNoStrand(c, n); }
  }

  lemma NoTradeNoStrand(c: Coin, n: nat)
    requires c.feed.Feed? && (c.calls == [] || !Callable(c, ByPrice(c.calls)[0]))
    ensures !StrandsAt(c, n)
  {
    hide Callable, Owed, Scrap, ByPrice, Sinks;
  }

  lemma SoonerOrLater(c: Coin, r: Coin)
    requires WellFormed(c) && c.swan.None? && r.swan.None? && c.feed.Feed? && r.feed == c.feed && c.calls != [] && c.limits != [] && Callable(c, ByPrice(c.calls)[0])
    requires var i := Least(c.calls, CallPrice);
             var k, o := c.calls[i], c.limits[0];
             && k.debt < o.forSale && !Scrap(o, k.debt)
             && r.calls == c.calls[..i] + c.calls[i + 1..] && r.limits == c.limits[0 := o.(forSale := o.forSale - k.debt)]
    ensures Strands(c) <==> Strands(r)
  {
    hide StrandsAt, Callable, Scrap, ByPrice, Least;
    forall n: nat ensures n > 0 ==> (StrandsAt(c, n + 1) <==> StrandsAt(r, n)) { if n > 0 { StrandsSooner(c, r, n); } }
    if n: nat :| StrandsAt(c, n) {
      NotYet(c, n);
      assert StrandsAt(r, n - 1);
    }
    if n: nat :| StrandsAt(r, n) {
      NotNever(r, n);
      assert StrandsAt(c, n + 1);
    }
  }

  lemma NotYet(c: Coin, n: nat)
    requires c.feed.Feed? && c.calls != [] && c.limits != [] && !Scrap(c.limits[0], c.calls[Least(c.calls, CallPrice)].debt) && StrandsAt(c, n)
    ensures n > 1
  {
    hide Callable, Owed, Scrap, ByPrice, Sinks;
    OwedFirst(c.calls);
  }

  lemma NotNever(c: Coin, n: nat)
    requires c.feed.Feed? && StrandsAt(c, n)
    ensures n > 0
  {
  }

  /** check_call_orders. `p` is the place in the book where matching stopped: an order that filled a position after some
      earlier order was used up is passed over for the rest of the call. */
  method CheckCallOrders(c0: Coin, enable: bool, t: Terms) returns (out: Called, p: nat, ghost trace: seq<Coin>)
    requires Solid(c0) && t.Ok()
    ensures out.Done? ==> Solid(out.coin) && Backing(out.coin) == Backing(c0) && out.coin.feed == c0.feed && SameQueues(out.coin, c0)
    ensures out.Done? && Secured(c0) ==> Secured(out.coin)
    ensures out.Done? && BestPriceFirst(c0.limits) ==> BestPriceFirst(out.coin.limits)
    ensures out.Done? && out.coin.swan.Some? ==> out.coin.calls == [] && (enable || out.coin == c0)
    ensures out.Done? && out.coin.swan.None? && c0.feed.Feed? && out.coin.calls != [] ==> AtRest(out.coin, p)
    ensures out.Done? ==> p + |out.coin.calls| <= |c0.calls|
    ensures out.Done? && !out.called && out.coin.swan.None? ==> out.coin == c0 && p == 0
    ensures out.Done? && out.coin.swan.None? ==> Trace(c0, out.coin, trace, t) && (out.called <==> |trace| > 1)
    ensures out.Done? && out.coin.swan.Some? ==> exists c <- trace :: Trace(c0, c, trace, t) && SwanAfter(c, out.coin)
    ensures c0.swan.Some? || c0.feed.NoFeed? || c0.calls == [] || (!Insolvent(c0) && AtRest(c0, 0)) ==> out == Done(c0, false)
    ensures out.Thrown? ==> exists c <- trace :: Trace(c0, c, trace, t) && Refused(c, p, enable)
    ensures out.Undefined? ==> Undercut(trace, t)
    ensures Coarse(c0.limits) ==> !out.Undefined?
    ensures c0.swan.None? && c0.feed.Feed? ==> Ended(out, p) == Loop(c0, 0, false, false, enable, false, t)
    ensures out.Undefined? <==> Strands(c0)
    ensures c0.swan.None? && c0.feed.Feed? && !out.Undefined? ==> (p == 0 <==> !Outlives(c0, false, t)) && (p == 0 ==> out == Ideal(c0, enable, false, t))
  {
    hide Solid, WellFormed, Backing, Held, CanSettle, Settled, CallFill, Least, Secured, NearlySecured, Coarse, Sum, Times, Backed, Funded;
    hide MarginCall, Trace, SwanAfter, Insolvent, BestPriceFirst, Loop, Stops, AtRest, StrandsAt, Outlives, Ideal;
    p, trace := 0, [c0];
    Untraced(c0, t);
    InsolventMeans(c0);
    var ok, swan, c := CheckForBlackSwan(c0, enable);
    if c0.swan.None? && c0.feed.Feed? {
      LoopStrands(c0, enable, false, t);
      LoopIsIdeal(c0, false, enable, false, t);
      Stopped(c0, 0, false, false, enable, false, t);
    }
    if !ok { return Thrown, p, trace; }
    if swan { Swan(c0); Settles(c0); return Done(c, false), p, trace; }
    Begins(c0);
    OutOfReach(c0);
    if c.feed.NoFeed? || !InReach(c, p) { return Done(c, false), p, trace; }
    var filledLimit, dangling, called := false, false, false;
    while true
      invariant Trace(c0, c, trace, t) && c in trace && trace != [] && (called <==> |trace| > 1)
      invariant dangling ==> Undercut(trace, t)
      invariant c0.feed.Feed? && !Insolvent(c0) && (called ==> c0.calls != [] && !AtRest(c0, 0))
      invariant Running(c0, c, p, dangling) && (!called ==> c == c0 && p == 0 && !dangling)
      invariant Loop(c, p, filledLimit, dangling, enable, called, t) == Loop(c0, 0, false, false, enable, false, t)
      decreases |c.calls| + |c.limits|
    {
      var r;
      Stopped(c, p, filledLimit, dangling, enable, called, t);
      ok, swan, r := CheckForBlackSwan(c, enable);
      if !ok { return Thrown, p, trace; }
      if swan { Swan(c); Settles(c); return Done(r, called), p, trace; }
      Solvent(c0, c, p, dangling);
      if c.calls == [] { return Done(c, called), p, trace; }
      if dangling { return Undefined, p, trace; }
      if AtRest(c, p) { return Done(c, called), p, trace; }
      var i := Least(c.calls, CallPrice);
      var k, o := c.calls[i], c.limits[p];
      Sizes(c, i, p);
      if Times(k.debt, o.price) > MAX_SHARES { return Thrown, p, trace; }
      if Times(k.debt, o.price) > k.collateral {
        if !enable { return Thrown, p, trace; }
        ok, r := GloballySettle(c, c.feed.price);
        if !ok { return Thrown, p, trace; }
        Overdraws(c, p);
        AllClosed(c, c.feed.price);
        return Done(r, true), p, trace;
      }
      LoopTrades(c, p, filledLimit, enable, called, t);
      filledLimit := filledLimit || k.debt >= o.forSale;
      FillStep(c0, c, p, filledLimit, t);
      r := CallFill(c, i, p, t);
      Calls(c, r, p, t);
      TraceGrows(c0, c, trace, r, p, t);
      ghost var before, at := trace, p;
      trace, called := trace + [r], true;
      if |r.limits| < |c.limits| {
        dangling := !filledLimit;
        if dangling { Undercuts(c0, c, before, r, at, t); }
      }
      else if filledLimit { p := p + 1; }
      c := r;
    }
  }

  /** What the loop comes to when it ends here. */
  lemma Stopped(c: Coin, p: nat, used: bool, dangling: bool, enable: bool, called: bool, t: Terms)
    requires Solid(c) && c.swan.None? && c.feed.Feed? && t.Ok()
    ensures var e := Loop(c, p, used, dangling, enable, called, t);
            && (Insolvent(c) ==> e == Ended(SettleAt(c, SwanPrice(c), enable, called), p))
            && (!Insolvent(c) && c.calls == [] ==> e == Ended(Done(c, called), p))
            && (!Insolvent(c) && c.calls != [] && dangling ==> e == Ended(Undefined, p))
            && (!Insolvent(c) && c.calls != [] && !dangling && AtRest(c, p) ==> e == Ended(Done(c, called), p))
            && (!Insolvent(c) && c.calls != [] && !dangling && !AtRest(c, p) ==>
                (&& p < |c.limits| && c.limits[p].price.base > 0
                 && var k, o := c.calls[Least(c.calls, CallPrice)], c.limits[p];
                    && (Times(k.debt, o.price) > MAX_SHARES ==> e == Ended(Thrown, p))
                    && (Times(k.debt, o.price) <= MAX_SHARES && Times(k.debt, o.price) > k.collateral ==> e == Ended(SettleAt(c, c.feed.price, enable, true), p))
                    && (Times(k.debt, o.price) <= MAX_SHARES && Times(k.debt, o.price) <= k.collateral ==> Trades(c, p))))
  {
    hide Loop, CanSettle, Settled, Times, Backing, Held, Sum;
    if dangling || !Trades(c, p) { LoopStops(c, p, used, dangling, enable, called, t); }
  }

  lemma Undercuts(c0: Coin, c: Coin, trace: seq<Coin>, r: Coin, p: nat, t: Terms)
    requires Trace(c0, c, trace, t) && UndercutAt(c, r, p, t)
    ensures Undercut(trace + [r], t)
  {
    hide UndercutAt;
    assert UndercutBy(c, r, t);
  }

  lemma OutOfReach(c: Coin)
    ensures c.feed.Feed? && c.calls != [] && !InReach(c, 0) ==> AtRest(c, 0)
  {
  }

  lemma InsolventMeans(c: Coin)
    ensures Insolvent(c) ==> c.swan.None? && c.feed.Feed? && c.calls != []
  {
  }

  lemma Settles(c: Coin)
    requires Solid(c) && (c.swan.Some? || Insolvent(c))
    ensures c.calls != [] ==> SwanPrice(c).base > 0
    ensures SwanAfter(c, if c.swan.Some? then c else Settled(c, SwanPrice(c)))
  {
    hide Settled;
  }

  lemma Overdraws(c: Coin, p: nat)
    requires c.feed.Feed? && c.feed.price.base > 0 && Overdrawn(c, p)
    ensures SwanAfter(c, Settled(c, c.feed.price))
  {
  }

  lemma Untraced(c: Coin, t: Terms)
    ensures Trace(c, c, [c], t)
  {
  }

  lemma Calls(c: Coin, r: Coin, p: nat, t: Terms)
    requires t.Ok() && c.swan.None? && c.feed.Feed? && c.calls != [] && !Insolvent(c) && p < |c.limits| && !AtRest(c, p)
    requires var i := Least(c.calls, CallPrice);
             && c.limits[p].price.base > 0 && c.calls[i].debt <= c.supply
             && Times(c.calls[i].debt, c.limits[p].price) <= c.calls[i].collateral
             && Times(Amount(c, i, p), c.limits[p].price) <= c.calls[i].collateral
             && r == CallFill(c, i, p, t)
    ensures MarginCall(c, r, p, t)
  {
  }

  // --------------------------------------------------------------- two such books

  const ONE: Price := Price(1, 1)

  function SmallCoin(calls: seq<Call>, limits: seq<Order>, feed: Price): Coin
  {
    Coin(calls, limits, [], [], map[], map[], 0, 0, 20, None, 0, 0, Feed(feed, feed, DEFAULT_RATIO), 9)
  }

  /** An order of twenty for two units of backing, and two positions that owe fifteen and five: buying out the first leaves
      five, worth nothing, so the order is culled while the loop still stands on it. */
  lemma StrandedBook()
    ensures var calls := [Call(1, 1, 2, 15, Price(1, 10)), Call(2, 2, 1, 5, Price(1, 10))];
            var c := SmallCoin(calls, [LimitBook.Order(3, 3, 20, Price(10, 1))], Price(8, 1));
            Solid(c) && Secured(c) && BestPriceFirst(c.limits) && Strands(c)
  {
    hide Sum, ByPrice, Least, Owed, Solid;
    var calls := [Call(1, 1, 2, 15, Price(1, 10)), Call(2, 2, 1, 5, Price(1, 10))];
    var c := SmallCoin(calls, [LimitBook.Order(3, 3, 20, Price(10, 1))], Price(8, 1));
    SmallBooks(c);
    Two(calls);
    OwedFirst(calls);
    assert Callable(c, calls[0]) && Scrap(c.limits[0], 15);
    assert !Sinks(c.(limits := c.limits[1..]), calls[1]);
    assert StrandsAt(c, 1);
  }

  lemma {:induction false} Two(calls: seq<Call>)
    requires |calls| == 2 && calls[0].callPrice == calls[1].callPrice
    ensures Least(calls, CallPrice) == 0 && ByPrice(calls) == calls
  {
    hide ByPrice;
    assert calls[..1] == [calls[0]] && calls[..0] + calls[1..] == [calls[1]];
    One(calls[0]);
    One(calls[1]);
    FirstThenRest(calls);
  }

  lemma {:induction false} One(k: Call)
    ensures Least([k], CallPrice) == 0 && ByPrice([k]) == [k]
  {
    hide ByPrice;
    assert [k][..0] + [k][1..] == [];
    FirstThenRest([k]);
    Nobody();
  }

  lemma {:induction false} Nobody()
    ensures ByPrice([]) == []
  {
  }

  lemma SmallBooks(c: Coin)
    requires |c.calls| == 2 && 1 <= |c.limits| <= 2 && c.settles == [] && c.bids == [] && c.coinBal == map[] && c.backBal == map[] && c.coinFees == 0
    requires (forall k <- c.calls :: k.debt > 0) && (forall o <- c.limits :: o.forSale > 0 && o.price.Positive() && o.id < c.nextId)
    requires c.feed.Feed? && c.feed.price.Positive() && c.swan.None? && c.fund == 0
    requires c.supply == c.calls[0].debt + c.calls[1].debt == if |c.limits| == 1 then c.limits[0].forSale else c.limits[0].forSale + c.limits[1].forSale
    ensures Solid(c)
  {
    assert c.calls == [c.calls[0]] + [c.calls[1]];
    SumConcat(Debt, [c.calls[0]], [c.calls[1]]);
    OneCall(c.calls[0]);
    OneCall(c.calls[1]);
    OneOrder(c.limits[0]);
    if |c.limits| == 2 {
      assert c.limits == [c.limits[0]] + [c.limits[1]];
      SumConcat(LimitBook.ForSale, [c.limits[0]], [c.limits[1]]);
      OneOrder(c.limits[1]);
    } else {
      assert c.limits == [c.limits[0]];
    }
  }

  lemma OneOrder(o: Order)
    ensures Sum(LimitBook.ForSale, [o]) == o.forSale
  {
    assert [o][..0] == [];
  }

  /** Two orders of ten at one for one, and positions that owe fifteen and five: the first uses up one order and half of the
      other, which is then passed over, so that the second is left alone although that order still calls it. */
  lemma PassedOverBook(enable: bool, t: Terms)
    requires t.Ok()
    ensures var calls := [Call(1, 1, 20, 15, ONE), Call(2, 2, 10, 5, ONE)];
            var c := SmallCoin(calls, [LimitBook.Order(3, 3, 10, ONE), LimitBook.Order(4, 4, 10, ONE)], ONE);
            && Solid(c)
            && var e := Loop(c, 0, false, false, enable, false, t);
               && e.place == 1 && e.out.Done? && e.out.coin.feed == c.feed && e.out.coin.calls == [calls[1]]
               && e.out.coin.limits == [LimitBook.Order(4, 4, 5, ONE)] && !AtRest(e.out.coin, 0)
  {
    hide Solid, Loop, Sum, ByPrice, Stops, CallFill, Times, Trades, AtRest;
    var calls := [Call(1, 1, 20, 15, ONE), Call(2, 2, 10, 5, ONE)];
    var c := SmallCoin(calls, [LimitBook.Order(3, 3, 10, ONE), LimitBook.Order(4, 4, 10, ONE)], ONE);
    SmallBooks(c);
    Two(calls);
    AtPar(c, t);
    LoopTrades(c, 0, false, enable, false, t);
    var r := CallFill(c, 0, 0, t);
    Two(r.calls);
    AtPar(r, t);
    LoopTrades(r, 0, true, enable, true, t);
    var s := CallFill(r, 0, 0, t);
    Alone(s);
    Stopped(s, 1, true, false, enable, true, t);
  }

  /** At par the first position and the best order trade the smaller amount. */
  lemma AtPar(c: Coin, t: Terms)
    requires Solid(c) && c.swan.None? && c.feed == Feed(ONE, ONE, DEFAULT_RATIO) && |c.calls| == 2 && c.limits != [] && t.Ok() && Least(c.calls, CallPrice) == 0
    requires c.calls[0].callPrice == ONE == c.limits[0].price && c.calls[0].debt < c.calls[0].collateral && c.calls[0].debt <= MAX_SHARES
    ensures Trades(c, 0) && c.calls[0].debt <= c.supply && Times(Amount(c, 0, 0), ONE) <= c.calls[0].collateral
    ensures var r, k, o := CallFill(c, 0, 0, t), c.calls[0], c.limits[0];
            if k.debt > o.forSale
            then r.calls == [k.(debt := k.debt - o.forSale, collateral := k.collateral - o.forSale), c.calls[1]] && r.limits == c.limits[1..]
            else k.debt < o.forSale ==> r.calls == [c.calls[1]] && r.limits == [o.(forSale := o.forSale - k.debt)] + c.limits[1..]
  {
    hide Solid, Least, Credit, MarketFee;
    Sizes(c, 0, 0);
  }

  lemma Alone(c: Coin)
    requires |c.calls| == 1 == |c.limits| && c.feed == Feed(ONE, ONE, DEFAULT_RATIO) && c.calls[0].callPrice == ONE == c.limits[0].price
    requires c.calls[0].debt < c.calls[0].collateral
    ensures AtRest(c, 1) && !AtRest(c, 0) && !Insolvent(c)
  {
    assert Least(c.calls, CallPrice) == 0;
  }

  /** After the loop a position is still called by the best order only when it has passed every order in reach. */
  lemma StillCalled(c: Coin, p: nat)
    requires WellFormed(c) && c.feed.Feed? && c.calls != [] && BestPriceFirst(c.limits) && AtRest(c, p) && !AtRest(c, 0)
    requires c.calls[Least(c.calls, CallPrice)].callPrice.base > 0
    ensures p > 0 && !InReach(c, p)
  {
    if InReach(c, p) && p > 0 {
      PriceTransitive(c.calls[Least(c.calls, CallPrice)].callPrice.Inverse(), c.limits[0].price, c.limits[p].price);
    }
  }

  // ------------------------------------------------------- borrowing and covering

  /** adjust_balance */
  function Adjust(b: Balances, who: Account, delta: int): Balances
  {
    if delta >= 0 then Credit(b, who, delta) else Debit(b, who, -delta)
  }

  /** The place of an account's position, or the number of positions. */
  function FindCall(calls: seq<Call>, who: Account): (i: nat)
    ensures i <= |calls| && (i < |calls| ==> calls[i].borrower == who)
    ensures forall j | 0 <= j < i :: calls[j].borrower != who
  {
    if calls == [] || calls[0].borrower == who then 0 else 1 + FindCall(calls[1..], who)
  }

  /** The account's position after the change; a position without debt is closed. */
  function Adjusted(c: Coin, who: Account, moreDebt: int, more: int, t: Terms): Coin
    requires var i := FindCall(c.calls, who);
             (if i < |c.calls| then c.calls[i].debt + moreDebt >= 0 && c.calls[i].collateral + more >= 0 else moreDebt > 0 && more > 0)
    requires c.supply + moreDebt >= 0
  {
    var i := FindCall(c.calls, who);
    var d := c.(coinBal := Adjust(c.coinBal, who, moreDebt), backBal := Adjust(c.backBal, who, -more), supply := c.supply + moreDebt);
    if i == |c.calls| then
      d.(calls := c.calls + [Call(c.nextId, who, more, moreDebt, t.callPrice(moreDebt, more, c.feed.Ratio()))], nextId := c.nextId + 1)
    else
      var k := c.calls[i];
      var debt, collateral := k.debt + moreDebt, k.collateral + more;
      if debt == 0 then d.(calls := c.calls[..i] + c.calls[i + 1..])
      else d.(calls := c.calls[i := k.(debt := debt, collateral := collateral, callPrice := t.callPrice(debt, collateral, c.feed.Ratio()))])
  }

  ghost predicate Adjustable(c: Coin, who: Account, moreDebt: int, more: int)
  {
    var i := FindCall(c.calls, who);
    var debt := if i < |c.calls| then c.calls[i].debt + moreDebt else moreDebt;
    var collateral := if i < |c.calls| then c.calls[i].collateral + more else more;
    && (if i < |c.calls| then debt >= 0 && (if debt == 0 then collateral == 0 else collateral > 0) else debt > 0 && collateral > 0)
    && -moreDebt <= At(c.coinBal, who) && (more > 0 ==> more <= At(c.backBal, who))
  }

  lemma AdjustTotal(b: Balances, who: Account, delta: int)
    ensures Total(Adjust(b, who, delta)) == Total(b) + delta
    ensures NonNegative(b) && (delta < 0 ==> -delta <= At(b, who)) ==> NonNegative(Adjust(b, who, delta))
  {
    if delta >= 0 { CreditTotal(b, who, delta); } else { DebitTotal(b, who, -delta); }
  }

  /** Borrowing and covering change debt and supply together, and collateral only moves. */
  lemma AdjustedBooks(c: Coin, who: Account, moreDebt: int, more: int, t: Terms)
    requires Solid(c) && c.swan.None? && Adjustable(c, who, moreDebt, more)
    ensures c.supply + moreDebt >= 0
    ensures var r := Adjusted(c, who, moreDebt, more, t);
            && Solid(r) && r.swan.None? && r.feed == c.feed && SameQueues(r, c) && Backing(r) == Backing(c) && r.supply == c.supply + moreDebt
            && (Secured(c) ==> Secured(r)) && r.limits == c.limits
  {
    hide Sum, Total, NonNegative, FindCall, Adjust;
    HoldingsWithinSupply(c, who);
    AdjustTotal(c.coinBal, who, moreDebt);
    AdjustTotal(c.backBal, who, -more);
    var i := FindCall(c.calls, who);
    if i == |c.calls| {
      var k := Call(c.nextId, who, more, moreDebt, t.callPrice(moreDebt, more, c.feed.Ratio()));
      SumConcat(Debt, c.calls, [k]);
      SumConcat(Collateral, c.calls, [k]);
      OneCall(k);
    } else if c.calls[i].debt + moreDebt == 0 {
      SumRemove(Debt, c.calls, i);
      SumRemove(Collateral, c.calls, i);
    } else {
      var debt, collateral := c.calls[i].debt + moreDebt, c.calls[i].collateral + more;
      var k := c.calls[i].(debt := debt, collateral := collateral, callPrice := t.callPrice(debt, collateral, c.feed.Ratio()));
      SumUpdate(Debt, c.calls, i, k);
      SumUpdate(Collateral, c.calls, i, k);
    }
  }

  /** The account gets the coins it comes to owe, its collateral stays its own, and the position is called at the price for
      what it now owes and holds; nobody else is touched. */
  lemma AdjustedAccounts(c: Coin, who: Account, moreDebt: int, more: int, t: Terms, x: Account)
    requires Adjustable(c, who, moreDebt, more) && c.supply + moreDebt >= 0
    ensures var r, change := Adjusted(c, who, moreDebt, more, t), if x == who then moreDebt else 0;
            && Owns(r, x) == Owns(c, x) && Holds(r, x) == Holds(c, x) + change && Owing(r, x) == Owing(c, x) + change
            && At(r.backBal, x) == At(c.backBal, x) - (if x == who then more else 0)
    ensures var r, i := Adjusted(c, who, moreDebt, more, t), FindCall(c.calls, who);
            Remains(c, who, moreDebt) ==>
              (&& i < |r.calls| && r.calls[i].borrower == who && r.calls[i].id == (if i < |c.calls| then c.calls[i].id else c.nextId)
               && r.calls[i].callPrice == t.callPrice(r.calls[i].debt, r.calls[i].collateral, c.feed.Ratio()))
  {
    hide Sum, At, Adjust, FindCall;
    AdjustAt(c.coinBal, who, moreDebt, x);
    AdjustAt(c.backBal, who, -more, x);
    var i := FindCall(c.calls, who);
    if i == |c.calls| {
      var k := Call(c.nextId, who, more, moreDebt, t.callPrice(moreDebt, more, c.feed.Ratio()));
      SumConcat(DebtOf(x), c.calls, [k]);
      SumConcat(CollateralOf(x), c.calls, [k]);
      SumOne(DebtOf(x), k);
      SumOne(CollateralOf(x), k);
    } else if c.calls[i].debt + moreDebt == 0 {
      SumRemove(DebtOf(x), c.calls, i);
      SumRemove(CollateralOf(x), c.calls, i);
    } else {
      var debt, collateral := c.calls[i].debt + moreDebt, c.calls[i].collateral + more;
      var k := c.calls[i].(debt := debt, collateral := collateral, callPrice := t.callPrice(debt, collateral, c.feed.Ratio()));
      SumUpdate(DebtOf(x), c.calls, i, k);
      SumUpdate(CollateralOf(x), c.calls, i, k);
    }
  }

  lemma AdjustedKeepsOne(c: Coin, who: Account, moreDebt: int, more: int, t: Terms)
    requires Adjustable(c, who, moreDebt, more) && c.supply + moreDebt >= 0 && OnePositionEach(c)
    ensures OnePositionEach(Adjusted(c, who, moreDebt, more, t))
  {
    hide Adjust, FindCall;
  }

  lemma AdjustAt(b: Balances, who: Account, delta: int, x: Account)
    ensures At(Adjust(b, who, delta), x) == At(b, x) + if x == who then delta else 0
  {
  }

  /** The change leaves the account a position. */
  predicate Remains(c: Coin, who: Account, moreDebt: int)
  {
    var i := FindCall(c.calls, who);
    i == |c.calls| || c.calls[i].debt + moreDebt != 0
  }

  predicate Has(calls: seq<Call>, id: nat) { exists i | 0 <= i < |calls| :: calls[i].id == id }

  /** Some position with this id is called at the feed. */
  predicate Exposed(c: Coin, id: nat)
    requires c.feed.Feed?
  {
    exists i | 0 <= i < |c.calls| :: c.calls[i].id == id && c.calls[i].callPrice.Inverse().AtLeast(c.feed.price)
  }

  /** call_order_update. A change that leaves the position open to a margin call is refused, and so is one that would
      bring about a black swan. */
  method UpdateCall(c: Coin, who: Account, moreDebt: int, more: int, t: Terms) returns (out: Called)
    requires Solid(c) && t.Ok()
    ensures out.Done? ==> c.swan.None? && c.feed.Feed? && Adjustable(c, who, moreDebt, more)
    ensures out.Done? ==> Solid(out.coin) && out.coin.swan.None? && out.coin.feed == c.feed && Backing(out.coin) == Backing(c)
    ensures out.Done? ==> SameQueues(out.coin, c)
    ensures out.Done? && Secured(c) ==> Secured(out.coin)
    ensures out.Done? && BestPriceFirst(c.limits) ==> BestPriceFirst(out.coin.limits)
    ensures out.Done? && OnePositionEach(c) ==> OnePositionEach(out.coin)
    ensures out.Done? && Remains(c, who, moreDebt) ==>
              (var i, feed := FindCall(c.calls, who), c.feed.price;
               var id := if i < |c.calls| then c.calls[i].id else c.nextId;
               && (out.called ==> forall k <- out.coin.calls :: k.id != id)
               && (!out.called ==> exists k <- out.coin.calls :: k.id == id)
               && forall k <- out.coin.calls :: k.id == id ==> k.callPrice.quote * feed.quote < feed.base * k.callPrice.base)
    ensures out.Done? && !out.called ==> c.supply + moreDebt >= 0 && out.coin == Adjusted(c, who, moreDebt, more, t)
    ensures out.Done? ==> (var i := FindCall(c.calls, who);
                           var id := if i < |c.calls| then c.calls[i].id else c.nextId;
                           (i < |c.calls| && c.calls[i].debt + moreDebt == 0) || !Exposed(out.coin, id))
    ensures Coarse(c.limits) ==> !out.Undefined?
    ensures out.Undefined? <==> c.swan.None? && c.feed.Feed? && c.supply + moreDebt >= 0 && Adjustable(c, who, moreDebt, more)
                                && Remains(c, who, moreDebt) && Strands(Adjusted(c, who, moreDebt, more, t))
    ensures c.swan.None? && c.feed.Feed? && Adjustable(c, who, moreDebt, more) && c.supply + moreDebt >= 0 ==>
              (var d, i := Adjusted(c, who, moreDebt, more, t), FindCall(c.calls, who);
               var id := if i < |c.calls| then c.calls[i].id else c.nextId;
               ((i < |c.calls| && c.calls[i].debt + moreDebt == 0)
                || (d.calls != [] && !Insolvent(d) && AtRest(d, 0) && Has(d.calls, id) && !Exposed(d, id))) ==> out == Done(d, false))
  {
    hide Insolvent, AtRest, BestPriceFirst, Loop, Strands, Outlives, Ideal;
    hide Solid, WellFormed, Backing, Held, Secured, Coarse, Sum, Backed, Funded, Adjust, FindCall;
    if c.swan.Some? || c.feed.NoFeed? || (more > 0 && At(c.backBal, who) < more) || At(c.coinBal, who) < -moreDebt { return Thrown; }
    var i := FindCall(c.calls, who);
    var id := if i < |c.calls| then c.calls[i].id else c.nextId;
    if i == |c.calls| {
      if more <= 0 || moreDebt <= 0 { return Thrown; }
    } else {
      var debt, collateral := c.calls[i].debt + moreDebt, c.calls[i].collateral + more;
      if debt == 0 && collateral != 0 { return Thrown; }
      if debt != 0 && (collateral <= 0 || debt < 0) { return Thrown; }
    }
    AdjustedBooks(c, who, moreDebt, more, t);
    if OnePositionEach(c) { AdjustedKeepsOne(c, who, moreDebt, more, t); }
    var d := Adjusted(c, who, moreDebt, more, t);
    if i < |c.calls| && c.calls[i].debt + moreDebt == 0 { return Done(d, false); }
    var p;
    ghost var trace;
    out, p, trace := CheckCallOrders(d, false, t);
    if out.Done? && out.coin.swan.None? && OnePositionEach(d) { TraceKeepsOne(d, out.coin, trace, t); }
    if out.Done? && out.called && Has(out.coin.calls, id) { return Thrown; }
    if out.Done? && !out.called && (!Has(out.coin.calls, id) || Exposed(out.coin, id)) { return Thrown; }
  }
}
