/**
 One market-issued asset over a whole run: whatever operations come, in any order, the coin's books
 balance after each of them. An operation that throws leaves the state as it was, as the undo log
 does for a failed transaction.
 */
module CoinMarkets {
  import opened Options
  import opened Sums
  import opened Money
  import opened SmartCoin
  import opened SettlementPool
  import opened CollateralBids
  import opened MarginCalls
  import opened ForcedSettlement
  import LimitBook

  /** The coin is sound and its queues are in order. */
  ghost predicate Sound(c: Coin)
  {
    && Solid(c) && Secured(c) && BestFirst(c.bids) && OneEach(c.bids) && InDateOrder(c.settles)
    && BestPriceFirst(c.limits) && OnePositionEach(c)
  }

  lemma StillSound(c: Coin, r: Coin)
    requires Sound(c) && Solid(r) && Secured(r) && BestPriceFirst(r.limits) && OnePositionEach(r) && (SameQueues(r, c) || (r.bids == [] && r.settles == c.settles))
    ensures Sound(r)
  {
    hide Solid, Secured;
  }

  function Rested(c: Coin, who: Account, amount: nat, price: Price): Coin
  {
    var i := Slot(c.limits, (o: Order) => o.price.AtLeast(price));
    c.(limits := c.limits[..i] + [LimitBook.Order(c.nextId, who, amount, price)] + c.limits[i..],
       coinBal := Debit(c.coinBal, who, amount), nextId := c.nextId + 1)
  }

  lemma RestedBooks(c: Coin, who: Account, amount: nat, price: Price)
    requires Sound(c) && amount > 0 && price.Positive() && amount <= At(c.coinBal, who)
    ensures Sound(Rested(c, who, amount, price)) && Backing(Rested(c, who, amount, price)) == Backing(c)
  {
    hide Sum, Total, Debit, NonNegative, BestFirst, OneEach, InDateOrder, BestPriceFirst;
    DebitTotal(c.coinBal, who, amount);
    var i := Slot(c.limits, (o: Order) => o.price.AtLeast(price));
    SumInsert(LimitBook.ForSale, c.limits, i, LimitBook.Order(c.nextId, who, amount, price));
    PricedInsert(c.limits, i, LimitBook.Order(c.nextId, who, amount, price));
  }

  /** The seller's coins are on offer, and everybody has what they had. */
  lemma RestedAccounts(c: Coin, who: Account, amount: nat, price: Price, x: Account)
    ensures var r := Rested(c, who, amount, price);
            && Owns(r, x) == Owns(c, x) && Holds(r, x) == Holds(c, x) && Owing(r, x) == Owing(c, x)
            && At(r.coinBal, x) == At(c.coinBal, x) - (if x == who then amount else 0) && r.nextId == c.nextId + 1
  {
    hide Sum, At, Debit, Slot;
    CreditAt(c.coinBal, who, amount, x);
    SumInsert(ForSaleOf(x), c.limits, Slot(c.limits, (o: Order) => o.price.AtLeast(price)), LimitBook.Order(c.nextId, who, amount, price));
  }

  /** The order joins the others behind exactly those whose price is at least as good. */
  lemma RestedPlace(c: Coin, who: Account, amount: nat, price: Price, i: nat)
    requires Sound(c) && price.Positive() && i < |c.limits|
    ensures var r, o := Rested(c, who, amount, price), LimitBook.Order(c.nextId, who, amount, price);
            && multiset(r.limits) == multiset(c.limits) + multiset{o} && o !in c.limits
            && exists j | 0 <= j < |c.limits| + 1 ::
                 && r.limits[j] == o
                 && if c.limits[i].price.AtLeast(price) then i < j && r.limits[i] == c.limits[i] else i >= j && r.limits[i + 1] == c.limits[i]
  {
    hide Solid, Secured, BestFirst, OneEach, InDateOrder, Debit, Slot;
    var j := Slot(c.limits, (o: Order) => o.price.AtLeast(price));
    Inserted(c.limits, j, LimitBook.Order(c.nextId, who, amount, price));
    Given(c);
    if i + 1 < j { PriceTransitive(c.limits[i].price, c.limits[j - 1].price, price); }
    assert Rested(c, who, amount, price).limits[j] == LimitBook.Order(c.nextId, who, amount, price);
  }

  lemma Inserted(limits: seq<Order>, j: nat, o: Order)
    requires j <= |limits|
    ensures multiset(limits[..j] + [o] + limits[j..]) == multiset(limits) + multiset{o}
  {
    assert limits == limits[..j] + limits[j..];
  }

  lemma Given(c: Coin)
    requires Solid(c)
    ensures forall i | 0 <= i < |c.limits| :: c.limits[i].price.Positive() && c.limits[i].id < c.nextId
  {
  }

  lemma PricedInsert(limits: seq<Order>, i: nat, o: Order)
    requires i <= |limits| && o.price.Positive() && BestPriceFirst(limits)
    requires forall j | 0 <= j < |limits| :: limits[j].price.Positive() && limits[j].id < o.id
    requires (i > 0 ==> limits[i - 1].price.AtLeast(o.price)) && forall j | i <= j < |limits| :: !limits[j].price.AtLeast(o.price)
    ensures BestPriceFirst(limits[..i] + [o] + limits[i..])
  {
    forall j | 0 <= j < i ensures limits[j].price.AtLeast(o.price) {
      if j < i - 1 { PriceTransitive(limits[j].price, limits[i - 1].price, o.price); }
    }
  }

  function Withdrawn(c: Coin, j: nat): Coin
    requires j < |c.limits|
  {
    c.(limits := c.limits[..j] + c.limits[j + 1..], coinBal := Credit(c.coinBal, c.limits[j].seller, c.limits[j].forSale))
  }

  lemma WithdrawnBooks(c: Coin, j: nat)
    requires Sound(c) && j < |c.limits|
    ensures Sound(Withdrawn(c, j)) && Backing(Withdrawn(c, j)) == Backing(c)
  {
    hide Sum, Total, Credit, NonNegative, BestFirst, OneEach, InDateOrder;
    CreditTotal(c.coinBal, c.limits[j].seller, c.limits[j].forSale);
    SumRemove(LimitBook.ForSale, c.limits, j);
  }

  function FindOrder(limits: seq<Order>, id: nat): (j: nat)
    ensures j <= |limits| && (j < |limits| ==> limits[j].id == id) && forall i | 0 <= i < j :: limits[i].id != id
  {
    if limits == [] || limits[0].id == id then 0 else 1 + FindOrder(limits[1..], id)
  }

  lemma OnlyOne(limits: seq<Order>, j: nat)
    requires j < |limits| && BestPriceFirst(limits)
    ensures forall o <- limits :: o.id == limits[j].id ==> o == limits[j]
    ensures forall o :: o in limits[..j] + limits[j + 1..] <==> o in limits && o.id != limits[j].id
  {
    assert limits == limits[..j] + [limits[j]] + limits[j + 1..];
    forall i | 0 <= i < |limits| && i != j ensures limits[i].id != limits[j].id {}
    forall o | o in limits[..j] + limits[j + 1..] ensures o.id != limits[j].id {
      var k :| 0 <= k < |limits| - 1 && (limits[..j] + limits[j + 1..])[k] == o;
      assert limits[if k < j then k else k + 1] == o;
    }
  }

  /** What check_call_orders makes of a coin when a black swan is allowed. */
  ghost function CallsOn(c: Coin, t: Terms): Called
    requires Solid(c) && t.Ok()
  {
    if c.swan.Some? || c.feed.NoFeed? then Done(c, false) else Loop(c, 0, false, false, true, false, t).out
  }

  /** Feeds are equal when their prices and ratios are, however written. */
  predicate SamePrice(p: Price, q: Price) { p.AtLeast(q) && q.AtLeast(p) }

  predicate SameFeed(a: Feed, b: Feed)
  {
    (a.NoFeed? && b.NoFeed?) || (a.Feed? && b.Feed? && SamePrice(a.price, b.price) && SamePrice(a.squeeze, b.squeeze) && a.ratio == b.ratio)
  }

  /** That is, when they are the same fractions. */
  lemma SameFeedExactly(a: Feed, b: Feed)
    requires a.Feed? && b.Feed?
    ensures SameFeed(a, b) <==>
            && a.price.base * b.price.quote == b.price.base * a.price.quote && a.ratio == b.ratio
            && a.squeeze.base * b.squeeze.quote == b.squeeze.base * a.squeeze.quote
  {
  }

  /** A settled coin the feed values higher than what its fund would be called at, or that nobody holds. */
  predicate Revivable(c: Coin, t: Terms)
  {
    c.swan.Some? && c.feed.Feed? && (c.supply == 0 || !t.callPrice(c.supply, c.fund, c.feed.Ratio()).Inverse().AtLeast(c.feed.price))
  }

  /** What a new median feed leads to: nothing when it is the same; a failure when a settled coin has no fund to value; else
      revival by the issuer where possible, and margin calls. */
  ghost function Published(c: Coin, feed: Feed, issuer: Account, t: Terms): Called
    requires Sound(c) && t.Ok() && (feed.Feed? ==> feed.price.Positive())
  {
    var d := c.(feed := feed);
    FeedIrrelevant(c, feed);
    if SameFeed(c.feed, feed) then Done(d, false)
    else if d.swan.Some? && d.supply > 0 && d.fund == 0 then Thrown
    else if Revivable(d, t) then
      TakenOverBooks(d, issuer, t);
      CallsOn(TakenOver(d, issuer, t), t)
    else CallsOn(d, t)
  }

  /** A new feed for a settled coin with a fund: the issuer takes it over exactly when nobody holds it or the position it gets
      would not be called at that feed; for a living coin positions are called; and without a fund it fails. */
  lemma PublishedMeans(c: Coin, feed: Feed, issuer: Account, t: Terms)
    requires Sound(c) && t.Ok() && feed.Feed? && feed.price.Positive() && !SameFeed(c.feed, feed)
    ensures var d, at, p := c.(feed := feed), t.callPrice(c.supply, c.fund, feed.ratio), feed.price;
            && Sound(d)
            && (c.swan.None? ==> Published(c, feed, issuer, t) == Loop(d, 0, false, false, true, false, t).out)
            && (c.swan.Some? && c.supply > 0 && c.fund == 0 ==> Published(c, feed, issuer, t) == Thrown)
            && (c.swan.Some? && c.supply > 0 && c.fund > 0 && at.quote * p.quote >= p.base * at.base ==> Published(c, feed, issuer, t) == Done(d, false))
            && (c.swan.Some? && (c.supply == 0 || (c.fund > 0 && at.quote * p.quote < p.base * at.base)) ==>
                (var r := TakenOver(d, issuer, t);
                 Solid(r) && r.swan.None? && Published(c, feed, issuer, t) == Loop(r, 0, false, false, true, false, t).out))
  {
    hide Solid, Secured, Loop, SameFeed, BestFirst, OneEach, InDateOrder, BestPriceFirst;
    FeedIrrelevant(c, feed);
    if c.swan.Some? { TakenOverBooks(c.(feed := feed), issuer, t); }
  }

  class CoinMarket {
    var coin: Coin
    const terms: Terms

    ghost predicate Valid()
      reads this
    {
      terms.Ok() && Sound(coin)
    }

    /** A new coin: nothing issued, nothing owed. */
    constructor (terms: Terms, backBal: Balances)
      requires terms.Ok() && NonNegative(backBal)
      ensures Valid() && coin.supply == 0 && Backing(coin) == Total(backBal)
    {
      this.terms := terms;
      coin := Coin([], [], [], [], map[], backBal, 0, 0, 0, None, 0, 0, NoFeed, 0);
    }

    /** An order selling the coin comes to rest in the book, behind all that are at least as good. */
    method RestOrder(who: Account, amount: nat, price: Price) returns (ok: bool)
      requires Valid()
      modifies this
      ensures Valid() && Backing(coin) == old(Backing(coin)) && coin.supply == old(coin.supply)
      ensures ok <==> amount > 0 && price.Positive() && amount <= old(At(coin.coinBal, who))
      ensures coin == if ok then old(Rested(coin, who, amount, price)) else old(coin)
    {
      hide BestPriceFirst, Solid, Secured, Backing, Sound;
      ok := amount > 0 && price.Positive() && amount <= At(coin.coinBal, who);
      if ok {
        RestedBooks(coin, who, amount, price);
        coin := Rested(coin, who, amount, price);
      }
    }

    /** limit_order_cancel: the seller gets back what is still for sale. */
    method CancelOrder(who: Account, id: nat) returns (ok: bool)
      requires Valid()
      modifies this
      ensures Valid() && Backing(coin) == old(Backing(coin)) && coin.supply == old(coin.supply)
      ensures ok <==> old(exists o <- coin.limits :: o.id == id && o.seller == who)
      ensures ok ==> (forall o <- coin.limits :: o.id != id) && forall o :: o in coin.limits <==> o in old(coin.limits) && o.id != id
      ensures ok ==> forall o <- old(coin.limits) :: o.id == id ==> coin.coinBal == Credit(old(coin.coinBal), who, o.forSale)
      ensures !ok ==> coin == old(coin)
    {
      hide Solid, Secured, Backing;
      var j := FindOrder(coin.limits, id);
      ok := j < |coin.limits| && coin.limits[j].seller == who;
      if ok {
        WithdrawnBooks(coin, j);
        OnlyOne(coin.limits, j);
        coin := Withdrawn(coin, j);
      } else if j < |coin.limits| {
        OnlyOne(coin.limits, j);
      }
    }

    /** call_order_update */
    method UpdatePosition(who: Account, moreDebt: int, more: int) returns (out: Called)
      requires Valid()
      modifies this
      ensures Valid() && Backing(coin) == old(Backing(coin)) && coin.swan == old(coin.swan)
      ensures if out.Done? then coin == out.coin else coin == old(coin)
      ensures out.Done? && !out.called ==>
                old(Adjustable(coin, who, moreDebt, more) && coin.supply + moreDebt >= 0)
                && coin == old(Adjusted(coin, who, moreDebt, more, terms))
    {
      hide BestPriceFirst, Solid, Secured, Backing, Sound;
      Parts(coin);
      out := UpdateCall(coin, who, moreDebt, more, terms);
      if out.Done? {
        StillSound(coin, out.coin);
        coin := out.coin;
      }
    }

    /** check_call_orders as every caller outside call_order_update runs it: a black swan is allowed. */
    method CallPositions() returns (out: Called, p: nat, ghost trace: seq<Coin>)
      requires Valid()
      modifies this
      ensures Valid() && Backing(coin) == old(Backing(coin))
      ensures if out.Done? then coin == out.coin else coin == old(coin)
      ensures out == old(CallsOn(coin, terms)) && (out.Undefined? <==> old(Strands(coin)))
      ensures out.Done? && coin.swan.None? ==> Trace(old(coin), coin, trace, terms)
      ensures out.Done? && coin.swan.Some? ==> exists c <- trace :: Trace(old(coin), c, trace, terms) && SwanAfter(c, coin)
      ensures out.Thrown? ==> exists c <- trace :: Trace(old(coin), c, trace, terms) && Refused(c, p, true)
    {
      hide BestPriceFirst, Solid, Secured, Backing, Sound, Trace, SwanAfter, Refused, Loop, Strands, Ideal, Outlives, OnePositionEach;
      Parts(coin);
      out, p, trace := CheckCallOrders(coin, true, terms);
      if out.Done? {
        CallsKeepOne(coin, out.coin, trace, terms);
        StillSound(coin, out.coin);
        coin := out.coin;
      }
    }

    /** asset_global_settle: only at a price the position found first can pay.  It is not `defined` when coins are out and the
        search finds none, as after a black swan. */
    method SettleGlobally(price: Price) returns (ok: bool, defined: bool)
      requires Valid()
      modifies this
      ensures Valid() && Backing(coin) == old(Backing(coin)) && coin.supply == old(coin.supply)
      ensures defined <==> old(coin.supply == 0 || Front(coin.calls).Some?)
      ensures ok <==> old(coin.supply > 0 && CanSettle(coin, price) && PaysAt(coin, price))
      ensures coin == if ok then old(Settled(coin, price)) else old(coin)
    {
      hide BestPriceFirst, Solid, Secured, Backing, Sound, CanSettle, Front, Times;
      Parts(coin);
      NoPriceNoSettlement(coin, price);
      if coin.supply == 0 { return false, true; }
      var first := Front(coin.calls);
      if first.None? { return false, false; }
      if coin.swan.Some? || price.base == 0 || Times(coin.calls[first.value].debt, price) > coin.calls[first.value].collateral { return false, true; }
      var r;
      ok, r := GloballySettle(coin, price);
      defined := true;
      if ok {
        AllClosed(coin, price);
        SettledBooks(coin, price);
        StillSound(coin, r);
        coin := r;
      }
    }

    /** asset_settle. After a black swan the fund never runs short while its price holds. */
    method Settle(who: Account, amount: nat, now: nat, canForce: bool) returns (ok: bool)
      requires Valid()
      modifies this
      ensures Valid() && Backing(coin) == old(Backing(coin)) && coin.swan == old(coin.swan)
      ensures if ok then Some(coin) == old(SettleCoin(coin, who, amount, now, canForce, terms)) else coin == old(coin)
      ensures ok <==> old(amount <= At(coin.coinBal, who)
                          && (if coin.swan.Some? then coin.swan.value.base > 0 && amount * coin.swan.value.quote < coin.swan.value.base * (MAX_SHARES + 1)
                              else canForce && coin.feed.Feed?))
      ensures ok ==> coin.supply == if old(coin.swan.Some?) then old(coin.supply) - amount else old(coin.supply)
      ensures old(coin.swan.Some? && coin.swan.value.base > 0 && amount <= At(coin.coinBal, who) && Backing(coin) <= MAX_SHARES) ==> ok
      ensures ok && old(coin.swan.Some? && coin.supply == amount) ==> coin.fund == 0
    {
      hide BestPriceFirst, Solid, Secured, Backing, SettleCoin, BestFirst, OneEach, InDateOrder;
      Parts(coin);
      SettlementIsPaid(coin, who, amount, now, canForce, terms);
      var r := SettleCoin(coin, who, amount, now, canForce, terms);
      ok := r.Some?;
      if ok {
        SettleKeepsBooks(coin, who, amount, now, canForce, terms);
        SameCallsSecured(coin, r.value);
        SamePositions(coin, r.value);
        coin := r.value;
      }
    }

    /** bid_collateral */
    method Bid(who: Account, collateral: nat, debt: nat) returns (ok: bool)
      requires Valid()
      modifies this
      ensures Valid() && Backing(coin) == old(Backing(coin)) && coin.supply == old(coin.supply)
      ensures ok <==> old(coin.swan.Some? && collateral <= At(coin.backBal, who)
                          && if debt > 0 then collateral > 0 else exists b <- coin.bids :: b.bidder == who)
      ensures if ok then Some(coin) == old(PlaceBid(coin, who, collateral, debt)) else coin == old(coin)
    {
      hide BestPriceFirst, Solid, Secured, Backing, BestFirst, OneEach, InDateOrder;
      Parts(coin);
      BidTaken(coin, who, collateral, debt);
      var r := PlaceBid(coin, who, collateral, debt);
      ok := r.Some?;
      if ok {
        PlaceBidKeepsBooks(coin, who, collateral, debt);
        SameCallsSecured(coin, r.value);
        coin := r.value;
      }
    }

    /** The part of perform_chain_maintenance for this coin: a new settlement allowance, and revival by bids. */
    method Maintain() returns (ok: bool)
      requires Valid()
      modifies this
      ensures Valid() && Backing(coin) == old(Backing(coin)) && coin.supply == old(coin.supply)
      ensures if ok then coin.volume == 0 else coin == old(coin)
      ensures !ok <==> old(BidsThrow(coin, terms))
      ensures ok ==> (coin.swan != old(coin.swan) <==> old(Coverable(coin, terms)))
      ensures ok && coin.swan == old(coin.swan) ==> coin == old(coin).(volume := 0)
      ensures ok && coin.swan != old(coin.swan) ==> coin.swan.None? && coin.fund == 0 && coin.bids == [] && ComesOf(old(coin), coin, terms)
    {
      hide BestPriceFirst, Solid, Secured, Backing, Sound, Sum, Enough, Fits, Position, Accepts, Times, Coverable, ComesOf;
      Parts(coin);
      SameBids(coin, terms);
      SettledOnly(coin, terms);
      var c := coin.(volume := 0);
      VolumeIrrelevant(coin);
      ok := true;
      if c.swan.Some? {
        var out, n := ProcessBids(c, terms);
        if out.Failed? { return false; }
        if out.Revived? {
          StillSound(c, out.coin);
          Comes(coin, c, out.coin, n, terms);
          c := out.coin;
        }
      }
      coin := c;
    }

    /** asset_publish_feeds, with the median feed that results. */
    method PublishFeed(feed: Feed, issuer: Account) returns (out: Called)
      requires Valid() && (feed.Feed? ==> feed.price.Positive())
      modifies this
      ensures Valid() && Backing(coin) == old(Backing(coin))
      ensures out == old(Published(coin, feed, issuer, terms))
      ensures if out.Done? then coin == out.coin && coin.feed == feed else coin == old(coin)
    {
      hide BestPriceFirst, Solid, Secured, Backing, BestFirst, OneEach, InDateOrder, Loop, Strands, Ideal, Outlives, TakenOver, Trace, SwanAfter, Refused;
      Parts(coin);
      FeedIrrelevant(coin, feed);
      var c := coin.(feed := feed);
      if SameFeed(coin.feed, feed) {
        coin := c;
        return Done(c, false);
      }
      if c.swan.Some? {
        if c.supply > 0 && c.fund == 0 { return Thrown; }
        if feed.Feed? && (c.supply == 0 || !terms.callPrice(c.supply, c.fund, feed.Ratio()).Inverse().AtLeast(feed.price)) {
          var ok, r := Revive(c, issuer, terms);
          TakenOverBooks(c, issuer, terms);
          StillSound(c, r);
          c := r;
        }
      }
      var p;
      ghost var trace;
      out, p, trace := CheckCallOrders(c, true, terms);
      if out.Done? {
        CallsKeepOne(c, out.coin, trace, terms);
        StillSound(c, out.coin);
        coin := out.coin;
      }
    }

    /** clear_expired_orders */
    method SettleDueRequests(now: nat) returns (ok: bool)
      requires Valid()
      modifies this
      ensures Valid() && Backing(coin) == old(Backing(coin)) && coin.supply + coin.volume == old(coin.supply + coin.volume)
      ensures old(coin.volume) <= coin.volume <= Max(old(coin.volume), old(MaxVolume(coin, terms)))
      ensures old(Pass(coin, now, terms)).Through? <==> ok
      ensures if ok then old(Pass(coin, now, terms)) == Through(coin) && Finished(coin, now, terms) else coin == old(coin)
      ensures old(!DueTooDear(coin, now) && !Huge(coin.calls)) ==> ok
      ensures ok && coin.swan.None? && coin.feed.Feed? && coin.volume < MaxVolume(coin, terms) ==>
                forall i | 0 <= i < |coin.settles| :: coin.settles[i].date > now
    {
      hide BestPriceFirst, Solid, Secured, Backing, BestFirst, OneEach, MaxVolume, Pass, QueueTrace, DueTooDear, Huge, OnePositionEach;
      Parts(coin);
      PassKeeps(coin, now, terms);
      var out;
      ghost var trace;
      out, trace := ClearExpired([coin], now, [terms]);
      ok := out.Cleared?;
      if ok {
        assert Pass([coin][0], now, [terms][0]) == Through(out.coins[0]);
        PassKeepsOne(coin, now, terms);
        coin := out.coins[0];
      }
    }
  }

  /** Settling a debt of one at a price of two for one gathers nothing; while there is a feed, the bids for such a coin throw. */
  lemma EmptyFund(t: Terms)
    ensures var c := Coin([Call(1, 1, 1, 1, Price(1, 1))], [], [], [], map[1 := 1], map[], 0, 0, 1, None, 0, 0, Feed(Price(2, 1), Price(2, 1), DEFAULT_RATIO), 2);
            && Sound(c) && CanSettle(c, Price(2, 1)) && PaysAt(c, Price(2, 1))
            && Settled(c, Price(2, 1)).swan == Some(Price(1, 0)) && BidsThrow(Settled(c, Price(2, 1)), t)
  {
    var c := Coin([Call(1, 1, 1, 1, Price(1, 1))], [], [], [], map[1 := 1], map[], 0, 0, 1, None, 0, 0, Feed(Price(2, 1), Price(2, 1), DEFAULT_RATIO), 2);
    OneCall(c.calls[0]);
    TotalUpdate(map[], 1, 1);
    assert map[][1 := 1] == c.coinBal;
    assert Gathered(c.calls, Price(2, 1)) == 0;
  }

  /** The positions of a revived coin are those of the first bids, and all other bids have been returned. */
  ghost predicate ComesOf(c: Coin, r: Coin, t: Terms)
  {
    && c.swan.Some? && c.swan.value.base > 0 && c.feed.Feed? && |r.calls| <= |c.bids| && Enough(c, |r.calls|)
    && (forall i | 0 <= i < |r.calls| :: Accepts(c, t, c.bids[i]) && Fits(c, i) && r.calls[i] == Position(c, |r.calls|, t, i))
    && forall who: Account :: At(r.backBal, who) == At(c.backBal, who) + Sum(OfferOf(who), c.bids[|r.calls|..])
  }

  lemma Comes(c: Coin, d: Coin, r: Coin, n: nat, t: Terms)
    requires d == c.(volume := 0) && c.swan.Some? && c.swan.value.base > 0 && c.feed.Feed? && Enough(d, n) && |r.calls| == n
    requires forall i | 0 <= i < n :: Accepts(d, t, d.bids[i]) && Fits(d, i) && r.calls[i] == Position(d, n, t, i)
    requires forall who: Account :: At(r.backBal, who) == At(d.backBal, who) + Sum(OfferOf(who), d.bids[n..])
    ensures ComesOf(c, r, t)
  {
    hide Times, Sum, Shares;
  }

  lemma SettledOnly(c: Coin, t: Terms)
    ensures Coverable(c, t) ==> c.swan.Some?
  {
  }

  lemma SameBids(c: Coin, t: Terms)
    ensures BidsThrow(c.(volume := 0), t) <==> BidsThrow(c, t)
    ensures Coverable(c.(volume := 0), t) <==> Coverable(c, t)
  {
    hide Sum, Times;
    var d := c.(volume := 0);
    forall n: nat ensures Enough(d, n) <==> Enough(c, n) {}
    if c.swan.Some? && c.swan.value.base > 0 && c.feed.Feed? {
      forall n: nat | n <= |c.bids| ensures AllAccepted(d, t, n) <==> AllAccepted(c, t, n) {}
    }
    if c.swan.Some? && c.swan.value.base > 0 && c.feed.Feed? {
      forall n: nat ensures Blocked(d, t, n) <==> Blocked(c, t, n) {}
    }
  }

  /** The position found first, the least collateralized one in reach of the search, covers its debt at `price`. */
  predicate PaysAt(c: Coin, price: Price)
  {
    var first := Front(c.calls);
    first.Some? && price.base > 0 && Times(c.calls[first.value].debt, price) <= c.calls[first.value].collateral
  }

  lemma PaysAtExactly(c: Coin, price: Price)
    ensures PaysAt(c, price) <==>
            && Front(c.calls).Some? && price.base > 0
            && var k := c.calls[Front(c.calls).value]; k.debt * price.quote < price.base * (k.collateral + 1)
  {
    hide Front, Times;
    if Front(c.calls).Some? && price.base > 0 {
      var k := c.calls[Front(c.calls).value];
      TimesIsGreatest(k.debt, price, k.collateral + 1);
    }
  }

  lemma NoPriceNoSettlement(c: Coin, price: Price)
    ensures CanSettle(c, price) ==> c.swan.None? && (c.calls == [] || price.base > 0)
  {
  }

  function Max(a: int, b: int): int { if a >= b then a else b }

  lemma Parts(c: Coin)
    requires Sound(c)
    ensures Solid(c) && Secured(c) && BestFirst(c.bids) && OneEach(c.bids) && InDateOrder(c.settles) && BestPriceFirst(c.limits)
    ensures OnePositionEach(c)
  {
  }

  lemma CallsKeepOne(c: Coin, r: Coin, trace: seq<Coin>, t: Terms)
    requires OnePositionEach(c)
    requires if r.swan.None? then Trace(c, r, trace, t) else exists d <- trace :: Trace(c, d, trace, t) && SwanAfter(d, r)
    ensures OnePositionEach(r)
  {
    hide OnePositionEach, SwanAfter;
    if r.swan.None? {
      TraceKeepsOne(c, r, trace, t);
    } else {
      var d :| d in trace && Trace(c, d, trace, t) && SwanAfter(d, r);
      TraceKeepsOne(c, d, trace, t);
      SwanKeepsOne(d, r);
    }
  }

  lemma SameCallsSecured(c: Coin, r: Coin)
    requires Secured(c) && r.calls == c.calls
    ensures Secured(r)
  {
  }

  lemma VolumeIrrelevant(c: Coin)
    requires Sound(c)
    ensures Sound(c.(volume := 0)) && Backing(c.(volume := 0)) == Backing(c)
  {
  }

  lemma FeedIrrelevant(c: Coin, feed: Feed)
    requires Sound(c) && (feed.Feed? ==> feed.price.Positive())
    ensures Sound(c.(feed := feed)) && Backing(c.(feed := feed)) == Backing(c)
  {
  }
}
