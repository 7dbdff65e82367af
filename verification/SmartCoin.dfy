/**
 A market-issued asset (a "coin") and the asset that backs it: margin positions, resting orders
 selling the coin, requests to settle it, bids to take over its debt after a black swan, and all
 balances (libraries/chain/include/graphene/chain/market_object.hpp, libraries/chain/db_market.cpp).

 This file holds the data, the fills every operation is made of, and the books that must balance:
 each unit of the coin is held somewhere and owed by somebody, and no unit of collateral appears
 or disappears.
 */
module SmartCoin {
  import opened Options
  import opened Sums
  import opened Money
  import LimitBook

  type Order = LimitBook.Order

  /** A margin position; `callPrice` is collateral over debt, scaled by the maintenance ratio. */
  datatype Call = Call(id: nat, borrower: Account, collateral: nat, debt: nat, callPrice: Price)

  /** A request to settle at the feed price once `date` has come. */
  datatype Settle = Settle(id: nat, owner: Account, balance: nat, date: nat)

  /** A bid of collateral for taking over debt of a settled coin. */
  datatype Bid = Bid(id: nat, bidder: Account, collateral: nat, debt: nat)

  const DEFAULT_RATIO: nat := 1750

  /** The median feed: coin over backing, the worst price a margin call may be filled at, and the maintenance ratio. */
  datatype Feed = NoFeed | Feed(price: Price, squeeze: Price, ratio: nat)
  {
    function Ratio(): nat { if NoFeed? then DEFAULT_RATIO else ratio }
  }

  datatype Coin = Coin(calls: seq<Call>, limits: seq<Order>, settles: seq<Settle>, bids: seq<Bid>,
                       coinBal: Balances, backBal: Balances, coinFees: nat, backFees: nat,
                       supply: nat, swan: Option<Price>, fund: nat, volume: nat, feed: Feed, nextId: nat)

  /** What the issuer and the chain fix: the formula for call prices from debt, collateral and maintenance ratio, fees, and
      the limits on forced settlement. */
  datatype Terms = Terms(callPrice: (nat, nat, nat) -> Price, backFee: FeeRule, offset: nat, maxVolume: nat, delay: nat)
  {
    predicate Ok() { backFee.percent <= FULL_PERCENT && offset <= FULL_PERCENT && maxVolume <= FULL_PERCENT }
  }

  function Debt(k: Call): int { k.debt }
  function Collateral(k: Call): int { k.collateral }
  function Balance(s: Settle): int { s.balance }
  function Offer(b: Bid): int { b.collateral }

  // ------------------------------------------------------------------- the books

  /** All units of the coin, wherever they are held. */
  ghost function Held(c: Coin): int
  {
    Total(c.coinBal) + Sum(LimitBook.ForSale, c.limits) + Sum(Balance, c.settles) + c.coinFees
  }

  /** All units of the backing asset. */
  ghost function Backing(c: Coin): int
  {
    Total(c.backBal) + Sum(Collateral, c.calls) + Sum(Offer, c.bids) + c.fund + c.backFees
  }

  function CollateralOf(who: Account): Call -> int { (k: Call) => if k.borrower == who then k.collateral else 0 }
  function DebtOf(who: Account): Call -> int { (k: Call) => if k.borrower == who then k.debt else 0 }
  function OfferOf(who: Account): Bid -> int { (b: Bid) => if b.bidder == who then b.collateral else 0 }
  function ForSaleOf(who: Account): Order -> int { (o: Order) => if o.seller == who then o.forSale else 0 }
  function RequestedOf(who: Account): Settle -> int { (s: Settle) => if s.owner == who then s.balance else 0 }

  /** What an account has of the backing asset: its balance, and what stands behind its positions and bids. */
  ghost function Owns(c: Coin, who: Account): int
  {
    At(c.backBal, who) + Sum(CollateralOf(who), c.calls) + Sum(OfferOf(who), c.bids)
  }

  /** What it has of the coin, including what it offers and what it wants settled. */
  ghost function Holds(c: Coin, who: Account): int
  {
    At(c.coinBal, who) + Sum(ForSaleOf(who), c.limits) + Sum(RequestedOf(who), c.settles)
  }

  ghost function Owing(c: Coin, who: Account): int { Sum(DebtOf(who), c.calls) }

  /** Positions owe something, orders offer something at a real price under an id already given out, and no balance is negative. */
  ghost predicate WellFormed(c: Coin)
  {
    && NonNegative(c.coinBal) && NonNegative(c.backBal)
    && (forall i | 0 <= i < |c.calls| :: c.calls[i].debt > 0)
    && (forall i | 0 <= i < |c.limits| :: c.limits[i].forSale > 0 && c.limits[i].price.Positive() && c.limits[i].id < c.nextId)
    && (forall i | 0 <= i < |c.settles| :: c.settles[i].balance >= 0)
    && (forall i | 0 <= i < |c.bids| :: c.bids[i].debt > 0 && c.bids[i].collateral > 0)
    && (c.feed.Feed? ==> c.feed.price.Positive())
  }

  /** While the coin is alive, what is owed is exactly what is held. */
  ghost predicate Backed(c: Coin)
  {
    c.supply == Sum(Debt, c.calls)
  }

  /** After a black swan nobody owes, and the fund pays every unit still out at the settlement price. */
  ghost predicate Funded(c: Coin)
    requires c.swan.Some?
  {
    && c.calls == [] && c.fund * c.swan.value.base >= c.supply * c.swan.value.quote
    && c.supply <= c.swan.value.base && (c.supply == 0 ==> c.fund == 0) && (c.swan.value.base == 0 ==> c.swan.value.quote == 0)
  }

  ghost predicate Solid(c: Coin)
  {
    && WellFormed(c) && Held(c) == c.supply
    && (c.swan.None? ==> Backed(c) && c.fund == 0)
    && (c.swan.Some? ==> Funded(c))
  }

  /** Orders as the price index lists them: most coins for the least backing first, each with its own id. */
  ghost predicate BestPriceFirst(limits: seq<Order>)
  {
    forall i, j | 0 <= i < j < |limits| :: limits[i].price.AtLeast(limits[j].price) && limits[i].id != limits[j].id
  }

  /** Every position has something behind it. */
  ghost predicate Secured(c: Coin)
  {
    forall i | 0 <= i < |c.calls| :: c.calls[i].collateral > 0
  }

  /** Every account has at most one position, and every position an id of its own, already given out. */
  ghost predicate OnePositionEach(c: Coin)
  {
    && (forall i | 0 <= i < |c.calls| :: c.calls[i].id < c.nextId)
    && forall i, j | 0 <= i < j < |c.calls| :: c.calls[i].id != c.calls[j].id && c.calls[i].borrower != c.calls[j].borrower
  }

  lemma {:induction false} DebtsAreOwed(c: Coin, i: nat)
    requires WellFormed(c) && i < |c.calls|
    ensures c.calls[i].debt <= Sum(Debt, c.calls) && Sum(Debt, c.calls) > 0
  {
    forall k <- c.calls ensures Debt(k) >= 0 {}
    SumNonNegative(Debt, c.calls);
    assert c.calls[i] in c.calls;
  }

  lemma OneCall(k: Call)
    ensures Sum(Debt, [k]) == k.debt && Sum(Collateral, [k]) == k.collateral
  {
    assert [k][..0] == [];
  }

  /** Nobody holds more of the coin than there is: not an account, an order, or a settlement request. */
  lemma HoldingsWithinSupply(c: Coin, who: Account)
    requires WellFormed(c) && Held(c) == c.supply
    ensures At(c.coinBal, who) <= c.supply && Sum(Balance, c.settles) <= c.supply
    ensures forall i | 0 <= i < |c.settles| :: c.settles[i].balance <= c.supply
  {
    TotalBounds(c.coinBal, who);
    forall o <- c.limits ensures LimitBook.ForSale(o) >= 0 {}
    SumNonNegative(LimitBook.ForSale, c.limits);
    forall s <- c.settles ensures Balance(s) >= 0 {}
    SumNonNegative(Balance, c.settles);
    forall i | 0 <= i < |c.settles| ensures c.settles[i].balance <= c.supply {
      assert c.settles[i] in c.settles;
      assert Balance(c.settles[i]) <= Sum(Balance, c.settles);
    }
  }

  // ------------------------------------------------------------------------ fills

  /** fill_order for a margin position: it pays collateral, receives and destroys coins, and once the debt is gone
      the rest of the collateral goes back to the borrower. */
  function FillCall(c: Coin, i: nat, pays: nat, receives: nat): Coin
    requires i < |c.calls| && pays <= c.calls[i].collateral && receives <= c.calls[i].debt && receives <= c.supply
  {
    var k := c.calls[i];
    if receives == k.debt then
      c.(calls := c.calls[..i] + c.calls[i + 1..], backBal := Credit(c.backBal, k.borrower, k.collateral - pays),
         supply := c.supply - receives)
    else
      c.(calls := c.calls[i := k.(debt := k.debt - receives, collateral := k.collateral - pays)],
         supply := c.supply - receives)
  }

  lemma FillCallBooks(c: Coin, i: nat, pays: nat, receives: nat)
    requires WellFormed(c) && i < |c.calls| && pays <= c.calls[i].collateral && receives <= c.calls[i].debt && receives <= c.supply
    ensures var r := FillCall(c, i, pays, receives);
            && WellFormed(r) && Held(r) == Held(c) && Backing(r) == Backing(c) - pays
            && Sum(Debt, r.calls) == Sum(Debt, c.calls) - receives && r.supply == c.supply - receives
  {
    hide Sum, Total, Credit, NonNegative;
    var k := c.calls[i];
    if receives == k.debt {
      CreditTotal(c.backBal, k.borrower, k.collateral - pays);
      SumRemove(Debt, c.calls, i);
      SumRemove(Collateral, c.calls, i);
    } else {
      var k' := k.(debt := k.debt - receives, collateral := k.collateral - pays);
      SumUpdate(Debt, c.calls, i, k');
      SumUpdate(Collateral, c.calls, i, k');
    }
  }

  /** The borrower alone pays, and owes less by what is received. */
  lemma FillCallAccounts(c: Coin, i: nat, pays: nat, receives: nat, who: Account)
    requires i < |c.calls| && pays <= c.calls[i].collateral && receives <= c.calls[i].debt && receives <= c.supply
    ensures var r, mine := FillCall(c, i, pays, receives), c.calls[i].borrower == who;
            && Owns(r, who) == Owns(c, who) - (if mine then pays else 0)
            && Owing(r, who) == Owing(c, who) - (if mine then receives else 0)
            && Holds(r, who) == Holds(c, who) && r.backFees == c.backFees
            && At(r.backBal, who) == At(c.backBal, who) + if mine && receives == c.calls[i].debt then c.calls[i].collateral - pays else 0
  {
    hide Sum, Credit, At;
    var k := c.calls[i];
    CreditAt(c.backBal, k.borrower, k.collateral - pays, who);
    SumRemove(CollateralOf(who), c.calls, i);
    SumRemove(DebtOf(who), c.calls, i);
    if receives < k.debt {
      var k' := k.(debt := k.debt - receives, collateral := k.collateral - pays);
      SumUpdate(CollateralOf(who), c.calls, i, k');
      SumUpdate(DebtOf(who), c.calls, i, k');
    }
  }

  lemma FillCallKeepsOne(c: Coin, i: nat, pays: nat, receives: nat)
    requires i < |c.calls| && pays <= c.calls[i].collateral && receives <= c.calls[i].debt && receives <= c.supply && OnePositionEach(c)
    ensures OnePositionEach(FillCall(c, i, pays, receives))
  {
    hide Credit;
  }

  /** The remainder of a partly filled order is refunded when it would ask for nothing. */
  predicate TooSmall(o: Order, pays: nat)
    requires o.price.base > 0
  {
    pays < o.forSale && Times(o.forSale - pays, o.price) == 0
  }

  /** fill_order for a limit order selling the coin, culling a remainder that is too small. */
  function FillLimit(c: Coin, j: nat, pays: nat, receives: nat, t: Terms): Coin
    requires t.Ok() && j < |c.limits| && pays <= c.limits[j].forSale && c.limits[j].price.base > 0
  {
    FeeWithinAmount(t.backFee, receives);
    var o, fee := c.limits[j], MarketFee(t.backFee, receives);
    var paid := c.(backBal := Credit(c.backBal, o.seller, receives - fee), backFees := c.backFees + fee);
    var without := c.limits[..j] + c.limits[j + 1..];
    if pays == o.forSale then paid.(limits := without)
    else if TooSmall(o, pays) then paid.(limits := without, coinBal := Credit(c.coinBal, o.seller, o.forSale - pays))
    else paid.(limits := c.limits[j := o.(forSale := o.forSale - pays)])
  }

  lemma FillLimitBooks(c: Coin, j: nat, pays: nat, receives: nat, t: Terms)
    requires WellFormed(c) && t.Ok() && j < |c.limits| && pays <= c.limits[j].forSale
    ensures var r := FillLimit(c, j, pays, receives, t);
            && WellFormed(r) && Held(r) == Held(c) - pays && Backing(r) == Backing(c) + receives
            && r.calls == c.calls && r.supply == c.supply
  {
    hide Sum, Total, Credit, NonNegative, MarketFee, Times;
    var o, fee := c.limits[j], MarketFee(t.backFee, receives);
    FeeWithinAmount(t.backFee, receives);
    CreditTotal(c.backBal, o.seller, receives - fee);
    if pays == o.forSale || TooSmall(o, pays) {
      CreditTotal(c.coinBal, o.seller, o.forSale - pays);
      SumRemove(LimitBook.ForSale, c.limits, j);
    } else {
      SumUpdate(LimitBook.ForSale, c.limits, j, o.(forSale := o.forSale - pays));
    }
  }

  /** The seller alone parts with coins, and gets what is received less the fee. */
  lemma FillLimitAccounts(c: Coin, j: nat, pays: nat, receives: nat, t: Terms, who: Account)
    requires t.Ok() && j < |c.limits| && pays <= c.limits[j].forSale && c.limits[j].price.base > 0
    ensures var r, mine, fee := FillLimit(c, j, pays, receives, t), c.limits[j].seller == who, MarketFee(t.backFee, receives);
            && Owns(r, who) == Owns(c, who) + (if mine then receives - fee else 0)
            && Holds(r, who) == Holds(c, who) - (if mine then pays else 0)
            && Owing(r, who) == Owing(c, who) && r.backFees == c.backFees + fee
            && At(r.backBal, who) == At(c.backBal, who) + if mine then receives - fee else 0
  {
    hide Sum, Credit, At, MarketFee, Times;
    var o, fee := c.limits[j], MarketFee(t.backFee, receives);
    FeeWithinAmount(t.backFee, receives);
    CreditAt(c.backBal, o.seller, receives - fee, who);
    CreditAt(c.coinBal, o.seller, o.forSale - pays, who);
    SumRemove(ForSaleOf(who), c.limits, j);
    SumUpdate(ForSaleOf(who), c.limits, j, o.(forSale := if pays < o.forSale then o.forSale - pays else 0));
  }

  /** fill_order for a settlement request. */
  function FillSettle(c: Coin, s: nat, pays: nat, receives: nat, t: Terms): Coin
    requires t.Ok() && s < |c.settles| && pays <= c.settles[s].balance
  {
    FeeWithinAmount(t.backFee, receives);
    var q, fee := c.settles[s], MarketFee(t.backFee, receives);
    c.(settles := if pays < q.balance then c.settles[s := q.(balance := q.balance - pays)]
                  else c.settles[..s] + c.settles[s + 1..],
       backBal := Credit(c.backBal, q.owner, receives - fee), backFees := c.backFees + fee)
  }

  lemma FillSettleBooks(c: Coin, s: nat, pays: nat, receives: nat, t: Terms)
    requires WellFormed(c) && t.Ok() && s < |c.settles| && pays <= c.settles[s].balance
    ensures var r := FillSettle(c, s, pays, receives, t);
            && WellFormed(r) && Held(r) == Held(c) - pays && Backing(r) == Backing(c) + receives
            && r.calls == c.calls && r.supply == c.supply
  {
    hide Sum, Total, Credit, NonNegative, MarketFee;
    var q, fee := c.settles[s], MarketFee(t.backFee, receives);
    FeeWithinAmount(t.backFee, receives);
    CreditTotal(c.backBal, q.owner, receives - fee);
    if pays < q.balance {
      SumUpdate(Balance, c.settles, s, q.(balance := q.balance - pays));
    } else {
      SumRemove(Balance, c.settles, s);
    }
  }

  /** The same for the owner of a request. */
  lemma FillSettleAccounts(c: Coin, s: nat, pays: nat, receives: nat, t: Terms, who: Account)
    requires t.Ok() && s < |c.settles| && pays <= c.settles[s].balance
    ensures var r, mine, fee := FillSettle(c, s, pays, receives, t), c.settles[s].owner == who, MarketFee(t.backFee, receives);
            && Owns(r, who) == Owns(c, who) + (if mine then receives - fee else 0)
            && Holds(r, who) == Holds(c, who) - (if mine then pays else 0)
            && Owing(r, who) == Owing(c, who) && r.backFees == c.backFees + fee
            && At(r.backBal, who) == At(c.backBal, who) + if mine then receives - fee else 0
  {
    hide Sum, Credit, At, MarketFee;
    var q, fee := c.settles[s], MarketFee(t.backFee, receives);
    FeeWithinAmount(t.backFee, receives);
    CreditAt(c.backBal, q.owner, receives - fee, who);
    SumRemove(RequestedOf(who), c.settles, s);
    if pays < q.balance { SumUpdate(RequestedOf(who), c.settles, s, q.(balance := q.balance - pays)); }
  }

  /** cancel_order for a settlement request. */
  function CancelSettle(c: Coin, s: nat): Coin
    requires s < |c.settles|
  {
    var q := c.settles[s];
    c.(settles := c.settles[..s] + c.settles[s + 1..], coinBal := Credit(c.coinBal, q.owner, q.balance))
  }

  lemma CancelSettleBooks(c: Coin, s: nat)
    requires s < |c.settles| && Solid(c)
    ensures Solid(CancelSettle(c, s)) && Backing(CancelSettle(c, s)) == Backing(c)
  {
    var q := c.settles[s];
    CreditTotal(c.coinBal, q.owner, q.balance);
    SumRemove(Balance, c.settles, s);
  }

  /** A cancelled request goes back to its owner, and nothing else changes hands. */
  lemma CancelSettleAccounts(c: Coin, s: nat, who: Account)
    requires s < |c.settles|
    ensures var r := CancelSettle(c, s);
            && Holds(r, who) == Holds(c, who) && Owns(r, who) == Owns(c, who) && Owing(r, who) == Owing(c, who)
            && At(r.coinBal, who) == At(c.coinBal, who) + if c.settles[s].owner == who then c.settles[s].balance else 0
  {
    hide Sum, Credit, At;
    CreditAt(c.coinBal, c.settles[s].owner, c.settles[s].balance, who);
    SumRemove(RequestedOf(who), c.settles, s);
  }
}
