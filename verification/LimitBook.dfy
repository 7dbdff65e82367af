/**
 Matching limit orders between two user-issued assets (libraries/chain/db_market.cpp,
 libraries/chain/market_evaluator.cpp).  A `Side` holds what concerns one of the two assets: the
 orders selling it, in the order of the price index, everybody's balance of it, and its
 accumulated market fees.
 */
module LimitBook {
  import opened Sums
  import opened Money

  datatype Order = Order(id: nat, seller: Account, forSale: nat, price: Price)

  datatype Side = Side(orders: seq<Order>, balances: Balances, fees: nat)

  /** One fill: the maker as it stood, what the taker still had for sale, and what the maker paid and received. */
  datatype Trade = Trade(maker: Order, takerForSale: nat, pays: nat, receives: nat)

  datatype Result = Placed(filled: bool) | Rejected

  function ForSale(o: Order): int { o.forSale }

  /** amount_to_receive */
  function Worth(o: Order): nat
    requires o.price.base > 0
  {
    Times(o.forSale, o.price)
  }

  /** A resting order asks for at least one unit, and stays within the largest amount. */
  ghost predicate Resting(o: Order)
  {
    && o.price.Positive() && o.price.base <= MAX_SHARES && o.price.quote <= MAX_SHARES
    && 0 < o.forSale <= o.price.base && Worth(o) >= 1
  }

  /** The by_price index: higher price first, then lower id. */
  predicate Ahead(x: Order, y: Order)
  {
    x.price.AtLeast(y.price) && (y.price.AtLeast(x.price) ==> x.id < y.id)
  }

  ghost predicate InOrder(orders: seq<Order>)
  {
    forall i, j | 0 <= i < j < |orders| :: Ahead(orders[i], orders[j])
  }

  ghost predicate AllResting(orders: seq<Order>)
  {
    forall i | 0 <= i < |orders| :: Resting(orders[i])
  }

  ghost predicate AllPriced(orders: seq<Order>)
  {
    forall i | 0 <= i < |orders| :: orders[i].price.Positive()
  }

  ghost predicate Book(orders: seq<Order>, nextId: nat)
  {
    InOrder(orders) && AllResting(orders) && forall i | 0 <= i < |orders| :: orders[i].id < nextId
  }

  /** The maker sells at least as cheaply as the taker is ready to buy: its price is at or above the taker's inverse. */
  predicate Crosses(maker: Order, taker: Order)
  {
    maker.price.AtLeast(taker.price.Inverse())
  }

  ghost predicate Uncrossed(xs: seq<Order>, ys: seq<Order>)
  {
    forall i, j | 0 <= i < |xs| && 0 <= j < |ys| :: !Crosses(xs[i], ys[j])
  }

  /** All there is of the asset. */
  ghost function Supply(s: Side): int
  {
    Total(s.balances) + Sum(ForSale, s.orders) + s.fees
  }

  // ------------------------------------------------------------------ one match

  /** match: what the maker pays and receives. */
  function Matched(takerForSale: nat, maker: Order): (r: (nat, nat))
    requires maker.price.Positive()
  {
    var ask := Worth(maker);
    if takerForSale <= ask then (TimesQuote(takerForSale, maker.price), takerForSale)
    else (maker.forSale, ask)
  }

  /** What a fill may not do: exceed what is for sale, leave the maker with nothing or a unit or more below its
      price, or leave both orders partly open.  Rounding is at the cost of the side that is used up. */
  ghost predicate Fair(t: Trade)
    requires t.maker.price.Positive()
  {
    var p := t.maker.price;
    && t.pays <= t.maker.forSale && 1 <= t.receives <= t.takerForSale
    && t.receives * p.base + p.base > t.pays * p.quote
    && t.pays * p.quote + p.quote > t.receives * p.base
    && (t.pays == t.maker.forSale || t.receives == t.takerForSale)
    && (if t.receives == t.takerForSale then t.pays * p.quote <= t.receives * p.base else t.receives * p.base <= t.pays * p.quote)
  }

  lemma MatchIsFair(takerForSale: nat, maker: Order)
    requires Resting(maker) && takerForSale > 0
    ensures var (pays, receives) := Matched(takerForSale, maker); Fair(Trade(maker, takerForSale, pays, receives))
  {
    var p, ask := maker.price, Worth(maker);
    FloorBounds(maker.forSale * p.quote, p.base);
    FloorBounds(takerForSale * p.base, p.quote);
    if takerForSale <= ask {
      MulMonotone(p.base, takerForSale, ask);
      var pays := TimesQuote(takerForSale, p);
      assert p.quote * pays <= takerForSale * p.base <= maker.forSale * p.quote;
      CancelFactor(p.quote, pays, maker.forSale);
    }
  }

  lemma MakerGetsItsPrice(t: Trade)
    requires t.maker.price.Positive() && Fair(t)
    ensures t.receives * t.maker.price.base < (t.pays + 1) * t.maker.price.quote
  {
  }

  /** What the taker gets is less than one unit below its own limit price too. */
  lemma TakerGetsItsPrice(t: Trade, taker: Order)
    requires t.maker.price.Positive() && taker.price.Positive() && Fair(t) && Crosses(t.maker, taker)
    ensures t.pays * taker.price.base + taker.price.base > t.receives * taker.price.quote
  {
    MakerGetsItsPrice(t);
    hide Fair;
    Crossed(t.maker.price.base, t.maker.price.quote, taker.price.base, taker.price.quote, t.pays + 1, t.receives);
  }

  lemma Crossed(mb: nat, mq: nat, kb: nat, kq: nat, p: nat, r: nat)
    requires mq > 0 && kb > 0 && mb * kb >= kq * mq && r * mb < p * mq
    ensures r * kq < p * kb
  {
    MulSwap(mq, r, kq);
    MulMonotone(r, kq * mq, mb * kb);
    MulSwap(r, kb, mb);
    MulMonotone(kb, r * mb + 1, p * mq);
    MulSwap(kb, p, mq);
    MulSwap(mq, p, kb);
    if p * kb <= r * kq { MulMonotone(mq, p * kb, r * kq); assert false; }
  }

  /** The products the match computes stay within the largest amount: the overflow checks never fire. */
  lemma MatchNeverOverflows(takerForSale: nat, maker: Order)
    requires Resting(maker) && takerForSale > 0
    ensures Worth(maker) <= MAX_SHARES
    ensures takerForSale <= Worth(maker) ==> TimesQuote(takerForSale, maker.price) <= MAX_SHARES
  {
    var p := maker.price;
    FloorBounds(maker.forSale * p.quote, p.base);
    MulMonotone(p.quote, maker.forSale, p.base);
    CancelFactor(p.base, Worth(maker), p.quote);
    MatchIsFair(takerForSale, maker);
  }

  // ------------------------------------------------------------- the price index

  lemma AheadTransitive(x: Order, y: Order, z: Order)
    requires x.price.Positive() && y.price.Positive() && z.price.Positive() && Ahead(x, y) && Ahead(y, z)
    ensures Ahead(x, z)
  {
    PriceTransitive(x.price, y.price, z.price);
    if z.price.AtLeast(x.price) {
      PriceTransitive(y.price, z.price, x.price);
      PriceTransitive(z.price, x.price, y.price);
    }
  }

  /** If the best order does not cross, none does. */
  lemma BestDecides(orders: seq<Order>, taker: Order)
    requires InOrder(orders) && AllPriced(orders) && taker.price.Positive()
    requires orders == [] || !Crosses(orders[0], taker)
    ensures forall i | 0 <= i < |orders| :: !Crosses(orders[i], taker)
  {
    forall i | 0 <= i < |orders| ensures !Crosses(orders[i], taker) {
      if i > 0 && Crosses(orders[i], taker) {
        PriceTransitive(orders[0].price, orders[i].price, taker.price.Inverse());
      }
    }
  }

  /** Where the index puts a new order. */
  function Insert(orders: seq<Order>, o: Order): seq<Order>
  {
    if orders == [] then [o]
    else if Ahead(o, orders[0]) then [o] + orders
    else [orders[0]] + Insert(orders[1..], o)
  }

  lemma {:induction false} InsertAdds(orders: seq<Order>, o: Order)
    ensures multiset(Insert(orders, o)) == multiset(orders) + multiset{o}
    ensures Sum(ForSale, Insert(orders, o)) == Sum(ForSale, orders) + o.forSale
  {
    if orders == [] {
    } else if Ahead(o, orders[0]) {
      SumConcat(ForSale, [o], orders);
    } else {
      InsertAdds(orders[1..], o);
      assert orders == [orders[0]] + orders[1..];
      SumConcat(ForSale, [orders[0]], Insert(orders[1..], o));
      SumConcat(ForSale, [orders[0]], orders[1..]);
    }
  }

  lemma InsertedMember(orders: seq<Order>, o: Order, x: Order)
    ensures x in Insert(orders, o) <==> x == o || x in orders
  {
    InsertAdds(orders, o);
    assert x in Insert(orders, o) <==> x in multiset(Insert(orders, o));
    assert x in orders <==> x in multiset(orders);
  }

  lemma {:induction false} InsertKeepsBook(orders: seq<Order>, o: Order, nextId: nat)
    requires Book(orders, o.id) && Resting(o) && o.id < nextId
    ensures Book(Insert(orders, o), nextId)
  {
    hide Ahead, Resting;
    var r := Insert(orders, o);
    forall i | 0 <= i < |r| ensures Resting(r[i]) && r[i].id < nextId { InsertedMember(orders, o, r[i]); }
    if orders == [] {
    } else if Ahead(o, orders[0]) {
      forall i, j | 0 <= i < j < |r| ensures Ahead(r[i], r[j]) {
        if i == 0 && j > 1 { RestingAhead(o, orders[0], orders[j - 1]); }
      }
    } else {
      var rest := Insert(orders[1..], o);
      InsertKeepsBook(orders[1..], o, nextId);
      NewOrderIsBehind(orders[0], o);
      forall j | 0 <= j < |rest| ensures Ahead(orders[0], rest[j]) {
        InsertedMember(orders[1..], o, rest[j]);
      }
    }
  }

  lemma RestingAhead(x: Order, y: Order, z: Order)
    requires Resting(x) && Resting(y) && Resting(z) && Ahead(x, y) && Ahead(y, z)
    ensures Ahead(x, z)
  {
    AheadTransitive(x, y, z);
  }

  lemma NewOrderIsBehind(x: Order, o: Order)
    requires !Ahead(o, x) && x.id < o.id
    ensures Ahead(x, o)
  {
  }

  // ----------------------------------------------------------- sweeping the book

  /** The fills a taker gets: best order first, until it is used up or no order crosses. */
  function Sweep(orders: seq<Order>, amount: nat, taker: Order): seq<Trade>
    requires AllPriced(orders)
  {
    if orders == [] || !Crosses(orders[0], taker) then []
    else
      var (pays, receives) := Matched(amount, orders[0]);
      [Trade(orders[0], amount, pays, receives)] +
      if receives < amount then Sweep(orders[1..], amount - receives, taker) else []
  }

  /** Whether a partly filled maker is too small to go on: what is left would ask for nothing. */
  predicate Culled(t: Trade)
    requires t.maker.price.base > 0 && t.pays <= t.maker.forSale
  {
    t.pays < t.maker.forSale && Times(t.maker.forSale - t.pays, t.maker.price) == 0
  }

  /** The maker's order after the fill, if any is left. */
  function Rest(t: Trade): seq<Order>
    requires t.maker.price.base > 0 && t.pays <= t.maker.forSale
  {
    if t.pays == t.maker.forSale || Culled(t) then [] else [t.maker.(forSale := t.maker.forSale - t.pays)]
  }

  /** fill_order for the maker, in the asset the taker sells. */
  function PayMaker(s: Side, t: Trade, fee: FeeRule): Side
    requires fee.percent <= FULL_PERCENT
  {
    FeeWithinAmount(fee, t.receives);
    var f := MarketFee(fee, t.receives);
    s.(balances := Credit(s.balances, t.maker.seller, t.receives - f), fees := s.fees + f)
  }

  /** fill_order for the taker, in the asset it buys, and the refund of a culled maker. */
  function PayTaker(s: Side, t: Trade, who: Account, fee: FeeRule): Side
    requires fee.percent <= FULL_PERCENT && t.maker.price.base > 0 && t.pays <= t.maker.forSale
  {
    FeeWithinAmount(fee, t.pays);
    var f := MarketFee(fee, t.pays);
    var b := Credit(s.balances, who, t.pays - f);
    s.(balances := if Culled(t) then Credit(b, t.maker.seller, t.maker.forSale - t.pays) else b, fees := s.fees + f)
  }

  ghost predicate Legit(t: Trade) { t.maker.price.Positive() && t.pays <= t.maker.forSale }

  ghost predicate AllLegit(trades: seq<Trade>)
  {
    forall i | 0 <= i < |trades| :: Legit(trades[i])
  }

  function PayMakers(s: Side, trades: seq<Trade>, fee: FeeRule): Side
    requires fee.percent <= FULL_PERCENT
  {
    if trades == [] then s else PayMaker(PayMakers(s, trades[..|trades| - 1], fee), trades[|trades| - 1], fee)
  }

  function PayTakers(s: Side, trades: seq<Trade>, who: Account, fee: FeeRule): Side
    requires fee.percent <= FULL_PERCENT && AllLegit(trades)
  {
    if trades == [] then s
    else PayTaker(PayTakers(s, trades[..|trades| - 1], who, fee), trades[|trades| - 1], who, fee)
  }

  /** The maker side of the book after the fills. */
  function Remaining(orders: seq<Order>, trades: seq<Trade>): seq<Order>
    requires |trades| <= |orders| && AllLegit(trades)
  {
    if trades == [] then orders else Rest(trades[|trades| - 1]) + orders[|trades|..]
  }

  function Receives(t: Trade): int { t.receives }

  /** What the fills of a sweep have in common: they take the orders in turn, each fair, each only while crossing,
      and each but the last using its order up. */
  ghost predicate Swept(orders: seq<Order>, amount: nat, taker: Order, trades: seq<Trade>)
  {
    && |trades| <= |orders|
    && (forall i | 0 <= i < |trades| :: trades[i].maker == orders[i] && Legit(trades[i]) && Fair(trades[i]) && Crosses(orders[i], taker))
    && (forall i | 0 <= i < |trades| - 1 :: trades[i].pays == trades[i].maker.forSale)
    && 0 <= Sum(Receives, trades) <= amount
    && (Sum(Receives, trades) < amount ==> trades != [] ==> trades[|trades| - 1].pays == trades[|trades| - 1].maker.forSale)
    && (Sum(Receives, trades) < amount ==> |trades| == |orders| || !Crosses(orders[|trades|], taker))
  }

  lemma {:induction false} SweepLaws(orders: seq<Order>, amount: nat, taker: Order)
    requires amount > 0 && AllResting(orders)
    ensures Swept(orders, amount, taker, Sweep(orders, amount, taker))
  {
    hide Sweep, Swept, Crosses, Resting;
    RestingArePriced(orders);
    if orders == [] || !Crosses(orders[0], taker) {
      SweepEnds(orders, amount, taker);
      SweptNone(orders, amount, taker);
    } else {
      SweepNext(orders, amount, taker);
      var (pays, receives) := Matched(amount, orders[0]);
      var t := Trade(orders[0], amount, pays, receives);
      MatchIsFair(amount, orders[0]);
      if receives < amount {
        SweepLaws(orders[1..], amount - receives, taker);
        SweptGrows(orders, amount, taker, t, Sweep(orders[1..], amount - receives, taker));
      } else {
        assert [t] + [] == [t];
        SweptOne(orders, amount, taker, t);
      }
    }
  }

  lemma SweptNone(orders: seq<Order>, amount: nat, taker: Order)
    requires orders == [] || !Crosses(orders[0], taker)
    ensures Swept(orders, amount, taker, [])
  {
  }

  lemma SweptOne(orders: seq<Order>, amount: nat, taker: Order, t: Trade)
    requires orders != [] && t.maker == orders[0] && Legit(t) && Fair(t) && Crosses(orders[0], taker) && t.receives == amount
    ensures Swept(orders, amount, taker, [t])
  {
    assert [t][..0] == [];
    assert Sum(Receives, [t]) == t.receives;
  }

  lemma SweptGrows(orders: seq<Order>, amount: nat, taker: Order, t: Trade, rest: seq<Trade>)
    requires orders != [] && t.maker == orders[0] && Legit(t) && Fair(t) && Crosses(orders[0], taker)
    requires t.receives < amount && t.pays == t.maker.forSale
    requires Swept(orders[1..], amount - t.receives, taker, rest)
    ensures Swept(orders, amount, taker, [t] + rest)
  {
    var ts := [t] + rest;
    SumConcat(Receives, [t], rest);
    forall i | 0 <= i < |ts| ensures ts[i].maker == orders[i] && Legit(ts[i]) && Fair(ts[i]) && Crosses(orders[i], taker) {
      if i > 0 { assert ts[i] == rest[i - 1] && orders[i] == orders[1..][i - 1]; }
    }
    forall i | 0 <= i < |ts| - 1 ensures ts[i].pays == ts[i].maker.forSale {
      if i > 0 { assert ts[i] == rest[i - 1]; }
    }
    if rest != [] { assert ts[|ts| - 1] == rest[|rest| - 1]; }
  }

  // ---------------------------------------------------------------- conservation

  lemma PayMakerSupply(s: Side, t: Trade, fee: FeeRule)
    requires fee.percent <= FULL_PERCENT
    ensures var r := PayMaker(s, t, fee);
            Supply(r) == Supply(s) + t.receives && r.orders == s.orders && (NonNegative(s.balances) ==> NonNegative(r.balances))
  {
    FeeWithinAmount(fee, t.receives);
    CreditTotal(s.balances, t.maker.seller, t.receives - MarketFee(fee, t.receives));
  }

  lemma PayTakerSupply(s: Side, t: Trade, who: Account, fee: FeeRule)
    requires fee.percent <= FULL_PERCENT && Legit(t)
    ensures var r := PayTaker(s, t, who, fee);
            && Supply(r) == Supply(s) + t.maker.forSale - Sum(ForSale, Rest(t))
            && r.orders == s.orders && (NonNegative(s.balances) ==> NonNegative(r.balances))
  {
    hide Total, NonNegative, Credit, MarketFee;
    FeeWithinAmount(fee, t.pays);
    var b := Credit(s.balances, who, t.pays - MarketFee(fee, t.pays));
    CreditTotal(s.balances, who, t.pays - MarketFee(fee, t.pays));
    CreditTotal(b, t.maker.seller, t.maker.forSale - t.pays);
    assert Rest(t) != [] ==> Rest(t)[..0] == [];
  }

  lemma {:induction false} PayMakersSupply(s: Side, trades: seq<Trade>, fee: FeeRule)
    requires fee.percent <= FULL_PERCENT
    ensures var r := PayMakers(s, trades, fee);
            && Supply(r) == Supply(s) + Sum(Receives, trades)
            && r.orders == s.orders && (NonNegative(s.balances) ==> NonNegative(r.balances))
  {
    if trades != [] {
      var n := |trades| - 1;
      PayMakersSupply(s, trades[..n], fee);
      PayMakerSupply(PayMakers(s, trades[..n], fee), trades[n], fee);
    }
  }

  /** The taker's asset gains what the makers' orders lose: everything bought, plus what is refunded. */
  lemma {:induction false} PayTakersSupply(s: Side, trades: seq<Trade>, who: Account, fee: FeeRule)
    requires fee.percent <= FULL_PERCENT && AllLegit(trades)
    requires |trades| <= |s.orders| && forall i | 0 <= i < |trades| :: trades[i].maker == s.orders[i]
    requires forall i | 0 <= i < |trades| - 1 :: trades[i].pays == trades[i].maker.forSale
    ensures var r := PayTakers(s, trades, who, fee);
            && Supply(r.(orders := Remaining(s.orders, trades))) == Supply(s)
            && r.orders == s.orders && (NonNegative(s.balances) ==> NonNegative(r.balances))
  {
    hide Sum, Total, NonNegative;
    if trades != [] {
      hide PayTaker, Remaining, Rest, Legit;
      var n := |trades| - 1;
      var paid := PayTakers(s, trades[..n], who, fee);
      PayTakersSupply(s, trades[..n], who, fee);
      PayTakerSupply(paid, trades[n], who, fee);
      RemainingStep(s.orders, trades);
    }
  }

  lemma RemainingIs(orders: seq<Order>, trades: seq<Trade>)
    requires 0 < |trades| <= |orders| && AllLegit(trades)
    ensures Remaining(orders, trades) == Rest(trades[|trades| - 1]) + orders[|trades|..]
  {
  }

  lemma RemainingStep(orders: seq<Order>, trades: seq<Trade>)
    requires trades != [] && AllLegit(trades)
    requires |trades| <= |orders| && forall i | 0 <= i < |trades| :: trades[i].maker == orders[i]
    requires forall i | 0 <= i < |trades| - 1 :: trades[i].pays == trades[i].maker.forSale
    ensures var n := |trades| - 1;
            && Sum(ForSale, Remaining(orders, trades)) ==
               Sum(ForSale, Remaining(orders, trades[..n])) - trades[n].maker.forSale + Sum(ForSale, Rest(trades[n]))
  {
    var n := |trades| - 1;
    var t := trades[n];
    assert Remaining(orders, trades[..n]) == orders[n..] by {
      if n > 0 { assert Rest(trades[n - 1]) == []; }
    }
    hide Rest, Remaining;
    RemainingIs(orders, trades);
    SumConcat(ForSale, Rest(t), orders[n + 1..]);
    assert orders[n..] == [t.maker] + orders[n + 1..];
    SumConcat(ForSale, [t.maker], orders[n + 1..]);
    assert [t.maker][..0] == [];
  }

  // ---------------------------------------------------------- account by account

  /** What an account gets as the maker of a fill, less the fee. */
  function MakerGets(who: Account, fee: FeeRule): Trade -> int
  {
    (t: Trade) => if t.maker.seller == who then t.receives - MarketFee(fee, t.receives) else 0
  }

  /** What the taker gets, less the fee. */
  function TakerGets(fee: FeeRule): Trade -> int { (t: Trade) => t.pays - MarketFee(fee, t.pays) }

  /** What a maker gets back because the rest would ask for less than one unit. */
  function GivenBack(who: Account): Trade -> int
  {
    (t: Trade) => var left := t.maker.forSale - t.pays;
                  if t.maker.seller == who && 0 < left && left * t.maker.price.quote < t.maker.price.base then left else 0
  }

  function MakerFee(fee: FeeRule): Trade -> int { (t: Trade) => MarketFee(fee, t.receives) }
  function TakerFee(fee: FeeRule): Trade -> int { (t: Trade) => MarketFee(fee, t.pays) }

  lemma {:induction false} PaidMakersAt(s: Side, trades: seq<Trade>, fee: FeeRule, who: Account)
    requires fee.percent <= FULL_PERCENT
    ensures var r := PayMakers(s, trades, fee);
            && At(r.balances, who) == At(s.balances, who) + Sum(MakerGets(who, fee), trades)
            && r.fees == s.fees + Sum(MakerFee(fee), trades)
  {
    hide Credit, At, MarketFee;
    if trades != [] {
      var n := |trades| - 1;
      var t := trades[n];
      PaidMakersAt(s, trades[..n], fee, who);
      FeeWithinAmount(fee, t.receives);
      CreditAt(PayMakers(s, trades[..n], fee).balances, t.maker.seller, t.receives - MarketFee(fee, t.receives), who);
    }
  }

  lemma {:induction false} PaidTakersAt(s: Side, trades: seq<Trade>, taker: Account, fee: FeeRule, who: Account)
    requires fee.percent <= FULL_PERCENT && AllLegit(trades)
    ensures var r := PayTakers(s, trades, taker, fee);
            && At(r.balances, who) == At(s.balances, who) + Sum(GivenBack(who), trades) + (if who == taker then Sum(TakerGets(fee), trades) else 0)
            && r.fees == s.fees + Sum(TakerFee(fee), trades)
  {
    hide Credit, At, MarketFee, Times;
    if trades != [] {
      var n := |trades| - 1;
      var t, b := trades[n], PayTakers(s, trades[..n], taker, fee).balances;
      PaidTakersAt(s, trades[..n], taker, fee, who);
      FeeWithinAmount(fee, t.pays);
      var net := t.pays - MarketFee(fee, t.pays);
      CreditAt(b, taker, net, who);
      CreditAt(Credit(b, taker, net), t.maker.seller, t.maker.forSale - t.pays, who);
      TimesIsGreatest(t.maker.forSale - t.pays, t.maker.price, 1);
    }
  }

  /** Everybody's balances after an order: in the asset sold, the seller has paid for the order and got back what is too
      little to rest, and makers are paid; in the asset bought, the seller is paid and makers get back what is left too small. */
  ghost predicate PaidFor(sell0: Side, buy0: Side, o: Order, feeSell: FeeRule, feeBuy: FeeRule, sell: Side, buy: Side, trades: seq<Trade>, who: Account)
  {
    var left, mine := o.forSale - Sum(Receives, trades), who == o.seller;
    && At(sell.balances, who) == At(sell0.balances, who) + Sum(MakerGets(who, feeSell), trades)
                                 - (if mine then o.forSale else 0) + (if mine && left * o.price.quote < o.price.base then left else 0)
    && At(buy.balances, who) == At(buy0.balances, who) + Sum(GivenBack(who), trades) + (if mine then Sum(TakerGets(feeBuy), trades) else 0)
  }

  /** What is left of a new order rests in the book, unless it is too little; fees are collected from both sides. */
  ghost predicate RestsAfter(sell0: Side, buy0: Side, o: Order, feeSell: FeeRule, feeBuy: FeeRule, sell: Side, buy: Side, filled: bool, trades: seq<Trade>)
  {
    var left := o.forSale - Sum(Receives, trades);
    && sell.fees == sell0.fees + Sum(MakerFee(feeSell), trades) && buy.fees == buy0.fees + Sum(TakerFee(feeBuy), trades)
    && (filled <==> left * o.price.quote < o.price.base)
    && left >= 0 && multiset(sell.orders) == multiset(sell0.orders) + if filled then multiset{} else multiset{o.(forSale := left)}
  }

  lemma OrderMoves(sell0: Side, buy0: Side, o: Order, feeSell: FeeRule, feeBuy: FeeRule, sell: Side, buy: Side, filled: bool, trades: seq<Trade>)
    requires feeSell.percent <= FULL_PERCENT && feeBuy.percent <= FULL_PERCENT && o.price.Positive()
    requires Traded(sell0, buy0, o, feeSell, feeBuy, sell, buy, filled, trades)
    ensures RestsAfter(sell0, buy0, o, feeSell, feeBuy, sell, buy, filled, trades)
    ensures forall who: Account :: PaidFor(sell0, buy0, o, feeSell, feeBuy, sell, buy, trades, who)
  {
    hide Sweep, Swept, PayMakers, PayTakers, Insert, Finish, Times, MarketFee, PaidFor, Sum, Remaining;
    var left := o.forSale - Sum(Receives, trades);
    var paid := sell0.(balances := Debit(sell0.balances, o.seller, o.forSale));
    SweptFacts(buy0.orders, o.forSale, o, trades);
    PaidMakersKeep(paid, trades, feeSell);
    PaidMakersAt(paid, trades, feeSell, 0);
    PaidTakersAt(buy0, trades, o.seller, feeBuy, 0);
    FinishMoves(PayMakers(paid, trades, feeSell), o, left, 0);
    forall who: Account ensures PaidFor(sell0, buy0, o, feeSell, feeBuy, sell, buy, trades, who) {
      OrderMovesFor(sell0, buy0, o, feeSell, feeBuy, sell, buy, filled, trades, who);
    }
  }

  lemma OrderMovesFor(sell0: Side, buy0: Side, o: Order, feeSell: FeeRule, feeBuy: FeeRule, sell: Side, buy: Side, filled: bool, trades: seq<Trade>, who: Account)
    requires feeSell.percent <= FULL_PERCENT && feeBuy.percent <= FULL_PERCENT && o.price.Positive()
    requires Traded(sell0, buy0, o, feeSell, feeBuy, sell, buy, filled, trades)
    ensures PaidFor(sell0, buy0, o, feeSell, feeBuy, sell, buy, trades, who)
  {
    hide Sweep, Swept, PayMakers, PayTakers, Insert, Finish, Times, MarketFee, Sum, Remaining, At, Debit;
    var left := o.forSale - Sum(Receives, trades);
    var paid := sell0.(balances := Debit(sell0.balances, o.seller, o.forSale));
    SweptFacts(buy0.orders, o.forSale, o, trades);
    PaidMakersAt(paid, trades, feeSell, who);
    PaidTakersAt(buy0, trades, o.seller, feeBuy, who);
    CreditAt(sell0.balances, o.seller, o.forSale, who);
    FinishMoves(PayMakers(paid, trades, feeSell), o, left, who);
  }

  lemma FinishMoves(s: Side, o: Order, left: nat, who: Account)
    requires o.price.Positive()
    ensures var (r, filled) := Finish(s, o, left);
            && (filled <==> left * o.price.quote < o.price.base) && r.fees == s.fees
            && multiset(r.orders) == multiset(s.orders) + (if filled then multiset{} else multiset{o.(forSale := left)})
            && At(r.balances, who) == At(s.balances, who) + if who == o.seller && filled then left else 0
  {
    hide Insert, Times, At, Credit;
    TimesIsGreatest(left, o.price, 1);
    InsertAdds(s.orders, o.(forSale := left));
    CreditAt(s.balances, o.seller, left, who);
  }

  // ------------------------------------------------------------------- the book

  /** `rest` is what is left of the end of `orders`: nobody's price or place has moved. */
  ghost predicate TailOf(rest: seq<Order>, orders: seq<Order>)
  {
    |rest| <= |orders| && forall j | 0 <= j < |rest| :: SameButSmaller(rest[j], orders[|orders| - |rest|..][j])
  }

  /** What is left of the maker side is a book again, and if the taker has anything left nothing crosses it. */
  lemma RemainingBook(orders: seq<Order>, amount: nat, taker: Order, trades: seq<Trade>, nextId: nat)
    requires Book(orders, nextId) && taker.price.Positive() && Swept(orders, amount, taker, trades)
    requires AllLegit(trades)
    ensures TailOf(Remaining(orders, trades), orders) && Book(Remaining(orders, trades), nextId)
    ensures Sum(Receives, trades) < amount ==>
              forall j | 0 <= j < |Remaining(orders, trades)| :: !Crosses(Remaining(orders, trades)[j], taker)
  {
    hide Swept, Ahead, Crosses, Resting, Remaining, TailOf;
    RemainingIsTail(orders, amount, taker, trades);
    TailIsBook(Remaining(orders, trades), orders, nextId);
    RemainingIsUncrossed(orders, amount, taker, trades);
  }

  lemma TailIsBook(rest: seq<Order>, orders: seq<Order>, nextId: nat)
    requires Book(orders, nextId) && TailOf(rest, orders)
    ensures Book(rest, nextId)
  {
    hide Ahead, Resting;
    var tail := orders[|orders| - |rest|..];
    forall i, j | 0 <= i < j < |rest| ensures Ahead(rest[i], rest[j]) {
      assert Ahead(tail[i], tail[j]);
      SameAhead(rest[i], tail[i], rest[j], tail[j]);
    }
    forall i | 0 <= i < |rest| ensures Resting(rest[i]) && rest[i].id < nextId {
      assert SameButSmaller(rest[i], tail[i]);
    }
  }

  /** The same order, perhaps partly filled, still asking for at least one unit. */
  ghost predicate SameButSmaller(x: Order, y: Order)
  {
    Resting(x) && x.id == y.id && x.seller == y.seller && x.price == y.price && x.forSale <= y.forSale
  }

  lemma SameAhead(x: Order, y: Order, x': Order, y': Order)
    requires SameButSmaller(x, y) && SameButSmaller(x', y') && Ahead(y, y')
    ensures Ahead(x, x')
  {
  }

  lemma RemainingIsTail(orders: seq<Order>, amount: nat, taker: Order, trades: seq<Trade>)
    requires AllResting(orders) && Swept(orders, amount, taker, trades) && AllLegit(trades)
    ensures |trades| <= |orders|
    ensures TailOf(Remaining(orders, trades), orders)
  {
    hide Fair, Crosses, Rest, Resting, Remaining;
    var n, rest := |trades|, Remaining(orders, trades);
    if n == 0 {
      assert rest == orders by { RemainingNone(orders); }
      assert orders[0..] == orders;
    } else {
      var t := trades[n - 1];
      RemainingIs(orders, trades);
      assert t.maker == orders[n - 1];
      RestIsResting(t);
      if Rest(t) == [] { assert rest == orders[n..]; } else { assert rest == [Rest(t)[0]] + orders[n..]; }
    }
  }

  lemma RemainingNone(orders: seq<Order>)
    ensures Remaining(orders, []) == orders
  {
  }

  lemma RestIsResting(t: Trade)
    requires Legit(t) && Resting(t.maker)
    ensures |Rest(t)| <= 1 && (Rest(t) != [] ==> SameButSmaller(Rest(t)[0], t.maker))
  {
  }

  lemma RemainingIsUncrossed(orders: seq<Order>, amount: nat, taker: Order, trades: seq<Trade>)
    requires InOrder(orders) && AllResting(orders) && taker.price.Positive() && Swept(orders, amount, taker, trades) && AllLegit(trades)
    ensures Sum(Receives, trades) < amount ==>
              forall j | 0 <= j < |Remaining(orders, trades)| :: !Crosses(Remaining(orders, trades)[j], taker)
  {
    var n, rest := |trades|, Remaining(orders, trades);
    if Sum(Receives, trades) < amount && rest != [] {
      assert rest == orders[n..] by { if n > 0 { RemainingIs(orders, trades); } }
      RestingArePriced(orders);
      assert rest[0] == orders[n];
      BestDecides(rest, taker);
    }
  }

  // ------------------------------------------------------------- the operations

  /** match with its two calls of fill_order, the taker's first; `makerFilled` and `takerFilled` are its result bits. */
  method FillBoth(sell0: Side, buy0: Side, taker: Order, left: nat, feeSell: FeeRule, feeBuy: FeeRule)
    returns (sell: Side, buy: Side, t: Trade, takerFilled: bool, makerFilled: bool)
    requires left > 0 && buy0.orders != [] && Resting(buy0.orders[0])
    requires feeSell.percent <= FULL_PERCENT && feeBuy.percent <= FULL_PERCENT
    ensures var (pays, receives) := Matched(left, buy0.orders[0]); t == Trade(buy0.orders[0], left, pays, receives)
    ensures Legit(t) && Fair(t) && sell == PayMaker(sell0, t, feeSell)
    ensures buy == PayTaker(buy0, t, taker.seller, feeBuy).(orders := Rest(t) + buy0.orders[1..])
    ensures takerFilled == (t.receives == left) && makerFilled == (Rest(t) == [])
  {
    var maker := buy0.orders[0];
    MatchNeverOverflows(left, maker);
    MatchIsFair(left, maker);
    var (pays, receives) := Matched(left, maker);
    t := Trade(maker, left, pays, receives);
    // fill_order for the taker, which is not culled here
    FeeWithinAmount(feeBuy, pays);
    var fee := MarketFee(feeBuy, pays);
    var balances := Credit(buy0.balances, taker.seller, pays - fee);
    takerFilled := receives == left;
    // fill_order for the maker
    FeeWithinAmount(feeSell, receives);
    var makerFee := MarketFee(feeSell, receives);
    sell := sell0.(balances := Credit(sell0.balances, maker.seller, receives - makerFee), fees := sell0.fees + makerFee);
    var orders := buy0.orders[1..];
    makerFilled := pays == maker.forSale;
    if !makerFilled {
      var rest := maker.(forSale := maker.forSale - pays);
      makerFilled := Worth(rest) == 0;
      if makerFilled {
        balances := Credit(balances, maker.seller, rest.forSale);
      } else {
        orders := [rest] + orders;
      }
    }
    buy := Side(orders, balances, buy0.fees + fee);
  }

  /** The loop of apply_order: fill the new order against the best order of the other side, as long as they cross
      and the match uses up the maker but not the taker. */
  method MatchOrders(sell0: Side, buy0: Side, taker: Order, feeSell: FeeRule, feeBuy: FeeRule)
    returns (sell: Side, buy: Side, left: nat, trades: seq<Trade>)
    requires taker.forSale > 0 && taker.price.Positive() && AllResting(buy0.orders)
    requires feeSell.percent <= FULL_PERCENT && feeBuy.percent <= FULL_PERCENT
    ensures trades == Sweep(buy0.orders, taker.forSale, taker)
    ensures Swept(buy0.orders, taker.forSale, taker, trades) && AllLegit(trades)
    ensures left == taker.forSale - Sum(Receives, trades)
    ensures sell == PayMakers(sell0, trades, feeSell)
    ensures buy == PayTakers(buy0, trades, taker.seller, feeBuy).(orders := Remaining(buy0.orders, trades))
  {
    RestingArePriced(buy0.orders);
    hide Progress, Open, PayMaker, PayTaker, Rest, Matched, Fair, Crosses, Resting;
    sell, buy, left, trades := sell0, buy0, taker.forSale, [];
    var finished := false;
    ProgressStarts(sell0, buy0, taker, feeSell, feeBuy);
    while !finished && buy.orders != [] && Crosses(buy.orders[0], taker)
      invariant Progress(sell0, buy0, taker, feeSell, feeBuy, sell, buy, left, trades)
      invariant finished ==> trades == Sweep(buy0.orders, taker.forSale, taker)
      invariant !finished ==> Open(buy0.orders, taker, buy.orders, left, trades)
      decreases |buy0.orders| - |trades|, !finished
    {
      OpenFront(buy0.orders, taker, buy.orders, left, trades);
      ghost var sell1, buy1 := sell, buy;
      var t, takerFilled, makerFilled;
      sell, buy, t, takerFilled, makerFilled := FillBoth(sell, buy, taker, left, feeSell, feeBuy);
      ProgressGoesOn(sell0, buy0, taker, feeSell, feeBuy, sell1, buy1, left, trades, t);
      finished := !(makerFilled && !takerFilled);
      left := left - t.receives;
      trades := trades + [t];
    }
    ProgressEnds(sell0, buy0, taker, feeSell, feeBuy, sell, buy, left, trades, finished);
  }

  /** What the loop has done so far, in terms of the fills so far. */
  ghost predicate Progress(sell0: Side, buy0: Side, taker: Order, feeSell: FeeRule, feeBuy: FeeRule,
                           sell: Side, buy: Side, left: nat, trades: seq<Trade>)
    requires feeSell.percent <= FULL_PERCENT && feeBuy.percent <= FULL_PERCENT
  {
    && |trades| <= |buy0.orders| && AllLegit(trades)
    && left == taker.forSale - Sum(Receives, trades)
    && sell == PayMakers(sell0, trades, feeSell)
    && buy == PayTakers(buy0, trades, taker.seller, feeBuy).(orders := Remaining(buy0.orders, trades))
  }

  /** The maker before has been used up, the taker has not: the fills still to come are those of a sweep from here. */
  ghost predicate Open(orders0: seq<Order>, taker: Order, orders: seq<Order>, left: nat, trades: seq<Trade>)
    requires AllPriced(orders0)
  {
    && left > 0 && |trades| <= |orders0| && orders == orders0[|trades|..]
    && Sweep(orders0, taker.forSale, taker) == trades + Sweep(orders, left, taker)
  }

  lemma ProgressStarts(sell0: Side, buy0: Side, taker: Order, feeSell: FeeRule, feeBuy: FeeRule)
    requires taker.forSale > 0 && AllPriced(buy0.orders)
    requires feeSell.percent <= FULL_PERCENT && feeBuy.percent <= FULL_PERCENT
    ensures Progress(sell0, buy0, taker, feeSell, feeBuy, sell0, buy0, taker.forSale, [])
    ensures Open(buy0.orders, taker, buy0.orders, taker.forSale, [])
  {
  }

  lemma OpenFront(orders0: seq<Order>, taker: Order, orders: seq<Order>, left: nat, trades: seq<Trade>)
    requires AllResting(orders0) && AllPriced(orders0) && Open(orders0, taker, orders, left, trades) && orders != []
    ensures left > 0 && Resting(orders[0]) && |trades| < |orders0|
  {
  }

  lemma ProgressGoesOn(sell0: Side, buy0: Side, taker: Order, feeSell: FeeRule, feeBuy: FeeRule,
                       sell: Side, buy: Side, left: nat, trades: seq<Trade>, t: Trade)
    requires feeSell.percent <= FULL_PERCENT && feeBuy.percent <= FULL_PERCENT && AllResting(buy0.orders) && AllPriced(buy0.orders)
    requires Progress(sell0, buy0, taker, feeSell, feeBuy, sell, buy, left, trades)
    requires Open(buy0.orders, taker, buy.orders, left, trades)
    requires buy.orders != [] && Crosses(buy.orders[0], taker) && AllPriced(buy.orders) && Legit(t)
    requires var (pays, receives) := Matched(left, buy.orders[0]); t == Trade(buy.orders[0], left, pays, receives)
    ensures t.receives <= left
    ensures var buy' := PayTaker(buy, t, taker.seller, feeBuy).(orders := Rest(t) + buy.orders[1..]);
            Progress(sell0, buy0, taker, feeSell, feeBuy, PayMaker(sell, t, feeSell), buy', left - t.receives, trades + [t])
    ensures if Rest(t) == [] && t.receives != left then
              Open(buy0.orders, taker, Rest(t) + buy.orders[1..], left - t.receives, trades + [t])
            else trades + [t] == Sweep(buy0.orders, taker.forSale, taker)
  {
    hide PayMaker, PayTaker, PayMakers, PayTakers, Sweep, Rest, Matched, Crosses, Resting, Sum, Remaining;
    SweepNext(buy.orders, left, taker);
    OneMoreTrade(sell0, buy0, trades, t, taker, feeSell, feeBuy);
    OpenGoesOn(buy0.orders, taker, buy.orders, left, trades, t);
  }

  lemma OpenGoesOn(orders0: seq<Order>, taker: Order, orders: seq<Order>, left: nat, trades: seq<Trade>, t: Trade)
    requires AllPriced(orders0) && AllPriced(orders) && orders != [] && t.receives <= left && Legit(t)
    requires Open(orders0, taker, orders, left, trades)
    requires t.receives < left ==> Rest(t) == []
    requires Sweep(orders, left, taker) == [t] + if t.receives < left then Sweep(orders[1..], left - t.receives, taker) else []
    ensures if Rest(t) == [] && t.receives != left then Open(orders0, taker, Rest(t) + orders[1..], left - t.receives, trades + [t])
            else trades + [t] == Sweep(orders0, taker.forSale, taker)
  {
    hide Sweep, Rest;
    assert orders0[|trades|..][1..] == orders0[|trades| + 1..];
    if t.receives != left {
      var rest := Sweep(orders[1..], left - t.receives, taker);
      assert trades + ([t] + rest) == trades + [t] + rest;
      assert Rest(t) + orders[1..] == orders[1..];
    } else {
      assert [t] + [] == [t];
    }
  }

  lemma ProgressEnds(sell0: Side, buy0: Side, taker: Order, feeSell: FeeRule, feeBuy: FeeRule,
                     sell: Side, buy: Side, left: nat, trades: seq<Trade>, finished: bool)
    requires taker.forSale > 0 && AllResting(buy0.orders) && AllPriced(buy0.orders)
    requires feeSell.percent <= FULL_PERCENT && feeBuy.percent <= FULL_PERCENT
    requires Progress(sell0, buy0, taker, feeSell, feeBuy, sell, buy, left, trades)
    requires if finished then trades == Sweep(buy0.orders, taker.forSale, taker)
             else Open(buy0.orders, taker, buy.orders, left, trades) && (buy.orders == [] || !Crosses(buy.orders[0], taker))
    ensures trades == Sweep(buy0.orders, taker.forSale, taker)
    ensures Swept(buy0.orders, taker.forSale, taker, trades) && AllLegit(trades) && |trades| <= |buy0.orders|
    ensures left == taker.forSale - Sum(Receives, trades)
    ensures sell == PayMakers(sell0, trades, feeSell)
    ensures buy == PayTakers(buy0, trades, taker.seller, feeBuy).(orders := Remaining(buy0.orders, trades))
  {
    SweepLaws(buy0.orders, taker.forSale, taker);
    hide Sweep, Swept, PayMakers, PayTakers;
    if !finished { SweepEnds(buy.orders, left, taker); }
  }

  lemma RestingArePriced(orders: seq<Order>)
    requires AllResting(orders)
    ensures AllPriced(orders)
  {
  }

  lemma SweepEnds(orders: seq<Order>, amount: nat, taker: Order)
    requires AllPriced(orders) && (orders == [] || !Crosses(orders[0], taker))
    ensures Sweep(orders, amount, taker) == []
  {
  }

  lemma SweepNext(orders: seq<Order>, amount: nat, taker: Order)
    requires AllResting(orders) && amount > 0 && orders != [] && Crosses(orders[0], taker)
    requires AllPriced(orders)
    ensures var (pays, receives) := Matched(amount, orders[0]);
            var t := Trade(orders[0], amount, pays, receives);
            && receives <= amount && (receives < amount ==> Legit(t) && Rest(t) == [])
            && Sweep(orders, amount, taker) == [t] + if receives < amount then Sweep(orders[1..], amount - receives, taker) else []
  {
    MatchIsFair(amount, orders[0]);
  }

  lemma OneMoreTrade(sell: Side, buy: Side, trades: seq<Trade>, t: Trade, taker: Order, feeSell: FeeRule, feeBuy: FeeRule)
    requires feeSell.percent <= FULL_PERCENT && feeBuy.percent <= FULL_PERCENT
    requires AllLegit(trades) && Legit(t) && |trades| < |buy.orders|
    ensures AllLegit(trades + [t]) && Sum(Receives, trades + [t]) == Sum(Receives, trades) + t.receives
    ensures PayMakers(sell, trades + [t], feeSell) == PayMaker(PayMakers(sell, trades, feeSell), t, feeSell)
    ensures var s := PayTakers(buy, trades, taker.seller, feeBuy).(orders := Remaining(buy.orders, trades));
            PayTakers(buy, trades + [t], taker.seller, feeBuy).(orders := Remaining(buy.orders, trades + [t])) ==
            PayTaker(s, t, taker.seller, feeBuy).(orders := Rest(t) + buy.orders[|trades|..][1..])
  {
    assert (trades + [t])[..|trades|] == trades;
    assert buy.orders[|trades| + 1..] == buy.orders[|trades|..][1..];
  }

  // ------------------------------------------------------------------ the market

  /** Everything that holds of one asset's side between operations. */
  ghost predicate SideOk(s: Side, nextId: nat)
  {
    Book(s.orders, nextId) && NonNegative(s.balances) && Supply(s) <= MAX_SHARES
  }

  lemma {:induction false} OrdersWithinSupply(s: Side, nextId: nat, who: Account)
    requires SideOk(s, nextId)
    ensures Sum(ForSale, s.orders) >= 0 && At(s.balances, who) <= MAX_SHARES
  {
    forall o <- s.orders ensures ForSale(o) >= 0 {}
    SumNonNegative(ForSale, s.orders);
    TotalBounds(s.balances, who);
  }

  lemma UncrossedSymmetric(xs: seq<Order>, ys: seq<Order>)
    ensures Uncrossed(xs, ys) <==> Uncrossed(ys, xs)
  {
    forall x, y ensures Crosses(x, y) <==> Crosses(y, x) {}
  }

  lemma UncrossedTail(xs: seq<Order>, rest: seq<Order>, ys: seq<Order>)
    requires Uncrossed(xs, ys) && TailOf(rest, xs)
    ensures Uncrossed(rest, ys)
  {
    var tail := xs[|xs| - |rest|..];
    forall i, j | 0 <= i < |rest| && 0 <= j < |ys| ensures !Crosses(rest[i], ys[j]) {
      assert SameButSmaller(rest[i], tail[i]) && tail[i] == xs[i + |xs| - |rest|];
    }
  }

  lemma UncrossedInsert(xs: seq<Order>, o: Order, ys: seq<Order>)
    requires Uncrossed(xs, ys) && forall j | 0 <= j < |ys| :: !Crosses(ys[j], o)
    ensures Uncrossed(Insert(xs, o), ys)
  {
    hide Insert, Crosses;
    var r := Insert(xs, o);
    forall i, j | 0 <= i < |r| && 0 <= j < |ys| ensures !Crosses(r[i], ys[j]) {
      InsertedMember(xs, o, r[i]);
      CrossesSymmetric(ys[j], o);
    }
  }

  lemma CrossesSymmetric(x: Order, y: Order)
    ensures Crosses(x, y) <==> Crosses(y, x)
  {
  }

  /** What becomes of the taker after the fills: nothing left, a remainder too small to rest, or a resting order. */
  function Finish(s: Side, o: Order, left: nat): (r: (Side, bool))
    requires o.price.base > 0
  {
    var rest := o.(forSale := left);
    if left == 0 then (s, true)
    else if Worth(rest) == 0 then (s.(balances := Credit(s.balances, o.seller, left)), true)
    else (s.(orders := Insert(s.orders, rest)), false)
  }

  lemma FinishSupply(s: Side, o: Order, left: nat)
    requires o.price.base > 0
    ensures var r := Finish(s, o, left).0; Supply(r) == Supply(s) + left && (NonNegative(s.balances) ==> NonNegative(r.balances))
  {
    CreditTotal(s.balances, o.seller, left);
    InsertAdds(s.orders, o.(forSale := left));
  }

  lemma FinishBook(s: Side, o: Order, left: nat, others: seq<Order>)
    requires Book(s.orders, o.id) && Uncrossed(s.orders, others)
    requires o.price.Positive() && o.price.base <= MAX_SHARES && o.price.quote <= MAX_SHARES && left <= o.price.base
    requires left > 0 ==> forall j | 0 <= j < |others| :: !Crosses(others[j], o)
    ensures Book(Finish(s, o, left).0.orders, o.id + 1) && Uncrossed(Finish(s, o, left).0.orders, others)
  {
    var rest := o.(forSale := left);
    if left > 0 && Worth(rest) > 0 {
      InsertKeepsBook(s.orders, rest, o.id + 1);
      UncrossedInsert(s.orders, rest, others);
    }
  }

  /** No two orders have the same id. */
  ghost predicate Distinct(xs: seq<Order>, ys: seq<Order>)
  {
    && (forall i, j | 0 <= i < j < |xs| :: xs[i].id != xs[j].id) && (forall i, j | 0 <= i < j < |ys| :: ys[i].id != ys[j].id)
    && forall i, j | 0 <= i < |xs| && 0 <= j < |ys| :: xs[i].id != ys[j].id
  }

  lemma DistinctTail(xs: seq<Order>, ys: seq<Order>, rest: seq<Order>)
    requires Distinct(xs, ys) && TailOf(rest, ys)
    ensures Distinct(xs, rest)
  {
    var k := |ys| - |rest|;
    forall j | 0 <= j < |rest| ensures rest[j].id == ys[k + j].id { assert SameButSmaller(rest[j], ys[k..][j]); }
  }

  lemma {:induction false} DistinctInsert(xs: seq<Order>, o: Order, ys: seq<Order>)
    requires Distinct(xs, ys) && (forall i | 0 <= i < |xs| :: xs[i].id != o.id) && forall j | 0 <= j < |ys| :: ys[j].id != o.id
    ensures Distinct(Insert(xs, o), ys)
  {
    if xs != [] && !Ahead(o, xs[0]) {
      DistinctInsert(xs[1..], o, ys);
      var rest := Insert(xs[1..], o);
      forall i | 0 <= i < |rest| ensures rest[i].id != xs[0].id {
        InsertedMember(xs[1..], o, rest[i]);
        if rest[i] != o { var k :| 0 <= k < |xs[1..]| && xs[1..][k] == rest[i]; assert xs[k + 1] == rest[i]; }
      }
    }
  }

  /** Two sides of a market: no two orders cross, and none share an id. */
  ghost predicate Apart(xs: seq<Order>, ys: seq<Order>) { Uncrossed(xs, ys) && Distinct(xs, ys) }

  lemma ApartSymmetric(xs: seq<Order>, ys: seq<Order>)
    ensures Apart(xs, ys) <==> Apart(ys, xs)
  {
    UncrossedSymmetric(xs, ys);
  }

  lemma {:induction false} PaidMakersKeep(s: Side, trades: seq<Trade>, fee: FeeRule)
    requires fee.percent <= FULL_PERCENT
    ensures PayMakers(s, trades, fee).orders == s.orders
    decreases |trades|
  {
    if trades != [] { PaidMakersKeep(s, trades[..|trades| - 1], fee); }
  }

  /** A new order takes the next id, and what is left of the others keep theirs. */
  lemma StaysDistinct(sell0: Side, buy0: Side, o: Order, feeSell: FeeRule, trades: seq<Trade>, left: nat, sell: Side, buy: Side)
    requires Distinct(sell0.orders, buy0.orders) && TailOf(buy.orders, buy0.orders) && o.price.base > 0 && feeSell.percent <= FULL_PERCENT
    requires (forall i | 0 <= i < |sell0.orders| :: sell0.orders[i].id < o.id) && forall i | 0 <= i < |buy0.orders| :: buy0.orders[i].id < o.id
    requires sell == Finish(PayMakers(sell0.(balances := Debit(sell0.balances, o.seller, o.forSale)), trades, feeSell), o, left).0
    ensures Distinct(sell.orders, buy.orders)
  {
    hide PayMakers, Insert, Distinct, TailOf;
    var paid := sell0.(balances := Debit(sell0.balances, o.seller, o.forSale));
    PaidMakersKeep(paid, trades, feeSell);
    DistinctTail(sell0.orders, buy0.orders, buy.orders);
    if sell.orders != sell0.orders {
      TailIds(buy.orders, buy0.orders, o.id);
      DistinctInsert(sell0.orders, o.(forSale := left), buy.orders);
    }
  }

  lemma TailIds(rest: seq<Order>, ys: seq<Order>, id: nat)
    requires TailOf(rest, ys) && forall i | 0 <= i < |ys| :: ys[i].id < id
    ensures forall i | 0 <= i < |rest| :: rest[i].id < id
  {
    var k := |ys| - |rest|;
    forall j | 0 <= j < |rest| ensures rest[j].id < id { assert SameButSmaller(rest[j], ys[k..][j]) && ys[k..][j] == ys[k + j]; }
  }

  lemma DistinctWithout(xs: seq<Order>, i: nat, ys: seq<Order>)
    requires i < |xs| && Distinct(xs, ys)
    ensures Distinct(xs[..i] + xs[i + 1..], ys)
  {
  }

  /** create the order, apply_order, and cull what is left if it is too small. */
  method ApplyOrder(sell0: Side, buy0: Side, o: Order, feeSell: FeeRule, feeBuy: FeeRule)
    returns (sell: Side, buy: Side, filled: bool, trades: seq<Trade>)
    requires SideOk(sell0, o.id) && SideOk(buy0, o.id) && Apart(sell0.orders, buy0.orders)
    requires 0 < o.forSale == o.price.base && 0 < o.price.quote <= MAX_SHARES && o.forSale <= At(sell0.balances, o.seller)
    requires feeSell.percent <= FULL_PERCENT && feeBuy.percent <= FULL_PERCENT
    ensures SideOk(sell, o.id + 1) && SideOk(buy, o.id + 1) && Apart(sell.orders, buy.orders)
    ensures Supply(sell) == Supply(sell0) && Supply(buy) == Supply(buy0)
    ensures AllPriced(buy0.orders) && trades == Sweep(buy0.orders, o.forSale, o)
    ensures Swept(buy0.orders, o.forSale, o, trades) && AllLegit(trades)
    ensures 0 <= Sum(Receives, trades) <= o.forSale
    ensures (sell, filled) == Finish(PayMakers(sell0.(balances := Debit(sell0.balances, o.seller, o.forSale)), trades, feeSell),
                                     o, o.forSale - Sum(Receives, trades))
    ensures buy == PayTakers(buy0, trades, o.seller, feeBuy).(orders := Remaining(buy0.orders, trades))
  {
    hide Sweep, Swept, PayMakers, PayTakers, Remaining, Finish, Crosses, Resting, TailOf, InOrder, Uncrossed, Distinct;
    OrdersWithinSupply(sell0, o.id, o.seller);
    DebitTotal(sell0.balances, o.seller, o.forSale);
    RestingArePriced(buy0.orders);
    var paid := sell0.(balances := Debit(sell0.balances, o.seller, o.forSale));
    var left;
    sell, buy, left, trades := MatchOrders(paid, buy0, o, feeSell, feeBuy);
    PayMakersSupply(paid, trades, feeSell);
    SweptFacts(buy0.orders, o.forSale, o, trades);
    PayTakersSupply(buy0, trades, o.seller, feeBuy);
    RemainingBook(buy0.orders, o.forSale, o, trades, o.id);
    UncrossedSymmetric(sell0.orders, buy0.orders);
    UncrossedTail(buy0.orders, buy.orders, sell0.orders);
    UncrossedSymmetric(buy.orders, sell.orders);
    FinishSupply(sell, o, left);
    FinishBook(sell, o, left, buy.orders);
    sell, filled := FinishTaker(sell, o, left);
    GivenIds(sell0, buy0, o.id);
    StaysDistinct(sell0, buy0, o, feeSell, trades, left, sell, buy);
  }

  lemma SweptFacts(orders: seq<Order>, amount: nat, taker: Order, trades: seq<Trade>)
    requires Swept(orders, amount, taker, trades)
    ensures |trades| <= |orders| && 0 <= Sum(Receives, trades) <= amount
    ensures forall i | 0 <= i < |trades| :: trades[i].maker == orders[i]
    ensures forall i | 0 <= i < |trades| - 1 :: trades[i].pays == trades[i].maker.forSale
  {
  }

  method FinishTaker(s: Side, o: Order, left: nat) returns (r: Side, filled: bool)
    requires o.price.base > 0
    ensures (r, filled) == Finish(s, o, left)
  {
    r, filled := s, true;
    if left > 0 {
      var rest := o.(forSale := left);
      if Worth(rest) == 0 {
        r := s.(balances := Credit(s.balances, o.seller, left));
      } else {
        r, filled := s.(orders := Insert(s.orders, rest)), false;
      }
    }
  }

  /** cancel_order: give the rest back and drop the order. */
  function Cancelled(s: Side, i: nat): Side
    requires i < |s.orders|
  {
    var o := s.orders[i];
    s.(balances := Credit(s.balances, o.seller, o.forSale), orders := s.orders[..i] + s.orders[i + 1..])
  }

  lemma CancelledOk(s: Side, i: nat, nextId: nat, others: seq<Order>)
    requires SideOk(s, nextId) && Uncrossed(s.orders, others) && i < |s.orders|
    ensures SideOk(Cancelled(s, i), nextId) && Uncrossed(Cancelled(s, i).orders, others)
    ensures Supply(Cancelled(s, i)) == Supply(s)
  {
    hide Ahead, Resting, Crosses;
    var o := s.orders[i];
    CreditTotal(s.balances, o.seller, o.forSale);
    SumRemove(ForSale, s.orders, i);
  }

  /** The market of two user-issued assets, changed by creating and cancelling limit orders. */
  class LimitMarket {
    var a: Side
    var b: Side
    var nextId: nat
    const feeA: FeeRule
    const feeB: FeeRule

    /** Both sides are in order, no resting order asks for nothing, and no two resting orders cross or share an id. */
    ghost predicate Valid()
      reads this
    {
      && SideOk(a, nextId) && SideOk(b, nextId) && Apart(a.orders, b.orders)
      && feeA.percent <= FULL_PERCENT && feeB.percent <= FULL_PERCENT
    }

    constructor (balancesA: Balances, balancesB: Balances, feeA: FeeRule, feeB: FeeRule)
      requires NonNegative(balancesA) && NonNegative(balancesB) && Total(balancesA) <= MAX_SHARES && Total(balancesB) <= MAX_SHARES
      requires feeA.percent <= FULL_PERCENT && feeB.percent <= FULL_PERCENT
      ensures Valid() && a == Side([], balancesA, 0) && b == Side([], balancesB, 0)
    {
      a, b, nextId := Side([], balancesA, 0), Side([], balancesB, 0), 0;
      this.feeA, this.feeB := feeA, feeB;
    }

    /** limit_order_create: `sellsA` says which asset is offered.  A rejected operation is rolled back whole. */
    method Place(sellsA: bool, seller: Account, amount: int, minReceive: int, fillOrKill: bool)
      returns (r: Result, trades: seq<Trade>)
      requires Valid()
      modifies this
      ensures Valid() && Supply(a) == old(Supply(a)) && Supply(b) == old(Supply(b))
      ensures r.Rejected? ==> a == old(a) && b == old(b) && nextId == old(nextId)
      ensures (amount <= 0 || minReceive <= 0 || minReceive > MAX_SHARES
               || amount > At((if sellsA then old(a) else old(b)).balances, seller)) ==> r.Rejected?
      ensures (0 < amount <= At((if sellsA then old(a) else old(b)).balances, seller) && 0 < minReceive <= MAX_SHARES) ==>
                (var o := Order(old(nextId), seller, amount, Price(amount, minReceive));
                 var (sell0, buy0) := if sellsA then (old(a), old(b)) else (old(b), old(a));
                 r.Placed? <==> !fillOrKill || WouldFill(buy0, o))
      ensures r.Placed? ==> amount > 0 && minReceive > 0 && nextId == old(nextId) + 1 && (fillOrKill ==> r.filled)
      ensures r.Placed? ==>
                var o := Order(old(nextId), seller, amount, Price(amount, minReceive));
                var (sell0, buy0) := if sellsA then (old(a), old(b)) else (old(b), old(a));
                var (sell, buy) := if sellsA then (a, b) else (b, a);
                var (feeSell, feeBuy) := if sellsA then (feeA, feeB) else (feeB, feeA);
                && Traded(sell0, buy0, o, feeSell, feeBuy, sell, buy, r.filled, trades)
                && RestsAfter(sell0, buy0, o, feeSell, feeBuy, sell, buy, r.filled, trades)
                && forall who: Account :: PaidFor(sell0, buy0, o, feeSell, feeBuy, sell, buy, trades, who)
    {
      hide SideOk, Apart, Finish, PayMakers, PayTakers, Sweep, Swept, Remaining, PaidFor, RestsAfter;
      trades := [];
      var sell0, buy0 := if sellsA then a else b, if sellsA then b else a;
      if amount <= 0 || minReceive <= 0 || At(sell0.balances, seller) < amount || minReceive > MAX_SHARES { return Rejected, []; }
      var o := Order(nextId, seller, amount, Price(amount, minReceive));
      ApartSymmetric(a.orders, b.orders);
      var sell, buy, filled;
      sell, buy, filled, trades := ApplyOrder(sell0, buy0, o, if sellsA then feeA else feeB, if sellsA then feeB else feeA);
      ApartSymmetric(sell.orders, buy.orders);
      OrderMoves(sell0, buy0, o, if sellsA then feeA else feeB, if sellsA then feeB else feeA, sell, buy, filled, trades);
      Fills(sell0, buy0, o, if sellsA then feeA else feeB, if sellsA then feeB else feeA, sell, buy, filled, trades);
      if fillOrKill && !filled { return Rejected, []; }
      if sellsA { a, b := sell, buy; } else { a, b := buy, sell; }
      nextId := nextId + 1;
      return Placed(filled), trades;
    }

    /** limit_order_cancel, by the order's seller only. */
    method Cancel(id: nat, who: Account) returns (ok: bool)
      requires Valid()
      modifies this
      ensures Valid() && Supply(a) == old(Supply(a)) && Supply(b) == old(Supply(b)) && nextId == old(nextId)
      ensures ok <==> old(Offers(a, id, who) || Offers(b, id, who))
      ensures !ok ==> a == old(a) && b == old(b)
      ensures ok ==> exists onA: bool, i: nat ::
                CancelledOne(id, who, onA, i, old(a), old(b), a, b)
    {
      hide SideOk, Apart, Offers, Cancelled, CancelledOne;
      ApartSymmetric(a.orders, b.orders);
      ok := false;
      if i: nat :| i < |a.orders| && a.orders[i].id == id {
        NobodyElses(a, b, i);
        if a.orders[i].seller != who { return; }
        CancelledApart(a, i, nextId, b.orders);
        CancelsOne(id, who, true, i, a, b, Cancelled(a, i), b);
        a := Cancelled(a, i);
        ok := true;
      } else if i: nat :| i < |b.orders| && b.orders[i].id == id {
        NobodyElses(b, a, i);
        if b.orders[i].seller != who { return; }
        CancelledApart(b, i, nextId, a.orders);
        CancelsOne(id, who, false, i, a, b, a, Cancelled(b, i));
        ApartSymmetric(a.orders, Cancelled(b, i).orders);
        b := Cancelled(b, i);
        ok := true;
      } else {
        NoOffer(a, id, who);
        NoOffer(b, id, who);
      }
    }
  }

  /** This account's order with this id is in the book. */
  predicate Offers(s: Side, id: nat, who: Account) { exists i | 0 <= i < |s.orders| :: s.orders[i].id == id && s.orders[i].seller == who }

  lemma NobodyElses(s: Side, other: Side, i: nat)
    requires i < |s.orders| && Apart(s.orders, other.orders)
    ensures forall who :: (Offers(s, s.orders[i].id, who) <==> who == s.orders[i].seller) && !Offers(other, s.orders[i].id, who)
  {
  }

  lemma CancelledApart(s: Side, i: nat, nextId: nat, others: seq<Order>)
    requires SideOk(s, nextId) && Apart(s.orders, others) && i < |s.orders|
    ensures SideOk(Cancelled(s, i), nextId) && Apart(Cancelled(s, i).orders, others) && Supply(Cancelled(s, i)) == Supply(s)
  {
    hide SideOk, Uncrossed, Distinct;
    CancelledOk(s, i, nextId, others);
    DistinctWithout(s.orders, i, others);
  }

  lemma NoOffer(s: Side, id: nat, who: Account)
    requires forall i: nat | i < |s.orders| :: s.orders[i].id != id
    ensures !Offers(s, id, who)
  {
  }

  lemma GivenIds(a: Side, b: Side, nextId: nat)
    requires SideOk(a, nextId) && SideOk(b, nextId)
    ensures forall i | 0 <= i < |a.orders| :: a.orders[i].id < nextId
    ensures forall i | 0 <= i < |b.orders| :: b.orders[i].id < nextId
  {
  }

  ghost predicate CancelledOne(id: nat, who: Account, onA: bool, i: nat, a0: Side, b0: Side, a: Side, b: Side)
  {
    var s := if onA then a0 else b0;
    && i < |s.orders| && s.orders[i].id == id && s.orders[i].seller == who
    && (if onA then a == Cancelled(a0, i) && b == b0 else a == a0 && b == Cancelled(b0, i))
    && forall x: Account :: At((if onA then a else b).balances, x) == At(s.balances, x) + if x == who then s.orders[i].forSale else 0
  }

  lemma CancelsOne(id: nat, who: Account, onA: bool, i: nat, a0: Side, b0: Side, a: Side, b: Side)
    requires var s := if onA then a0 else b0; i < |s.orders| && s.orders[i].id == id && s.orders[i].seller == who
    requires if onA then a == Cancelled(a0, i) && b == b0 else a == a0 && b == Cancelled(b0, i)
    ensures CancelledOne(id, who, onA, i, a0, b0, a, b)
  {
  }

  /** The sweep leaves nothing of the order that is worth a unit. */
  ghost predicate WouldFill(buy0: Side, o: Order)
  {
    && AllPriced(buy0.orders)
    && var left := o.forSale - Sum(Receives, Sweep(buy0.orders, o.forSale, o)); left * o.price.quote < o.price.base
  }

  lemma Fills(sell0: Side, buy0: Side, o: Order, feeSell: FeeRule, feeBuy: FeeRule, sell: Side, buy: Side, filled: bool, trades: seq<Trade>)
    requires AllPriced(buy0.orders) && trades == Sweep(buy0.orders, o.forSale, o) && RestsAfter(sell0, buy0, o, feeSell, feeBuy, sell, buy, filled, trades)
    ensures filled <==> WouldFill(buy0, o)
  {
    hide Sum, Sweep, AllPriced;
  }

  /** The outcome of a new order: the fills of a sweep, every one fair, and both sides settled accordingly. */
  ghost predicate Traded(sell0: Side, buy0: Side, o: Order, feeSell: FeeRule, feeBuy: FeeRule,
                         sell: Side, buy: Side, filled: bool, trades: seq<Trade>)
    requires o.price.Positive() && feeSell.percent <= FULL_PERCENT && feeBuy.percent <= FULL_PERCENT
  {
    && AllPriced(buy0.orders) && trades == Sweep(buy0.orders, o.forSale, o)
    && Swept(buy0.orders, o.forSale, o, trades) && AllLegit(trades)
    && (sell, filled) == Finish(PayMakers(sell0.(balances := Debit(sell0.balances, o.seller, o.forSale)), trades, feeSell),
                                o, o.forSale - Sum(Receives, trades))
    && buy == PayTakers(buy0, trades, o.seller, feeBuy).(orders := Remaining(buy0.orders, trades))
  }
}
