/**
 Bids for the debt of a settled coin, and the two ways it comes back to life: enough bids cover the
 whole supply, or the issuer takes it over (libraries/chain/market_evaluator.cpp,
 libraries/chain/db_maint.cpp, libraries/chain/db_market.cpp).
 */
module CollateralBids {
  import opened Options
  import opened Sums
  import opened Money
  import opened SmartCoin
  import opened SettlementPool

  function Covers(b: Bid): int { b.debt }

  /** Bids are kept best first, by collateral over debt, the older of two equal bids in front. */
  predicate NotBelow(a: Bid, b: Bid) { Price(a.collateral, a.debt).AtLeast(Price(b.collateral, b.debt)) }

  ghost predicate BestFirst(bids: seq<Bid>)
  {
    forall i, j | 0 <= i < j < |bids| :: NotBelow(bids[i], bids[j])
  }

  /** One bid for each account. */
  ghost predicate OneEach(bids: seq<Bid>)
  {
    forall i, j | 0 <= i < j < |bids| :: bids[i].bidder != bids[j].bidder
  }

  /** Everybody else's bids are the same. */
  ghost predicate OthersKept(bids: seq<Bid>, after: seq<Bid>, who: Account)
  {
    forall b: Bid :: b.bidder != who ==> (b in bids <==> b in after)
  }

  lemma OthersKeptWithout(bids: seq<Bid>, i: nat)
    requires i < |bids|
    ensures OthersKept(bids, bids[..i] + bids[i + 1..], bids[i].bidder)
  {
    assert bids == bids[..i] + [bids[i]] + bids[i + 1..];
  }

  lemma OthersKeptWith(bids: seq<Bid>, i: nat, b: Bid)
    requires i <= |bids|
    ensures OthersKept(bids, bids[..i] + [b] + bids[i..], b.bidder)
  {
    assert bids == bids[..i] + bids[i..];
  }

  lemma OthersStillKept(bids: seq<Bid>, between: seq<Bid>, after: seq<Bid>, who: Account)
    requires OthersKept(bids, between, who) && OthersKept(between, after, who)
    ensures OthersKept(bids, after, who)
  {
  }

  /** The place of an account's bid, or the number of bids. */
  function FindBid(bids: seq<Bid>, who: Account): (i: nat)
    ensures i <= |bids| && (i < |bids| ==> bids[i].bidder == who)
    ensures i == |bids| ==> forall j | 0 <= j < |bids| :: bids[j].bidder != who
  {
    if bids == [] then 0
    else if bids[0].bidder == who then 0
    else 1 + FindBid(bids[1..], who)
  }

  function CancelBid(c: Coin, i: nat): Coin
    requires i < |c.bids|
  {
    c.(bids := c.bids[..i] + c.bids[i + 1..], backBal := Credit(c.backBal, c.bids[i].bidder, c.bids[i].collateral))
  }

  function InsertBid(c: Coin, who: Account, collateral: nat, debt: nat): Coin
  {
    var b := Bid(c.nextId, who, collateral, debt);
    var i := Slot(c.bids, (a: Bid) => NotBelow(a, b));
    c.(bids := c.bids[..i] + [b] + c.bids[i..], backBal := Debit(c.backBal, who, collateral), nextId := c.nextId + 1)
  }

  /** bid_collateral: replaces the account's bid, or only takes it back when no debt is asked for. */
  function PlaceBid(c: Coin, who: Account, collateral: nat, debt: nat): Option<Coin>
  {
    var i := FindBid(c.bids, who);
    if c.swan.None? || collateral > At(c.backBal, who) || (debt > 0 && collateral == 0) || (i == |c.bids| && debt == 0) then None
    else if i == |c.bids| then Some(InsertBid(c, who, collateral, debt))
    else if debt == 0 then Some(CancelBid(c, i))
    else Some(InsertBid(CancelBid(c, i), who, collateral, debt))
  }

  /** Only a settled coin takes bids, up to the bidder's balance: for a debt some collateral has to be offered, and without one
      there has to be a bid to take back. */
  lemma BidTaken(c: Coin, who: Account, collateral: nat, debt: nat)
    ensures PlaceBid(c, who, collateral, debt).Some? <==>
            && c.swan.Some? && collateral <= At(c.backBal, who)
            && if debt > 0 then collateral > 0 else exists b <- c.bids :: b.bidder == who
  {
  }

  /** Bidding keeps the books, the order of the bids, and one bid for each account. */
  lemma PlaceBidKeepsBooks(c: Coin, who: Account, collateral: nat, debt: nat)
    requires Solid(c) && PlaceBid(c, who, collateral, debt).Some?
    requires BestFirst(c.bids) && OneEach(c.bids)
    ensures var r := PlaceBid(c, who, collateral, debt).value;
            && Solid(r) && Backing(r) == Backing(c) && BestFirst(r.bids) && OneEach(r.bids)
            && r.calls == c.calls && r.settles == c.settles && r.feed == c.feed && r.limits == c.limits
            && (FindBid(r.bids, who) < |r.bids| <==> debt > 0)
            && (debt > 0 ==> r.bids[FindBid(r.bids, who)] == Bid(c.nextId, who, collateral, debt))
            && OthersKept(c.bids, r.bids, who)
  {
    hide Sum, Total, Credit, Debit, NonNegative, BestFirst, OneEach, InsertBid, CancelBid, FindBid, OthersKept;
    var i := FindBid(c.bids, who);
    if i < |c.bids| {
      CancelBidBooks(c, i);
      if debt > 0 {
        InsertBidBooks(CancelBid(c, i), who, collateral, debt);
        OthersStillKept(c.bids, CancelBid(c, i).bids, PlaceBid(c, who, collateral, debt).value.bids, who);
      }
    } else {
      InsertBidBooks(c, who, collateral, debt);
    }
  }

  lemma CancelBidBooks(c: Coin, i: nat)
    requires Solid(c) && i < |c.bids| && BestFirst(c.bids) && OneEach(c.bids)
    ensures var r := CancelBid(c, i);
            && Solid(r) && Backing(r) == Backing(c) && BestFirst(r.bids) && OneEach(r.bids)
            && r.calls == c.calls && r.settles == c.settles && r.feed == c.feed && r.limits == c.limits
            && FindBid(r.bids, c.bids[i].bidder) == |r.bids| && r.swan == c.swan && r.nextId == c.nextId
            && OthersKept(c.bids, r.bids, c.bids[i].bidder)
            && At(r.backBal, c.bids[i].bidder) >= At(c.backBal, c.bids[i].bidder)
  {
    hide Sum, Total, NonNegative, FindBid, OthersKept;
    OthersKeptWithout(c.bids, i);
    CreditTotal(c.backBal, c.bids[i].bidder, c.bids[i].collateral);
    SumRemove(Offer, c.bids, i);
  }

  lemma InsertBidBooks(c: Coin, who: Account, collateral: nat, debt: nat)
    requires Solid(c) && c.swan.Some? && collateral <= At(c.backBal, who) && debt > 0 && collateral > 0
    requires BestFirst(c.bids) && OneEach(c.bids) && FindBid(c.bids, who) == |c.bids|
    ensures var r := InsertBid(c, who, collateral, debt);
            && Solid(r) && Backing(r) == Backing(c) && BestFirst(r.bids) && OneEach(r.bids)
            && r.calls == c.calls && r.settles == c.settles && r.feed == c.feed && r.limits == c.limits
            && FindBid(r.bids, who) < |r.bids| && r.bids[FindBid(r.bids, who)] == Bid(c.nextId, who, collateral, debt)
            && OthersKept(c.bids, r.bids, who)
  {
    hide Sum, Total, Debit, NonNegative, FindBid, Slot, BestFirst, OneEach, OthersKept;
    var b := Bid(c.nextId, who, collateral, debt);
    var i := Slot(c.bids, (a: Bid) => NotBelow(a, b));
    DebitTotal(c.backBal, who, collateral);
    SumInsert(Offer, c.bids, i, b);
    InsertedInOrder(c.bids, b, i);
    OthersKeptWith(c.bids, i, b);
    FindsIt(c.bids[..i] + [b] + c.bids[i..], i);
  }

  /** Bidding moves an account's own collateral between its balance and its bid, and touches nobody else. */
  lemma PlaceBidAccounts(c: Coin, who: Account, collateral: nat, debt: nat, x: Account)
    requires PlaceBid(c, who, collateral, debt).Some?
    ensures var r := PlaceBid(c, who, collateral, debt).value;
            && Owns(r, x) == Owns(c, x) && Holds(r, x) == Holds(c, x) && Owing(r, x) == Owing(c, x)
            && (x != who ==> At(r.backBal, x) == At(c.backBal, x)) && r.nextId == c.nextId + (if debt > 0 then 1 else 0)
  {
    hide Sum, At, FindBid, Owns, Holds, Owing, Slot;
    var i := FindBid(c.bids, who);
    if i < |c.bids| { CancelBidAccounts(c, i, x); }
    if debt > 0 || i == |c.bids| { InsertBidAccounts(if i < |c.bids| then CancelBid(c, i) else c, who, collateral, debt, x); }
  }

  lemma CancelBidAccounts(c: Coin, i: nat, x: Account)
    requires i < |c.bids|
    ensures var r := CancelBid(c, i);
            && Owns(r, x) == Owns(c, x) && Holds(r, x) == Holds(c, x) && Owing(r, x) == Owing(c, x)
            && At(r.backBal, x) == At(c.backBal, x) + if x == c.bids[i].bidder then c.bids[i].collateral else 0
  {
    hide Sum, At, Credit;
    SumRemove(OfferOf(x), c.bids, i);
    CreditAt(c.backBal, c.bids[i].bidder, c.bids[i].collateral, x);
  }

  lemma InsertBidAccounts(c: Coin, who: Account, collateral: nat, debt: nat, x: Account)
    ensures var r := InsertBid(c, who, collateral, debt);
            && Owns(r, x) == Owns(c, x) && Holds(r, x) == Holds(c, x) && Owing(r, x) == Owing(c, x)
            && At(r.backBal, x) == At(c.backBal, x) - if x == who then collateral else 0
  {
    hide Sum, At, Debit, Slot;
    var b := Bid(c.nextId, who, collateral, debt);
    SumInsert(OfferOf(x), c.bids, Slot(c.bids, (a: Bid) => NotBelow(a, b)), b);
    CreditAt(c.backBal, who, collateral, x);
  }

  lemma FindsIt(bids: seq<Bid>, i: nat)
    requires OneEach(bids) && i < |bids|
    ensures FindBid(bids, bids[i].bidder) == i
  {
    hide FindBid;
    var j := FindBid(bids, bids[i].bidder);
    assert j < |bids| && bids[j].bidder == bids[i].bidder;
  }

  lemma InsertedInOrder(bids: seq<Bid>, b: Bid, i: nat)
    requires BestFirst(bids) && OneEach(bids) && i <= |bids| && forall j | 0 <= j < |bids| :: bids[j].debt > 0 && bids[j].bidder != b.bidder
    requires b.debt > 0 && (i > 0 ==> NotBelow(bids[i - 1], b)) && forall j | i <= j < |bids| :: !NotBelow(bids[j], b)
    ensures BestFirst(bids[..i] + [b] + bids[i..]) && OneEach(bids[..i] + [b] + bids[i..])
  {
    hide NotBelow;
    forall j | 0 <= j < i ensures NotBelow(bids[j], b) {
      if j < i - 1 { NotBelowChains(bids[j], bids[i - 1], b); }
    }
    forall j | i <= j < |bids| ensures NotBelow(b, bids[j]) { NotBelowTotal(bids[j], b); }
  }

  lemma NotBelowTotal(a: Bid, b: Bid)
    ensures NotBelow(a, b) || NotBelow(b, a)
  {
  }

  lemma NotBelowChains(a: Bid, b: Bid, c: Bid)
    requires a.debt > 0 && b.debt > 0 && c.debt > 0 && NotBelow(a, b) && NotBelow(b, c)
    ensures NotBelow(a, c)
  {
    PriceTransitive(Price(a.collateral, a.debt), Price(b.collateral, b.debt), Price(c.collateral, c.debt));
  }

  // --------------------------------------------------------------------- revival

  /** A bid counts when its position, with its share of the fund, would not be called at once. */
  predicate Accepts(c: Coin, t: Terms, b: Bid)
    requires c.swan.Some? && c.swan.value.base > 0 && c.feed.Feed?
  {
    !t.callPrice(b.debt, b.collateral + Times(b.debt, c.swan.value), c.feed.Ratio()).Inverse().AtLeast(c.feed.price)
  }

  /** With the share its debt is worth at the settlement price, the position of an acceptable bid has a call price whose
      inverse is below the feed. */
  lemma AcceptsExactly(c: Coin, t: Terms, b: Bid, share: nat)
    requires c.swan.Some? && c.swan.value.base > 0 && c.feed.Feed?
    requires c.swan.value.base * share <= b.debt * c.swan.value.quote < c.swan.value.base * (share + 1)
    ensures var at, feed := t.callPrice(b.debt, b.collateral + share, c.feed.Ratio()), c.feed.price;
            Accepts(c, t, b) <==> at.quote * feed.quote < feed.base * at.base
  {
    TimesIsGreatest(b.debt, c.swan.value, share);
    TimesIsGreatest(b.debt, c.swan.value, share + 1);
  }

  /** The fund's shares for a run of bids. */
  function Shares(bids: seq<Bid>, price: Price): (total: nat)
    requires price.base > 0
  {
    if bids == [] then 0 else Shares(bids[..|bids| - 1], price) + Times(bids[|bids| - 1].debt, price)
  }

  /** `n` bids, and no fewer, cover the whole supply. */
  ghost predicate Enough(c: Coin, n: nat)
  {
    && n <= |c.bids| && Sum(Covers, c.bids[..n]) >= c.supply
    && (n == 0 ==> c.supply == 0) && (n > 0 ==> Sum(Covers, c.bids[..n - 1]) < c.supply)
  }

  /** The first `i` bids fit below the supply, and the fund still covers what they leave at the settlement price. */
  lemma {:induction false} SharesFit(c: Coin, i: nat)
    requires Solid(c) && c.swan.Some? && c.swan.value.base > 0 && i <= |c.bids| && Sum(Covers, c.bids[..i]) <= c.supply
    ensures Shares(c.bids[..i], c.swan.value) <= c.fund && Sum(Covers, c.bids[..i]) >= 0
    ensures (c.fund - Shares(c.bids[..i], c.swan.value)) * c.swan.value.base
         >= (c.supply - Sum(Covers, c.bids[..i])) * c.swan.value.quote
  {
    if i > 0 {
      var price, front := c.swan.value, c.bids[..i - 1];
      assert c.bids[..i][..i - 1] == front;
      SharesFit(c, i - 1);
      ShareOfFund(c.fund - Shares(front, price), c.supply - Sum(Covers, front), c.bids[i - 1].debt, price);
    }
  }

  /** The position bid `i` gets when the first `n` are taken: the last one takes whatever debt and fund are left. */
  function Position(c: Coin, n: nat, t: Terms, i: nat): Call
    requires c.swan.Some? && c.swan.value.base > 0 && i < n <= |c.bids|
    requires Shares(c.bids[..i], c.swan.value) <= c.fund && 0 <= Sum(Covers, c.bids[..i]) <= c.supply
  {
    var b := c.bids[i];
    var debt := if i == n - 1 then c.supply - Sum(Covers, c.bids[..i]) else b.debt;
    var share := if i == n - 1 then c.fund - Shares(c.bids[..i], c.swan.value) else Times(b.debt, c.swan.value);
    Call(c.nextId + i, b.bidder, b.collateral + share, debt, t.callPrice(debt, b.collateral + share, c.feed.Ratio()))
  }

  /** Whose position it is, what it owes and holds, and when it would be called; only the last may be called at once. */
  lemma PositionIs(c: Coin, n: nat, t: Terms, i: nat)
    requires c.swan.Some? && c.swan.value.base > 0 && i < n <= |c.bids| && Fits(c, i)
    ensures var k, b, price := Position(c, n, t, i), c.bids[i], c.swan.value;
            && k.borrower == b.bidder && k.collateral >= b.collateral && k.callPrice == t.callPrice(k.debt, k.collateral, c.feed.Ratio())
            && (i < n - 1 ==> k.debt == b.debt && price.base * (k.collateral - b.collateral) <= b.debt * price.quote < price.base * (k.collateral - b.collateral + 1))
            && (i == n - 1 ==> k.debt == c.supply - Sum(Covers, c.bids[..i]))
            && (i < n - 1 && c.feed.Feed? && Accepts(c, t, b) ==> k.callPrice.quote * c.feed.price.quote < c.feed.price.base * k.callPrice.base)
  {
    hide Sum, Shares;
    var b, price := c.bids[i], c.swan.value;
    FloorBounds(b.debt * price.quote, price.base);
    if c.feed.Feed? { AcceptsExactly(c, t, b, Times(b.debt, price)); }
  }

  /** execute_bid for the bid in front */
  function ExecuteBid(c: Coin, debt: nat, share: nat, t: Terms): Coin
    requires c.bids != []
  {
    var b := c.bids[0];
    c.(calls := c.calls + [Call(c.nextId, b.bidder, b.collateral + share, debt, t.callPrice(debt, b.collateral + share, c.feed.Ratio()))],
       bids := c.bids[1..], nextId := c.nextId + 1)
  }

  ghost predicate Fits(c: Coin, i: nat)
    requires c.swan.Some? && c.swan.value.base > 0 && i <= |c.bids|
  {
    Shares(c.bids[..i], c.swan.value) <= c.fund && 0 <= Sum(Covers, c.bids[..i]) <= c.supply
  }

  /** After `i` of the first `n` bids: their positions exist, and debt and fund left are what the others will get. */
  ghost predicate Executing(c: Coin, n: nat, t: Terms, r: Coin, i: nat, toCover: int, left: int)
    requires c.swan.Some? && c.swan.value.base > 0
  {
    && i <= n <= |c.bids| && |r.calls| == i
    && r == c.(calls := r.calls, bids := c.bids[i..], nextId := c.nextId + i)
    && (i < n ==> toCover == c.supply - Sum(Covers, c.bids[..i]) > 0 && left == c.fund - Shares(c.bids[..i], c.swan.value))
    && (i == n ==> toCover == 0 == left)
    && (forall j | 0 <= j < i :: Fits(c, j) && r.calls[j] == Position(c, n, t, j) && r.calls[j].debt > 0 && r.calls[j].collateral > 0)
    && Sum(Debt, r.calls) == c.supply - toCover
    && Sum(Collateral, r.calls) + Sum(Offer, r.bids) + left == c.fund + Sum(Offer, c.bids)
  }

  lemma FirstBid(bids: seq<Bid>)
    requires bids != []
    ensures Sum(Offer, bids) == bids[0].collateral + Sum(Offer, bids[1..])
  {
    SumSplit(Offer, bids, 0);
    assert bids[..0] == [];
  }

  lemma Prefixes(bids: seq<Bid>, i: nat, price: Price)
    requires price.base > 0 && i < |bids|
    ensures Sum(Covers, bids[..i + 1]) == Sum(Covers, bids[..i]) + bids[i].debt
    ensures Shares(bids[..i + 1], price) == Shares(bids[..i], price) + Times(bids[i].debt, price)
  {
    assert bids[..i + 1][..i] == bids[..i];
  }

  /** Prefixes of a covering run stay below the supply. */
  lemma {:induction false} BelowUntilLast(c: Coin, n: nat, i: nat)
    requires WellFormed(c) && Enough(c, n) && i < n
    ensures Sum(Covers, c.bids[..i]) < c.supply
    decreases n - i
  {
    if i + 1 < n {
      BelowUntilLast(c, n, i + 1);
      assert c.bids[..i + 1][..i] == c.bids[..i];
    }
  }

  lemma ExecutesOne(c: Coin, n: nat, t: Terms, r: Coin, i: nat, toCover: int, left: int)
    requires Solid(c) && c.swan.Some? && c.swan.value.base > 0 && Enough(c, n) && i < n && Executing(c, n, t, r, i, toCover, left)
    ensures var last := c.bids[i].debt >= toCover;
            var debt := if last then toCover else c.bids[i].debt;
            var share := if last then left else Times(c.bids[i].debt, c.swan.value);
            && debt >= 0 && share >= 0 && r.bids != [] && r.bids[0] == c.bids[i]
            && Executing(c, n, t, ExecuteBid(r, debt, share, t), i + 1, toCover - debt, left - share)
            && (i + 1 == n ==> debt == toCover && share == left)
  {
    hide Sum, Times, Shares, Held, Backing, NonNegative, Funded;
    BelowUntilLast(c, n, i);
    SharesFit(c, i);
    Prefixes(c.bids, i, c.swan.value);
    if i + 1 < n { BelowUntilLast(c, n, i + 1); }
    FirstBid(r.bids);
    assert r.bids[1..] == c.bids[i + 1..];
    var k := Position(c, n, t, i);
    SumConcat(Debt, r.calls, [k]);
    SumConcat(Collateral, r.calls, [k]);
    OneCall(k);
  }

  /** While the first bids are acceptable and leave something uncovered, bid `n` asks for a share above the largest amount. */
  ghost predicate Blocked(c: Coin, t: Terms, n: nat)
    requires c.swan.Some? && c.swan.value.base > 0 && c.feed.Feed?
  {
    && n < |c.bids| && Sum(Covers, c.bids[..n]) < c.supply && Times(c.bids[n].debt, c.swan.value) > MAX_SHARES
    && forall i | 0 <= i < n :: Accepts(c, t, c.bids[i]) && Times(c.bids[i].debt, c.swan.value) <= MAX_SHARES
  }

  /** process_bids throws: the fund was empty when the coin was settled, or a share is above the largest amount. */
  ghost predicate BidsThrow(c: Coin, t: Terms)
  {
    && c.swan.Some? && c.feed.Feed?
    && (c.swan.value.quote == 0 || (c.swan.value.base > 0 && exists n: nat :: Blocked(c, t, n)))
  }

  lemma {:induction false} CoversGrow(bids: seq<Bid>, n: nat, m: nat)
    requires n <= m <= |bids|
    ensures Sum(Covers, bids[..n]) <= Sum(Covers, bids[..m])
  {
    if n < m {
      assert bids[..m][..m - 1] == bids[..m - 1];
      CoversGrow(bids, n, m - 1);
    }
  }

  /** The first loop of process_bids: how many acceptable bids it takes; an amount out of range stops everything. */
  method FindCover(c: Coin, t: Terms) returns (fits: bool, n: nat, covered: int)
    requires WellFormed(c) && c.swan.Some? && c.swan.value.base > 0 && c.feed.Feed?
    ensures n <= |c.bids| && covered == Sum(Covers, c.bids[..n])
    ensures forall i | 0 <= i < n :: Accepts(c, t, c.bids[i])
    ensures fits && covered >= c.supply ==> Enough(c, n)
    ensures fits && covered < c.supply ==> n == |c.bids| || !Accepts(c, t, c.bids[n])
    ensures !fits ==> Blocked(c, t, n)
    ensures fits ==> forall m: nat :: !Blocked(c, t, m)
  {
    hide Times, Accepts, Shares, Sum, Blocked;
    fits, n, covered := true, 0, 0;
    NothingCovered(c.bids);
    while covered < c.supply && n < |c.bids|
      invariant n <= |c.bids| && covered == Sum(Covers, c.bids[..n])
      invariant n > 0 ==> Sum(Covers, c.bids[..n - 1]) < c.supply
      invariant forall i | 0 <= i < n :: Accepts(c, t, c.bids[i]) && Times(c.bids[i].debt, c.swan.value) <= MAX_SHARES
    {
      if Times(c.bids[n].debt, c.swan.value) > MAX_SHARES {
        Blocks(c, t, n);
        fits := false;
        return;
      }
      if !Accepts(c, t, c.bids[n]) {
        forall m: nat ensures !Blocked(c, t, m) { NotBlocked(c, t, n, m); }
        return;
      }
      Prefixes(c.bids, n, c.swan.value);
      covered := covered + c.bids[n].debt;
      n := n + 1;
    }
    forall m: nat ensures !Blocked(c, t, m) { NotBlocked(c, t, n, m); }
  }

  lemma Blocks(c: Coin, t: Terms, n: nat)
    requires c.swan.Some? && c.swan.value.base > 0 && c.feed.Feed?
    requires n < |c.bids| && Sum(Covers, c.bids[..n]) < c.supply && Times(c.bids[n].debt, c.swan.value) > MAX_SHARES
    requires forall i | 0 <= i < n :: Accepts(c, t, c.bids[i]) && Times(c.bids[i].debt, c.swan.value) <= MAX_SHARES
    ensures Blocked(c, t, n)
  {
  }

  lemma NotBlocked(c: Coin, t: Terms, n: nat, m: nat)
    requires c.swan.Some? && c.swan.value.base > 0 && c.feed.Feed? && n <= |c.bids|
    requires forall i | 0 <= i < n :: Accepts(c, t, c.bids[i]) && Times(c.bids[i].debt, c.swan.value) <= MAX_SHARES
    requires n == |c.bids| || Sum(Covers, c.bids[..n]) >= c.supply || (!Accepts(c, t, c.bids[n]) && Times(c.bids[n].debt, c.swan.value) <= MAX_SHARES)
    ensures !Blocked(c, t, m)
  {
    hide Sum, Times, Accepts;
    if n <= m < |c.bids| { CoversGrow(c.bids, n, m); }
  }

  lemma NothingCovered(bids: seq<Bid>)
    ensures Sum(Covers, bids[..0]) == 0
  {
  }

  /** The second loop: each bid becomes a position; no debt and no fund is left over. */
  method ExecuteBids(c: Coin, n: nat, t: Terms) returns (r: Coin)
    requires Solid(c) && c.swan.Some? && c.swan.value.base > 0 && Enough(c, n)
    ensures Executing(c, n, t, r, n, 0, 0)
  {
    hide Sum, Times, Shares, Executing, ExecuteBid, Enough, Solid, Funded;
    var toCover: int, left: int, i := c.supply, c.fund, 0;
    r := c;
    Starts(c, n, t);
    while i < n
      invariant i <= n && Executing(c, n, t, r, i, toCover, left) && (i == n ==> toCover == 0 == left)
    {
      ExecutesOne(c, n, t, r, i, toCover, left);
      var b := r.bids[0];
      var debt, share := b.debt, Times(b.debt, c.swan.value);
      if b.debt >= toCover { debt, share := toCover, left; }
      toCover, left := toCover - debt, left - share;
      r := ExecuteBid(r, debt, share, t);
      i := i + 1;
    }
  }

  lemma Starts(c: Coin, n: nat, t: Terms)
    requires Solid(c) && c.swan.Some? && c.swan.value.base > 0 && Enough(c, n)
    ensures Executing(c, n, t, c, 0, c.supply, c.fund) && (n == 0 ==> c.supply == 0 == c.fund)
  {
    if n > 0 { BelowUntilLast(c, n, 0); }
    assert c.bids[0..] == c.bids && c.bids[..0] == [];
  }

  /** Every bidder gets back what it offered. */
  function Returned(b: Balances, bids: seq<Bid>): Balances
    decreases bids
  {
    if bids == [] then b else Returned(Credit(b, bids[0].bidder, bids[0].collateral), bids[1..])
  }

  lemma {:induction false} ReturnedTotal(b: Balances, bids: seq<Bid>)
    ensures Total(Returned(b, bids)) == Total(b) + Sum(Offer, bids)
    ensures NonNegative(b) ==> NonNegative(Returned(b, bids))
    decreases bids
  {
    if bids != [] {
      CreditTotal(b, bids[0].bidder, bids[0].collateral);
      ReturnedTotal(Credit(b, bids[0].bidder, bids[0].collateral), bids[1..]);
      FirstBid(bids);
    }
  }

  lemma {:induction false} ReturnedAt(b: Balances, bids: seq<Bid>, who: Account)
    ensures At(Returned(b, bids), who) == At(b, who) + Sum(OfferOf(who), bids)
    decreases bids
  {
    hide Sum, At, Credit;
    if bids == [] {
      SumNone(OfferOf(who));
    } else {
      CreditAt(b, bids[0].bidder, bids[0].collateral, who);
      ReturnedAt(Credit(b, bids[0].bidder, bids[0].collateral), bids[1..], who);
      SumFirst(OfferOf(who), bids);
    }
  }

  /** _cancel_bids_and_revive_mpa: the remaining bids are returned and the coin is alive again. */
  method CancelBidsAndRevive(c0: Coin) returns (c: Coin)
    ensures c == c0.(bids := [], backBal := Returned(c0.backBal, c0.bids), swan := None, fund := 0)
    ensures forall who: Account :: At(c.backBal, who) == At(c0.backBal, who) + Sum(OfferOf(who), c0.bids)
  {
    c := c0;
    while c.bids != []
      invariant c == c0.(bids := c.bids, backBal := c.backBal) && Returned(c.backBal, c.bids) == Returned(c0.backBal, c0.bids)
      decreases |c.bids|
    {
      assert c.bids[..0] + c.bids[1..] == c.bids[1..];
      c := CancelBid(c, 0);
    }
    forall who: Account ensures At(c.backBal, who) == At(c0.backBal, who) + Sum(OfferOf(who), c0.bids) { ReturnedAt(c0.backBal, c0.bids, who); }
    c := c.(swan := None, fund := 0);
  }

  datatype Outcome = Waiting | Failed | Revived(coin: Coin)

  /** The best bids that cover the supply can all be accepted. */
  ghost predicate Coverable(c: Coin, t: Terms)
  {
    c.swan.Some? && c.swan.value.base > 0 && c.feed.Feed? && exists n: nat :: Enough(c, n) && AllAccepted(c, t, n)
  }

  ghost predicate AllAccepted(c: Coin, t: Terms, n: nat)
    requires c.swan.Some? && c.swan.value.base > 0 && c.feed.Feed? && n <= |c.bids|
  {
    forall i | 0 <= i < n :: Accepts(c, t, c.bids[i])
  }

  lemma NotCoverable(c: Coin, t: Terms, n: nat)
    requires c.swan.Some? && c.swan.value.base > 0 && c.feed.Feed? && n <= |c.bids| && Sum(Covers, c.bids[..n]) < c.supply
    requires n == |c.bids| || !Accepts(c, t, c.bids[n])
    ensures !Coverable(c, t)
  {
    hide Accepts, Sum;
    if m: nat :| Enough(c, m) && AllAccepted(c, t, m) {
      if m <= n { CoversGrow(c.bids, m, n); assert false; }
    }
  }

  /** process_bids for a settled coin. A feed, a fund price and enough acceptable bids revive it: the bids become the
      positions, they owe exactly the supply, and they hold the whole fund; everybody else's bid is returned. */
  method ProcessBids(c: Coin, t: Terms) returns (out: Outcome, n: nat)
    requires Solid(c) && c.swan.Some?
    ensures c.feed.NoFeed? ==> out == Waiting
    ensures c.feed.Feed? && c.swan.value.quote == 0 ==> out == Failed
    ensures out.Failed? <==> BidsThrow(c, t)
    ensures out.Failed? && c.swan.value.quote > 0 ==> c.swan.value.base > 0 && Blocked(c, t, n)
    ensures out.Waiting? && c.feed.Feed? ==>
              && c.swan.value.base > 0 && n <= |c.bids| && Sum(Covers, c.bids[..n]) < c.supply
              && (n == |c.bids| || !Accepts(c, t, c.bids[n]))
    ensures out.Revived? ==>
              && Solid(out.coin) && Secured(out.coin) && out.coin.swan.None? && out.coin.bids == [] && out.coin.fund == 0
              && out.coin.settles == c.settles && out.coin.feed == c.feed && out.coin.volume == c.volume && out.coin.limits == c.limits
              && out.coin.supply == c.supply == Sum(Debt, out.coin.calls) && Backing(out.coin) == Backing(c)
              && c.feed.Feed? && c.swan.value.base > 0 && Enough(c, n) && |out.coin.calls| == n
              && (forall i | 0 <= i < n :: Accepts(c, t, c.bids[i]) && Fits(c, i) && out.coin.calls[i] == Position(c, n, t, i))
              && forall who: Account :: At(out.coin.backBal, who) == At(c.backBal, who) + Sum(OfferOf(who), c.bids[n..])
    ensures out.Revived? <==> Coverable(c, t) && !BidsThrow(c, t)
    ensures out.Revived? && OneEach(c.bids) ==> OnePositionEach(out.coin)
  {
    hide Executing, Solid, Secured, OnePositionEach, OneEach, Backing, Sum, Position, Fits, Accepts, Times, Enough;
    n := 0;
    PricedFund(c);
    if c.feed.NoFeed? { return Waiting, 0; }
    if c.swan.value.quote == 0 { return Failed, 0; }
    var fits, covered;
    fits, n, covered := FindCover(c, t);
    if !fits { return Failed, n; }
    if covered < c.supply { NotCoverable(c, t, n); return Waiting, n; }
    assert AllAccepted(c, t, n);
    var r := ExecuteBids(c, n, t);
    var alive := CancelBidsAndRevive(r);
    RevivedBooks(c, n, t, r, alive);
    return Revived(alive), n;
  }

  lemma RevivedBooks(c: Coin, n: nat, t: Terms, r: Coin, alive: Coin)
    requires Solid(c) && c.swan.Some? && c.swan.value.base > 0 && Executing(c, n, t, r, n, 0, 0)
    requires alive == r.(bids := [], backBal := Returned(r.backBal, r.bids), swan := None, fund := 0)
    ensures Solid(alive) && Secured(alive) && alive.supply == c.supply == Sum(Debt, alive.calls) && Backing(alive) == Backing(c)
    ensures alive.settles == c.settles && alive.feed == c.feed && alive.volume == c.volume && alive.limits == c.limits
    ensures n <= |c.bids| && |alive.calls| == n && r.bids == c.bids[n..] && r.backBal == c.backBal
    ensures forall i | 0 <= i < n :: Fits(c, i) && alive.calls[i] == Position(c, n, t, i)
    ensures OneEach(c.bids) ==> OnePositionEach(alive)
  {
    hide Sum, Total, Returned, Position, Shares, OneEach, OnePositionEach;
    ReturnedTotal(r.backBal, r.bids);
    NoBids();
    if OneEach(c.bids) { RevivedKeepsOne(c, n, t, r); SamePositions(r, alive); }
  }

  lemma SamePositions(c: Coin, r: Coin)
    requires OnePositionEach(c) && r.calls == c.calls && r.nextId >= c.nextId
    ensures OnePositionEach(r)
  {
  }

  lemma RevivedKeepsOne(c: Coin, n: nat, t: Terms, r: Coin)
    requires c.swan.Some? && c.swan.value.base > 0 && Executing(c, n, t, r, n, 0, 0) && OneEach(c.bids)
    ensures OnePositionEach(r)
  {
    hide Sum, Shares, Times;
    forall i | 0 <= i < n ensures r.calls[i].id == c.nextId + i && r.calls[i].borrower == c.bids[i].bidder {
      assert Fits(c, i);
      assert r.calls[i] == Position(c, n, t, i);
    }
  }

  lemma PricedFund(c: Coin)
    requires Solid(c) && c.swan.Some?
    ensures WellFormed(c) && (c.swan.value.base == 0 ==> c.swan.value.quote == 0)
  {
  }

  lemma NoBids()
    ensures Sum(Offer, []) == 0 && Sum(Collateral, []) == 0 && Sum(Debt, []) == 0
  {
  }

  /** The coin after the issuer has taken it over: one position that owes the supply and holds the fund, no bids. */
  function TakenOver(c: Coin, issuer: Account, t: Terms): Coin
  {
    var k := Call(c.nextId, issuer, c.fund, c.supply, t.callPrice(c.supply, c.fund, c.feed.Ratio()));
    c.(calls := if c.supply > 0 then [k] else c.calls, nextId := if c.supply > 0 then c.nextId + 1 else c.nextId,
       bids := [], backBal := Returned(c.backBal, c.bids), swan := None, fund := 0)
  }

  lemma TakenOverBooks(c: Coin, issuer: Account, t: Terms)
    requires Solid(c) && c.swan.Some? && c.feed.Feed?
    ensures var r := TakenOver(c, issuer, t);
            && Solid(r) && r.swan.None? && r.bids == [] && r.supply == c.supply && Backing(r) == Backing(c)
            && r.settles == c.settles && r.feed == c.feed && r.limits == c.limits
            && ((c.supply > 0 ==> c.fund > 0) ==> Secured(r)) && OnePositionEach(r)
  {
    ReturnedTotal(c.backBal, c.bids);
    if c.supply > 0 { OneCall(TakenOver(c, issuer, t).calls[0]); }
  }

  /** revive_bitasset: the issuer takes over all debt and the whole fund. The check that an empty pool has no fund left
      never fails. */
  method Revive(c: Coin, issuer: Account, t: Terms) returns (ok: bool, r: Coin)
    requires Solid(c)
    ensures ok <==> c.swan.Some? && c.feed.Feed?
    ensures r == if ok then TakenOver(c, issuer, t) else c
    ensures ok ==> Solid(r) && Backing(r) == Backing(c) && r.supply == c.supply && (c.supply > 0 ==> r.calls[0].debt == c.supply && r.calls[0].collateral == c.fund)
    ensures ok && c.supply > 0 ==> |r.calls| == 1 && r.calls[0].borrower == issuer && r.calls[0].callPrice == t.callPrice(c.supply, c.fund, c.feed.Ratio())
    ensures ok ==> forall who: Account :: At(r.backBal, who) == At(c.backBal, who) + Sum(OfferOf(who), c.bids)
  {
    if c.swan.None? || c.feed.NoFeed? { return false, c; }
    var taken := c;
    if c.supply > 0 {
      taken := c.(calls := [Call(c.nextId, issuer, c.fund, c.supply, t.callPrice(c.supply, c.fund, c.feed.Ratio()))], nextId := c.nextId + 1);
    } else if c.fund != 0 {
      return false, c;
    }
    r := CancelBidsAndRevive(taken);
    TakenOverBooks(c, issuer, t);
    return true, r;
  }
}
