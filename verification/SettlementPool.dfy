/**
 Global settlement and what follows it: the fund paying holders at the settlement price, bids for
 the outstanding debt, and revival (libraries/chain/db_market.cpp, libraries/chain/asset_evaluator.cpp,
 libraries/chain/db_maint.cpp).
 */
module SettlementPool {
  import opened Options
  import opened Sums
  import opened Money
  import opened SmartCoin

  // ----------------------------------------------------------- global settlement

  /** What a position pays into the fund: its debt at the settlement price, but no more than it has. */
  function SwanPays(k: Call, price: Price): (pays: nat)
    requires price.base > 0
    ensures pays <= k.collateral
  {
    var pays := Times(k.debt, price);
    if pays > k.collateral then k.collateral else pays
  }

  /** That is the most that its debt is worth at the price and its collateral covers. */
  lemma SwanPaysAll(k: Call, price: Price)
    requires price.base > 0
    ensures var p := SwanPays(k, price);
            && price.base * p <= k.debt * price.quote && p <= k.collateral
            && (k.debt * price.quote < price.base * (p + 1) || p == k.collateral)
  {
    FloorBounds(k.debt * price.quote, price.base);
    MulMonotone(price.base, SwanPays(k, price), Times(k.debt, price));
  }

  /** Everything the positions pay. */
  function Gathered(calls: seq<Call>, price: Price): nat
    requires price.base > 0
  {
    if calls == [] then 0 else SwanPays(calls[0], price) + Gathered(calls[1..], price)
  }

  /** Every borrower gets back what its position did not have to pay. */
  function Refunded(b: Balances, calls: seq<Call>, price: Price): Balances
    requires price.base > 0
    decreases calls
  {
    if calls == [] then b
    else Refunded(Credit(b, calls[0].borrower, calls[0].collateral - SwanPays(calls[0], price)), calls[1..], price)
  }

  lemma {:induction false} RefundedTotal(b: Balances, calls: seq<Call>, price: Price)
    requires price.base > 0
    ensures Total(Refunded(b, calls, price)) == Total(b) + Sum(Collateral, calls) - Gathered(calls, price)
    ensures NonNegative(b) ==> NonNegative(Refunded(b, calls, price))
    decreases calls
  {
    if calls != [] {
      var refund := calls[0].collateral - SwanPays(calls[0], price);
      CreditTotal(b, calls[0].borrower, refund);
      RefundedTotal(Credit(b, calls[0].borrower, refund), calls[1..], price);
      assert calls == [calls[0]] + calls[1..];
      SumConcat(Collateral, [calls[0]], calls[1..]);
      assert [calls[0]][..0] == [];
      assert Sum(Collateral, [calls[0]]) == calls[0].collateral;
    }
  }

  /** globally_settle_asset, by its result: the price is checked against the largest amount position by position. */
  ghost predicate CanSettle(c: Coin, price: Price)
  {
    c.swan.None? && (c.calls == [] || price.base > 0)
    && forall i | 0 <= i < |c.calls| :: Times(c.calls[i].debt, price) <= MAX_SHARES
  }

  /** All positions closed at `price`; the fund remembers supply over fund as the settlement price. */
  function Settled(c: Coin, price: Price): Coin
    requires price.base > 0 || c.calls == []
  {
    var fund := if c.calls == [] then 0 else Gathered(c.calls, price);
    c.(calls := [], backBal := if c.calls == [] then c.backBal else Refunded(c.backBal, c.calls, price),
       fund := fund, swan := Some(Price(c.supply, fund)))
  }

  /** The loop of globally_settle_asset: each position is filled for its whole debt; supply is put back at the end. */
  method GloballySettle(c0: Coin, price: Price) returns (ok: bool, c: Coin)
    requires Solid(c0)
    ensures ok <==> CanSettle(c0, price)
    ensures c == if ok then Settled(c0, price) else c0
  {
    if c0.swan.Some? || (c0.calls != [] && price.base == 0) { return false, c0; }
    var gathered := 0;
    c, ok := c0, true;
    if c0.calls != [] {
      ok, c, gathered := CloseAll(c0, price);
      if !ok { return false, c0; }
    }
    c := c.(swan := Some(Price(c0.supply, gathered)), fund := gathered, supply := c0.supply);
  }

  /** Every position before the one at hand is closed; what they paid is in `gathered`. */
  ghost predicate Closing(c0: Coin, price: Price, c: Coin, gathered: nat)
    requires price.base > 0
  {
    && |c.calls| <= |c0.calls| && c.calls == c0.calls[|c0.calls| - |c.calls|..]
    && c == c0.(calls := c.calls, backBal := c.backBal, supply := c.supply)
    && Refunded(c.backBal, c.calls, price) == Refunded(c0.backBal, c0.calls, price)
    && gathered + Gathered(c.calls, price) == Gathered(c0.calls, price)
    && c.supply == Sum(Debt, c.calls)
    && forall i | 0 <= i < |c0.calls| - |c.calls| :: Times(c0.calls[i].debt, price) <= MAX_SHARES
  }

  method CloseAll(c0: Coin, price: Price) returns (ok: bool, c: Coin, gathered: nat)
    requires price.base > 0 && c0.supply == Sum(Debt, c0.calls)
    ensures ok <==> forall i | 0 <= i < |c0.calls| :: Times(c0.calls[i].debt, price) <= MAX_SHARES
    ensures ok ==> c == c0.(calls := [], supply := 0, backBal := Refunded(c0.backBal, c0.calls, price))
    ensures ok ==> gathered == Gathered(c0.calls, price)
  {
    c, gathered := c0, 0;
    while c.calls != []
      invariant Closing(c0, price, c, gathered)
      decreases |c.calls|
    {
      hide Sum, Times, Credit, Refunded, Gathered;
      var k := c.calls[0];
      assert k == c0.calls[|c0.calls| - |c.calls|];
      if Times(k.debt, price) > MAX_SHARES { return false, c0, 0; }
      var pays := SwanPays(k, price);
      ClosesOne(c0, price, c, gathered);
      gathered := gathered + pays;
      c := FillCall(c, 0, pays, k.debt);
    }
    ok := true;
  }

  lemma ClosesOne(c0: Coin, price: Price, c: Coin, gathered: nat)
    requires price.base > 0 && Closing(c0, price, c, gathered) && c.calls != [] && Times(c.calls[0].debt, price) <= MAX_SHARES
    ensures c.calls[0].debt <= c.supply
    ensures Closing(c0, price, FillCall(c, 0, SwanPays(c.calls[0], price), c.calls[0].debt), gathered + SwanPays(c.calls[0], price))
  {
    hide Sum, Times, SwanPays, Refunded, Gathered, FillCall;
    FirstDebt(c.calls);
    PayOne(c.backBal, c.calls, price);
    FillWhole(c, SwanPays(c.calls[0], price));
    assert c0.calls[|c0.calls| - |c.calls|..][1..] == c0.calls[|c0.calls| - |c.calls| + 1..];
  }

  lemma PayOne(b: Balances, calls: seq<Call>, price: Price)
    requires price.base > 0 && calls != []
    ensures SwanPays(calls[0], price) <= calls[0].collateral
    ensures Gathered(calls, price) == SwanPays(calls[0], price) + Gathered(calls[1..], price)
    ensures Refunded(b, calls, price) ==
            Refunded(Credit(b, calls[0].borrower, calls[0].collateral - SwanPays(calls[0], price)), calls[1..], price)
  {
  }

  lemma FillWhole(c: Coin, pays: nat)
    requires c.calls != [] && pays <= c.calls[0].collateral && c.calls[0].debt <= c.supply
    ensures FillCall(c, 0, pays, c.calls[0].debt) ==
            c.(calls := c.calls[1..], backBal := Credit(c.backBal, c.calls[0].borrower, c.calls[0].collateral - pays),
               supply := c.supply - c.calls[0].debt)
  {
    assert c.calls[..0] + c.calls[1..] == c.calls[1..];
  }

  lemma FirstDebt(calls: seq<Call>)
    requires calls != []
    ensures Sum(Debt, calls) == calls[0].debt + Sum(Debt, calls[1..])
    ensures Sum(Debt, calls[1..]) >= 0 && calls[..0] + calls[1..] == calls[1..]
  {
    assert calls == [calls[0]] + calls[1..];
    SumConcat(Debt, [calls[0]], calls[1..]);
    assert [calls[0]][..0] == [];
    assert Sum(Debt, [calls[0]]) == calls[0].debt;
    forall k <- calls[1..] ensures Debt(k) >= 0 {}
    SumNonNegative(Debt, calls[1..]);
  }

  /** Global settlement leaves no position, leaves the supply alone, and turns all collateral into the fund and
      the refunds; the fund then covers the supply exactly at the new settlement price. */
  lemma SettledBooks(c: Coin, price: Price)
    requires Solid(c) && CanSettle(c, price)
    ensures var r := Settled(c, price);
            && Solid(r) && r.calls == [] && r.supply == c.supply && Backing(r) == Backing(c) && Held(r) == Held(c)
            && r.fund * r.swan.value.base == r.supply * r.swan.value.quote
            && Total(r.backBal) + r.fund == Total(c.backBal) + Sum(Collateral, c.calls)
  {
    if c.calls == [] {
      assert Sum(Debt, c.calls) == 0 == Sum(Collateral, c.calls);
    } else {
      RefundedTotal(c.backBal, c.calls, price);
      DebtsAreOwed(c, 0);
      assert Sum(Collateral, []) == 0;
    }
  }

  /** What a position pays, and what it pays if it is this account's. */
  function Payment(price: Price): Call -> int { (k: Call) => if price.base > 0 then SwanPays(k, price) else 0 }
  function PaymentOf(price: Price, who: Account): Call -> int { (k: Call) => if k.borrower == who then Payment(price)(k) else 0 }

  lemma {:induction false} RefundedAt(b: Balances, calls: seq<Call>, price: Price, who: Account)
    requires price.base > 0
    ensures Gathered(calls, price) == Sum(Payment(price), calls)
    ensures At(Refunded(b, calls, price), who) == At(b, who) + Sum(CollateralOf(who), calls) - Sum(PaymentOf(price, who), calls)
    decreases calls
  {
    hide SwanPays, Credit, Sum, At;
    if calls != [] {
      var k, rest := calls[0], calls[1..];
      PayOne(b, calls, price);
      CreditAt(b, k.borrower, k.collateral - SwanPays(k, price), who);
      RefundedAt(Credit(b, k.borrower, k.collateral - SwanPays(k, price)), rest, price, who);
      SumFirst(Payment(price), calls);
      SumFirst(CollateralOf(who), calls);
      SumFirst(PaymentOf(price, who), calls);
    } else {
      SumNone(Payment(price));
      SumNone(CollateralOf(who));
      SumNone(PaymentOf(price, who));
    }
  }

  /** Global settlement, account by account: everybody gets the collateral of their own positions less what these pay, owes
      nothing any more, and keeps their coins; the payments are the fund. */
  lemma SettledAccounts(c: Coin, price: Price, who: Account)
    requires CanSettle(c, price)
    ensures var r := Settled(c, price);
            && r.fund == Sum(Payment(price), c.calls)
            && At(r.backBal, who) == At(c.backBal, who) + Sum(CollateralOf(who), c.calls) - Sum(PaymentOf(price, who), c.calls)
            && Owns(r, who) == Owns(c, who) - Sum(PaymentOf(price, who), c.calls)
            && Owing(r, who) == 0 && Holds(r, who) == Holds(c, who)
  {
    hide SwanPays, Gathered, Refunded, At;
    if c.calls != [] { RefundedAt(c.backBal, c.calls, price, who); }
  }

  // ------------------------------------------------------- settling one holding

  /** The place behind the last element that stays in front; later elements move back. */
  function Slot<T>(s: seq<T>, stays: T -> bool): (i: nat)
    ensures i <= |s| && (i > 0 ==> stays(s[i - 1])) && forall j | i <= j < |s| :: !stays(s[j])
  {
    if s == [] || stays(s[|s| - 1]) then |s| else Slot(s[..|s| - 1], stays)
  }

  ghost predicate InDateOrder(settles: seq<Settle>)
  {
    forall i, j | 0 <= i < j < |settles| :: settles[i].date <= settles[j].date
  }

  /** Where a request for that date joins the queue. */
  function DueSlot(settles: seq<Settle>, date: nat): (i: nat)
    ensures i <= |settles| && (i > 0 ==> settles[i - 1].date <= date) && forall j | i <= j < |settles| :: settles[j].date > date
  {
    Slot(settles, (s: Settle) => s.date <= date)
  }

  /** asset_settle: at once from the fund after a black swan, otherwise as a request for later. */
  function SettleCoin(c: Coin, who: Account, amount: nat, now: nat, canForce: bool, t: Terms): Option<Coin>
  {
    if (!canForce && c.swan.None?) || (c.feed.NoFeed? && c.swan.None?) || At(c.coinBal, who) < amount then None
    else if c.swan.Some? then
      FromFund(c.(coinBal := Debit(c.coinBal, who, amount)), who, amount)
    else
      var date := now + t.delay;
      var i := DueSlot(c.settles, date);
      Some(c.(coinBal := Debit(c.coinBal, who, amount), nextId := c.nextId + 1,
              settles := c.settles[..i] + [Settle(c.nextId, who, amount, date)] + c.settles[i..]))
  }

  /** The fund pays `amount` at the settlement price, or everything it has left for all that is still out. */
  function FromFund(c: Coin, who: Account, amount: nat): Option<Coin>
    requires c.swan.Some?
  {
    var price := c.swan.value;
    if price.base == 0 || Times(amount, price) > MAX_SHARES then None
    else
      var out := if amount == c.supply then c.fund else Times(amount, price);
      if out > c.fund || amount > c.supply then None
      else Some(c.(fund := c.fund - out, backBal := Credit(c.backBal, who, out), supply := c.supply - amount))
  }

  /** A share of the supply is worth at most that share of the fund, and paying it out leaves the rest as well covered. */
  lemma ShareOfFund(fund: nat, supply: nat, amount: nat, price: Price)
    requires price.base > 0 && amount <= supply && fund * price.base >= supply * price.quote
    ensures Times(amount, price) <= fund
    ensures (fund - Times(amount, price)) * price.base >= (supply - amount) * price.quote
  {
    var out := Times(amount, price);
    FloorBounds(amount * price.quote, price.base);
    MulMonotone(price.quote, amount, supply);
    assert price.base * out <= price.base * fund;
    CancelFactor(price.base, out, fund);
    assert (fund - out) * price.base == fund * price.base - out * price.base;
    assert (supply - amount) * price.quote == supply * price.quote - amount * price.quote;
  }

  /** Nothing but an empty pool's price, an amount out of range or an unaffordable amount stops a settlement: the fund always
      has enough. */
  lemma SettlementIsPaid(c: Coin, who: Account, amount: nat, now: nat, canForce: bool, t: Terms)
    requires Solid(c)
    ensures SettleCoin(c, who, amount, now, canForce, t).Some? <==>
            && amount <= At(c.coinBal, who)
            && (if c.swan.Some? then c.swan.value.base > 0 && amount * c.swan.value.quote < c.swan.value.base * (MAX_SHARES + 1)
                else canForce && c.feed.Feed?)
    ensures c.swan.Some? && c.swan.value.base > 0 && amount <= At(c.coinBal, who) && Backing(c) <= MAX_SHARES ==>
              SettleCoin(c, who, amount, now, canForce, t).Some?
  {
    HoldingsWithinSupply(c, who);
    if c.swan.Some? && amount <= At(c.coinBal, who) && c.swan.value.base > 0 {
      ShareOfFund(c.fund, c.supply, amount, c.swan.value);
      FundWithinBacking(c);
      TimesIsGreatest(amount, c.swan.value, MAX_SHARES + 1);
    }
  }

  /** Before a black swan the account's coins wait in a request until the delay is over. */
  lemma RequestAccounts(c: Coin, who: Account, amount: nat, now: nat, canForce: bool, t: Terms, x: Account)
    requires c.swan.None? && SettleCoin(c, who, amount, now, canForce, t).Some?
    ensures var r := SettleCoin(c, who, amount, now, canForce, t).value;
            && Owns(r, x) == Owns(c, x) && Owing(r, x) == Owing(c, x) && Holds(r, x) == Holds(c, x)
            && At(r.coinBal, x) == At(c.coinBal, x) - (if x == who then amount else 0) && r.nextId == c.nextId + 1
            && multiset(r.settles) == multiset(c.settles) + multiset{Settle(c.nextId, who, amount, now + t.delay)}
  {
    hide Sum, At, Debit, DueSlot;
    CreditAt(c.coinBal, who, amount, x);
    var q, i := Settle(c.nextId, who, amount, now + t.delay), DueSlot(c.settles, now + t.delay);
    SumInsert(RequestedOf(x), c.settles, i, q);
    assert c.settles == c.settles[..i] + c.settles[i..];
  }

  /** After it they are exchanged for a share of the fund, rounded down, and the last ones for all that is left. */
  lemma ShareAccounts(c: Coin, who: Account, amount: nat, now: nat, canForce: bool, t: Terms, x: Account)
    requires c.swan.Some? && SettleCoin(c, who, amount, now, canForce, t).Some?
    ensures var r, price := SettleCoin(c, who, amount, now, canForce, t).value, c.swan.value;
            && Owing(r, x) == Owing(c, x) && r.fund <= c.fund
            && Owns(r, x) == Owns(c, x) + (if x == who then c.fund - r.fund else 0)
            && Holds(r, x) == Holds(c, x) - (if x == who then amount else 0) && r.settles == c.settles
            && if amount == c.supply then r.fund == 0
               else price.base * (c.fund - r.fund) <= amount * price.quote < price.base * (c.fund - r.fund + 1)
  {
    hide Sum, At, Credit, Debit, Times;
    CreditAt(c.coinBal, who, amount, x);
    var r := SettleCoin(c, who, amount, now, canForce, t).value;
    CreditAt(c.backBal, who, c.fund - r.fund, x);
    TimesIsGreatest(amount, c.swan.value, c.fund - r.fund);
    TimesIsGreatest(amount, c.swan.value, c.fund - r.fund + 1);
  }

  lemma FundWithinBacking(c: Coin)
    requires WellFormed(c)
    ensures c.fund <= Backing(c)
  {
    TotalNonNegative(c.backBal);
    forall k <- c.calls ensures Collateral(k) >= 0 {}
    SumNonNegative(Collateral, c.calls);
    forall b <- c.bids ensures Offer(b) >= 0 {}
    SumNonNegative(Offer, c.bids);
  }

  /** Every settlement keeps the books, and keeps the fund worth the whole supply at the settlement price. */
  lemma SettleKeepsBooks(c: Coin, who: Account, amount: nat, now: nat, canForce: bool, t: Terms)
    requires Solid(c) && SettleCoin(c, who, amount, now, canForce, t).Some?
    ensures var r := SettleCoin(c, who, amount, now, canForce, t).value;
            && Solid(r) && Backing(r) == Backing(c) && r.swan == c.swan && r.calls == c.calls && r.bids == c.bids && r.feed == c.feed && r.limits == c.limits
            && (InDateOrder(c.settles) ==> InDateOrder(r.settles))
            && r.supply == (if c.swan.Some? then c.supply - amount else c.supply)
            && (c.swan.Some? && amount == c.supply ==> r.fund == 0 && r.supply == 0)
            && r.coinBal == Debit(c.coinBal, who, amount)
            && (c.swan.Some? && amount < c.supply ==> r.fund == c.fund - Times(amount, c.swan.value))
            && r.fund <= c.fund && r.backBal == Credit(c.backBal, who, c.fund - r.fund) && r.nextId >= c.nextId
  {
    hide Sum, Total, Debit, Credit, NonNegative, Times, InDateOrder;
    DebitTotal(c.coinBal, who, amount);
    if c.swan.Some? {
      FundKeepsBooks(c, who, amount);
    } else {
      var date := now + t.delay;
      var i := DueSlot(c.settles, date);
      SumInsert(Balance, c.settles, i, Settle(c.nextId, who, amount, date));
      DatedInsert(c.settles, i, Settle(c.nextId, who, amount, date));
      NoCredit(c.backBal, who);
    }
  }

  lemma NoCredit(b: Balances, who: Account)
    ensures Credit(b, who, 0) == b
  {
  }

  lemma DatedInsert(settles: seq<Settle>, i: nat, s: Settle)
    requires i <= |settles| && forall j | i <= j < |settles| :: s.date < settles[j].date
    requires i > 0 ==> settles[i - 1].date <= s.date
    ensures InDateOrder(settles) ==> InDateOrder(settles[..i] + [s] + settles[i..])
  {
  }

  lemma FundKeepsBooks(c: Coin, who: Account, amount: nat)
    requires Solid(c) && c.swan.Some? && c.swan.value.base > 0 && amount <= At(c.coinBal, who) && amount <= c.supply
    requires NonNegative(Debit(c.coinBal, who, amount)) && Total(Debit(c.coinBal, who, amount)) == Total(c.coinBal) - amount
    ensures var d := c.(coinBal := Debit(c.coinBal, who, amount));
            FromFund(d, who, amount).Some? ==>
              (var r := FromFund(d, who, amount).value;
               && Solid(r) && Backing(r) == Backing(c) && r.swan == c.swan && r.calls == c.calls && r.settles == c.settles && r.bids == c.bids && r.feed == c.feed && r.limits == c.limits
               && r.supply == c.supply - amount && (amount == c.supply ==> r.fund == 0) && r.coinBal == d.coinBal
               && (amount < c.supply ==> r.fund == c.fund - Times(amount, c.swan.value))
               && r.fund <= c.fund && r.backBal == Credit(c.backBal, who, c.fund - r.fund) && r.nextId == c.nextId)
  {
    hide Sum, Total, Debit, Credit, NonNegative, Times;
    ShareOfFund(c.fund, c.supply, amount, c.swan.value);
    var out := if amount == c.supply then c.fund else Times(amount, c.swan.value);
    CreditTotal(c.backBal, who, out);
    assert 0 * c.swan.value.quote == 0 == 0 * c.swan.value.base;
  }
}
