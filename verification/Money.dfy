/** Amounts, prices and fees as integers, with the source's rounding (libraries/chain/protocol/asset.cpp). */
module Money {
  import opened Sums

  const MAX_SHARES: nat := 1_000_000_000_000_000_000
  const FULL_PERCENT: nat := 10_000

  type Account = nat

  /** A price is what is sold over what is asked for it; it is never reduced. */
  datatype Price = Price(base: nat, quote: nat)
  {
    predicate Positive() { base > 0 && quote > 0 }

    /** this >= other, compared by cross multiplication. */
    predicate AtLeast(other: Price) { base * other.quote >= other.base * quote }

    function Inverse(): Price { Price(quote, base) }
  }

  /** `a * price` for an amount of the price's base asset, before the check against the largest amount. */
  function Times(a: nat, p: Price): nat
    requires p.base > 0
  {
    a * p.quote / p.base
  }

  /** `a * price` for an amount of the price's quote asset. */
  function TimesQuote(a: nat, p: Price): nat
    requires p.quote > 0
  {
    a * p.base / p.quote
  }

  /** Rounding down loses less than one unit. */
  lemma FloorBounds(n: nat, d: nat)
    requires d > 0
    ensures d * (n / d) <= n < d * (n / d) + d
  {
  }

  lemma FloorMonotone(m: nat, n: nat, d: nat)
    requires d > 0 && m <= n
    ensures m / d <= n / d
  {
    FloorBounds(m, d);
    FloorBounds(n, d);
    if n / d < m / d { MulMonotone(d, n / d + 1, m / d); }
  }

  lemma MulMonotone(a: nat, b: nat, c: nat)
    requires b <= c
    ensures a * b <= a * c
  {
  }

  lemma MulSwap(a: nat, b: nat, c: nat)
    ensures a * (b * c) == b * (a * c)
  {
  }

  lemma CancelFactor(k: nat, a: nat, b: nat)
    requires k > 0 && k * a <= k * b
    ensures a <= b
  {
  }

  /** The largest x with d * x <= n is n / d. */
  lemma FloorIsGreatest(n: nat, d: nat, x: nat)
    requires d > 0
    ensures x <= n / d <==> d * x <= n
  {
    FloorBounds(n, d);
    if x <= n / d { MulMonotone(d, x, n / d); }
    else { MulMonotone(d, n / d + 1, x); }
  }

  /** An amount at a price, the other way round: the products, rounded down. */
  lemma TimesIsGreatest(a: nat, p: Price, x: nat)
    ensures p.base > 0 ==> (x <= Times(a, p) <==> x * p.base <= a * p.quote)
    ensures p.quote > 0 ==> (x <= TimesQuote(a, p) <==> x * p.quote <= a * p.base)
  {
    if p.base > 0 { FloorIsGreatest(a * p.quote, p.base, x); }
    if p.quote > 0 { FloorIsGreatest(a * p.base, p.quote, x); }
  }

  lemma PriceTransitive(a: Price, b: Price, c: Price)
    requires a.quote > 0 && b.quote > 0 && c.quote > 0 && a.AtLeast(b) && b.AtLeast(c)
    ensures a.AtLeast(c)
  {
    calc {
      b.quote * (c.base * a.quote);
    ==
      a.quote * (c.base * b.quote);
    <= { MulMonotone(a.quote, c.base * b.quote, b.base * c.quote); }
      a.quote * (b.base * c.quote);
    ==
      c.quote * (b.base * a.quote);
    <= { MulMonotone(c.quote, b.base * a.quote, a.base * b.quote); }
      c.quote * (a.base * b.quote);
    ==
      b.quote * (a.base * c.quote);
    }
    CancelFactor(b.quote, c.base * a.quote, a.base * c.quote);
  }

  /** A market-fee rule: a percentage, capped; `charges` is the asset's flag. */
  datatype FeeRule = FeeRule(charges: bool, percent: nat, max: nat)

  /** calculate_market_fee */
  function MarketFee(rule: FeeRule, amount: nat): (fee: nat)
  {
    if !rule.charges || rule.percent == 0 then 0
    else
      var f := amount * rule.percent / FULL_PERCENT;
      if f > rule.max then rule.max else f
  }

  /** As a fee, `f` is within both the percentage and the cap. */
  predicate Chargeable(rule: FeeRule, amount: nat, f: nat)
  {
    f == 0 || (rule.charges && FULL_PERCENT * f <= amount * rule.percent && f <= rule.max)
  }

  /** It is the largest such fee. */
  predicate IsFee(rule: FeeRule, amount: nat, f: nat) { Chargeable(rule, amount, f) && !Chargeable(rule, amount, f + 1) }

  lemma FeeIsGreatest(rule: FeeRule, amount: nat)
    ensures IsFee(rule, amount, MarketFee(rule, amount))
  {
    var f := MarketFee(rule, amount);
    FloorIsGreatest(amount * rule.percent, FULL_PERCENT, f);
    FloorIsGreatest(amount * rule.percent, FULL_PERCENT, f + 1);
  }

  /** A fee never exceeds the amount it is taken from. */
  lemma FeeWithinAmount(rule: FeeRule, amount: nat)
    requires rule.percent <= FULL_PERCENT
    ensures MarketFee(rule, amount) <= amount
  {
    MulMonotone(amount, rule.percent, FULL_PERCENT);
    FloorMonotone(amount * rule.percent, amount * FULL_PERCENT, FULL_PERCENT);
  }

  // ------------------------------------------------------------------- balances

  type Balances = map<Account, int>

  ghost predicate NonNegative(b: Balances)
  {
    forall k <- b :: b[k] >= 0
  }

  /** adjust_balance with a credit; crediting nothing leaves no entry behind. */
  function Credit(b: Balances, who: Account, amount: nat): Balances
  {
    if amount == 0 then b else b[who := At(b, who) + amount]
  }

  /** adjust_balance with a debit the account can afford. */
  function Debit(b: Balances, who: Account, amount: nat): Balances
  {
    if amount == 0 then b else b[who := At(b, who) - amount]
  }

  /** A credit or debit changes one account, by that amount. */
  lemma CreditAt(b: Balances, who: Account, amount: nat, x: Account)
    ensures At(Credit(b, who, amount), x) == At(b, x) + if x == who then amount else 0
    ensures At(Debit(b, who, amount), x) == At(b, x) - if x == who then amount else 0
  {
  }

  lemma CreditTotal(b: Balances, who: Account, amount: nat)
    ensures Total(Credit(b, who, amount)) == Total(b) + amount
    ensures NonNegative(b) ==> NonNegative(Credit(b, who, amount))
  {
    if amount > 0 { TotalUpdate(b, who, At(b, who) + amount); }
  }

  lemma DebitTotal(b: Balances, who: Account, amount: nat)
    ensures Total(Debit(b, who, amount)) == Total(b) - amount
    ensures NonNegative(b) && amount <= At(b, who) ==> NonNegative(Debit(b, who, amount))
  {
    if amount > 0 { TotalUpdate(b, who, At(b, who) - amount); }
  }
}
