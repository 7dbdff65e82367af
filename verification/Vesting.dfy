/**
 Balances that vest over time, linearly or by coin-seconds (libraries/chain/vesting_balance_object.cpp).
 Times are in seconds and never run backwards.
 */
module Vesting {
  import opened Money

  datatype Policy =
    | Linear(begin: nat, cliff: nat, duration: nat, beginBalance: nat)
    | CoinDays(vestingSeconds: nat, earned: nat, startClaim: nat, lastUpdate: nat)
  {
    /** Coin-seconds one unit needs before it can leave. */
    function Unit(): nat
      requires CoinDays?
    {
      if vestingSeconds == 0 then 1 else vestingSeconds
    }
  }

  datatype State = State(balance: nat, policy: Policy)

  // --------------------------------------------------------------- linear vesting

  function Part(whole: nat, part: nat, of: nat): (r: nat)
    requires part < of
    ensures r <= whole
  {
    MulMonotone(whole, part, of);
    FloorBounds(whole * part, of);
    CancelFactor(of, whole * part / of, whole);
    whole * part / of
  }

  /** What has vested by `now`; nothing before the cliff. */
  function Vested(p: Policy, now: nat): (v: nat)
    requires p.Linear?
    ensures v <= p.beginBalance
  {
    if now <= p.begin || now - p.begin < p.cliff then 0
    else if now - p.begin < p.duration then
      Part(p.beginBalance, now - p.begin, p.duration)
    else p.beginBalance
  }

  /** Vesting never goes back. */
  lemma VestedGrows(p: Policy, now: nat, later: nat)
    requires p.Linear? && now <= later
    ensures Vested(p, now) <= Vested(p, later)
  {
    if p.begin < now && later - p.begin < p.duration {
      MulMonotone(p.beginBalance, now - p.begin, later - p.begin);
      FloorMonotone(p.beginBalance * (now - p.begin), p.beginBalance * (later - p.begin), p.duration);
    }
  }

  // ---------------------------------------------------------- coin-second vesting

  function CoinSeconds(amount: nat, seconds: nat): nat { amount * seconds }

  lemma AddUp(a: nat, b: nat, seconds: nat)
    ensures CoinSeconds(a + b, seconds) == CoinSeconds(a, seconds) + CoinSeconds(b, seconds)
  {
  }

  /** compute_coin_seconds_earned: capped at what the whole balance needs. */
  function Earned(s: State, now: nat): (e: nat)
    requires s.policy.CoinDays? && s.policy.lastUpdate <= now
    ensures e <= CoinSeconds(s.balance, s.policy.Unit())
  {
    var grown, cap := s.policy.earned + CoinSeconds(s.balance, now - s.policy.lastUpdate), CoinSeconds(s.balance, s.policy.Unit());
    if grown <= cap then grown else cap
  }

  function Updated(s: State, now: nat): State
    requires s.policy.CoinDays? && s.policy.lastUpdate <= now
  {
    s.(policy := s.policy.(earned := Earned(s, now), lastUpdate := now))
  }

  // ------------------------------------------------------------------- operations

  /** get_allowed_withdraw, as the source's unchecked subtraction gives it. */
  function Allowed(s: State, now: nat): int
    requires s.policy.CoinDays? ==> s.policy.lastUpdate <= now
  {
    match s.policy
    case Linear(begin, cliff, _, beginBalance) =>
      if now <= begin || now - begin < cliff then 0 else Vested(s.policy, now) - (beginBalance - s.balance)
    case CoinDays(_, _, startClaim, _) =>
      if now <= startClaim then 0 else Earned(s, now) / s.policy.Unit()
  }

  const INT64_LIMIT: nat := 0x8000_0000_0000_0000

  datatype Op = Deposit(now: nat, amount: nat) | DepositVested(now: nat, amount: nat) | Withdraw(now: nat, amount: nat)

  /** One operation; a withdrawal that is not allowed, or a vested deposit to a linear balance, changes nothing. */
  function Step(s: State, op: Op): State
    requires s.policy.CoinDays? ==> s.policy.lastUpdate <= op.now
  {
    match op
    case Deposit(now, amount) =>
      var u := if s.policy.CoinDays? then Updated(s, now) else s;
      u.(balance := s.balance + amount)
    case DepositVested(now, amount) =>
      if s.policy.Linear? then s
      else
        var u := Updated(s, now);
        u.(balance := s.balance + amount, policy := u.policy.(earned := u.policy.earned + CoinSeconds(amount, u.policy.Unit())))
    case Withdraw(now, amount) =>
      if amount > Allowed(s, now) then s
      else if s.policy.Linear? then (if amount <= s.balance then s.(balance := s.balance - amount) else s)
      else
        AllowedIsEarned(s, now, amount);
        var u := Updated(s, now);
        u.(balance := s.balance - amount, policy := u.policy.(earned := u.policy.earned - CoinSeconds(amount, u.policy.Unit())))
  }

  /** What may leave is covered by earned coin-seconds, and never exceeds the balance. */
  lemma AllowedIsEarned(s: State, now: nat, amount: nat)
    requires s.policy.CoinDays? && s.policy.lastUpdate <= now && amount <= Allowed(s, now)
    ensures CoinSeconds(amount, s.policy.Unit()) <= Earned(s, now) && amount <= s.balance
  {
    var u := s.policy.Unit();
    if now > s.policy.startClaim { FloorIsGreatest(Earned(s, now), u, amount); }
    CancelFactor(u, amount, s.balance);
  }

  /** Some amount may leave a coin-day balance once claims have started, as far as the balance goes and the coin-seconds earned
      till now reach; every unit takes the vesting seconds, and at least one. */
  lemma CoinDaysAllow(s: State, now: nat, a: nat)
    requires s.policy.CoinDays? && s.policy.lastUpdate <= now && a > 0
    ensures var p := s.policy;
            var unit := if p.vestingSeconds >= 1 then p.vestingSeconds else 1;
            a <= Allowed(s, now) <==> p.startClaim < now && a <= s.balance && unit * a <= p.earned + s.balance * (now - p.lastUpdate)
  {
    var unit := s.policy.Unit();
    FloorIsGreatest(Earned(s, now), unit, a);
    if a <= s.balance { MulMonotone(unit, a, s.balance); } else { MulMonotone(unit, s.balance + 1, a); }
  }

  /** Some amount may leave a linear balance once the cliff is reached: together with all that has left it stays within the
      share of the starting balance that the elapsed time is of the duration. */
  lemma LinearAllows(s: State, now: nat, a: nat)
    requires s.policy.Linear? && a > 0
    ensures var p := s.policy;
            var elapsed, gone := now - p.begin, p.beginBalance - s.balance;
            a <= Allowed(s, now) <==>
            elapsed > 0 && elapsed >= p.cliff && if elapsed < p.duration then p.duration * (gone + a) <= p.beginBalance * elapsed else gone + a <= p.beginBalance
  {
    var p := s.policy;
    var elapsed, x := now - p.begin, p.beginBalance - s.balance + a;
    if 0 < elapsed < p.duration {
      if x >= 0 { FloorIsGreatest(p.beginBalance * elapsed, p.duration, x); } else { assert p.duration * x <= 0; }
    }
  }

  /** Before the cliff nothing has vested and nothing may leave; afterwards the allowance is what has vested and not left. */
  lemma Room(s: State, now: nat)
    requires s.policy.Linear?
    ensures Allowed(s, now) == 0 == Vested(s.policy, now) || Allowed(s, now) == Vested(s.policy, now) - (s.policy.beginBalance - s.balance)
  {
  }

  // -------------------------------------------------------- updates are invisible

  /** Bringing the coin-seconds up to date in between changes nothing later. */
  lemma EarnedTwice(s: State, now: nat, later: nat)
    requires s.policy.CoinDays? && s.policy.lastUpdate <= now <= later && s.policy.earned <= CoinSeconds(s.balance, s.policy.Unit())
    ensures Earned(Updated(s, now), later) == Earned(s, later)
  {
    var b, d1, d2 := s.balance, now - s.policy.lastUpdate, later - now;
    assert CoinSeconds(b, d1 + d2) == CoinSeconds(b, d1) + CoinSeconds(b, d2);
    assert later - s.policy.lastUpdate == d1 + d2;
  }

  /** An intermediate update is invisible to the next operation and to every query. */
  lemma UpdateIsInvisible(s: State, now: nat, op: Op)
    requires s.policy.CoinDays? && s.policy.lastUpdate <= now <= op.now && s.policy.earned <= CoinSeconds(s.balance, s.policy.Unit())
    requires op.Withdraw? ==> op.amount <= Allowed(s, op.now)
    ensures Allowed(Updated(s, now), op.now) == Allowed(s, op.now) && Step(Updated(s, now), op) == Step(s, op)
  {
    EarnedTwice(s, now, op.now);
  }

  // ------------------------------------------------------------------- the accounts

  /** What holds of a balance and its history: a linear balance has not paid out more than has vested; coin-seconds stay
      within what the balance needs, and together with those already spent within what was earned over time or granted. */
  ghost predicate Accounts(s: State, clock: nat, deposited: nat, withdrawn: nat, integral: nat, granted: nat)
  {
    if s.policy.Linear? then
      s.balance + withdrawn == s.policy.beginBalance + deposited && withdrawn - deposited <= Vested(s.policy, clock)
    else
      && s.policy.lastUpdate == clock && s.policy.earned <= CoinSeconds(s.balance, s.policy.Unit())
      && CoinSeconds(withdrawn, s.policy.Unit()) + s.policy.earned <= integral + granted
  }

  /** A withdrawal keeps the accounts; the allowance is never negative and never more than the balance. */
  lemma Withdraws(s: State, now: nat, amount: nat, clock: nat, deposited: nat, withdrawn: nat, integral: nat, granted: nat)
    requires Accounts(s, clock, deposited, withdrawn, integral, granted) && clock <= now
    ensures s.policy.CoinDays? ==> s.policy.lastUpdate == clock
    ensures 0 <= Allowed(s, now) <= s.balance
    ensures amount <= Allowed(s, now) ==>
              && Accounts(Step(s, Withdraw(now, amount)), now, deposited, withdrawn + amount, integral + CoinSeconds(s.balance, now - clock), granted)
              && (s.policy.CoinDays? ==> CoinSeconds(amount, s.policy.Unit()) <= Earned(s, now))
  {
    hide Vested, CoinSeconds;
    if s.policy.Linear? {
      VestedGrows(s.policy, clock, now);
      Room(s, now);
    } else {
      AllowedIsEarned(s, now, Allowed(s, now));
      if amount <= Allowed(s, now) { Spends(s, now, amount, clock, withdrawn, integral, granted); }
    }
  }

  lemma Spends(s: State, now: nat, amount: nat, clock: nat, withdrawn: nat, integral: nat, granted: nat)
    requires s.policy.CoinDays? && Accounts(s, clock, 0, withdrawn, integral, granted) && clock <= now && amount <= Allowed(s, now)
    ensures var r := Step(s, Withdraw(now, amount));
            && CoinSeconds(amount, s.policy.Unit()) <= Earned(s, now)
            && r.policy.CoinDays? && r.policy.lastUpdate == now && r.policy.Unit() == s.policy.Unit()
            && r.policy.earned <= CoinSeconds(r.balance, r.policy.Unit())
            && CoinSeconds(withdrawn + amount, r.policy.Unit()) + r.policy.earned <= integral + CoinSeconds(s.balance, now - clock) + granted
  {
    hide CoinSeconds;
    var u := s.policy.Unit();
    AllowedIsEarned(s, now, amount);
    AddUp(s.balance - amount, amount, u);
    AddUp(withdrawn, amount, u);
  }

  /** The assertion of get_allowed_withdraw that the amount withdrawn so far is not negative, where it is reached. */
  ghost predicate AssertionHolds(s: State, now: nat)
    requires s.policy.Linear?
  {
    now <= s.policy.begin || now - s.policy.begin < s.policy.cliff || s.policy.beginBalance - s.balance >= 0
  }

  /** It holds of a linear balance from the cliff on exactly while no more was deposited than withdrawn.  What may leave is
      what has vested and not left, and everything deposited besides. */
  lemma DepositsCount(s: State, now: nat, clock: nat, deposited: nat, withdrawn: nat, integral: nat, granted: nat)
    requires s.policy.Linear? && Accounts(s, clock, deposited, withdrawn, integral, granted) && clock <= now
    ensures AssertionHolds(s, now) <==> now <= s.policy.begin || now - s.policy.begin < s.policy.cliff || deposited <= withdrawn
    ensures s.policy.begin < now && s.policy.cliff <= now - s.policy.begin ==> Allowed(s, now) == Vested(s.policy, now) - withdrawn + deposited
  {
  }

  /** A linear balance of five that receives one more: the assertion fails from the cliff on, and the deposit may leave at
      once, before any of the five has vested. */
  lemma LinearDeposit()
    ensures var s := Step(State(5, Linear(0, 1, 10, 5)), Deposit(0, 1));
            && Accounts(s, 0, 1, 0, 0, 0) && !AssertionHolds(s, 1)
            && Vested(s.policy, 1) == 0 && Allowed(s, 1) == 1
  {
    assert 5 * 1 / 10 == 0;
  }

  // --------------------------------------------------------------------- the object

  /** A vesting balance with its history: everything deposited and withdrawn, the time integral of the balance, and the
      coin-seconds granted by vested deposits. */
  class VestingBalance {
    var balance: nat
    var policy: Policy
    ghost var clock: nat
    ghost var deposited: nat
    ghost var withdrawn: nat
    ghost var integral: nat
    ghost var granted: nat

    function View(): State
      reads this
    {
      State(balance, policy)
    }

    ghost predicate Valid()
      reads this
    {
      Accounts(View(), clock, deposited, withdrawn, integral, granted)
    }

    constructor Linear(begin: nat, cliff: nat, duration: nat, amount: nat)
      ensures Valid() && View() == State(amount, Policy.Linear(begin, cliff, duration, amount)) && withdrawn == 0 == deposited
    {
      balance, policy := amount, Policy.Linear(begin, cliff, duration, amount);
      clock, deposited, withdrawn, integral, granted := 0, 0, 0, 0, 0;
    }

    constructor CoinDays(vestingSeconds: nat, startClaim: nat, now: nat, amount: nat)
      ensures Valid() && View() == State(amount, Policy.CoinDays(vestingSeconds, 0, startClaim, now)) && withdrawn == 0 == deposited
    {
      balance, policy := amount, Policy.CoinDays(vestingSeconds, 0, startClaim, now);
      clock, deposited, withdrawn, integral, granted := now, 0, 0, 0, 0;
    }

    /** A coin-day balance that may leave at once. */
    constructor Granted(vestingSeconds: nat, startClaim: nat, now: nat, amount: nat)
      ensures Valid() && View() == State(amount, Policy.CoinDays(vestingSeconds, CoinSeconds(amount, vestingSeconds), startClaim, now))
      ensures withdrawn == 0 == deposited
    {
      balance, policy := amount, Policy.CoinDays(vestingSeconds, CoinSeconds(amount, vestingSeconds), startClaim, now);
      clock, deposited, withdrawn, integral, granted := now, 0, 0, 0, CoinSeconds(amount, vestingSeconds);
    }

    /** deposit */
    method Deposit(now: nat, amount: nat)
      requires Valid() && clock <= now
      modifies this
      ensures Valid() && clock == now && View() == old(Step(View(), Op.Deposit(now, amount)))
      ensures deposited == old(deposited) + amount && withdrawn == old(withdrawn) && granted == old(granted)
      ensures integral == old(integral + CoinSeconds(balance, now - clock))
    {
      hide CoinSeconds, Vested;
      if policy.Linear? { VestedGrows(policy, clock, now); }
      integral := integral + CoinSeconds(balance, now - clock);
      if policy.CoinDays? { policy := Updated(View(), now).policy; }
      if policy.CoinDays? { AddUp(balance, amount, policy.Unit()); }
      balance, deposited, clock := balance + amount, deposited + amount, now;
    }

    /** deposit_vested, which throws on a linear balance. The product of amount and seconds is taken in 64 bits with a sign, so
        it is not `defined` when it does not fit. */
    method DepositVested(now: nat, amount: nat) returns (ok: bool, defined: bool)
      requires Valid() && clock <= now
      modifies this
      ensures defined <==> old(policy.Linear? || CoinSeconds(amount, policy.Unit()) < INT64_LIMIT)
      ensures Valid() && (ok <==> old(policy.CoinDays?) && defined)
      ensures defined ==> View() == old(Step(View(), Op.DepositVested(now, amount)))
      ensures !ok ==> clock == old(clock) && granted == old(granted) && deposited == old(deposited) && integral == old(integral)
      ensures ok ==> granted == old(granted) + CoinSeconds(amount, policy.Unit()) && deposited == old(deposited) + amount && clock == now
      ensures ok ==> integral == old(integral + CoinSeconds(balance, now - clock))
      ensures withdrawn == old(withdrawn)
    {
      hide CoinSeconds, Vested;
      if policy.Linear? { return false, true; }
      if CoinSeconds(amount, policy.Unit()) >= INT64_LIMIT { return false, false; }
      integral := integral + CoinSeconds(balance, now - clock);
      var u := Updated(View(), now).policy;
      policy := u.(earned := u.earned + CoinSeconds(amount, u.Unit()));
      AddUp(balance, amount, policy.Unit());
      granted := granted + CoinSeconds(amount, policy.Unit());
      balance, deposited, clock := balance + amount, deposited + amount, now;
      return true, true;
    }

    /** is_withdraw_allowed and withdraw. Neither assertion of the source about the amount can fail, and the allowance is
        never negative. */
    method Withdraw(now: nat, amount: nat) returns (ok: bool)
      requires Valid() && clock <= now
      modifies this
      ensures Valid() && old(Allowed(View(), now)) >= 0 && ok == (amount <= old(Allowed(View(), now)))
      ensures View() == old(Step(View(), Op.Withdraw(now, amount)))
      ensures ok ==> amount <= old(balance) && balance == old(balance) - amount && clock == now && withdrawn == old(withdrawn) + amount
      ensures ok ==> integral == old(integral + CoinSeconds(balance, now - clock))
      ensures !ok ==> withdrawn == old(withdrawn) && clock == old(clock) && integral == old(integral)
      ensures deposited == old(deposited) && granted == old(granted)
    {
      hide Vested, Earned, Accounts, CoinSeconds;
      Withdraws(View(), now, amount, clock, deposited, withdrawn, integral, granted);
      ok := amount <= Allowed(View(), now);
      if !ok { return; }
      integral := integral + CoinSeconds(balance, now - clock);
      if policy.CoinDays? {
        var u := Updated(View(), now).policy;
        policy := u.(earned := u.earned - CoinSeconds(amount, u.Unit()));
      }
      balance, withdrawn, clock := balance - amount, withdrawn + amount, now;
    }
  }

  /** deposit_lazy_vesting, through which the chain pays into balances it finds: only a coin-day balance of the same owner,
      purpose and period takes the amount, and otherwise there is a new one.  `suits` stands for owner and purpose. */
  method DepositLazily(held: VestingBalance?, suits: bool, seconds: nat, vest: bool, now: nat, amount: nat)
    returns (created: VestingBalance?, defined: bool)
    requires held != null ==> held.Valid() && held.clock <= now
    modifies held
    ensures held != null ==> held.Valid()
    ensures held != null && old(held.policy.Linear?) ==> held.View() == old(held.View()) && held.deposited == old(held.deposited)
    ensures var takes := held != null && suits && old(held.policy.CoinDays? && held.policy.vestingSeconds == seconds);
            && (defined <==> amount == 0 || vest || CoinSeconds(amount, if takes && seconds == 0 then 1 else seconds) < INT64_LIMIT)
            && (created != null <==> amount > 0 && defined && !takes)
            && (takes && amount > 0 && defined ==>
                held.View() == old(Step(held.View(), if vest then Op.Deposit(now, amount) else Op.DepositVested(now, amount))))
            && (held != null && !takes ==> held.View() == old(held.View()))
    ensures created != null ==> fresh(created) && created.Valid() && created.policy.CoinDays? && created.balance == amount && created.deposited == 0
  {
    created, defined := null, true;
    if amount == 0 { return; }
    if held != null && suits && held.policy.CoinDays? && held.policy.vestingSeconds == seconds {
      if vest {
        held.Deposit(now, amount);
      } else {
        var ok;
        ok, defined := held.DepositVested(now, amount);
      }
    } else if vest {
      created := new VestingBalance.CoinDays(seconds, 0, now, amount);
    } else {
      defined := CoinSeconds(amount, seconds) < INT64_LIMIT;
      if defined { created := new VestingBalance.Granted(seconds, 0, now, amount); }
    }
  }
}
