/**
 The core asset's supply from one budget period to the next: fees and unspent budgets flow back, new
 budgets flow out, and workers, witnesses and candidates are paid from them (libraries/chain/db_maint.cpp,
 libraries/chain/worker_evaluator.cpp, libraries/chain/db_update.cpp, libraries/chain/account_object.cpp).
 */
module CoreLedgers {
  import opened Options
  import opened Sums
  import opened Money

  const DAY: nat := 86_400
  const CYCLE_RATE: nat := 17
  const CYCLE_UNIT: nat := 0x1_0000_0000
  const UINT64_LIMIT: nat := 0x1_0000_0000_0000_0000
  const NULL_ACCOUNT: Account := 3

  datatype Kind = Destroy | VestingPay | Burn | Issuance

  datatype Worker = Worker(kind: Kind, dailyPay: nat, begin: nat, end: nat)
  {
    /** Paid outside the budget: it changes the maximum supply. */
    predicate Special() { kind.Destroy? || kind.Issuance? }
  }

  /** The budgets set aside at the last maintenance. */
  datatype Record = NoRecord | Record(worker: nat, candidates: nat)
  {
    function Worker(): nat { if NoRecord? then 0 else worker }
    function Candidates(): nat { if NoRecord? then 0 else candidates }
  }

  /** Parameters and clock readings of one maintenance. */
  datatype Period = Period(now: nat, timeToMaint: nat, blockInterval: nat, witnessPayPerBlock: nat, workerPerDay: nat,
                           candidateAward: nat)

  datatype Payout = Payout(who: Account, amount: nat)

  datatype Outcome = Done | Thrown | Undefined

  function Min(a: int, b: int): int { if a <= b then a else b }

  // ------------------------------------------------------------------- the budgets

  /** initialize_budget_record: the share of the reserve that may be spent, rounded up, or all of it.  A negative sum goes
      through unsigned arithmetic: it counts as nothing while the rounding hides it, and otherwise the conversion back throws. */
  function TotalBudget(reserve: int, fees: nat, unused: int, lastTime: nat, now: nat): Option<int>
  {
    if lastTime == 0 || now <= lastTime then Some(reserve + fees)
    else
      var all, rate := reserve + fees + unused, (now - lastTime) * CYCLE_RATE;
      if all >= 0 then Some(Min((all * rate + (CYCLE_UNIT - 1)) / CYCLE_UNIT, all))
      else if -all * rate < CYCLE_UNIT then Some(0) else None
  }

  /** With a reserve there is always a budget, and it never exceeds what there is. */
  lemma BudgetWithinReserve(reserve: nat, fees: nat, unused: nat, lastTime: nat, now: nat)
    ensures TotalBudget(reserve, fees, unused, lastTime, now).Some?
    ensures 0 <= TotalBudget(reserve, fees, unused, lastTime, now).value <= reserve + fees + unused
  {
    if lastTime != 0 && now > lastTime {
      var all, rate := reserve + fees + unused, (now - lastTime) * CYCLE_RATE;
      FloorBounds(all * rate + (CYCLE_UNIT - 1), CYCLE_UNIT);
    }
  }

  /** Of a reserve that is not overdrawn a period may spend seventeen parts in 2^32 for each second, rounded up to a unit, but
      never more than all of it; an overdrawn one spends nothing until that amounts to a unit, and then throws.  The first
      period may spend everything. */
  lemma BudgetIsRate(reserve: int, fees: nat, unused: int, lastTime: nat, now: nat)
    ensures lastTime == 0 || now <= lastTime ==> TotalBudget(reserve, fees, unused, lastTime, now) == Some(reserve + fees)
    ensures 0 < lastTime < now ==>
            var b, all, part := TotalBudget(reserve, fees, unused, lastTime, now), reserve + fees + unused, 17 * (now - lastTime);
            && (all < 0 ==> b == if -all * part < 0x1_0000_0000 then Some(0) else None)
            && (all >= 0 ==> b.Some? && 0 <= b.value <= all && 0x1_0000_0000 * (b.value - 1) < all * part
                             && (all * part <= 0x1_0000_0000 * b.value || b.value == all))
  {
    var all, rate := reserve + fees + unused, (now - lastTime) * CYCLE_RATE;
    if 0 < lastTime < now && all >= 0 { FloorBounds(all * rate + (CYCLE_UNIT - 1), CYCLE_UNIT); }
  }

  datatype Budgets = Budgets(blocks: int, worker: nat, candidates: nat)
  {
    function Sum(): int { blocks + worker + candidates }
  }

  /** What process_budget sets aside out of `total`, in this order; a shortfall is all the witnesses'. */
  function SetAside(total: int, p: Period): (b: Budgets)
    requires p.blockInterval > 0
    ensures b.Sum() <= total || total < 0
    ensures total < 0 ==> b == Budgets(total, 0, 0)
    ensures total >= 0 ==> b.blocks >= 0
  {
    var blocks := (p.timeToMaint + p.blockInterval - 1) / p.blockInterval;
    var forBlocks := Min(p.witnessPayPerBlock * blocks, total);
    var worker := Min(p.workerPerDay * p.timeToMaint / DAY, total - forBlocks);
    Budgets(forBlocks, worker, Min(p.candidateAward, total - forBlocks - worker))
  }

  /** Witnesses are paid for every block interval begun until the next maintenance, workers for the share of a day, and
      candidates their award, each as far as the budget goes. */
  lemma SetAsideIs(total: nat, p: Period, blocks: nat)
    requires p.blockInterval > 0 && p.timeToMaint <= blocks * p.blockInterval < p.timeToMaint + p.blockInterval
    ensures var b := SetAside(total, p);
            && b.blocks == Min(p.witnessPayPerBlock * blocks, total)
            && DAY * b.worker <= p.workerPerDay * p.timeToMaint
            && (p.workerPerDay * p.timeToMaint < DAY * (b.worker + 1) || b.worker == total - b.blocks)
            && b.candidates == Min(p.candidateAward, total - b.blocks - b.worker)
  {
    var n := p.timeToMaint + p.blockInterval - 1;
    FloorIsGreatest(n, p.blockInterval, blocks);
    FloorIsGreatest(n, p.blockInterval, blocks + 1);
    FloorBounds(p.workerPerDay * p.timeToMaint, DAY);
  }

  // ------------------------------------------------------------ who works, and until when

  /** The first worker whose time is over. */
  function FirstEnded(workers: seq<Worker>, now: nat): (i: nat)
    ensures i <= |workers| && (i < |workers| ==> workers[i].end <= now) && forall j | 0 <= j < i :: workers[j].end > now
  {
    if workers == [] || workers[0].end <= now then 0 else 1 + FirstEnded(workers[1..], now)
  }

  /** The workers in front of it that have begun. */
  function Active(workers: seq<Worker>, now: nat, i: nat): (active: seq<Worker>)
    requires i <= |workers|
    ensures forall w <- active :: w in workers && w.begin <= now
  {
    if i == 0 then []
    else Active(workers, now, i - 1) + if workers[i - 1].begin <= now then [workers[i - 1]] else []
  }

  /** Nobody who has begun is left out. */
  lemma {:induction false} ActiveIs(workers: seq<Worker>, now: nat, i: nat, w: Worker)
    requires i <= |workers|
    ensures multiset(Active(workers, now, i))[w] == if w.begin <= now then multiset(workers[..i])[w] else 0
  {
    if i > 0 {
      ActiveIs(workers, now, i - 1, w);
      assert workers[..i] == workers[..i - 1] + [workers[i - 1]];
    }
  }

  /** The time workers are paid for: that of the first one whose time is over, or now. */
  function SettlementTime(workers: seq<Worker>, now: nat): nat
  {
    var i := FirstEnded(workers, now);
    if i < |workers| then workers[i].end else now
  }

  function Remaining(workers: seq<Worker>, now: nat): seq<Worker>
  {
    var i := FirstEnded(workers, now);
    if i < |workers| then workers[..i] + workers[i + 1..] else workers
  }

  /** The first loop of pay_workers, over the workers not yet completed.  Marking one as completed moves it behind all
      others in the index being walked, unless it is already the last incomplete one.  The walk then ends there: workers
      behind it are passed over; but when there are older completed workers, it runs past the end of the range. */
  method SelectWorkers(workers: seq<Worker>, anyCompleted: bool, now: nat)
    returns (defined: bool, active: seq<Worker>, settled: nat, left: seq<Worker>, completes: bool)
    ensures defined <==> (anyCompleted ==> FirstEnded(workers, now) >= |workers| - 1)
    ensures active == Active(workers, now, FirstEnded(workers, now))
    ensures settled == SettlementTime(workers, now) && left == Remaining(workers, now)
    ensures completes <==> FirstEnded(workers, now) < |workers|
  {
    active, settled, left, defined, completes := [], now, workers, true, false;
    var i := 0;
    while i < |workers|
      invariant i <= |workers| && active == Active(workers, now, i) && settled == now && left == workers && defined && !completes
      invariant forall j | 0 <= j < i :: workers[j].end > now
    {
      var w := workers[i];
      if w.end <= settled {
        EndsHere(workers, now, i);
        settled, left, completes := w.end, workers[..i] + workers[i + 1..], true;
        defined := i == |workers| - 1 || !anyCompleted;
        return;
      } else if w.begin <= settled {
        active := active + [w];
      }
      i := i + 1;
    }
    EndsHere(workers, now, i);
  }

  lemma {:induction false} EndsHere(workers: seq<Worker>, now: nat, i: nat)
    requires i <= |workers| && (i < |workers| ==> workers[i].end <= now) && forall j | 0 <= j < i :: workers[j].end > now
    ensures FirstEnded(workers, now) == i
  {
    if i > 0 {
      assert forall j | 0 <= j < i - 1 :: workers[1..][j] == workers[j + 1];
      EndsHere(workers[1..], now, i - 1);
    }
  }

  /** A period at `before` leaves a worker behind that had ended by then exactly when two had. */
  lemma PassedOver(workers: seq<Worker>, before: nat)
    ensures var i := FirstEnded(workers, before);
            (forall w <- Remaining(workers, before) :: w.end > before) <==> forall j | i < j < |workers| :: workers[j].end > before
  {
    hide FirstEnded;
    var i := FirstEnded(workers, before);
    if i < |workers| { EndLater(workers, i, before); } else { forall w <- workers ensures w.end > before {} }
  }

  lemma EndLater(workers: seq<Worker>, i: nat, before: nat)
    requires i < |workers| && forall j | 0 <= j < i :: workers[j].end > before
    ensures (forall w <- workers[..i] + workers[i + 1..] :: w.end > before) <==> forall j | i < j < |workers| :: workers[j].end > before
  {
    var left := workers[..i] + workers[i + 1..];
    if forall w <- left :: w.end > before {
      forall j | i < j < |workers| ensures workers[j].end > before { assert left[j - 1] == workers[j]; }
    }
    if forall j | i < j < |workers| :: workers[j].end > before {
      forall k | 0 <= k < |left| ensures left[k].end > before { assert left[k] == workers[if k < i then k else k + 1]; }
    }
  }

  /** The next period, at `now`, pays for a negative time exactly when such a worker is the first whose time is over.  With
      one end per period that never happens: workers added since end later. */
  lemma PaidBackwards(workers: seq<Worker>, added: seq<Worker>, before: nat, now: nat)
    requires before <= now && forall w <- added :: w.end > before
    ensures var line := Remaining(workers, before) + added;
            SettlementTime(line, now) < before <==>
            exists k | 0 <= k < |Remaining(workers, before)| :: line[k].end < before && forall j | 0 <= j < k :: line[j].end > now
    ensures var i, line := FirstEnded(workers, before), Remaining(workers, before) + added;
            (forall j | i < j < |workers| :: workers[j].end > before) ==> SettlementTime(line, now) >= before
  {
    var left := Remaining(workers, before);
    var line := left + added;
    PassedOver(workers, before);
    var k := FirstEnded(line, now);
    if k < |line| { assert line[k] == if k < |left| then left[k] else added[k - |left|]; }
    if SettlementTime(line, now) < before {
      assert k < |left| && line[k].end < before && forall j | 0 <= j < k :: line[j].end > now;
    }
    if k' :| 0 <= k' < |left| && line[k'].end < before && forall j | 0 <= j < k' :: line[j].end > now {
      EndsHere(line, now, k');
    }
  }

  // -------------------------------------------------------------------------- paying

  /** The pay for `elapsed` seconds; a negative product or one beyond 64 bits throws. */
  function Requested(w: Worker, elapsed: int): Option<nat>
  {
    if elapsed == DAY then Some(w.dailyPay)
    else if elapsed < 0 then (if w.dailyPay == 0 then Some(0) else None)
    else if w.dailyPay * elapsed / DAY < UINT64_LIMIT then Some(w.dailyPay * elapsed / DAY) else None
  }

  /** It is the share of the daily pay, rounded down, unless that takes more than 64 bits; no pay is possible for a time
      before the last budget. */
  lemma RequestedIs(w: Worker, elapsed: int)
    ensures var r := Requested(w, elapsed);
            && (elapsed >= 0 && r.Some? ==> 86_400 * r.value <= w.dailyPay * elapsed < 86_400 * (r.value + 1))
            && (elapsed >= 0 && elapsed != 86_400 ==> (r.None? <==> w.dailyPay * elapsed >= 86_400 * 0x1_0000_0000_0000_0000))
            && (elapsed == 86_400 ==> r.Some?) && (elapsed < 0 ==> (r.None? <==> w.dailyPay > 0))
  {
    if elapsed >= 0 {
      FloorBounds(w.dailyPay * elapsed, DAY);
      FloorIsGreatest(w.dailyPay * elapsed, DAY, UINT64_LIMIT);
    }
  }

  function Request(w: Worker, elapsed: int): nat { if Requested(w, elapsed).Some? then Requested(w, elapsed).value else 0 }

  /** What the budget still holds before worker `i`: special workers leave it alone. */
  function Left(workers: seq<Worker>, budget: nat, elapsed: int, i: nat): (left: nat)
    requires i <= |workers|
    ensures left <= budget
  {
    if i == 0 then budget
    else
      var left := Left(workers, budget, elapsed, i - 1);
      if workers[i - 1].Special() then left else left - Min(left, Request(workers[i - 1], elapsed))
  }

  function Pay(workers: seq<Worker>, budget: nat, elapsed: int, i: nat): nat
    requires i < |workers|
  {
    Min(Left(workers, budget, elapsed, i), Request(workers[i], elapsed))
  }

  /** Workers are paid in turn: each in full, or whatever is left, and only special ones leave the budget as it is. */
  lemma PaidInTurn(workers: seq<Worker>, budget: nat, elapsed: int, i: nat)
    requires i < |workers| && Requested(workers[i], elapsed).Some?
    ensures var pay, left, after := Pay(workers, budget, elapsed, i), Left(workers, budget, elapsed, i), Left(workers, budget, elapsed, i + 1);
            && pay <= Requested(workers[i], elapsed).value && pay <= left
            && (pay < Requested(workers[i], elapsed).value ==> pay == left)
            && (after == if workers[i].kind.Destroy? || workers[i].kind.Issuance? then left else left - pay)
            && Left(workers, budget, elapsed, 0) == budget
  {
  }

  /** Everything paid to workers of one kind among the first `n`. */
  function Paid(workers: seq<Worker>, budget: nat, elapsed: int, n: nat, kind: Kind): nat
    requires n <= |workers|
  {
    if n == 0 then 0
    else Paid(workers, budget, elapsed, n - 1, kind) + if workers[n - 1].kind == kind then Pay(workers, budget, elapsed, n - 1) else 0
  }

  /** What leaves the budget is exactly what vesting and burning workers get. */
  lemma {:induction false} BudgetIsPaidOut(workers: seq<Worker>, budget: nat, elapsed: int, n: nat)
    requires n <= |workers|
    ensures Left(workers, budget, elapsed, n) + Paid(workers, budget, elapsed, n, VestingPay) + Paid(workers, budget, elapsed, n, Burn) == budget
  {
    if n > 0 { BudgetIsPaidOut(workers, budget, elapsed, n - 1); }
  }

  /** Worker `i` stops the payments: its pay cannot be computed, or it would destroy more than the reserve. */
  predicate Refuses(workers: seq<Worker>, budget: nat, elapsed: int, reserve: int, i: nat)
    requires i < |workers|
  {
    && (workers[i].Special() || Left(workers, budget, elapsed, i) > 0)
    && (Requested(workers[i], elapsed).None?
        || (workers[i].kind.Destroy? && reserve + Paid(workers, budget, elapsed, i, Issuance)
                                        < Paid(workers, budget, elapsed, i, Destroy) + Pay(workers, budget, elapsed, i)))
  }

  predicate Payable(workers: seq<Worker>, budget: nat, elapsed: int, reserve: int, n: nat)
    requires n <= |workers|
  {
    forall i :: 0 <= i < n ==> !Refuses(workers, budget, elapsed, reserve, i)
  }

  /** The second loop of pay_workers. */
  method PayWorkers(workers: seq<Worker>, budget: nat, elapsed: int, supply: int, max0: int)
    returns (ok: bool, left: nat, vested: nat, burnt: nat, max: int)
    ensures ok <==> Payable(workers, budget, elapsed, max0 - supply, |workers|)
    ensures ok ==> left == Left(workers, budget, elapsed, |workers|) && left + vested + burnt == budget
    ensures ok ==> vested == Paid(workers, budget, elapsed, |workers|, VestingPay) && burnt == Paid(workers, budget, elapsed, |workers|, Burn)
    ensures ok ==> max + Paid(workers, budget, elapsed, |workers|, Destroy) == max0 + Paid(workers, budget, elapsed, |workers|, Issuance)
  {
    hide Requested;
    left, vested, burnt, max := budget, 0, 0, max0;
    var i := 0;
    while i < |workers|
      invariant i <= |workers| && left == Left(workers, budget, elapsed, i)
      invariant vested == Paid(workers, budget, elapsed, i, VestingPay) && burnt == Paid(workers, budget, elapsed, i, Burn)
      invariant max + Paid(workers, budget, elapsed, i, Destroy) == max0 + Paid(workers, budget, elapsed, i, Issuance)
      invariant Payable(workers, budget, elapsed, max0 - supply, i)
    {
      var w := workers[i];
      if w.Special() || left > 0 {
        var requested := Requested(w, elapsed);
        if requested.None? {
          assert Refuses(workers, budget, elapsed, max0 - supply, i);
          return false, left, vested, burnt, max;
        }
        var pay := Min(left, requested.value);
        match w.kind {
          case Destroy =>
            if max - supply < pay {
              assert Refuses(workers, budget, elapsed, max0 - supply, i);
              return false, left, vested, burnt, max;
            }
            max := max - pay;
          case Issuance => max := max + pay;
          case VestingPay => vested := vested + pay;
          case Burn => burnt := burnt + pay;
        }
        if !w.Special() { left := left - pay; }
      }
      i := i + 1;
    }
    BudgetIsPaidOut(workers, budget, elapsed, |workers|);
    ok := true;
  }

  /** What candidates are handed out. */
  function Handed(payouts: seq<Payout>): nat
  {
    if payouts == [] then 0 else Handed(payouts[..|payouts| - 1]) + payouts[|payouts| - 1].amount
  }

  function HandedTo(b: Balances, payouts: seq<Payout>): Balances
  {
    if payouts == [] then b
    else Credit(HandedTo(b, payouts[..|payouts| - 1]), payouts[|payouts| - 1].who, payouts[|payouts| - 1].amount)
  }

  lemma {:induction false} HandedTotal(b: Balances, payouts: seq<Payout>)
    ensures Total(HandedTo(b, payouts)) == Total(b) + Handed(payouts)
  {
    if payouts != [] {
      var n := |payouts| - 1;
      HandedTotal(b, payouts[..n]);
      CreditTotal(HandedTo(b, payouts[..n]), payouts[n].who, payouts[n].amount);
    }
  }

  function GivenTo(who: Account): Payout -> int { (p: Payout) => if p.who == who then p.amount else 0 }

  /** Every candidate gets their own payouts. */
  lemma {:induction false} HandedAt(b: Balances, payouts: seq<Payout>, who: Account)
    ensures At(HandedTo(b, payouts), who) == At(b, who) + Sum(GivenTo(who), payouts)
  {
    hide Credit, At;
    if payouts != [] {
      var n := |payouts| - 1;
      HandedAt(b, payouts[..n], who);
      CreditAt(HandedTo(b, payouts[..n]), payouts[n].who, payouts[n].amount, who);
    }
  }

  // ------------------------------------------------------------------- one period on values

  /** The supply after the new budgets flow out and fees and leftovers flow back. */
  function Next(supply: int, fees: nat, unused: int, b: Budgets, leftWorker: nat, leftCandidates: int): int
  {
    supply + b.Sum() - (leftWorker + fees + unused + leftCandidates)
  }

  /** What a budget period is decided by. */
  datatype Books = Books(supply: int, maxSupply: int, fees: nat, witnessBudget: int, lastBudgetTime: nat, record: Record,
                         incomplete: seq<Worker>, anyCompleted: bool)
  {
    function Reserve(): int { maxSupply - supply }

    function Funds(): int { Reserve() + fees + witnessBudget }

    function Budget(now: nat): Option<int> { TotalBudget(Reserve(), fees, witnessBudget, lastBudgetTime, now) }

    function Elapsed(now: nat): int { SettlementTime(incomplete, now) - lastBudgetTime }

    function Working(now: nat): seq<Worker> { Active(incomplete, now, FirstEnded(incomplete, now)) }

    function LeftWorker(now: nat): nat { Left(Working(now), record.Worker(), Elapsed(now), |Working(now)|) }

    function PaidTo(now: nat, kind: Kind): nat
    {
      if record.NoRecord? then 0 else Paid(Working(now), record.worker, Elapsed(now), |Working(now)|, kind)
    }

    /** Some worker's payment fails. */
    predicate Refused(now: nat) { !Payable(Working(now), record.Worker(), Elapsed(now), Reserve(), |Working(now)|) }

    /** The walk over the workers runs past its range. */
    predicate WalksOff(now: nat) { anyCompleted && FirstEnded(incomplete, now) < |incomplete| - 1 }

    function Ends(now: nat): Outcome
    {
      if Budget(now).None? then Thrown
      else if record.NoRecord? then Done
      else if WalksOff(now) then Undefined
      else if Refused(now) then Thrown
      else Done
    }

    /** The books one period later, `handed` being what the candidates got. */
    function After(p: Period, handed: nat): Books
      requires p.blockInterval > 0 && Budget(p.now).Some?
    {
      var b := SetAside(Budget(p.now).value, p);
      if record.NoRecord? then
        Books(Next(supply, fees, witnessBudget, b, 0, 0), maxSupply, 0, b.blocks, p.now, Record(b.worker, b.candidates), incomplete, anyCompleted)
      else
        Books(Next(supply, fees, witnessBudget, b, LeftWorker(p.now), record.candidates - handed),
              maxSupply + PaidTo(p.now, Issuance) - PaidTo(p.now, Destroy), 0, b.blocks, p.now, Record(b.worker, b.candidates),
              Remaining(incomplete, p.now), anyCompleted || FirstEnded(incomplete, p.now) < |incomplete|)
    }
  }

  /** The supply ends up within the maximum exactly when destroy workers take no more than was issued, came back, or was
      left out of the new budgets. */
  lemma WithinMaximum(books: Books, p: Period, handed: nat)
    requires p.blockInterval > 0 && books.Ends(p.now).Done? && books.record.Record?
    ensures var after, b := books.After(p, handed), SetAside(books.Budget(p.now).value, p);
            after.supply <= after.maxSupply <==>
            books.PaidTo(p.now, Destroy) <= books.PaidTo(p.now, Issuance) + books.LeftWorker(p.now) + (books.record.candidates - handed) + (books.Funds() - b.Sum())
  {
    hide Left, Paid, TotalBudget, SetAside, Active, Remaining, SettlementTime;
  }

  /** So a chain without destroy workers whose candidates stay within their budget never passes the maximum. */
  lemma MaximumIsKept(books: Books, p: Period, handed: nat)
    requires p.blockInterval > 0 && books.Ends(p.now).Done? && books.supply <= books.maxSupply && books.witnessBudget >= 0
    requires books.PaidTo(p.now, Destroy) == 0 && handed <= books.record.Candidates()
    ensures var after := books.After(p, handed);
            after.supply <= after.maxSupply && after.witnessBudget >= 0 && after.maxSupply >= books.maxSupply
  {
    hide Left, Paid, TotalBudget, SetAside, Active, Remaining, SettlementTime;
    BudgetWithinReserve(books.Reserve(), books.fees, books.witnessBudget, books.lastBudgetTime, p.now);
  }

  /** Past the maximum by more than fees and unused budget make good, nothing new is set aside; what is left of the old
      budgets flows back. */
  lemma Overdrawn(books: Books, p: Period, handed: nat)
    requires p.blockInterval > 0 && books.Ends(p.now).Done? && books.Funds() < 0 && 0 < books.lastBudgetTime < p.now
    ensures var after := books.After(p, handed);
            && after.witnessBudget == 0 && after.record == Record(0, 0)
            && (handed <= books.record.Candidates() && books.witnessBudget >= 0 ==> after.supply <= books.supply)
  {
    hide Left, Paid, Active, Remaining, SettlementTime;
    assert SetAside(0, p) == Budgets(0, 0, 0);
  }

  /** A destroy worker takes five from the maximum while a vesting worker is paid the old budget of five: the supply passes
      the maximum.  In the next period the reserve is negative, and the destroy worker makes it throw. */
  lemma DestroyedAndPaid()
    ensures var workers := [Worker(Destroy, 5, 0, 10 * DAY), Worker(VestingPay, 5, 0, 10 * DAY)];
            var books, p := Books(95, 100, 0, 0, DAY, Record(5, 0), workers, false), Period(2 * DAY, DAY, 1, 0, 5, 0);
            && books.Ends(p.now).Done?
            && books.After(p, 0) == Books(96, 95, 0, 0, 2 * DAY, Record(1, 0), workers, false)
            && books.After(p, 0).Ends(3 * DAY).Thrown?
  {
    var workers := [Worker(Destroy, 5, 0, 10 * DAY), Worker(VestingPay, 5, 0, 10 * DAY)];
    NoneEnded(workers, 2 * DAY);
    NoneEnded(workers, 3 * DAY);
    TwoWorkers(workers, 5);
    assert !Refuses(workers, 5, DAY, 5, 0) && !Refuses(workers, 5, DAY, 5, 1);
    assert Refuses(workers, 1, DAY, -1, 0) by { assert Left(workers, 1, DAY, 0) == 1; }
  }

  lemma TwoWorkers(workers: seq<Worker>, budget: nat)
    requires |workers| == 2 && workers[0].kind.Destroy? && workers[1].kind.VestingPay? && workers[0].dailyPay == workers[1].dailyPay == budget
    ensures Left(workers, budget, DAY, 0) == budget == Left(workers, budget, DAY, 1) && Left(workers, budget, DAY, 2) == 0
    ensures Paid(workers, budget, DAY, 2, Destroy) == budget && Paid(workers, budget, DAY, 2, Issuance) == 0
  {
    assert Paid(workers, budget, DAY, 1, Destroy) == budget && Paid(workers, budget, DAY, 1, Issuance) == 0;
  }

  lemma NoneEnded(workers: seq<Worker>, now: nat)
    requires |workers| == 2 && (forall w <- workers :: w.begin <= now < w.end)
    ensures FirstEnded(workers, now) == 2 && Active(workers, now, 2) == workers
  {
    EndsHere(workers, now, 2);
    assert Active(workers, now, 0) == [] && Active(workers, now, 1) == [workers[0]];
    assert Active(workers, now, 2) == [workers[0]] + [workers[1]] == workers;
  }

  /** Paid for a negative time, a special worker stops the payments, and so does any worker when there is a budget. */
  lemma BackwardsThrows(books: Books, now: nat)
    requires books.Elapsed(now) < 0 && forall w <- books.incomplete :: w.dailyPay > 0
    ensures books.Refused(now) <==> exists w <- books.Working(now) :: w.Special() || books.record.Worker() > 0
  {
    hide Active, SettlementTime, Paid;
    var workers, budget, elapsed := books.Working(now), books.record.Worker(), books.Elapsed(now);
    forall i | 0 <= i < |workers|
      ensures Refuses(workers, budget, elapsed, books.Reserve(), i) <==> workers[i].Special() || budget > 0
    {
      assert workers[i] in workers;
      NothingLeaves(workers, budget, elapsed, i);
    }
  }

  lemma {:induction false} NothingLeaves(workers: seq<Worker>, budget: nat, elapsed: int, i: nat)
    requires i <= |workers| && elapsed < 0
    ensures Left(workers, budget, elapsed, i) == budget
  {
    if i > 0 { NothingLeaves(workers, budget, elapsed, i - 1); }
  }

  /** Two workers end in one period, at 15 and 16, and only the first is completed.  The next period takes the end of the
      second for its settlement time, four before the last budget, and throws. */
  lemma PassedOverThrows()
    ensures var w, first, second := Worker(VestingPay, 5, 0, 100), Worker(Burn, 5, 0, 15), Worker(Burn, 5, 0, 16);
            var books, p := Books(50, 100, 0, 0, 10, Record(5, 0), [w, first, second], false), Period(20, 10, 1, 0, DAY, 0);
            && books.Ends(20).Done?
            && books.After(p, 0).incomplete == [w, second] && books.After(p, 0).Elapsed(30) == -4
            && books.After(p, 0).Ends(30).Thrown?
  {
    var w, first, second := Worker(VestingPay, 5, 0, 100), Worker(Burn, 5, 0, 15), Worker(Burn, 5, 0, 16);
    var books, p := Books(50, 100, 0, 0, 10, Record(5, 0), [w, first, second], false), Period(20, 10, 1, 0, DAY, 0);
    FirstPeriod(books, p);
    SecondPeriod(books.After(p, 0), 30);
  }

  lemma FirstPeriod(books: Books, p: Period)
    requires var w, first, second := Worker(VestingPay, 5, 0, 100), Worker(Burn, 5, 0, 15), Worker(Burn, 5, 0, 16);
             books == Books(50, 100, 0, 0, 10, Record(5, 0), [w, first, second], false) && p == Period(20, 10, 1, 0, DAY, 0)
    ensures books.Ends(20).Done?
    ensures books.After(p, 0) == Books(46, 100, 0, 0, 20, Record(1, 0), [books.incomplete[0], books.incomplete[2]], true)
  {
    hide Active;
    EndsHere(books.incomplete, 20, 1);
    OneAtWork(books.incomplete, 20);
    var w := books.incomplete[0];
    assert books.Working(20) == [w];
    assert !Refuses([w], 5, 5, 50, 0);
    assert Remaining(books.incomplete, 20) == [w, books.incomplete[2]];
    assert Left([w], 5, 5, 0) == 5 && Left([w], 5, 5, 1) == 5;
    NotOfKind([w], 5, 5, Issuance);
    NotOfKind([w], 5, 5, Destroy);
  }

  lemma NotOfKind(workers: seq<Worker>, budget: nat, elapsed: int, kind: Kind)
    requires |workers| == 1 && workers[0].kind != kind
    ensures Paid(workers, budget, elapsed, 1, kind) == 0
  {
    assert Paid(workers, budget, elapsed, 0, kind) == 0;
  }

  lemma SecondPeriod(books: Books, now: nat)
    requires |books.incomplete| == 2 && books.incomplete[0] == Worker(VestingPay, 5, 0, 100) && books.incomplete[1] == Worker(Burn, 5, 0, 16)
    requires books.record.Record? && books.record.worker > 0 && books.lastBudgetTime == 20 && now == 30 && books.anyCompleted
    ensures books.Elapsed(now) == -4 && books.Ends(now).Thrown?
  {
    hide Active, TotalBudget, Payable;
    EndsHere(books.incomplete, now, 1);
    OneAtWork(books.incomplete, now);
    BackwardsThrows(books, now);
    assert books.incomplete[0] in books.Working(now);
  }

  lemma OneAtWork(workers: seq<Worker>, now: nat)
    requires |workers| > 1 && FirstEnded(workers, now) == 1 && workers[0].begin <= now
    ensures Active(workers, now, 1) == [workers[0]]
  {
    assert Active(workers, now, 0) == [];
  }

  // ------------------------------------------------------------------------ the ledger

  class CoreLedger {
    var supply: int
    var maxSupply: int
    var balances: Balances
    /** Vesting balances, and everything on offer. */
    var vested: int
    var fees: nat
    var witnessBudget: int
    var lastBudgetTime: nat
    var record: Record
    /** Workers not yet completed, as the index orders them, and whether there are others. */
    var incomplete: seq<Worker>
    var anyCompleted: bool

    ghost function View(): Books
      reads this
    {
      Books(supply, maxSupply, fees, witnessBudget, lastBudgetTime, record, incomplete, anyCompleted)
    }

    ghost function Holdings(): int
      reads this
    {
      Total(balances) + vested
    }

    /** Every unit of the supply is held, collected as a fee, or set aside in a budget; workers are as they were accepted. */
    ghost predicate Valid()
      reads this
    {
      && supply == Holdings() + fees + witnessBudget + record.Worker() + record.Candidates()
      && forall w <- incomplete :: w.dailyPay > 0 && w.begin < w.end
    }

    constructor (supply: int, maxSupply: int, balances: Balances)
      requires supply == Total(balances)
      ensures Valid() && View() == Books(supply, maxSupply, 0, 0, 0, NoRecord, [], false)
      ensures this.balances == balances && vested == 0
    {
      this.supply, this.maxSupply, this.balances, vested := supply, maxSupply, balances, 0;
      fees, witnessBudget, lastBudgetTime, record, incomplete, anyCompleted := 0, 0, 0, NoRecord, [], false;
    }

    /** A fee in the core asset: the payer is debited, account_object::pay_fee collects. */
    method PayFee(who: Account, amount: nat) returns (ok: bool)
      requires Valid()
      modifies this`balances, this`fees
      ensures Valid() && ok == (amount <= old(At(balances, who)))
      ensures ok ==> fees == old(fees) + amount && balances == Debit(old(balances), who, amount)
      ensures !ok ==> fees == old(fees) && balances == old(balances)
    {
      ok := amount <= At(balances, who);
      if ok {
        DebitTotal(balances, who, amount);
        balances, fees := Debit(balances, who, amount), fees + amount;
      }
    }

    /** update_signing_witness: the pay for one block, as long as the budget lasts. */
    method PayWitness(payPerBlock: nat) returns (pay: int)
      requires Valid()
      modifies this`witnessBudget, this`vested
      ensures Valid() && pay == Min(payPerBlock, old(witnessBudget))
      ensures witnessBudget == old(witnessBudget) - pay && vested == old(vested) + pay
    {
      pay := Min(payPerBlock, witnessBudget);
      witnessBudget, vested := witnessBudget - pay, vested + pay;
    }

    /** worker_create_evaluator: a new worker comes last. */
    method AddWorker(w: Worker, now: nat) returns (ok: bool)
      requires Valid()
      modifies this`incomplete
      ensures Valid() && ok == (now <= w.begin < w.end && 0 < w.dailyPay < MAX_SHARES)
      ensures incomplete == if ok then old(incomplete) + [w] else old(incomplete)
    {
      ok := now <= w.begin < w.end && 0 < w.dailyPay < MAX_SHARES;
      if ok { incomplete := incomplete + [w]; }
    }

    /** pay_workers, then pay_candidates with whatever `payouts` it hands out. */
    method PayOut(now: nat, payouts: seq<Payout>) returns (r: Outcome, leftWorker: nat, leftCandidates: int)
      requires Valid() && record.Record?
      modifies this`balances, this`vested, this`maxSupply, this`incomplete, this`anyCompleted
      ensures r == old(if View().WalksOff(now) then Undefined else if View().Refused(now) then Thrown else Done)
      ensures !r.Done? ==> View() == old(View()) && balances == old(balances) && vested == old(vested)
      ensures r.Done? ==> leftWorker == old(View().LeftWorker(now)) && leftCandidates == record.candidates - Handed(payouts)
      ensures r.Done? ==> maxSupply == old(maxSupply + View().PaidTo(now, Issuance) - View().PaidTo(now, Destroy))
      ensures r.Done? ==> vested == old(vested + View().PaidTo(now, VestingPay))
      ensures r.Done? ==> balances == HandedTo(Credit(old(balances), NULL_ACCOUNT, old(View().PaidTo(now, Burn))), payouts)
      ensures r.Done? ==> incomplete == Remaining(old(incomplete), now) && forall w <- incomplete :: w.dailyPay > 0 && w.begin < w.end
      ensures r.Done? ==> anyCompleted == old(anyCompleted || FirstEnded(incomplete, now) < |incomplete|)
      ensures r.Done? ==> Holdings() + leftWorker + leftCandidates == old(Holdings() + record.Worker() + record.Candidates())
    {
      hide Left, Paid, Active, Remaining, SettlementTime, Payable, FirstEnded, Total, Credit, Handed, HandedTo;
      leftWorker, leftCandidates := 0, 0;
      var defined, active, settled, left, completes := SelectWorkers(incomplete, anyCompleted, now);
      if !defined { return Undefined, 0, 0; }
      var ok, unspent, vestedNow, burnt, max := PayWorkers(active, record.worker, settled - lastBudgetTime, supply, maxSupply);
      if !ok { return Thrown, 0, 0; }
      leftWorker, leftCandidates := unspent, record.candidates - Handed(payouts);
      CreditTotal(balances, NULL_ACCOUNT, burnt);
      HandedTotal(Credit(balances, NULL_ACCOUNT, burnt), payouts);
      vested, balances := vested + vestedNow, HandedTo(Credit(balances, NULL_ACCOUNT, burnt), payouts);
      RemainingAreWorkers(incomplete, now);
      maxSupply, incomplete, anyCompleted := max, left, anyCompleted || completes;
      r := Done;
    }

    /** process_budget */
    method ProcessBudget(p: Period, payouts: seq<Payout>) returns (r: Outcome)
      requires Valid() && p.blockInterval > 0
      modifies this
      ensures Valid() && r == old(View()).Ends(p.now)
      ensures r.Thrown? ==> View() == old(View()) && balances == old(balances) && vested == old(vested)
      ensures r.Done? ==> View() == old(View()).After(p, Handed(payouts))
      ensures r.Done? ==> vested == old(vested) + old(View()).PaidTo(p.now, VestingPay)
      ensures r.Done? && old(record.NoRecord?) ==> balances == old(balances)
      ensures r.Done? && old(record.Record?) ==>
                balances == HandedTo(Credit(old(balances), NULL_ACCOUNT, old(View()).PaidTo(p.now, Burn)), payouts)
    {
      hide TotalBudget, SetAside, Left, Paid, Active, Remaining, SettlementTime, Payable, FirstEnded, Total, Credit, Handed, HandedTo, Books.Working, Books.Elapsed;
      var total := TotalBudget(maxSupply - supply, fees, witnessBudget, lastBudgetTime, p.now);
      if total.None? { return Thrown; }
      var b := SetAside(total.value, p);
      var leftWorker, leftCandidates := 0, 0;
      if record.Record? {
        r, leftWorker, leftCandidates := PayOut(p.now, payouts);
        if !r.Done? { return; }
      }
      supply := Next(supply, fees, witnessBudget, b, leftWorker, leftCandidates);
      fees, witnessBudget, lastBudgetTime, record := 0, b.blocks, p.now, Record(b.worker, b.candidates);
      r := Done;
    }
  }

  lemma RemainingAreWorkers(workers: seq<Worker>, now: nat)
    ensures forall w <- Remaining(workers, now) :: w in workers
  {
  }
}
