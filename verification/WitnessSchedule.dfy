/**
 When blocks are due and who makes them (libraries/chain/db_witness_schedule.cpp,
 libraries/chain/db_update.cpp, libraries/chain/db_block.cpp).
 */
module WitnessSchedules {
  import opened Money

  type Witness = nat

  /** The part of the head state that slots depend on. Times are in seconds. */
  datatype Head = Head(num: nat, time: nat, aslot: nat, maintenance: bool, interval: nat, skipSlots: nat)

  // ------------------------------------------------------------------------ slots

  /** get_slot_time */
  function SlotTime(h: Head, slot: nat): nat
    requires h.interval > 0
  {
    if slot == 0 then 0
    else if h.num == 0 then h.time + slot * h.interval
    else h.time / h.interval * h.interval + (slot + if h.maintenance then h.skipSlots else 0) * h.interval
  }

  /** get_slot_at_time */
  function SlotAt(h: Head, when: nat): nat
    requires h.interval > 0
  {
    if when < SlotTime(h, 1) then 0 else (when - SlotTime(h, 1)) / h.interval + 1
  }

  /** Slots are one interval apart. */
  lemma SlotsAreEven(h: Head, k: nat)
    requires h.interval > 0
    ensures SlotTime(h, k + 1) == SlotTime(h, 1) + k * h.interval
  {
    var skip := if h.maintenance then h.skipSlots else 0;
    assert (k + 1) * h.interval == k * h.interval + 1 * h.interval;
    assert (k + 1 + skip) * h.interval == k * h.interval + (1 + skip) * h.interval;
  }

  /** The slot at a time is the last one that has begun. */
  lemma SlotAtIsLast(h: Head, when: nat, k: nat)
    requires h.interval > 0 && k > 0
    ensures SlotTime(h, k) <= when <==> k <= SlotAt(h, when)
  {
    hide SlotTime;
    SlotsAreEven(h, k - 1);
    if when >= SlotTime(h, 1) { FloorIsGreatest(when - SlotTime(h, 1), h.interval, k - 1); }
  }

  /** The first slot after a block begins at the next multiple of the interval, or after a maintenance block as many intervals
      later as are skipped; slot zero stands for no time at all. */
  lemma FirstSlot(h: Head)
    requires h.interval > 0 && h.num > 0
    ensures var skipped := if h.maintenance then h.skipSlots * h.interval else 0;
            var start := SlotTime(h, 1) - skipped;
            start % h.interval == 0 && h.time < start <= h.time + h.interval && SlotTime(h, 0) == 0
  {
    var i, q := h.interval, h.time / h.interval;
    var skip := if h.maintenance then h.skipSlots else 0;
    FloorBounds(h.time, i);
    assert (1 + skip) * i == i + skip * i;
    assert q * i + i == (q + 1) * i;
    MultipleOf(q + 1, i);
  }

  lemma MultipleOf(q: nat, i: nat)
    requires i > 0
    ensures q * i % i == 0
  {
    FloorBounds(q * i, i);
    FloorIsGreatest(q * i, i, q);
    MulMonotone(i, q, q * i / i);
  }

  // --------------------------------------------------------------------- new heads

  /** update_global_dynamic_data: the head after a block at `time`, with the slots it took. */
  function Next(h: Head, time: nat, maintenance: bool): Head
    requires h.interval > 0
  {
    h.(num := h.num + 1, time := time, aslot := h.aslot + SlotAt(h, time), maintenance := maintenance)
  }

  /** Slots are counted from multiples of the interval; the first block is counted from the time of genesis. */
  predicate Aligned(h: Head)
    requires h.interval > 0
  {
    h.num > 0 || h.time % h.interval == 0
  }

  /** After a block at slot s that is no maintenance block, slot k is the old slot s + k. */
  lemma SlotsCarryOver(h: Head, time: nat, k: nat)
    requires h.interval > 0 && Aligned(h) && SlotAt(h, time) > 0 && k > 0
    ensures SlotTime(Next(h, time, false), k) == SlotTime(h, SlotAt(h, time) + k)
  {
    var s := SlotAt(h, time);
    StartOfSlot(h, time);
    SlotsAreEven(h, s - 1);
    SlotsAreEven(h, s + k - 1);
    SlotsAreEven(Next(h, time, false), k - 1);
    assert (s + k - 1) * h.interval == (s - 1) * h.interval + k * h.interval;
    assert (1 + k - 1) * h.interval == 1 * h.interval + (k - 1) * h.interval;
  }

  /** Rounded down to the interval, a block's time is the start of its slot. */
  lemma StartOfSlot(h: Head, time: nat)
    requires h.interval > 0 && Aligned(h) && SlotAt(h, time) > 0
    ensures time / h.interval * h.interval == SlotTime(h, SlotAt(h, time))
  {
    var i, s := h.interval, SlotAt(h, time);
    SlotAtIsLast(h, time, s);
    SlotAtIsLast(h, time, s + 1);
    SlotsAreEven(h, s - 1);
    SlotsAreEven(h, s);
    assert s * i == (s - 1) * i + i;
    var q := Multiple(h, s);
    Between(time, i, q);
  }

  /** The start of a slot is a multiple of the interval. */
  lemma Multiple(h: Head, s: nat) returns (q: nat)
    requires h.interval > 0 && Aligned(h) && s > 0
    ensures SlotTime(h, s) == q * h.interval
  {
    var i := h.interval;
    if h.num == 0 {
      q := h.time / i + s;
      assert h.time == h.time / i * i;
      assert (h.time / i + s) * i == h.time / i * i + s * i;
    } else {
      var skip := if h.maintenance then h.skipSlots else 0;
      q := h.time / i + (s + skip);
      assert (h.time / i + (s + skip)) * i == h.time / i * i + (s + skip) * i;
    }
  }

  lemma Between(t: nat, i: nat, q: nat)
    requires i > 0 && q * i <= t < q * i + i
    ensures t / i == q && t / i * i == q * i
  {
    FloorIsGreatest(t, i, q);
    FloorIsGreatest(t, i, q + 1);
    assert i * (q + 1) == q * i + i;
  }

  /** From a genesis time off the interval's grid, the first block shifts every later slot: carrying over needs the grid. */
  lemma OffGridShifts(h: Head, time: nat, k: nat)
    requires h.interval > 0 && h.num == 0 && SlotAt(h, time) > 0 && k > 0
    ensures SlotTime(Next(h, time, false), k) == SlotTime(h, SlotAt(h, time) + k) <==> h.time % h.interval == 0
  {
    if h.time % h.interval == 0 {
      SlotsCarryOver(h, time, k);
    } else {
      var i, s := h.interval, SlotAt(h, time);
      assert SlotTime(Next(h, time, false), k) == (time / i + k) * i by {
        assert (time / i + k) * i == time / i * i + k * i;
      }
      OffGrid(h.time, i, s + k, time / i + k);
    }
  }

  lemma OffGrid(t: nat, i: nat, a: nat, b: nat)
    requires i > 0 && t % i != 0
    ensures t + a * i != b * i
  {
    if t + a * i == b * i {
      assert t == (b - a) * i;
      if b <= a { MulMonotone(i, b, a); }
      ModOfMultiple(b - a, i);
    }
  }

  lemma ModOfMultiple(q: int, i: nat)
    requires i > 0 && q >= 0
    ensures (q * i) % i == 0
  {
    Between(q * i, i, q);
  }

  // ---------------------------------------------------------------------- the turns

  /** get_scheduled_witness */
  function Scheduled(shuffled: seq<Witness>, aslot: nat, slot: nat): Witness
    requires shuffled != []
  {
    shuffled[(aslot + slot) % |shuffled|]
  }

  /** Slots carry their witness over as well. */
  lemma TurnsCarryOver(shuffled: seq<Witness>, h: Head, time: nat, k: nat)
    requires shuffled != [] && h.interval > 0
    ensures Scheduled(shuffled, Next(h, time, false).aslot, k) == Scheduled(shuffled, h.aslot, SlotAt(h, time) + k)
  {
    assert h.aslot + SlotAt(h, time) + k == h.aslot + (SlotAt(h, time) + k);
  }

  lemma ModStep(a: nat, k: nat, n: nat)
    requires n > 0 && k < n
    ensures (a + k) % n == if a % n + k < n then a % n + k else a % n + k - n
  {
    var q, m := a / n, a % n;
    if m + k < n { Remainder(a + k, n, q, m + k); } else { Remainder(a + k, n, q + 1, m + k - n); }
  }

  lemma Remainder(t: nat, n: nat, q: nat, r: nat)
    requires r < n && t == q * n + r
    ensures t % n == r
  {
    Between(t, n, q);
  }

  /** In any n consecutive slots each of n different witnesses has exactly one turn. */
  lemma OneTurnEach(shuffled: seq<Witness>, aslot: nat, from: nat, w: Witness) returns (k: nat)
    requires w in shuffled && forall i, j | 0 <= i < j < |shuffled| :: shuffled[i] != shuffled[j]
    ensures from <= k < from + |shuffled| && Scheduled(shuffled, aslot, k) == w
    ensures forall j | from <= j < from + |shuffled| && j != k :: Scheduled(shuffled, aslot, j) != w
  {
    var n, a := |shuffled|, aslot + from;
    var r :| 0 <= r < n && shuffled[r] == w;
    var d := if r >= a % n then r - a % n else r - a % n + n;
    k := from + d;
    ModStep(a, d, n);
    assert aslot + k == a + d;
    forall j | from <= j < from + n && j != k ensures Scheduled(shuffled, aslot, j) != w {
      ModStep(a, j - from, n);
      assert aslot + j == a + (j - from);
    }
  }

  // -------------------------------------------------------------------- the shuffle

  const MULTIPLIER: bv64 := 2685821657736338717

  /** The generator behind the shuffle. */
  function Mixed(time: bv64, i: bv64): bv64
  {
    var k := (time << 32) + i * MULTIPLIER;
    var k1 := k ^ (k >> 12);
    var k2 := k1 ^ (k1 << 25);
    var k3 := k2 ^ (k2 >> 27);
    k3 * MULTIPLIER
  }

  /** Two of its values. */
  lemma MixedValues()
    ensures Mixed(1, 0) == 4396774442519208864 && Mixed(1_600_000_000, 3) == 11357507626352857819
  {
  }

  /** Where the element at `i` goes: somewhere in the rest. */
  function Target(time: bv64, i: nat, n: nat): (j: nat)
    requires i < n < 0x1_0000_0000
    ensures i <= j < n
  {
    i + Mixed(time, i as bv64) as int % (n - i)
  }

  function Swapped(s: seq<Witness>, i: nat, j: nat): (r: seq<Witness>)
    requires i < |s| && j < |s|
  {
    s[i := s[j]][j := s[i]]
  }

  /** The order after the first `k` swaps. */
  function Shuffled(s: seq<Witness>, time: bv64, k: nat): (r: seq<Witness>)
    requires k <= |s| < 0x1_0000_0000
    ensures |r| == |s|
  {
    if k == 0 then s else Swapped(Shuffled(s, time, k - 1), k - 1, Target(time, k - 1, |s|))
  }

  /** Whatever the generator yields, nobody is lost or repeated. */
  lemma {:induction false} ShuffleIsPermutation(s: seq<Witness>, time: bv64, k: nat)
    requires k <= |s| < 0x1_0000_0000
    ensures multiset(Shuffled(s, time, k)) == multiset(s)
  {
    hide Target, Swapped;
    if k > 0 {
      ShuffleIsPermutation(s, time, k - 1);
      SwapIsPermutation(Shuffled(s, time, k - 1), k - 1, Target(time, k - 1, |s|));
    }
  }

  lemma SwapIsPermutation(s: seq<Witness>, i: nat, j: nat)
    requires i < |s| && j < |s|
    ensures multiset(Swapped(s, i, j)) == multiset(s)
  {
  }

  /** The swaps of update_witness_schedule, in place. */
  method Shuffle(a: array<Witness>, time: bv64)
    requires a.Length < 0x1_0000_0000
    modifies a
    ensures a[..] == Shuffled(old(a[..]), time, a.Length)
  {
    hide Target;
    for i := 0 to a.Length
      invariant a[..] == Shuffled(old(a[..]), time, i)
    {
      var j := Target(time, i, a.Length);
      a[i], a[j] := a[j], a[i];
      assert a[..] == Swapped(Shuffled(old(a[..]), time, i), i, j);
    }
  }

  /** update_witness_schedule: a new order once every round of blocks. */
  method UpdateSchedule(headNum: nat, time: bv64, active: seq<Witness>, shuffled: seq<Witness>) returns (r: seq<Witness>)
    requires 0 < |active| < 0x1_0000_0000
    ensures headNum % |active| != 0 ==> r == shuffled
    ensures headNum % |active| == 0 ==> r == Shuffled(active, time, |active|) && multiset(r) == multiset(active)
  {
    if headNum % |active| != 0 { return shuffled; }
    var a := new Witness[|active|](i requires 0 <= i < |active| => active[i]);
    assert a[..] == active;
    Shuffle(a, time);
    r := a[..];
    ShuffleIsPermutation(active, time, |active|);
  }

  /** A new order still names every active witness, once. */
  lemma ShuffledIsDistinct(active: seq<Witness>, shuffled: seq<Witness>)
    requires multiset(shuffled) == multiset(active) && forall i, j | 0 <= i < j < |active| :: active[i] != active[j]
    ensures |shuffled| == |active| && (forall w :: w in shuffled <==> w in active)
    ensures forall i, j | 0 <= i < j < |shuffled| :: shuffled[i] != shuffled[j]
  {
    assert |multiset(shuffled)| == |multiset(active)|;
    forall w ensures w in shuffled <==> w in active { assert w in multiset(shuffled) <==> w in multiset(active); }
    forall i, j | 0 <= i < j < |shuffled| ensures shuffled[i] != shuffled[j] {
      if shuffled[i] == shuffled[j] { TwiceIsTwo(shuffled, i, j); OnceIsOne(active, shuffled[i]); }
    }
  }

  lemma TwiceIsTwo(s: seq<Witness>, i: nat, j: nat)
    requires i < j < |s| && s[i] == s[j]
    ensures multiset(s)[s[i]] >= 2
  {
    assert s == s[..j] + [s[j]] + s[j + 1..];
    assert s[i] == s[..j][i];
    assert s[i] in multiset(s[..j]);
  }

  lemma {:induction false} OnceIsOne(s: seq<Witness>, w: Witness)
    requires forall i, j | 0 <= i < j < |s| :: s[i] != s[j]
    ensures multiset(s)[w] <= 1
  {
    if s != [] {
      var front := s[..|s| - 1];
      OnceIsOne(front, w);
      assert s == front + [s[|s| - 1]];
      if s[|s| - 1] == w { assert w !in front; }
    }
  }
}
