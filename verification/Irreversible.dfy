/**
 The last irreversible block: the greatest number that enough active witnesses have confirmed
 (libraries/chain/db_update.cpp).
 */
module Irreversible {
  import opened Money
  import opened WitnessSchedules

  const THRESHOLD: nat := 7_000

  /** How many may lag behind. */
  function Offset(n: nat): (k: nat)
    ensures n > 0 ==> k < n
  {
    (FULL_PERCENT - THRESHOLD) * n / FULL_PERCENT
  }

  /** Those who remain are at least the threshold share. */
  lemma EnoughRemain(n: nat)
    ensures (n - Offset(n)) * FULL_PERCENT >= THRESHOLD * n
    ensures n > 0 ==> (n - Offset(n) - 1) * FULL_PERCENT < THRESHOLD * n
  {
  }

  // --------------------------------------------------------------------- counting

  /** How many have confirmed a block numbered `least` or more. */
  function Confirmers(confirmed: seq<nat>, least: nat): (n: nat)
    ensures n <= |confirmed|
  {
    if confirmed == [] then 0
    else Confirmers(confirmed[..|confirmed| - 1], least) + if confirmed[|confirmed| - 1] >= least then 1 else 0
  }

  lemma {:induction false} FewerAbove(confirmed: seq<nat>, least: nat, more: nat)
    requires least <= more
    ensures Confirmers(confirmed, more) <= Confirmers(confirmed, least)
  {
    if confirmed != [] { FewerAbove(confirmed[..|confirmed| - 1], least, more); }
  }

  /** The place an element has after partitioning by nth_element. */
  ghost predicate IsNth(confirmed: seq<nat>, k: nat, v: nat)
  {
    v in confirmed && Confirmers(confirmed, v) >= |confirmed| - k && Confirmers(confirmed, v + 1) < |confirmed| - k
  }

  // -------------------------------------------------------------- selection in place

  /** Everything before `k` is at most a[k], everything after it is at least a[k]. */
  ghost predicate Partitioned(s: seq<nat>, k: nat)
    requires k < |s|
  {
    (forall i | 0 <= i < k :: s[i] <= s[k]) && forall i | k < i < |s| :: s[k] <= s[i]
  }

  lemma {:induction false} CountParts(s: seq<nat>, t: seq<nat>, least: nat)
    ensures Confirmers(s + t, least) == Confirmers(s, least) + Confirmers(t, least)
  {
    if t == [] {
      assert s + t == s;
    } else {
      assert (s + t)[..|s + t| - 1] == s + t[..|t| - 1];
      CountParts(s, t[..|t| - 1], least);
    }
  }

  lemma {:induction false} CountAll(s: seq<nat>, least: nat)
    ensures (forall i | 0 <= i < |s| :: s[i] >= least) ==> Confirmers(s, least) == |s|
    ensures (forall i | 0 <= i < |s| :: s[i] < least) ==> Confirmers(s, least) == 0
  {
    if s != [] { CountAll(s[..|s| - 1], least); }
  }

  /** The partitioned element is the one the count asks for. */
  lemma PartitionedIsNth(s: seq<nat>, k: nat)
    requires k < |s| && Partitioned(s, k)
    ensures IsNth(s, k, s[k])
  {
    hide Confirmers;
    assert s == s[..k] + s[k..] && s == s[..k + 1] + s[k + 1..];
    CountParts(s[..k], s[k..], s[k]);
    CountAll(s[k..], s[k]);
    CountParts(s[..k + 1], s[k + 1..], s[k] + 1);
    CountAll(s[..k + 1], s[k] + 1);
  }

  /** Counting does not depend on the order. */
  lemma {:induction false} CountOfPermutation(s: seq<nat>, t: seq<nat>, least: nat)
    requires multiset(s) == multiset(t)
    ensures Confirmers(s, least) == Confirmers(t, least)
    decreases |s|
  {
    if s == [] {
      assert |multiset(t)| == 0;
    } else {
      var x := s[|s| - 1];
      assert s == s[..|s| - 1] + [x];
      assert x in multiset(t);
      var i :| 0 <= i < |t| && t[i] == x;
      var u := t[..i] + t[i + 1..];
      assert t == t[..i] + [x] + t[i + 1..];
      assert multiset(u) == multiset(t) - multiset{x} == multiset(s[..|s| - 1]);
      CountOfPermutation(s[..|s| - 1], u, least);
      CountParts(t[..i] + [x], t[i + 1..], least);
      CountParts(t[..i], [x], least);
      CountParts(t[..i], t[i + 1..], least);
    }
  }

  // ------------------------------------------------------------------------ the rule

  /** The greatest number that all but `Offset` witnesses have confirmed. */
  lemma NthIsGreatest(confirmed: seq<nat>, v: nat, least: nat)
    requires confirmed != [] && IsNth(confirmed, Offset(|confirmed|), v)
    ensures Confirmers(confirmed, least) >= |confirmed| - Offset(|confirmed|) <==> least <= v
  {
    if least <= v { FewerAbove(confirmed, least, v); } else { FewerAbove(confirmed, v + 1, least); }
  }

  /** What nth_element promises: the same elements, partitioned at `k`. */
  method NthElement(a: array<nat>, k: nat)
    requires k < a.Length
    modifies a
    ensures multiset(a[..]) == multiset(old(a[..])) && Partitioned(a[..], k)
  {
    hide Swapped, Leading, Partitioned;
    NoneLead(a[..]);
    for i := 0 to k + 1
      invariant multiset(a[..]) == multiset(old(a[..])) && Leading(a[..], i)
    {
      ghost var before := a[..];
      var least := LeastFrom(a, i);
      a[i], a[least] := a[least], a[i];
      IsSwapped(before, a[..], i, least);
      LeadsOn(before, i, least);
      SwapIsPermutation(before, i, least);
    }
    LeadingIsPartitioned(a[..], k);
  }

  /** The first `i` elements are in order and none of the others is smaller. */
  ghost predicate Leading(s: seq<nat>, i: nat)
    requires i <= |s|
  {
    forall x, y | 0 <= x < i && x <= y < |s| :: s[x] <= s[y]
  }

  lemma NoneLead(s: seq<nat>)
    ensures Leading(s, 0)
  {
  }

  lemma IsSwapped(s: seq<nat>, t: seq<nat>, i: nat, j: nat)
    requires i < |s| == |t| && j < |s| && t[i] == s[j] && t[j] == s[i]
    requires forall x | 0 <= x < |s| && x != i && x != j :: t[x] == s[x]
    ensures t == Swapped(s, i, j)
  {
  }

  lemma LeadsOn(s: seq<nat>, i: nat, least: nat)
    requires i <= least < |s| && Leading(s, i) && forall y | i <= y < |s| :: s[least] <= s[y]
    ensures Leading(Swapped(s, i, least), i + 1)
  {
  }

  lemma LeadingIsPartitioned(s: seq<nat>, k: nat)
    requires k < |s| && Leading(s, k + 1)
    ensures Partitioned(s, k)
  {
  }

  method LeastFrom(a: array<nat>, from: nat) returns (m: nat)
    requires from < a.Length
    ensures from <= m < a.Length && forall y | from <= y < a.Length :: a[m] <= a[y]
  {
    m := from;
    for j := from + 1 to a.Length
      invariant from <= m < a.Length && forall y | from <= y < j :: a[m] <= a[y]
    {
      if a[j] < a[m] { m := j; }
    }
  }

  /** update_last_irreversible_block: it never goes back, and above its old value it is the greatest number confirmed by
      the threshold share. */
  method Update(confirmed: seq<nat>, lib: nat) returns (r: nat)
    requires confirmed != []
    ensures r >= lib
    ensures forall least :: least > lib ==> (least <= r <==> Confirmers(confirmed, least) >= |confirmed| - Offset(|confirmed|))
    ensures r > lib ==> r in confirmed && Confirmers(confirmed, r) * FULL_PERCENT >= THRESHOLD * |confirmed|
  {
    var a := new nat[|confirmed|](i requires 0 <= i < |confirmed| => confirmed[i]);
    assert a[..] == confirmed;
    var k := Offset(a.Length);
    NthElement(a, k);
    var v := a[k];
    Selected(confirmed, a[..], k);
    EnoughRemain(|confirmed|);
    r := if v > lib then v else lib;
  }

  lemma Selected(confirmed: seq<nat>, arranged: seq<nat>, k: nat)
    requires confirmed != [] && multiset(arranged) == multiset(confirmed) && |arranged| == |confirmed|
    requires k == Offset(|confirmed|) && Partitioned(arranged, k)
    ensures arranged[k] in confirmed
    ensures forall least: nat :: least <= arranged[k] <==> Confirmers(confirmed, least) >= |confirmed| - k
  {
    var v := arranged[k];
    PartitionedIsNth(arranged, k);
    CountOfPermutation(arranged, confirmed, v);
    CountOfPermutation(arranged, confirmed, v + 1);
    assert v in multiset(arranged);
    forall least: nat ensures least <= v <==> Confirmers(confirmed, least) >= |confirmed| - k { NthIsGreatest(confirmed, v, least); }
  }

  // -------------------------------------------------------------------------- a chain

  /** The number of the last block each active witness signed. */
  function Confirmed(active: seq<Witness>, lastSigned: map<Witness, nat>): (c: seq<nat>)
    ensures |c| == |active| && forall i | 0 <= i < |c| :: c[i] == if active[i] in lastSigned then lastSigned[active[i]] else 0
  {
    seq(|active|, i requires 0 <= i < |active| => if active[i] in lastSigned then lastSigned[active[i]] else 0)
  }

  /** A chain as far as finality goes: who is active, the last block each witness signed, and the last irreversible block. */
  class Finality {
    var active: seq<Witness>
    var lastSigned: map<Witness, nat>
    var head: nat
    var lib: nat

    ghost predicate Valid()
      reads this
    {
      active != [] && lib <= head && forall w <- lastSigned :: lastSigned[w] <= head
    }

    constructor (active: seq<Witness>)
      requires active != []
      ensures Valid() && this.active == active && head == 0 == lib
    {
      this.active, lastSigned, head, lib := active, map[], 0, 0;
    }

    /** A block signed by `signer`: update_signing_witness and update_last_irreversible_block. */
    method Apply(signer: Witness)
      requires Valid()
      modifies this
      ensures Valid() && active == old(active) && head == old(head) + 1 && lastSigned == old(lastSigned)[signer := head]
      ensures old(lib) <= lib <= head
      ensures lib > old(lib) ==> Confirmers(Confirmed(active, lastSigned), lib) * FULL_PERCENT >= THRESHOLD * |active|
      ensures forall least :: least > old(lib) ==> (least <= lib <==> Confirmers(Confirmed(active, lastSigned), least) >= |active| - Offset(|active|))
    {
      head := head + 1;
      lastSigned := lastSigned[signer := head];
      lib := Update(Confirmed(active, lastSigned), lib);
    }

    /** Maintenance elects others. */
    method Elect(elected: seq<Witness>)
      requires Valid() && elected != []
      modifies this`active
      ensures Valid() && active == elected
    {
      active := elected;
    }
  }
}
