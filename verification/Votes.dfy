/**
 Votes for witnesses and committee members, weighted by stake that the voter locks
 (libraries/chain/account_evaluator.cpp, libraries/chain/db_balance.cpp).
 */
module Votes {
  import opened Sums
  import opened Money

  /** Votes of the third kind are for nobody, and no stake is locked for them. */
  datatype Kind = Committee | Witness | Noone

  datatype VoteId = VoteId(kind: Kind, instance: nat)

  datatype Lock = Unlocked | Locked(amount: nat)
  {
    function Amount(): nat { if Unlocked? then 0 else amount }
  }

  /** An account: its balance, what it has locked for other reasons, its lock for each kind of vote, and its votes. */
  datatype Voter = Voter(balance: int, other: nat, committee: Lock, witnesses: Lock, votes: set<VoteId>)
  {
    function For(kind: Kind): Lock { if kind.Committee? then committee else if kind.Witness? then witnesses else Unlocked }

    function With(kind: Kind, lock: Lock): Voter
      requires !kind.Noone?
    {
      if kind.Committee? then this.(committee := lock) else this.(witnesses := lock)
    }

    /** locked_total for the core asset */
    function LockedTotal(): int { other + committee.Amount() + witnesses.Amount() }

    /** The balance covers every lock, and no lock is empty. */
    ghost predicate Valid()
    {
      && 0 <= LockedTotal() <= balance
      && forall kind :: For(kind).Locked? ==> For(kind).amount > 0
    }

    /** Every vote is backed: there are no votes of a kind nothing is locked for. */
    ghost predicate Backed() { forall v <- votes :: For(v.kind).Locked? }
  }

  /** A candidate: its own freeze, and all votes with it. */
  datatype Candidate = Candidate(freeze: nat, total: int)

  /** What an account adds to a candidate. */
  function Weight(a: Voter, v: VoteId): nat { if v in a.votes then a.For(v.kind).Amount() else 0 }

  function Support(accounts: map<Account, Voter>, v: VoteId): map<Account, int>
  {
    map a | a in accounts :: Weight(accounts[a], v)
  }

  /** By how much a candidate's total differs from its freeze plus the locks of all accounts that vote for it. */
  ghost function Excess(accounts: map<Account, Voter>, candidates: map<VoteId, Candidate>, v: VoteId): int
    requires v in candidates
  {
    candidates[v].total - candidates[v].freeze - Total(Support(accounts, v))
  }

  /** Every candidate's total is its freeze plus the locks of all accounts that vote for it. */
  ghost predicate Counted(accounts: map<Account, Voter>, candidates: map<VoteId, Candidate>)
  {
    forall v <- candidates :: Excess(accounts, candidates, v) == 0
  }

  /** Nobody votes for somebody who is no candidate. */
  ghost predicate Known(accounts: map<Account, Voter>, candidates: map<VoteId, Candidate>)
  {
    forall a <- accounts :: accounts[a].votes <= candidates.Keys
  }

  lemma SupportChanges(accounts: map<Account, Voter>, who: Account, a: Voter, v: VoteId)
    requires who in accounts
    ensures Total(Support(accounts[who := a], v)) == Total(Support(accounts, v)) - Weight(accounts[who], v) + Weight(a, v)
  {
    assert Support(accounts[who := a], v) == Support(accounts, v)[who := Weight(a, v)];
    TotalUpdate(Support(accounts, v), who, Weight(a, v));
  }

  // ------------------------------------------------------------------ recounting

  /** The sets verify_account_votes sorts an account's votes into. */
  datatype Sorted = Sorted(added: set<VoteId>, changed: set<VoteId>, cancelled: set<VoteId>, affected: set<VoteId>, kept: set<VoteId>)

  function OfKind(votes: set<VoteId>, kind: Kind): set<VoteId> { set v | v in votes && v.kind == kind }

  function Sort(past: set<VoteId>, votes: set<VoteId>, kind: Kind, change: int): Sorted
  {
    Sorted(votes - past, if change == 0 then {} else votes * past, OfKind(past, kind) - votes, votes + OfKind(past, kind),
           votes + (past - OfKind(past, kind)))
  }

  /** The two loops that sort the votes. */
  method SortVotes(past: set<VoteId>, votes: set<VoteId>, kind: Kind, change: int) returns (s: Sorted)
    ensures s == Sort(past, votes, kind, change)
  {
    s := Sorted({}, {}, {}, {}, votes);
    var rest := votes;
    while rest != {}
      invariant rest <= votes
      invariant s == Sorted((votes - rest) - past, if change == 0 then {} else (votes - rest) * past, {}, votes - rest, votes)
    {
      var v :| v in rest;
      if v !in past { s := s.(added := s.added + {v}); }
      else if change != 0 { s := s.(changed := s.changed + {v}); }
      s := s.(affected := s.affected + {v});
      rest := rest - {v};
    }
    rest := past;
    ghost var first := s;
    while rest != {}
      invariant rest <= past
      invariant s == first.(cancelled := OfKind(past - rest, kind) - votes, affected := votes + OfKind(past - rest, kind),
                            kept := votes + (past - rest - OfKind(past - rest, kind)))
    {
      var v :| v in rest;
      if v.kind == kind {
        if v !in votes { s := s.(cancelled := s.cancelled + {v}); }
        s := s.(affected := s.affected + {v});
      } else {
        s := s.(kept := s.kept + {v});
      }
      rest := rest - {v};
    }
  }

  /** modify_candidate: by how much a candidate's total changes. */
  function Delta(s: Sorted, v: VoteId, lock: nat, oldLock: nat, change: int): int
  {
    (if v in s.added then lock else 0) + (if v in s.changed then change else 0) - (if v in s.cancelled then oldLock else 0)
  }

  function Recounted(candidates: map<VoteId, Candidate>, s: Sorted, done: set<VoteId>, lock: nat, oldLock: nat, change: int): map<VoteId, Candidate>
  {
    map v | v in candidates ::
      if v in done then candidates[v].(total := candidates[v].total + Delta(s, v, lock, oldLock, change)) else candidates[v]
  }

  /** The loop over affected votes; fails when one of them names no candidate. */
  method Recount(candidates: map<VoteId, Candidate>, s: Sorted, lock: nat, oldLock: nat, change: int)
    returns (ok: bool, r: map<VoteId, Candidate>)
    ensures ok <==> s.affected <= candidates.Keys
    ensures ok ==> r == Recounted(candidates, s, s.affected, lock, oldLock, change)
  {
    r := candidates;
    var rest := s.affected;
    while rest != {}
      invariant rest <= s.affected && s.affected - rest <= candidates.Keys
      invariant r == Recounted(candidates, s, s.affected - rest, lock, oldLock, change)
    {
      var v :| v in rest;
      if v !in candidates { return false, candidates; }
      r := r[v := r[v].(total := r[v].total + Delta(s, v, lock, oldLock, change))];
      rest := rest - {v};
    }
    ok := true;
  }

  // ---------------------------------------------------------------------- an update

  /** The account after the update: the difference of a smaller lock leaves the balance for a vesting balance. */
  function Revoted(a: Voter, kind: Kind, amount: nat, votes: set<VoteId>): Voter
    requires !kind.Noone?
  {
    var lock := a.For(kind);
    var change := if lock.Locked? then amount - lock.amount else 0;
    a.(balance := if change < 0 then a.balance + change else a.balance, votes := Sort(a.votes, votes, kind, change).kept)
     .With(kind, if amount == 0 then Unlocked else Locked(amount))
  }

  function RecountedFor(candidates: map<VoteId, Candidate>, a: Voter, kind: Kind, amount: nat, votes: set<VoteId>): map<VoteId, Candidate>
  {
    var change := if a.For(kind).Locked? then amount - a.For(kind).amount else 0;
    var s := Sort(a.votes, votes, kind, change);
    Recounted(candidates, s, s.affected, amount, a.For(kind).Amount(), change)
  }

  /** The lock of that kind is replaced and no other; only what a smaller lock sets free leaves the balance; the votes of that
      kind are the new ones, and those of other kinds stay. */
  lemma RevotedIs(a: Voter, kind: Kind, amount: nat, votes: set<VoteId>, v: VoteId, other: Kind)
    requires !kind.Noone? && forall u <- votes :: u.kind == kind
    ensures var r, freed := Revoted(a, kind, amount, votes), a.For(kind).Amount() - amount;
            && r.balance == a.balance - (if freed > 0 then freed else 0) && r.other == a.other
            && r.For(kind).Amount() == amount && (r.For(kind).Locked? <==> amount > 0) && (other != kind ==> r.For(other) == a.For(other))
            && (v in r.votes <==> if v.kind == kind then v in votes else v in a.votes)
  {
  }

  /** What do_evaluate and do_apply check: votes of one kind, at most `limit` of them, with stake exactly when there are
      votes, all for known candidates, and a balance that covers the locks. */
  ghost predicate Acceptable(a: Voter, candidates: map<VoteId, Candidate>, kind: Kind, amount: nat, votes: set<VoteId>, limit: nat)
    requires !kind.Noone?
  {
    && (forall v <- votes :: v.kind == kind) && |votes| <= limit && (amount > 0 <==> votes != {})
    && Sort(a.votes, votes, kind, 0).affected <= candidates.Keys
    && Revoted(a, kind, amount, votes).LockedTotal() <= Revoted(a, kind, amount, votes).balance
  }

  /** A vote the account had before it locked anything for the kind, and keeps: it is taken for counted already. */
  predicate Missed(a: Voter, kind: Kind, votes: set<VoteId>, v: VoteId) { a.For(kind).Unlocked? && v in a.votes && v in votes }

  /** The change in a candidate's total is the change in what this account adds to it, except for a missed vote. */
  lemma DeltaIsWeight(a: Voter, kind: Kind, amount: nat, votes: set<VoteId>, v: VoteId)
    requires !kind.Noone? && (forall u <- votes :: u.kind == kind) && (amount > 0 <==> votes != {})
    ensures var lock := a.For(kind);
            var change := if lock.Locked? then amount - lock.amount else 0;
            var s := Sort(a.votes, votes, kind, change);
            var delta := if v in s.affected then Delta(s, v, amount, lock.Amount(), change) else 0;
            Weight(Revoted(a, kind, amount, votes), v) - Weight(a, v) == delta + if Missed(a, kind, votes, v) then amount else 0
  {
  }

  lemma AffectedAnyway(a: Voter, kind: Kind, votes: set<VoteId>)
    ensures forall change :: Sort(a.votes, votes, kind, change).affected == Sort(a.votes, votes, kind, 0).affected
  {
  }

  lemma RevotedIsValid(a: Voter, kind: Kind, amount: nat, votes: set<VoteId>)
    requires a.Valid() && !kind.Noone? && (forall v <- votes :: v.kind == kind) && (amount > 0 <==> votes != {})
    requires Revoted(a, kind, amount, votes).LockedTotal() <= Revoted(a, kind, amount, votes).balance
    ensures Revoted(a, kind, amount, votes).Valid()
    ensures a.Backed() ==> Revoted(a, kind, amount, votes).Backed()
  {
    var r := Revoted(a, kind, amount, votes);
    forall k ensures r.For(k) == if k != kind then a.For(k) else if amount == 0 then Unlocked else Locked(amount) {}
  }

  lemma KeptAreKnown(a: Voter, kind: Kind, amount: nat, votes: set<VoteId>, known: set<VoteId>)
    requires !kind.Noone? && a.votes <= known && Sort(a.votes, votes, kind, 0).affected <= known
    ensures Revoted(a, kind, amount, votes).votes <= known
  {
  }

  /** Recounting leaves every candidate's excess as it was, except that it loses the new lock on a missed vote. */
  lemma RecountIsRight(accounts: map<Account, Voter>, candidates: map<VoteId, Candidate>, who: Account, kind: Kind, amount: nat, votes: set<VoteId>, v: VoteId)
    requires who in accounts && v in candidates && !kind.Noone? && (forall v <- votes :: v.kind == kind) && (amount > 0 <==> votes != {})
    ensures RecountedFor(candidates, accounts[who], kind, amount, votes).Keys == candidates.Keys
    ensures Excess(accounts[who := Revoted(accounts[who], kind, amount, votes)], RecountedFor(candidates, accounts[who], kind, amount, votes), v)
         == Excess(accounts, candidates, v) - if Missed(accounts[who], kind, votes, v) then amount else 0
  {
    hide Sort, Revoted, Weight, Delta, Support, Total;
    SupportChanges(accounts, who, Revoted(accounts[who], kind, amount, votes), v);
    DeltaIsWeight(accounts[who], kind, amount, votes, v);
  }

  /** So an update leaves all totals right exactly when stake was locked for the kind before, or no old vote of it is kept. */
  lemma StaysCounted(accounts: map<Account, Voter>, candidates: map<VoteId, Candidate>, who: Account, kind: Kind, amount: nat, votes: set<VoteId>)
    requires who in accounts && Counted(accounts, candidates)
    requires !kind.Noone? && (forall v <- votes :: v.kind == kind) && (amount > 0 <==> votes != {}) && votes <= candidates.Keys
    ensures Counted(accounts[who := Revoted(accounts[who], kind, amount, votes)], RecountedFor(candidates, accounts[who], kind, amount, votes))
       <==> accounts[who].For(kind).Locked? || accounts[who].votes * votes == {}
  {
    hide Excess, Revoted, RecountedFor;
    var after, r := accounts[who := Revoted(accounts[who], kind, amount, votes)], RecountedFor(candidates, accounts[who], kind, amount, votes);
    RecountedKeys(candidates, accounts[who], kind, amount, votes);
    forall v | v in candidates
      ensures Excess(after, r, v) == 0 - if Missed(accounts[who], kind, votes, v) then amount else 0
    {
      RecountIsRight(accounts, candidates, who, kind, amount, votes, v);
    }
    if accounts[who].For(kind).Unlocked? && accounts[who].votes * votes != {} {
      var v :| v in accounts[who].votes * votes;
      assert v in votes && Missed(accounts[who], kind, votes, v) && Excess(after, r, v) == 0 - amount;
    } else {
      assert forall v <- candidates :: v in votes && v in accounts[who].votes ==> v in accounts[who].votes * votes;
    }
  }

  lemma RecountedKeys(candidates: map<VoteId, Candidate>, a: Voter, kind: Kind, amount: nat, votes: set<VoteId>)
    ensures RecountedFor(candidates, a, kind, amount, votes).Keys == candidates.Keys
    ensures forall v <- candidates :: RecountedFor(candidates, a, kind, amount, votes)[v].freeze == candidates[v].freeze
  {
  }

  /** An account that is created with a vote for `v` and then locks ten for it adds ten to nobody's total. */
  lemma CreatedVoting(v: VoteId)
    requires !v.kind.Noone?
    ensures var a := Voter(10, 0, Unlocked, Unlocked, {v});
            var s := Sort(a.votes, {v}, v.kind, 0);
            Delta(s, v, 10, 0, 0) == 0 && Weight(a, v) == 0 && Weight(Revoted(a, v.kind, 10, {v}), v) == 10
  {
    DeltaIsWeight(Voter(10, 0, Unlocked, Unlocked, {v}), v.kind, 10, {v}, v);
  }

  /** New options without a lock replace the votes and recount nothing. That leaves all totals right exactly when the votes
      of every kind with a lock stay the same, candidate by candidate. */
  lemma ReplacedCounted(accounts: map<Account, Voter>, candidates: map<VoteId, Candidate>, who: Account, votes: set<VoteId>)
    requires who in accounts && accounts[who].Valid() && Counted(accounts, candidates)
    ensures Counted(accounts[who := accounts[who].(votes := votes)], candidates)
       <==> forall v <- candidates :: accounts[who].For(v.kind).Locked? ==> (v in accounts[who].votes <==> v in votes)
  {
    hide Total, Support;
    var a, b := accounts[who], accounts[who].(votes := votes);
    forall v | v in candidates
      ensures Excess(accounts[who := b], candidates, v) == Weight(a, v) - Weight(b, v)
      ensures Weight(a, v) == Weight(b, v) <==> (a.For(v.kind).Locked? ==> (v in a.votes <==> v in votes))
    {
      SupportChanges(accounts, who, b, v);
      assert a.For(v.kind) == b.For(v.kind);
    }
  }

  /** A new candidate is counted right exactly when nobody with a lock of its kind votes for it already. */
  lemma NewlyCounted(accounts: map<Account, Voter>, candidates: map<VoteId, Candidate>, v: VoteId, freeze: nat)
    requires Counted(accounts, candidates) && v !in candidates
    ensures Counted(accounts, candidates[v := Candidate(freeze, freeze)]) <==> forall a <- accounts :: Weight(accounts[a], v) == 0
  {
    hide Total;
    var r := candidates[v := Candidate(freeze, freeze)];
    assert forall u <- candidates :: u != v && Excess(accounts, r, u) == Excess(accounts, candidates, u);
    assert forall a <- Support(accounts, v) :: Support(accounts, v)[a] == Weight(accounts[a], v);
    NoneOrSome(Support(accounts, v));
    assert Excess(accounts, r, v) == -Total(Support(accounts, v));
  }

  // ------------------------------------------------------------------------ the run

  class VoteBook {
    var accounts: map<Account, Voter>
    var candidates: map<VoteId, Candidate>

    ghost predicate Valid()
      reads this
    {
      (forall a <- accounts :: accounts[a].Valid()) && forall v <- candidates :: !v.kind.Noone?
    }

    /** Every vote is backed and for a known candidate, and every total is right.  Kept as long as accounts are created
        without votes and options are only changed together with a lock. */
    ghost predicate Proper()
      reads this
    {
      (forall a <- accounts :: accounts[a].Backed()) && Known(accounts, candidates) && Counted(accounts, candidates)
    }

    constructor ()
      ensures Valid() && Proper() && accounts == map[] && candidates == map[]
    {
      accounts, candidates := map[], map[];
    }

    /** account_create: the votes come with the options, unchecked; nothing is locked for them. */
    method Open(who: Account, votes: set<VoteId>)
      requires Valid() && who !in accounts
      modifies this`accounts
      ensures Valid() && accounts == old(accounts)[who := Voter(0, 0, Unlocked, Unlocked, votes)]
      ensures old(Counted(accounts, candidates)) <==> Counted(accounts, candidates)
      ensures old(Proper()) ==> (Proper() <==> votes == {})
    {
      hide Support, Weight, Counted;
      NewVoter(accounts, candidates, who, votes);
      accounts := accounts[who := Voter(0, 0, Unlocked, Unlocked, votes)];
      assert accounts[who].Backed() <==> votes == {};
    }

    /** witness_create and committee_member_create: a candidate with the next vote id, its freeze locked. */
    method Stand(who: Account, v: VoteId, freeze: nat) returns (ok: bool)
      requires Valid() && who in accounts && v !in candidates && !v.kind.Noone?
      modifies this
      ensures Valid() && ok == old(accounts[who].LockedTotal() + freeze <= accounts[who].balance)
      ensures ok ==> candidates == old(candidates)[v := Candidate(freeze, freeze)]
      ensures ok ==> accounts == old(accounts)[who := old(accounts)[who].(other := old(accounts)[who].other + freeze)]
      ensures !ok ==> candidates == old(candidates) && accounts == old(accounts)
      ensures ok && old(Counted(accounts, candidates)) ==>
                (Counted(accounts, candidates) <==> old(forall a <- accounts :: Weight(accounts[a], v) == 0))
      ensures old(Proper()) ==> Proper()
    {
      hide Support, Counted;
      var a := accounts[who];
      ok := a.LockedTotal() + freeze <= a.balance;
      if !ok { return; }
      var b := a.(other := a.other + freeze);
      SameLocks(a, b);
      SameVotes(accounts, candidates, who, b);
      if Counted(accounts, candidates) { NewlyCounted(accounts[who := b], candidates, v, freeze); }
      assert forall c <- accounts :: Weight(accounts[c], v) == Weight(accounts[who := b][c], v);
      accounts, candidates := accounts[who := b], candidates[v := Candidate(freeze, freeze)];
    }

    /** adjust_balance in the core asset: a debit must leave what is locked. */
    method AdjustBalance(who: Account, delta: int) returns (ok: bool)
      requires Valid() && who in accounts
      modifies this`accounts
      ensures Valid() && ok == (delta >= 0 || old(accounts[who].LockedTotal() <= accounts[who].balance + delta))
      ensures accounts == if ok then old(accounts)[who := old(accounts)[who].(balance := old(accounts)[who].balance + delta)] else old(accounts)
      ensures (old(Counted(accounts, candidates)) <==> Counted(accounts, candidates)) && (old(Proper()) ==> Proper())
    {
      hide Support, Weight, Counted;
      var a := accounts[who];
      ok := delta >= 0 || (a.balance >= -delta && a.balance + delta >= a.LockedTotal());
      if ok {
        SameVotes(accounts, candidates, who, a.(balance := a.balance + delta));
        SameLocks(a, a.(balance := a.balance + delta));
        accounts := accounts[who := a.(balance := a.balance + delta)];
      }
    }

    /** account_update with new options and no lock: the votes are replaced, and no candidate is recounted. */
    method ReplaceVotes(who: Account, votes: set<VoteId>)
      requires Valid() && who in accounts
      modifies this`accounts
      ensures Valid() && accounts == old(accounts)[who := old(accounts)[who].(votes := votes)]
      ensures old(Counted(accounts, candidates)) ==>
                (Counted(accounts, candidates) <==> forall v <- candidates :: old(accounts)[who].For(v.kind).Locked? ==> (v in old(accounts)[who].votes <==> v in votes))
    {
      hide Counted;
      if Counted(accounts, candidates) { ReplacedCounted(accounts, candidates, who, votes); }
      SameLocks(accounts[who], accounts[who].(votes := votes));
      accounts := accounts[who := accounts[who].(votes := votes)];
    }

    /** account_update with a lock for nobody: all votes go, and no candidate is recounted. */
    method DropVotes(who: Account, amount: nat, votes: set<VoteId>) returns (ok: bool)
      requires Valid() && who in accounts
      modifies this`accounts
      ensures Valid() && ok == ((forall v <- votes :: v.kind.Noone?) && (amount > 0 <==> votes != {}))
      ensures accounts == if ok then old(accounts)[who := old(accounts)[who].(votes := {})] else old(accounts)
      ensures ok && old(Counted(accounts, candidates)) ==>
                (Counted(accounts, candidates) <==> forall v <- candidates :: v in old(accounts)[who].votes ==> old(accounts)[who].For(v.kind).Unlocked?)
    {
      ok := (forall v <- votes :: v.kind.Noone?) && (amount > 0) == (votes != {});
      if ok { ReplaceVotes(who, {}); }
    }

    /** account_update with a lock of a real kind. */
    method UpdateVotes(who: Account, kind: Kind, amount: nat, votes: set<VoteId>, limit: nat) returns (ok: bool)
      requires Valid() && who in accounts && !kind.Noone?
      modifies this
      ensures Valid()
      ensures ok <==> old(Acceptable(accounts[who], candidates, kind, amount, votes, limit))
      ensures ok ==> accounts == old(accounts)[who := Revoted(old(accounts)[who], kind, amount, votes)]
      ensures ok ==> candidates == RecountedFor(old(candidates), old(accounts)[who], kind, amount, votes)
      ensures !ok ==> accounts == old(accounts) && candidates == old(candidates)
      ensures ok && old(Counted(accounts, candidates)) ==>
                (Counted(accounts, candidates) <==> old(accounts)[who].For(kind).Locked? || old(accounts)[who].votes * votes == {})
      ensures old(Proper()) ==> Proper()
    {
      hide Counted, Recounted, Sort, Revoted, Voter.Valid, Voter.Backed;
      var a := accounts[who];
      AffectedAnyway(a, kind, votes);
      if (exists v <- votes :: v.kind != kind) || |votes| > limit || (amount > 0) != (votes != {}) { return false; }
      var lock := a.For(kind);
      var change := if lock.Locked? then amount - lock.amount else 0;
      var s := SortVotes(a.votes, votes, kind, change);
      var counted, r := Recount(candidates, s, amount, lock.Amount(), change);
      if !counted { return false; }
      var b := Revoted(a, kind, amount, votes);
      if b.LockedTotal() > b.balance { return false; }
      RevotedIsValid(a, kind, amount, votes);
      RecountedKeys(candidates, a, kind, amount, votes);
      VotesAreAffected(a, kind, votes);
      if Counted(accounts, candidates) { StaysCounted(accounts, candidates, who, kind, amount, votes); }
      if Proper() {
        KeptAreKnown(a, kind, amount, votes, candidates.Keys);
        BackedKeepsNone(a, kind, votes);
      }
      accounts := accounts[who := b];
      candidates := r;
      return true;
    }
  }

  lemma VotesAreAffected(a: Voter, kind: Kind, votes: set<VoteId>)
    ensures votes <= Sort(a.votes, votes, kind, 0).affected
  {
  }

  lemma BackedKeepsNone(a: Voter, kind: Kind, votes: set<VoteId>)
    requires a.Backed() && forall v <- votes :: v.kind == kind
    ensures a.For(kind).Locked? || a.votes * votes == {}
  {
  }

  lemma NewVoter(accounts: map<Account, Voter>, candidates: map<VoteId, Candidate>, who: Account, votes: set<VoteId>)
    requires who !in accounts
    ensures var a := Voter(0, 0, Unlocked, Unlocked, votes);
            a.Valid() && (Counted(accounts[who := a], candidates) <==> Counted(accounts, candidates))
  {
    hide Total, Support;
    var a := Voter(0, 0, Unlocked, Unlocked, votes);
    forall v | v in candidates ensures Total(Support(accounts[who := a], v)) == Total(Support(accounts, v)) {
      NoSupport(accounts, who, a, v);
    }
  }

  lemma NoSupport(accounts: map<Account, Voter>, who: Account, a: Voter, v: VoteId)
    requires who !in accounts && a.committee.Unlocked? && a.witnesses.Unlocked?
    ensures Total(Support(accounts[who := a], v)) == Total(Support(accounts, v))
  {
    hide Total;
    assert Support(accounts[who := a], v) == Support(accounts, v)[who := 0];
    TotalUpdate(Support(accounts, v), who, 0);
  }

  lemma SameLocks(a: Voter, b: Voter)
    requires a.Valid() && a.committee == b.committee && a.witnesses == b.witnesses && 0 <= b.LockedTotal() <= b.balance
    ensures b.Valid() && (a.votes == b.votes && a.Backed() ==> b.Backed())
  {
    forall kind ensures a.For(kind) == b.For(kind) {}
  }

  lemma SameVotes(accounts: map<Account, Voter>, candidates: map<VoteId, Candidate>, who: Account, a: Voter)
    requires who in accounts
    requires a.votes == accounts[who].votes && a.committee == accounts[who].committee && a.witnesses == accounts[who].witnesses
    ensures Counted(accounts[who := a], candidates) <==> Counted(accounts, candidates)
  {
    hide Support, Total;
    forall v <- candidates { SupportChanges(accounts, who, a, v); }
  }

  /** A sum of amounts is nothing only when all of them are. */
  lemma {:induction false} NoneOrSome(m: map<Account, int>)
    requires forall k <- m :: m[k] >= 0
    ensures Total(m) >= 0 && (Total(m) == 0 <==> forall k <- m :: m[k] == 0)
    decreases |m|
  {
    if m != map[] {
      var k :| k in m;
      TotalRemove(m, k);
      var rest := m - {k};
      NoneOrSome(rest);
      assert forall j <- m :: j == k || (j in rest && rest[j] == m[j]);
    }
  }
}
