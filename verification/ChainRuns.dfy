/**
 Runs of pushed blocks through the chain database: what a rejected block leaves behind, and a run that ends in
 a fork switch which can be neither finished nor taken back (libraries/chain/db_block.cpp).
 */
module ChainRuns {
  import opened Options
  import opened UndoLog
  import opened UndoDatabases
  import opened ForkDatabases
  import opened ChainDatabases

  // ----------------------------------------------------------- after a rejected block

  /** While the fork database's head builds on the applied head, a block no higher than it is never ignored: it is tried, and
      erased from the fork database unless it extends the chain. */
  lemma TriedNotIgnored<V(!new)>(rules: Rules<V>, n: Node<V>, b: Block)
    requires Lawful(rules) && rules.head(n.db) == Tip(n.applied) && n.head.Some? && n.head.value.block.previous == Tip(n.applied)
    requires b.id.num <= n.head.value.Num() && !TooOldOrLoose(n.index, n.head, n.forkSize, b)
    ensures var m := AfterPush(rules, n, b);
            && m.head == n.head && m.forkSize == rules.judge(n.db, b).depth
            && (if Applied(rules, n.db, b).Some? then b.previous == Tip(n.applied) && m.applied == n.applied + [b]
                else m.applied == n.applied && m.db == n.db && b.id !in m.index)
    ensures var at := PlacedBy(n.index, n.head, n.nextSerial, n.forkSize, b);
            forall p, q :: Decided(rules, n.snaps, n.db, Tip(n.applied), at, b, p, q) == if Applied(rules, n.db, b).Some? then Extended else Rejected
  {
    hide Kept, Inserted, Bound, Switching, NeverMeet, Trimmed;
  }

  /** A rejected block is erased with the head left on it.  Pushing the applied head block once more then has it tried,
      rejected and erased too, and from then on no block on it can be linked; exactly unless the history asked for is a single
      layer, or the block below it is no longer stored. */
  lemma HeadIsErased<V(!new)>(rules: Rules<V>, n: Node<V>, b: Block)
    requires Lawful(rules) && Chain(n.applied) && n.applied != [] && rules.head(n.db) == Tip(n.applied)
    requires n.head.Some? && n.head.value.block.id == Tip(n.applied) && !TooOldOrLoose(n.index, n.head, n.forkSize, b)
    requires b.WellFormed() && b.previous == Tip(n.applied) && Applied(rules, n.db, b).None?
    ensures var m, top := AfterPush(rules, n, b), n.applied[|n.applied| - 1];
            && m.applied == n.applied && m.db == n.db && m.head.Some? && m.head.value.block == b && b.id !in m.index
            && var k := AfterPush(rules, m, top);
               && k.applied == n.applied && k.db == n.db
               && if m.forkSize <= 1 || (top.previous != NO_BLOCK && top.previous !in m.index) then k == m
                  else top.id !in k.index && forall x: Block :: x.previous == top.id ==> TooOldOrLoose(k.index, k.head, k.forkSize, x)
  {
    hide Kept, Inserted, Bound, Switching, NeverMeet, Trimmed, Applied, Lawful, AfterPush, TooOldOrLoose;
    var m, top := AfterPush(rules, n, b), n.applied[|n.applied| - 1];
    Leaves(rules, n, b);
    assert top.id.num == |n.applied| == b.id.num - 1;
    Loose(m, top, b);
    if !TooOldOrLoose(m.index, m.head, m.forkSize, top) {
      NotAgain(rules, n, top);
      TriedNotIgnored(rules, m, top);
      Unlinkable(AfterPush(rules, m, top), top.id);
    } else {
      Refuses(rules, m, top);
    }
  }

  lemma Leaves<V(!new)>(rules: Rules<V>, n: Node<V>, b: Block)
    requires n.head.Some? && n.head.value.Num() < b.id.num && !TooOldOrLoose(n.index, n.head, n.forkSize, b)
    requires b.previous == Tip(n.applied) && Applied(rules, n.db, b).None?
    ensures var m := AfterPush(rules, n, b);
            m.applied == n.applied && m.db == n.db && m.head.Some? && m.head.value.block == b && b.id !in m.index
  {
    hide Kept, Inserted, Bound, Trimmed;
  }

  lemma Loose<V(!new)>(m: Node<V>, top: Block, b: Block)
    requires m.head.Some? && m.head.value.block == b && 0 < top.id.num == b.id.num - 1
    ensures TooOldOrLoose(m.index, m.head, m.forkSize, top) <==> m.forkSize <= 1 || (top.previous != NO_BLOCK && top.previous !in m.index)
  {
  }

  /** A block does not build on itself. */
  lemma NotAgain<V(!new)>(rules: Rules<V>, n: Node<V>, top: Block)
    requires Lawful(rules) && rules.head(n.db) == top.id && top.previous != top.id
    ensures Applied(rules, n.db, top).None?
  {
  }

  lemma Refuses<V(!new)>(rules: Rules<V>, m: Node<V>, b: Block)
    requires TooOldOrLoose(m.index, m.head, m.forkSize, b)
    ensures AfterPush(rules, m, b) == m
  {
  }

  lemma Unlinkable<V(!new)>(k: Node<V>, id: BlockId)
    requires k.head.Some? && id !in k.index && id != NO_BLOCK
    ensures forall x: Block :: x.previous == id ==> TooOldOrLoose(k.index, k.head, k.forkSize, x)
  {
  }

  // ------------------------------------------------------- falling back into step

  /** The fork database is in order and reaches no further than the applied chain, but its head may lag behind. */
  ghost predicate Behind<V(!new)>(c: ChainDatabase<V>)
    reads c, c.undo, c.fork
  {
    c.fork.InOrder() && c.fork.head.Some? && c.fork.head.value.Num() <= |c.applied| && forall id <- c.fork.index :: id.num <= |c.applied|
  }

  /** A completed switch leaves the head behind, and the next block that extends the chain brings it back into step. */
  method PushInStep<V(!new)>(c: ChainDatabase<V>, b: Block) returns (r: Outcome, ghost p: seq<Item>, ghost q: seq<Item>)
    requires c.Valid() && c.ForkSound() && b.WellFormed() && c.blockOf(b.id) == b
    modifies c, c.undo, c.fork
    ensures c.Valid() && c.ForkSound()
    ensures old(c.InStep()) && r.Switched? ==> Behind(c)
    ensures old(Behind(c)) && r.Extended? ==> c.InStep()
  {
    hide AfterPush, Lawful, Chain, Replays, Sound, Genuine, GenuineChain, Branches, ReadyToSwitch, ApplyAll, Applied, Decided, TooOldOrLoose,
         PlacedBy, Shrunk, Down, Ordered, Topped, UndoDatabase.Valid, Rewound, Trimmed;
    ghost var n, behind, step, at := c.View(), Behind(c), c.InStep(), PlacedBy(c.fork.index, c.fork.head, c.fork.nextSerial, c.fork.maxSize, b);
    Numbers(c.applied);
    if step && !TooOldOrLoose(n.index, n.head, n.forkSize, b) { StillTopped(n, b, c.fork.roots, c.fork.floor); }
    r, p, q := c.PushBlock(b);
    Numbers(c.applied);
    if r.Extended? && behind { BackInStep(c.rules, n, b); }
    if r.Switched? && step {
      FromTheTop(at, n.applied, p, q);
      LagsBehind(c.blockOf, c.rules, Rewound(n.snaps, n.db, |q|), at, c.fork.nextSerial, n.applied, p, q);
    }
  }

  lemma Numbers(applied: seq<Block>)
    requires Chain(applied)
    ensures Tip(applied).num == |applied|
  {
  }

  /** Storing a block in a database in order leaves no block above the new head. */
  lemma StillTopped<V(!new)>(n: Node<V>, b: Block, roots: set<BlockId>, floor: nat)
    requires Ordered(n.index, n.nextSerial, roots, floor) && Topped(n.index, n.head) && b.WellFormed() && !TooOldOrLoose(n.index, n.head, n.forkSize, b)
    ensures var at := PlacedBy(n.index, n.head, n.nextSerial, n.forkSize, b);
            Topped(at.index, Some(at.head))
  {
    hide Kept, Inserted, Ordered;
    var more := if n.head.None? then roots + {b.id} else roots;
    MoreRoots(n.index, n.nextSerial, roots, more, floor);
    PushedStaysInOrder(n.index, n.head, n.nextSerial, more, floor, n.forkSize, NewItem(n.index, n.head, n.nextSerial, b));
  }

  lemma BackInStep<V(!new)>(rules: Rules<V>, n: Node<V>, b: Block)
    requires Lawful(rules) && rules.head(n.db) == Tip(n.applied) && Tip(n.applied).num == |n.applied| && b.WellFormed()
    requires n.head.Some? && n.head.value.Num() <= |n.applied| && (forall id <- n.index :: id.num <= |n.applied|)
    requires Applied(rules, n.db, b).Some? && AfterPush(rules, n, b).applied == n.applied + [b]
    ensures var m := AfterPush(rules, n, b);
            Topped(m.index, m.head) && m.head.Some? && m.head.value.block.id == Tip(m.applied)
  {
    hide Trimmed;
  }

  lemma LagsBehind<V(!new)>(blockOf: BlockId -> Block, rules: Rules<V>, db: Database<V>, at: Placed, nextSerial: nat, applied: seq<Block>,
                            p: seq<Item>, q: seq<Item>)
    requires Topped(at.index, Some(at.head)) && Chain(applied) && ReadyToSwitch(blockOf, at.index, nextSerial, applied, p, q) && p[0] == at.head
    ensures 0 < |q| < |p|
    ensures var head := Down(at.index, Some(at.head), |q|);
            var index := Shrunk(rules, db, Ascending(p), at.index, head, |p|);
            && head.Some? && head.value.Num() <= |applied| - |q| + |p|
            && forall id <- index :: id.num <= |applied| - |q| + |p|
  {
    hide Shrunk, Linked, Ancestor, Ascending, Chain;
    SwitchSetup(blockOf, at.index, nextSerial, applied, p, q);
    LinkedNums(at.index, nextSerial, p, |q|);
    assert q[0].Num() == |applied| by { OldestFirst(blockOf, at.index, nextSerial, applied, p, q); }
    ShrunkIsSub(rules, db, Ascending(p), at.index, Down(at.index, Some(at.head), |q|), |p|);
  }

  lemma FromTheTop(at: Placed, applied: seq<Block>, p: seq<Item>, q: seq<Item>)
    requires Topped(at.index, Some(at.head)) && Tip(applied) in at.index && Branches(at.index, at.index[at.head.block.id], at.index[Tip(applied)], p, q)
    ensures p != [] && q != [] && p[0] == at.head && q[0].block.id == at.index[Tip(applied)].block.id
  {
  }

  lemma OldestFirst(blockOf: BlockId -> Block, index: Index, nextSerial: nat, applied: seq<Block>, p: seq<Item>, q: seq<Item>)
    requires Chain(applied) && ReadyToSwitch(blockOf, index, nextSerial, applied, p, q)
    ensures q[0].Num() == |applied|
  {
    assert Ascending(q)[|q| - 1] == q[0].block;
  }

  // ----------------------------------------------------------- how much is remembered

  /** The sizes and the last irreversible block as the chain keeps them: a block asks for the history down to the last
      irreversible block, or at least for what the block before it asked for, and that block never goes back. */
  ghost predicate Sized<V(!new)>(rules: Rules<V>, lib: Database<V> -> nat)
  {
    forall db, b: Block :: b.previous == rules.head(db) ==>
      && lib(db) <= rules.head(db).num
      && rules.judge(db, b).depth + lib(db) >= b.id.num + (if Applied(rules, db, b).Some? then 1 else 0)
      && (Applied(rules, db, b).Some? ==> lib(db) <= lib(Applied(rules, db, b).value))
  }

  /** Undo log and fork database reach down to the last irreversible block. */
  ghost predicate Reaches<V(!new)>(n: Node<V>, lib: Database<V> -> nat)
  {
    && |n.snaps| + lib(n.db) >= |n.applied| && n.logSize + lib(n.db) >= |n.applied| + 1 && n.forkSize + lib(n.db) >= |n.applied| + 1
  }

  ghost predicate Remembers<V(!new)>(c: ChainDatabase<V>, lib: Database<V> -> nat)
    reads c, c.undo, c.fork
  {
    c.InStep() && Reaches(c.View(), lib) && c.fork.floor <= lib(c.Db()) && forall id <- c.fork.roots :: id.num <= 1
  }

  /** An accepted block keeps it so. */
  lemma ReachesOn<V(!new)>(rules: Rules<V>, lib: Database<V> -> nat, n: Node<V>, b: Block)
    requires Lawful(rules) && Sized(rules, lib) && rules.head(n.db) == Tip(n.applied) && Tip(n.applied).num == |n.applied| && b.WellFormed()
    requires Reaches(n, lib) && Applied(rules, n.db, b).Some? && AfterPush(rules, n, b).applied == n.applied + [b]
    ensures var m := AfterPush(rules, n, b);
            && Reaches(m, lib) && lib(n.db) <= lib(m.db)
            && LowEnd(|m.applied|, n.forkSize) <= lib(n.db) && LowEnd(|m.applied|, m.forkSize) <= lib(n.db)
  {
    hide Kept, Inserted, Bound, NewHead;
  }

  /** The last irreversible block stays at or below block `a` while the blocks are applied. */
  ghost predicate Within<V(!new)>(rules: Rules<V>, lib: Database<V> -> nat, db: Database<V>, bs: seq<Block>, a: nat)
  {
    forall j | 0 <= j < |bs| && ApplyAll(rules, db, bs[..j]).Some? :: lib(ApplyAll(rules, db, bs[..j]).value) <= a
  }

  /** Each block builds on the one before, and the first on the database's head. */
  ghost predicate Builds<V(!new)>(rules: Rules<V>, db: Database<V>, bs: seq<Block>)
  {
    (bs != [] ==> bs[0].previous == rules.head(db)) && forall i, j | 0 < j < |bs| && i == j - 1 :: bs[j].previous == bs[i].id
  }

  lemma SizedIsReversible<V(!new)>(rules: Rules<V>, lib: Database<V> -> nat, db: Database<V>, bs: seq<Block>, a: nat)
    requires Lawful(rules) && Sized(rules, lib) && Within(rules, lib, db, bs, a)
    requires Builds(rules, db, bs)
    ensures Reversible(rules, lib, db, bs, a)
  {
    hide Lawful;
    forall j | 0 <= j < |bs| && ApplyAll(rules, db, bs[..j]).Some?
      ensures var fixed := lib(ApplyAll(rules, db, bs[..j]).value); fixed <= a && DepthOf(rules, db, bs, j) + fixed >= bs[j].id.num
    {
      HeadAfter(rules, db, bs, j);
      if j > 0 { assert bs[j].previous == bs[j - 1].id; }
      SizedAt(rules, lib, ApplyAll(rules, db, bs[..j]).value, bs[j]);
    }
  }

  lemma SizedAt<V(!new)>(rules: Rules<V>, lib: Database<V> -> nat, db: Database<V>, b: Block)
    requires Sized(rules, lib) && b.previous == rules.head(db)
    ensures rules.judge(db, b).depth + lib(db) >= b.id.num
  {
    assert Applied(rules, db, b).Some? || Applied(rules, db, b).None?;
  }

  lemma HeadAfter<V(!new)>(rules: Rules<V>, db: Database<V>, bs: seq<Block>, j: nat)
    requires Lawful(rules) && j <= |bs| && ApplyAll(rules, db, bs[..j]).Some?
    ensures rules.head(ApplyAll(rules, db, bs[..j]).value) == if j == 0 then rules.head(db) else bs[j - 1].id
  {
    hide Applied;
    if j > 0 { assert bs[..j][j - 1] == bs[j - 1] && |bs[..j]| - 1 == j - 1; }
  }

  lemma BranchBuilds<V(!new)>(blockOf: BlockId -> Block, rules: Rules<V>, snaps: seq<Database<V>>, db: Database<V>, index: Index, nextSerial: nat,
                              applied: seq<Block>, p: seq<Item>, q: seq<Item>)
    requires Lawful(rules) && Chain(applied) && Replays(rules, snaps, applied, db) && ReadyToSwitch(blockOf, index, nextSerial, applied, p, q) && |q| <= |snaps|
    ensures Builds(rules, Rewound(snaps, db, |q|), Ascending(p))
  {
    hide Applied, Chain, Replays, Lawful, Linked, Stored, Sound, Genuine, Ascending;
    SwitchSetup(blockOf, index, nextSerial, applied, p, q);
    LineBuilds(index, nextSerial, p);
    FirstOf(q);
    RewoundHead(rules, snaps, db, applied, |q|);
    LineTurned(p);
  }

  lemma LineBuilds(index: Index, nextSerial: nat, p: seq<Item>)
    requires Sound(index, nextSerial) && Linked(index, p)
    ensures forall i | 0 <= i < |p| - 1 :: p[i].block.previous == p[i + 1].block.id
  {
    forall i | 0 <= i < |p| - 1 ensures p[i].block.previous == p[i + 1].block.id {
      assert Parent(index, p[i]) == Some(p[i + 1]);
    }
  }

  lemma LineTurned(p: seq<Item>)
    requires forall i | 0 <= i < |p| - 1 :: p[i].block.previous == p[i + 1].block.id
    ensures forall i, j | 0 < j < |p| && i == j - 1 :: Ascending(p)[j].previous == Ascending(p)[i].id
    ensures p != [] ==> Ascending(p)[0] == p[|p| - 1].block
  {
    forall j | 0 < j < |p| ensures Ascending(p)[j].previous == Ascending(p)[j - 1].id {
      assert p[|p| - 1 - j].block.previous == p[|p| - 1 - j + 1].block.id;
    }
  }

  lemma FirstOf(q: seq<Item>)
    requires q != []
    ensures Ascending(q)[0] == q[|q| - 1].block
  {
  }

  lemma RewoundHead<V(!new)>(rules: Rules<V>, snaps: seq<Database<V>>, db: Database<V>, applied: seq<Block>, k: nat)
    requires Lawful(rules) && Replays(rules, snaps, applied, db) && 0 < k <= |snaps|
    ensures k <= |applied| && rules.head(Rewound(snaps, db, k)) == applied[|applied| - k].previous
  {
    hide Applied;
    assert ReplaysAt(rules, snaps, applied, db, |snaps| - k);
  }

  lemma AncestorIsStored(index: Index, nextSerial: nat, roots: set<BlockId>, floor: nat, item: Item)
    requires Ordered(index, nextSerial, roots, floor) && item.block.id in index && index[item.block.id] == item && item.Num() > floor && item.Num() > 1
    requires forall id <- roots :: id.num <= 1
    ensures Parent(index, item).Some?
  {
    assert Anchored(index, roots, item.block.id);
  }

  /** While log and fork database reach down to the last irreversible block, a switch to a branch that leaves the chain at or
      above it, and does not raise it past that place, never gets stuck. */
  lemma RememberedNeverSticks<V(!new)>(blockOf: BlockId -> Block, rules: Rules<V>, lib: Database<V> -> nat, n: Node<V>, index: Index, nextSerial: nat,
                                       roots: set<BlockId>, floor: nat, p: seq<Item>, q: seq<Item>)
    requires Lawful(rules) && Sized(rules, lib) && Chain(n.applied) && Replays(rules, n.snaps, n.applied, n.db) && Reaches(n, lib)
    requires ReadyToSwitch(blockOf, index, nextSerial, n.applied, p, q) && |p| == |q| + 1
    requires Ordered(index, nextSerial, roots, floor) && floor <= lib(n.db) && forall id <- roots :: id.num <= 1
    requires 0 < |q| && var a := q[|q| - 1].block.previous.num; 0 < a && lib(n.db) <= a
    ensures |q| <= |n.snaps|
    ensures Within(rules, lib, Rewound(n.snaps, n.db, |q|), Ascending(p), q[|q| - 1].block.previous.num) ==> !Sticks(rules, n.snaps, n.db, index, Some(p[0]), p, q)
  {
    hide Lawful, Sized, Replays, Ordered, Sticks, Within, Reversible, Ascending, Stored, Linked, Joined, Ancestor, Parent, Sound, Genuine, Chain;
    SwitchSetup(blockOf, index, nextSerial, n.applied, p, q);
    var a, dbA := q[|q| - 1].block.previous.num, if |q| <= |n.snaps| then Rewound(n.snaps, n.db, |q|) else n.db;
    TipNum(n.applied[..|n.applied| - |q|], n.applied);
    assert |q| <= |n.snaps|;
    if Within(rules, lib, dbA, Ascending(p), a) {
      BranchBuilds(blockOf, rules, n.snaps, n.db, index, nextSerial, n.applied, p, q);
      SizedIsReversible(rules, lib, dbA, Ascending(p), a);
      EndIsStored(index, q);
      AncestorIsStored(index, nextSerial, roots, floor, q[|q| - 1]);
      ReversibleNeverSticks(blockOf, rules, lib, n.snaps, n.db, index, nextSerial, n.applied, p, q);
    }
  }

  lemma EndIsStored(index: Index, q: seq<Item>)
    requires Stored(index, q) && q != []
    ensures q[|q| - 1].block.id in index && index[q[|q| - 1].block.id] == q[|q| - 1]
  {
  }

  /** A new chain remembers everything there is. */
  method NewChain<V(!new)>(rules: Rules<V>, indexes: set<nat>, ghost blockOf: BlockId -> Block, ghost lib: Database<V> -> nat)
    returns (c: ChainDatabase<V>)
    requires Lawful(rules) && rules.head(Database(map[], map i | i in indexes :: 0)) == NO_BLOCK
    ensures fresh(c) && c.Valid() && c.ForkSound() && c.rules == rules && Remembers(c, lib)
  {
    c := new ChainDatabase<V>(rules, indexes, blockOf);
  }

  /** From a chain that remembers, every block that is applied or ignored leaves one that remembers, and a switch gets stuck
      only to a branch that leaves the chain below the last irreversible block or at its very start, or raises that block past
      the place where it leaves. */
  method PushRemembered<V(!new)>(c: ChainDatabase<V>, b: Block, ghost lib: Database<V> -> nat)
    returns (r: Outcome, ghost p: seq<Item>, ghost q: seq<Item>)
    requires c.Valid() && c.ForkSound() && b.WellFormed() && c.blockOf(b.id) == b && Sized(c.rules, lib) && Remembers(c, lib)
    modifies c, c.undo, c.fork
    ensures c.Valid() && c.ForkSound()
    ensures r.Extended? || r.Ignored? ==> Remembers(c, lib)
    ensures r.Stuck? ==>
              0 < |q| && var a := q[|q| - 1].block.previous.num;
              a == 0 || a < old(lib(c.Db())) || (|q| <= |old(c.undo.snaps)| && !Within(c.rules, lib, Rewound(old(c.undo.snaps), old(c.Db()), |q|), Ascending(p), a))
  {
    hide AfterPush, Lawful, Chain, Replays, Sound, Genuine, GenuineChain, Branches, ReadyToSwitch, ApplyAll, Applied, TooOldOrLoose,
         PlacedBy, Shrunk, Down, Ordered, Topped, UndoDatabase.Valid, Rewound, Trimmed, Sized, Within, Sticks, NeverMeet, LowEnd, Reaches;
    ghost var n, at := c.View(), PlacedBy(c.fork.index, c.fork.head, c.fork.nextSerial, c.fork.maxSize, b);
    ghost var roots, floor := c.fork.roots, c.fork.floor;
    Numbers(c.applied);
    HighEnough(n, b, lib);
    if !TooOldOrLoose(n.index, n.head, n.forkSize, b) { StillTopped(n, b, roots, floor); }
    StepsTogether(n.index, n.head, n.nextSerial, n.forkSize, b, n.applied);
    r, p, q := c.PushBlock(b);
    Numbers(c.applied);
    if r.Extended? { ReachesOn(c.rules, lib, n, b); }
    if r.Ignored? { IgnoredIs(c.rules, n, b, p, q); }
    if r.Stuck? {
      FromTheTop(at, n.applied, p, q);
      NotStuck(c.blockOf, c.rules, lib, n, b, roots, floor, c.fork.nextSerial, p, q);
    }
  }

  lemma HighEnough<V(!new)>(n: Node<V>, b: Block, lib: Database<V> -> nat)
    requires Reaches(n, lib)
    ensures LowEnd(|n.applied|, n.forkSize) <= lib(n.db) && LowEnd(|n.applied| + 1, n.forkSize) <= lib(n.db)
  {
  }

  /** An ignored block changes nothing but the fork database's index. */
  lemma IgnoredIs<V(!new)>(rules: Rules<V>, n: Node<V>, b: Block, p: seq<Item>, q: seq<Item>)
    requires !TooOldOrLoose(n.index, n.head, n.forkSize, b) && b.WellFormed()
    requires var at := PlacedBy(n.index, n.head, n.nextSerial, n.forkSize, b);
             Decided(rules, n.snaps, n.db, Tip(n.applied), at, b, p, q) == Ignored
    ensures var m := AfterPush(rules, n, b);
            m.snaps == n.snaps && m.db == n.db && m.applied == n.applied && m.logSize == n.logSize && m.forkSize == n.forkSize
    ensures forall lib: Database<V> -> nat :: Reaches(n, lib) ==> Reaches(AfterPush(rules, n, b), lib)
    ensures n.applied == [] ==> n.head.Some?
  {
    hide Kept, Inserted, Bound, NeverMeet, Sticks, ApplyAll;
  }

  lemma NotStuck<V(!new)>(blockOf: BlockId -> Block, rules: Rules<V>, lib: Database<V> -> nat, n: Node<V>, b: Block, roots: set<BlockId>, floor: nat,
                          nextSerial: nat, p: seq<Item>, q: seq<Item>)
    requires Lawful(rules) && Sized(rules, lib) && Chain(n.applied) && Replays(rules, n.snaps, n.applied, n.db) && Reaches(n, lib)
    requires !TooOldOrLoose(n.index, n.head, n.forkSize, b) && b.WellFormed() && n.head.Some?
    requires Ordered(n.index, n.nextSerial, roots, floor) && floor <= lib(n.db) && forall id <- roots :: id.num <= 1
    requires var at := PlacedBy(n.index, n.head, n.nextSerial, n.forkSize, b);
             && ReadyToSwitch(blockOf, at.index, nextSerial, n.applied, p, q) && p[0] == at.head && |p| == |q| + 1 && at.head.Num() <= |n.applied| + 1
             && 0 < |q| && Decided(rules, n.snaps, n.db, Tip(n.applied), at, b, p, q) == Stuck
    ensures var a := q[|q| - 1].block.previous.num;
            a == 0 || a < lib(n.db) || (|q| <= |n.snaps| && !Within(rules, lib, Rewound(n.snaps, n.db, |q|), Ascending(p), a))
  {
    hide Lawful, Sized, Replays, Sticks, Within, ReadyToSwitch, Chain, Ordered, TooOldOrLoose, Kept, Inserted, NeverMeet, ApplyAll, Applied, Rewound;
    var at, a := PlacedBy(n.index, n.head, n.nextSerial, n.forkSize, b), q[|q| - 1].block.previous.num;
    if 0 < a && lib(n.db) <= a {
      LinksBack(n, b);
      PushedStaysInOrder(n.index, n.head, n.nextSerial, roots, floor, n.forkSize, NewItem(n.index, n.head, n.nextSerial, b));
      BoundWithin(n.head, at.head, n.forkSize);
      AnySerial(blockOf, at.index, nextSerial, n.nextSerial + 1, roots, Max(floor, Bound(n.head, at.head, n.forkSize)), n.applied, p, q);
      RememberedNeverSticks(blockOf, rules, lib, n, at.index, n.nextSerial + 1, roots, Max(floor, Bound(n.head, at.head, n.forkSize)), p, q);
    }
  }

  lemma AnySerial(blockOf: BlockId -> Block, index: Index, nextSerial: nat, other: nat, roots: set<BlockId>, floor: nat, applied: seq<Block>,
                  p: seq<Item>, q: seq<Item>)
    requires ReadyToSwitch(blockOf, index, nextSerial, applied, p, q) && Ordered(index, other, roots, floor)
    ensures ReadyToSwitch(blockOf, index, other, applied, p, q)
  {
    hide Linked, Joined, Stored, Genuine, Sound;
  }

  lemma LinksBack<V(!new)>(n: Node<V>, b: Block)
    requires !TooOldOrLoose(n.index, n.head, n.forkSize, b) && n.head.Some?
    ensures var item := NewItem(n.index, n.head, n.nextSerial, b);
            && (item.link.None? ==> b.previous == NO_BLOCK)
            && (item.link.Some? ==> b.previous in n.index && n.index[b.previous].serial == item.link.value)
  {
  }

  // ---------------------------------------------------------------- a small chain

  const KEY := ObjectId(0, 0)

  /** The three lines of blocks: ours, one from the start, and one that leaves ours after block 3. */
  function A(n: nat): BlockId { BlockId(n, 0) }
  function B(n: nat): BlockId { if n == 0 then NO_BLOCK else BlockId(n, 1) }
  function C(n: nat): BlockId { if n <= 3 then A(n) else BlockId(n, 2) }

  function BlockOf(id: BlockId): Block
  {
    var below := if id.num == 0 then 0 else id.num - 1;
    Block(id, if id.hash == 1 then B(below) else if id.hash == 2 then C(below) else A(below))
  }

  /** The database holds the id of the head block. */
  function HeadOf(db: Database<BlockId>): BlockId { if KEY in db.objects then db.objects[KEY] else NO_BLOCK }

  /** The last irreversible block: the head, but none after block 2. */
  function Fixed(db: Database<BlockId>): nat { if HeadOf(db).num < 2 then HeadOf(db).num else 2 }

  function Bookkeeping(db: Database<BlockId>, b: Block): seq<Edit<BlockId>>
  {
    if KEY in db.objects then [Edit.Modify(KEY, b.id)] else [Edit.Create(0, b.id)]
  }

  /** Every block on the head is accepted except block 5 of the third line; sizes are as update_global_dynamic_data sets them. */
  function Judge(db: Database<BlockId>, b: Block): Verdict<BlockId>
  {
    var edits := Bookkeeping(db, b);
    Verdict(edits, b.previous == HeadOf(db) && b.id != C(5) && HeadOf(Replayed(db, edits)) == b.id,
            if b.id.num + 1 < Fixed(db) then 0 else b.id.num + 1 - Fixed(db))
  }

  function SmallRules(): Rules<BlockId> { Rules((db, b) => Judge(db, b), db => HeadOf(db)) }

  function Holding(id: BlockId): Database<BlockId>
  {
    if id == NO_BLOCK then Database(map[], map[0 := 0]) else Database(map[KEY := id], map[0 := 1])
  }

  lemma Applies(id: BlockId, b: Block)
    requires b.previous == id && b.id != NO_BLOCK && b.WellFormed()
    ensures HeadOf(Holding(id)) == id
    ensures Applied(SmallRules(), Holding(id), b) == if b.id == C(5) then None else Some(Holding(b.id))
    ensures SmallRules().judge(Holding(id), b).depth == if id.num < 2 then 2 else id.num
  {
    var db := Holding(id);
    var edits := Bookkeeping(db, b);
    assert edits[..0] == [];
    assert Replayed(db, edits) == EditedOrSame(db, edits[0]);
    assert Replayed(db, edits) == Holding(b.id);
  }

  lemma SmallIsLawful()
    ensures Lawful(SmallRules())
  {
  }

  // --------------------------------------------------------------------- the run

  // The blocks as the fork database stores them, in the order in which they come.
  const A1 := Item(Block(BlockId(1, 0), NO_BLOCK), 0, None)
  const B1 := Item(Block(BlockId(1, 1), NO_BLOCK), 1, None)
  const A2 := Item(Block(BlockId(2, 0), BlockId(1, 0)), 2, Some(0))
  const B2 := Item(Block(BlockId(2, 1), BlockId(1, 1)), 3, Some(1))
  const A3 := Item(Block(BlockId(3, 0), BlockId(2, 0)), 4, Some(2))
  const B3 := Item(Block(BlockId(3, 1), BlockId(2, 1)), 5, Some(3))
  const B4 := Item(Block(BlockId(4, 1), BlockId(3, 1)), 6, Some(5))
  const C4 := Item(Block(BlockId(4, 2), BlockId(3, 0)), 7, Some(4))
  const C5 := Item(Block(BlockId(5, 2), BlockId(4, 2)), 8, Some(7))

  /** The item that comes next after `i` blocks. */
  function Coming(i: nat): Item
  {
    match i case 0 => A1 case 1 => B1 case 2 => A2 case 3 => B2 case 4 => A3 case 5 => B3 case 6 => B4 case 7 => C4 case _ => C5
  }

  /** The state after `i` blocks.  Our line is extended three times, with the second line stored beside it.  Block 4 of the
      second line then pushes both blocks 1 out, so that the lines never meet, and block 4 on our own head is only stored. */
  function Stage(i: nat): Node<BlockId>
  {
    var d0, d1, d2, d3 := Holding(NO_BLOCK), Holding(A(1)), Holding(A(2)), Holding(A(3));
    match i
    case 0 => Node(map[], None, 0, 1024, [], d0, 256, [])
    case 1 => Node(map[A1.block.id := A1], Some(A1), 1, 2, [d0], d1, 2, [A1.block])
    case 2 => Node(map[A1.block.id := A1, B1.block.id := B1], Some(A1), 2, 2, [d0], d1, 2, [A1.block])
    case 3 => Node(map[A1.block.id := A1, B1.block.id := B1, A2.block.id := A2], Some(A2), 3, 2, [d0, d1], d2, 2, [A1.block, A2.block])
    case 4 => Node(map[A1.block.id := A1, B1.block.id := B1, A2.block.id := A2, B2.block.id := B2], Some(A2), 4, 2, [d0, d1], d2, 2,
                   [A1.block, A2.block])
    case 5 => Node(map[A1.block.id := A1, B1.block.id := B1, A2.block.id := A2, B2.block.id := B2, A3.block.id := A3], Some(A3), 5, 2,
                   [d0, d1, d2], d3, 2, [A1.block, A2.block, A3.block])
    case 6 => Node(map[A1.block.id := A1, B1.block.id := B1, A2.block.id := A2, B2.block.id := B2, A3.block.id := A3, B3.block.id := B3],
                   Some(A3), 6, 2, [d0, d1, d2], d3, 2, [A1.block, A2.block, A3.block])
    case 7 => Node(map[A2.block.id := A2, B2.block.id := B2, A3.block.id := A3, B3.block.id := B3, B4.block.id := B4],
                   Some(B4), 7, 2, [d0, d1, d2], d3, 2, [A1.block, A2.block, A3.block])
    case _ => Node(map[A2.block.id := A2, B2.block.id := B2, A3.block.id := A3, B3.block.id := B3, B4.block.id := B4, C4.block.id := C4],
                   Some(B4), 8, 2, [d0, d1, d2], d3, 2, [A1.block, A2.block, A3.block])
  }

  /** Pushing the next block leads on, whatever branches there might be, without a fork switch. */
  ghost predicate LeadsOn(i: nat)
  {
    && AfterPush(SmallRules(), Stage(i), Coming(i).block) == Stage(i + 1)
    && !TooOldOrLoose(Stage(i).index, Stage(i).head, Stage(i).forkSize, Coming(i).block)
    && var at := PlacedBy(Stage(i).index, Stage(i).head, Stage(i).nextSerial, Stage(i).forkSize, Coming(i).block);
       forall p, q :: var r := Decided(SmallRules(), Stage(i).snaps, Stage(i).db, Tip(Stage(i).applied), at, Coming(i).block, p, q);
         r.Extended? || r.Ignored? || r.Rejected?
  }

  /** The item a block becomes is new and in range. */
  ghost predicate Arrives(n: Node<BlockId>, item: Item)
  {
    && n.head.Some? && !TooOldOrLoose(n.index, n.head, n.forkSize, item.block) && item.block.WellFormed()
    && item.block.id !in n.index && item == NewItem(n.index, n.head, n.nextSerial, item.block)
  }

  /** A block on the applied head that becomes the fork database's head extends the chain. */
  lemma Extends(n: Node<BlockId>, item: Item)
    requires Arrives(n, item) && item.Num() > n.head.value.Num() && item.block.previous == Tip(n.applied) && item.block.id != C(5)
    requires n.db == Holding(Tip(n.applied)) && LowEnd(item.Num(), n.forkSize) <= 1 && Tip(n.applied).num <= 2
    requires forall id <- n.index :: id.num >= 1
    ensures AfterPush(SmallRules(), n, item.block)
         == Node(n.index[item.block.id := item], Some(item), n.nextSerial + 1, 2, Trimmed(n.snaps, n.logSize) + [n.db],
                 Holding(item.block.id), 2, n.applied + [item.block])
    ensures var at := PlacedBy(n.index, n.head, n.nextSerial, n.forkSize, item.block);
            forall p, q :: Decided(SmallRules(), n.snaps, n.db, Tip(n.applied), at, item.block, p, q) == Extended
  {
    hide Switching, NeverMeet, Holding, SmallRules;
    Applies(Tip(n.applied), item.block);
    var index := n.index[item.block.id := item];
    assert Kept(index, LowEnd(item.Num(), n.forkSize)) == index && Kept(index, LowEnd(item.Num(), 2)) == index;
  }

  /** A block that is no higher than the fork database's head, which does not build on the applied head, is only stored. */
  lemma Waits(n: Node<BlockId>, item: Item)
    requires Arrives(n, item) && item.Num() <= n.head.value.Num() && n.head.value.block.previous != Tip(n.applied)
    ensures AfterPush(SmallRules(), n, item.block) == n.(index := n.index[item.block.id := item], nextSerial := n.nextSerial + 1)
    ensures var at := PlacedBy(n.index, n.head, n.nextSerial, n.forkSize, item.block);
            && at == Placed(n.head.value, n.index[item.block.id := item])
            && (n.head.value.Num() <= Tip(n.applied).num ==>
                forall p, q :: Decided(SmallRules(), n.snaps, n.db, Tip(n.applied), at, item.block, p, q) == Ignored)
  {
    hide Switching, NeverMeet, Holding, SmallRules;
    KeptAll(n.index[item.block.id := item]);
  }

  /** A higher block on another line becomes the fork database's head and prunes it. */
  lemma Leads(n: Node<BlockId>, item: Item)
    requires Arrives(n, item) && item.Num() > n.head.value.Num() && item.block.previous != Tip(n.applied)
    ensures PlacedBy(n.index, n.head, n.nextSerial, n.forkSize, item.block)
         == Placed(item, Kept(n.index[item.block.id := item], LowEnd(item.Num(), n.forkSize)))
    ensures AfterPush(SmallRules(), n, item.block)
         == n.(index := Kept(n.index[item.block.id := item], LowEnd(item.Num(), n.forkSize)), head := Some(item), nextSerial := n.nextSerial + 1)
  {
    hide Switching, NeverMeet, Holding, SmallRules;
  }

  /** Without the blocks 1 the first two lines never meet. */
  lemma NeverTogether(index: Index)
    requires A1.block.id !in index && B1.block.id !in index && forall x <- [A2, A3, B2, B3, B4] :: x.block.id in index && index[x.block.id] == x
    ensures NeverMeet(index, B4.block.id, A3.block.id)
  {
    hide Ancestor;
    assert A2 in [A2, A3, B2, B3, B4] && A3 in [A2, A3, B2, B3, B4] && B2 in [A2, A3, B2, B3, B4] && B3 in [A2, A3, B2, B3, B4] && B4 in [A2, A3, B2, B3, B4];
    Below(index, B4, B3, B2);
    Below(index, A3, A2, A2);
    forall i: nat, j: nat ensures !Meet(index, B4, A3, i, j) {
      if i > 2 && Ancestor(index, B4, i).Some? { AncestorsEnd(index, B4, 3, i); }
      if j > 1 && Ancestor(index, A3, j).Some? { AncestorsEnd(index, A3, 2, j); }
    }
  }

  /** The ancestors of `x` are `y`, and `z` when that is another one. */
  lemma Below(index: Index, x: Item, y: Item, z: Item)
    requires Parent(index, x) == Some(y) && (if z == y then Parent(index, y) == None else Parent(index, y) == Some(z) && Parent(index, z) == None)
    ensures Ancestor(index, x, 0) == Some(x) && Ancestor(index, x, 1) == Some(y)
    ensures if z == y then Ancestor(index, x, 2) == None else Ancestor(index, x, 2) == Some(z) && Ancestor(index, x, 3) == None
  {
    AncestorStep(index, x, 0);
    AncestorStep(index, x, 1);
    AncestorStep(index, x, 2);
  }

  /** What is left of the index once block 5 on our side has come. */
  function Last(): Index
  {
    map[A3.block.id := A3, B3.block.id := B3, B4.block.id := B4, C4.block.id := C4, C5.block.id := C5]
  }

  /** The branches of the switch: the applied head itself is on both. */
  lemma OnlyBranches(p: seq<Item>, q: seq<Item>)
    requires Branches(Last(), C5, A3, p, q)
    ensures p == [C5, C4, A3] && q == [A3]
  {
    assert Parent(Last(), A3) == None && Parent(Last(), C4) == Some(A3) && Parent(Last(), C5) == Some(C4);
    if |q| > 1 { Follows(Last(), q, 0); assert false; }
    if |p| > 1 { Follows(Last(), p, 0); }
    if |p| > 2 { Follows(Last(), p, 1); }
    if |p| > 3 { Follows(Last(), p, 2); assert false; }
  }

  lemma Follows(index: Index, line: seq<Item>, i: nat)
    requires Linked(index, line) && i + 1 < |line|
    ensures Parent(index, line[i]) == Some(line[i + 1])
  {
  }

  /** Blocks 3 and 4 are accepted again and block 5 is not; they ask for two, three and four layers. */
  lemma NewBranchRun()
    ensures var rules, bs, db := SmallRules(), [A3.block, C4.block, C5.block], Holding(A(2));
            && ApplyAll(rules, db, bs[..0]) == Some(db) && ApplyAll(rules, db, bs[..1]) == Some(Holding(A(3)))
            && ApplyAll(rules, db, bs[..2]) == Some(Holding(C(4))) && ApplyAll(rules, db, bs) == None
            && DepthOf(rules, db, bs, 0) == 2 && DepthOf(rules, db, bs, 1) == 3 && DepthOf(rules, db, bs, 2) == 4
  {
    hide Applied, SmallRules, Holding;
    var rules, bs, db := SmallRules(), [A3.block, C4.block, C5.block], Holding(A(2));
    Applies(A(2), A3.block);
    Applies(A(3), C4.block);
    Applies(C(4), C5.block);
    assert bs[..1][..0] == bs[..0] == [] && bs[..2][..1] == bs[..1] && bs[..3] == bs;
    assert ApplyAll(rules, db, bs[..1]) == Applied(rules, db, bs[0]);
    assert ApplyAll(rules, db, bs[..2]) == Applied(rules, Holding(A(3)), bs[1]);
    assert ApplyAll(rules, db, bs) == Applied(rules, Holding(C(4)), bs[2]);
  }

  /** No block of the switch passes the common ancestor with the last irreversible block, and yet it can be neither finished
      nor taken back: stepping back twice from block 3 takes block 2 and block 1, and both are gone. */
  lemma LongerBranchSticks(snaps: seq<Database<BlockId>>, db: Database<BlockId>)
    requires snaps != [] && snaps[|snaps| - 1] == Holding(A(2))
    ensures var p, q := [C5, C4, A3], [A3];
            && Branches(Last(), C5, A3, p, q) && |p| == |q| + 2
            && Reversible(SmallRules(), db => Fixed(db), Rewound(snaps, db, |q|), Ascending(p), q[0].block.previous.num)
            && Sticks(SmallRules(), snaps, db, Last(), Some(C5), p, q)
  {
    hide Branches, Reversible, SmallRules, Holding, Accepted, Shrunk, Ancestor, HeldItems, Ascending;
    var p, q := [C5, C4, A3], [A3];
    var bs := [A3.block, C4.block, C5.block];
    NewBranch();
    NewBranchReversible();
    StepsToFour();
    NoWayBack();
  }

  lemma NewBranch()
    ensures Branches(Last(), C5, A3, [C5, C4, A3], [A3]) && Ascending([C5, C4, A3]) == [A3.block, C4.block, C5.block]
  {
  }

  lemma NewBranchReversible()
    ensures Reversible(SmallRules(), db => Fixed(db), Holding(A(2)), [A3.block, C4.block, C5.block], 2)
    ensures Accepted(SmallRules(), Holding(A(2)), [A3.block, C4.block, C5.block]) == 2
  {
    hide ApplyAll, DepthOf, SmallRules, Holding, Accepted, Applied;
    var bs := [A3.block, C4.block, C5.block];
    NewBranchRun();
    Fixes();
    assert bs[..3] == bs;
    AcceptedIs(SmallRules(), Holding(A(2)), bs, 2);
  }

  lemma StepsToFour()
    ensures Down(Last(), Some(C5), 1) == Some(C4)
  {
    AncestorStep(Last(), C5, 0);
  }

  lemma NoWayBack()
    ensures var p, q, bs := [C5, C4, A3], [A3], [A3.block, C4.block, C5.block];
            Ancestor(Shrunk(SmallRules(), Holding(A(2)), bs, Last(), Some(C4), 3) + HeldItems(Last(), p, q), A3, 2).None?
  {
    hide LowestKept;
    var p, q, bs := [C5, C4, A3], [A3], [A3.block, C4.block, C5.block];
    var live := Shrunk(SmallRules(), Holding(A(2)), bs, Last(), Some(C4), 3) + HeldItems(Last(), p, q);
    assert A2.block.id !in Last() && A2.block.id !in live;
    assert Parent(live, A3) == None;
  }

  lemma Fixes()
    ensures Fixed(Holding(A(2))) == 2 && Fixed(Holding(A(3))) == 2 && Fixed(Holding(C(4))) == 2
  {
  }

  // ------------------------------------------------------------- the run as it happens

  lemma FirstLeadsOn()
    ensures LeadsOn(0)
  {
    hide Switching, NeverMeet;
    Applies(NO_BLOCK, A1.block);
    assert Trimmed<Database<BlockId>>([], 256) == [];
    var at := PlacedBy(map[], None, 0, 1024, A1.block);
    assert at == Placed(A1, map[A1.block.id := A1]);
    assert Pruned(at.index, Some(A1), 2) == at.index;
  }

  lemma ExtendsOn(i: nat)
    requires i == 2 || i == 4
    ensures LeadsOn(i)
  {
    hide AfterPush, Holding, SmallRules, Decided, PlacedBy;
    Extends(Stage(i), Coming(i));
  }

  lemma WaitsOn(i: nat)
    requires i == 1 || i == 3 || i == 5
    ensures LeadsOn(i)
  {
    hide AfterPush, Holding, SmallRules, Decided, PlacedBy;
    Waits(Stage(i), Coming(i));
  }

  lemma Detaches()
    ensures LeadsOn(6)
  {
    hide AfterPush, Holding, SmallRules, PlacedBy, NeverMeet, Switching;
    Leads(Stage(6), B4);
    NeverTogether(Stage(7).index);
  }

  lemma StaysDetached()
    ensures LeadsOn(7)
  {
    hide AfterPush, Holding, SmallRules, PlacedBy, NeverMeet, Switching;
    Waits(Stage(7), C4);
    NeverTogether(Stage(8).index);
  }

  lemma AllLeadOn(i: nat)
    requires i < 8
    ensures LeadsOn(i)
  {
    hide LeadsOn;
    if i == 0 { FirstLeadsOn(); }
    else if i == 1 || i == 3 || i == 5 { WaitsOn(i); }
    else if i == 2 || i == 4 { ExtendsOn(i); }
    else if i == 6 { Detaches(); }
    else { StaysDetached(); }
  }

  lemma Comes(i: nat)
    ensures Coming(i).block.WellFormed() && BlockOf(Coming(i).block.id) == Coming(i).block
  {
  }

  /** Block 5 on our side starts the switch that cannot be finished. */
  lemma LastSticks(p: seq<Item>, q: seq<Item>)
    ensures var n := Stage(8);
            var at := PlacedBy(n.index, n.head, n.nextSerial, n.forkSize, C5.block);
            && at == Placed(C5, Last()) && !TooOldOrLoose(n.index, n.head, n.forkSize, C5.block)
            && var r := Decided(SmallRules(), n.snaps, n.db, Tip(n.applied), at, C5.block, p, q);
               (r.Switched? || r.Restored? || r.Stuck?) && (Branches(Last(), C5, A3, p, q) ==> r == Stuck)
  {
    hide AfterPush, Holding, SmallRules, PlacedBy, Branches, Sticks, Ancestor;
    var n := Stage(8);
    Leads(n, C5);
    assert Kept(n.index[C5.block.id := C5], 3) == Last();
    AncestorStep(Last(), C5, 0);
    AncestorStep(Last(), C5, 1);
    assert Ancestor(Last(), C5, 0) == Some(C5) && Ancestor(Last(), A3, 0) == Some(A3) by { Itself(); }
    assert Meet(Last(), C5, A3, 2, 0);
    LongerBranchSticks(n.snaps, n.db);
    if Branches(Last(), C5, A3, p, q) { OnlyBranches(p, q); }
  }

  lemma Itself()
    ensures Ancestor(Last(), C5, 0) == Some(C5) && Ancestor(Last(), A3, 0) == Some(A3)
  {
  }

  ghost predicate Reached(c: ChainDatabase<BlockId>, i: nat)
    reads c, c.undo, c.fork
  {
    c.Valid() && c.ForkSound() && c.rules == SmallRules() && c.blockOf == BlockOf && c.View() == Stage(i)
  }

  method PushNext(c: ChainDatabase<BlockId>, i: nat)
    requires Reached(c, i) && i < 8
    modifies c, c.undo, c.fork
    ensures Reached(c, i + 1)
  {
    hide LeadsOn, Decided, PlacedBy, AfterPush, SmallRules, Holding, TooOldOrLoose, Stage, Coming, Tip, Lawful, Chain, Replays, Sound, Genuine,
         GenuineChain, Branches, ReadyToSwitch, Shrunk, ApplyAll, Applied;
    AllLeadOn(i);
    Comes(i);
    Means(i);
    ghost var p, q;
    var r;
    r, p, q := c.PushBlock(Coming(i).block);
  }

  method PushLast(c: ChainDatabase<BlockId>) returns (r: Outcome)
    requires Reached(c, 8)
    modifies c, c.undo, c.fork
    ensures r == Stuck
  {
    hide Decided, PlacedBy, AfterPush, SmallRules, Holding, TooOldOrLoose, Lawful, Chain, Replays, Sound, Genuine,
         GenuineChain, Branches, ReadyToSwitch, Shrunk, ApplyAll, Applied, Last;
    Comes(8);
    ghost var p, q;
    r, p, q := c.PushBlock(C5.block);
    LastSticks(p, q);
    TipIsThree();
  }

  lemma TipIsThree()
    ensures Tip(Stage(8).applied) == A3.block.id && A3.block.id in Last() && Last()[A3.block.id] == A3 && C5.block.id in Last() && Last()[C5.block.id] == C5
  {
  }

  /** From an empty chain, nine blocks lead to a fork switch that gets stuck. */
  method GetStuck() returns (r: Outcome)
    ensures r == Stuck
  {
    hide SmallRules, Lawful, Reached, Stage;
    var c := Opened({0});
    for i := 0 to 8
      invariant Reached(c, i)
    {
      PushNext(c, i);
    }
    r := PushLast(c);
  }

  method Opened(indexes: set<nat>) returns (c: ChainDatabase<BlockId>)
    requires indexes == {0}
    ensures fresh(c) && fresh(c.undo) && fresh(c.fork) && Reached(c, 0)
  {
    assert (map i | i in indexes :: 0) == map[0 := 0];
    SmallIsLawful();
    c := new ChainDatabase<BlockId>(SmallRules(), indexes, BlockOf);
  }

  lemma Means(i: nat)
    requires LeadsOn(i)
    ensures AfterPush(SmallRules(), Stage(i), Coming(i).block) == Stage(i + 1)
    ensures !TooOldOrLoose(Stage(i).index, Stage(i).head, Stage(i).forkSize, Coming(i).block)
    ensures var at := PlacedBy(Stage(i).index, Stage(i).head, Stage(i).nextSerial, Stage(i).forkSize, Coming(i).block);
            forall p, q :: var r := Decided(SmallRules(), Stage(i).snaps, Stage(i).db, Tip(Stage(i).applied), at, Coming(i).block, p, q);
              r.Extended? || r.Ignored? || r.Rejected?
  {
  }
}
