/**
 Applying, popping and switching blocks (libraries/chain/db_block.cpp) on top of the undo log and
 the fork database.  What a block does to the objects is left open: `Rules.judge` is any
 deterministic function giving the edits a block makes and whether it is accepted in the end.
 */
module ChainDatabases {
  import opened Options
  import opened UndoLog
  import opened UndoDatabases
  import opened ForkDatabases

  /** The edits apply_block performs before it returns or throws, and the history depth it asks for. */
  datatype Verdict<V> = Verdict(edits: seq<Edit<V>>, accepted: bool, depth: nat)

  datatype Rules<!V(!new)> = Rules(judge: (Database<V>, Block) -> Verdict<V>, head: Database<V> -> BlockId)

  datatype Outcome = Extended | Ignored | Switched | Restored | Rejected | Stuck

  /** An edit of an object or index that is not there throws and changes nothing. */
  function EditedOrSame<V>(db: Database<V>, e: Edit<V>): Database<V>
  {
    if Legal(db, e) then Edited(db, e) else db
  }

  function Replayed<V>(db: Database<V>, edits: seq<Edit<V>>): Database<V>
  {
    if edits == [] then db else EditedOrSame(Replayed(db, edits[..|edits| - 1]), edits[|edits| - 1])
  }

  /** The edit changes or removes this object. */
  predicate Touches<V>(e: Edit<V>, id: ObjectId) { (e.Modify? && e.id == id) || (e.Remove? && e.oldId == id) }

  /** The last edit of an object decides: what it is changed to stays, and what is removed does not come back. */
  lemma {:induction false} LastEditWins<V>(db: Database<V>, edits: seq<Edit<V>>, j: nat, id: ObjectId)
    requires WellNumbered(db) && j < |edits| && Touches(edits[j], id) && id in Replayed(db, edits[..j]).objects
    requires forall k | j < k < |edits| :: !Touches(edits[k], id)
    ensures var r := Replayed(db, edits);
            && (edits[j].Modify? ==> id in r.objects && r.objects[id] == edits[j].newValue) && (edits[j].Remove? ==> id !in r.objects)
            && WellNumbered(r) && id.index in r.nextIds && id.instance < r.nextIds[id.index]
    decreases |edits|
  {
    var n := |edits| - 1;
    var front := edits[..n];
    if j == n {
      ReplayedIsNumbered(db, front);
    } else {
      assert front[..j] == edits[..j];
      LastEditWins(db, front, j, id);
    }
  }

  /** An object no edit touches is left alone. */
  lemma {:induction false} OthersAreKept<V>(db: Database<V>, edits: seq<Edit<V>>, id: ObjectId)
    requires WellNumbered(db) && id in db.objects && forall k | 0 <= k < |edits| :: !Touches(edits[k], id)
    ensures WellNumbered(Replayed(db, edits)) && id in Replayed(db, edits).objects && Replayed(db, edits).objects[id] == db.objects[id]
    decreases |edits|
  {
    if edits != [] { OthersAreKept(db, edits[..|edits| - 1], id); }
  }

  lemma {:induction false} ReplayedIsNumbered<V>(db: Database<V>, edits: seq<Edit<V>>)
    requires WellNumbered(db)
    ensures WellNumbered(Replayed(db, edits))
    decreases |edits|
  {
    if edits != [] { ReplayedIsNumbered(db, edits[..|edits| - 1]); }
  }

  /** The database after an accepted block. */
  function Applied<V(!new)>(rules: Rules<V>, db: Database<V>, b: Block): Option<Database<V>>
  {
    var v := rules.judge(db, b);
    if v.accepted then Some(Replayed(db, v.edits)) else None
  }

  function ApplyAll<V(!new)>(rules: Rules<V>, db: Database<V>, blocks: seq<Block>): Option<Database<V>>
  {
    if blocks == [] then Some(db)
    else match ApplyAll(rules, db, blocks[..|blocks| - 1])
      case None => None
      case Some(d) => Applied(rules, d, blocks[|blocks| - 1])
  }

  /** validate_block_header and update_global_dynamic_data: an accepted block builds on the head and becomes it. */
  ghost predicate Lawful<V(!new)>(rules: Rules<V>)
  {
    forall db, b :: Applied(rules, db, b).Some? ==>
      b.previous == rules.head(db) && rules.head(Applied(rules, db, b).value) == b.id
  }

  /** How many blocks of a line are accepted one after the other. */
  function Accepted<V(!new)>(rules: Rules<V>, db: Database<V>, blocks: seq<Block>): (k: nat)
    ensures k <= |blocks|
  {
    if blocks == [] then 0
    else
      var n := |blocks| - 1;
      var k := Accepted(rules, db, blocks[..n]);
      if k == n && ApplyAll(rules, db, blocks).Some? then n + 1 else k
  }

  /** The history block `j` of a line asks for when it is applied. */
  function DepthOf<V(!new)>(rules: Rules<V>, db: Database<V>, blocks: seq<Block>, j: nat): nat
    requires j < |blocks|
  {
    match ApplyAll(rules, db, blocks[..j])
    case None => 0
    case Some(d) => rules.judge(d, blocks[j]).depth
  }

  /** Each of the first `k` blocks asks for the layers of the line up to and including itself. */
  ghost predicate Deep<V(!new)>(rules: Rules<V>, db: Database<V>, blocks: seq<Block>, k: nat)
    requires k <= |blocks|
  {
    forall j | 0 <= j < k :: DepthOf(rules, db, blocks, j) >= j + 1
  }

  /** Below which number the fork database is pruned once `k` blocks of the line have asked for their history. */
  function LowestKept<V(!new)>(rules: Rules<V>, db: Database<V>, blocks: seq<Block>, num: nat, k: nat): nat
    requires k <= |blocks|
  {
    if k == 0 then 0 else Max(LowestKept(rules, db, blocks, num, k - 1), LowEnd(num, DepthOf(rules, db, blocks, k - 1)))
  }

  ghost function Shrunk<V(!new)>(rules: Rules<V>, db: Database<V>, blocks: seq<Block>, index: Index, head: Option<Item>, k: nat): Index
    requires k <= |blocks|
  {
    if head.None? then index else Kept(index, LowestKept(rules, db, blocks, head.value.Num(), k))
  }

  function Tip(applied: seq<Block>): BlockId
  {
    if applied == [] then NO_BLOCK else applied[|applied| - 1].id
  }

  /** Blocks numbered from one, each building on the one before. */
  ghost predicate Chain(applied: seq<Block>)
  {
    forall i | 0 <= i < |applied| :: applied[i].id.num == i + 1 && applied[i].previous == Tip(applied[..i])
  }

  /** Every kept undo layer belongs to an applied block: applying that block again leads from layer to layer. */
  ghost predicate Replays<V(!new)>(rules: Rules<V>, snaps: seq<Database<V>>, applied: seq<Block>, db: Database<V>)
  {
    |snaps| <= |applied| && forall j | 0 <= j < |snaps| :: ReplaysAt(rules, snaps, applied, db, j)
  }

  ghost predicate ReplaysAt<V(!new)>(rules: Rules<V>, snaps: seq<Database<V>>, applied: seq<Block>, db: Database<V>, j: nat)
    requires j < |snaps| <= |applied|
  {
    Applied(rules, snaps[j], applied[|applied| - |snaps| + j]) == Some(After(snaps, db, j))
  }

  /** The database as it was before the last `k` applied blocks. */
  function Rewound<D>(snaps: seq<D>, db: D, k: nat): D
    requires k <= |snaps|
  {
    if k == 0 then db else snaps[|snaps| - k]
  }

  /** Where `k` steps down from the fork database's head lead. */
  function Down(index: Index, head: Option<Item>, k: nat): Option<Item>
  {
    if head.None? then None else Ancestor(index, head.value, k)
  }

  /** The blocks of a line of descent, oldest first. */
  function Ascending(items: seq<Item>): (bs: seq<Block>)
    ensures |bs| == |items|
  {
    seq(|items|, i requires 0 <= i < |items| => items[|items| - 1 - i].block)
  }

  /** The state a sequence of pops starts from. */
  datatype Past<V> = Past(snaps: seq<Database<V>>, db: Database<V>, applied: seq<Block>, live: Index, head: Option<Item>, maxSize: nat)

  /** The whole state: fork database, undo log, database and applied chain. */
  datatype Node<V> = Node(index: Index, head: Option<Item>, nextSerial: nat, forkSize: nat,
                          snaps: seq<Database<V>>, db: Database<V>, logSize: nat, applied: seq<Block>)

  class ChainDatabase<V(!new)> {
    const rules: Rules<V>
    const undo: UndoDatabase<V>
    const fork: ForkDatabase
    ghost var applied: seq<Block>
    /** Block ids are hashes: an id belongs to one block. */
    ghost const blockOf: BlockId -> Block

    ghost function Db(): Database<V>
      reads this, undo
    {
      Database(undo.objects, undo.nextIds)
    }

    ghost function View(): Node<V>
      reads this, undo, fork
    {
      Node(fork.index, fork.head, fork.nextSerial, fork.maxSize, undo.snaps, Db(), undo.maxSize, applied)
    }

    ghost predicate Valid()
      reads this, undo
    {
      && undo.Valid() && undo.active == 0 && !undo.disabled
      && Lawful(rules) && Chain(applied) && rules.head(Db()) == Tip(applied)
      && Replays(rules, undo.snaps, applied, Db()) && GenuineChain(blockOf, applied)
    }

    /** What every outcome of a push leaves of the fork database. */
    ghost predicate ForkSound()
      reads this, fork
    {
      Sound(fork.index, fork.nextSerial) && Genuine(blockOf, fork.index)
    }

    /** The fork database is in order and its head is the last applied block. */
    ghost predicate InStep()
      reads this, fork
    {
      fork.Valid() && if fork.head.None? then applied == [] else fork.head.value.block.id == Tip(applied)
    }

    constructor (rules: Rules<V>, indexes: set<nat>, ghost blockOf: BlockId -> Block)
      requires Lawful(rules) && rules.head(Database(map[], map i | i in indexes :: 0)) == NO_BLOCK
      ensures Valid() && ForkSound() && InStep() && fresh(undo) && fresh(fork) && applied == []
      ensures this.rules == rules && this.blockOf == blockOf && fork.roots == {} && fork.floor == 0
      ensures View() == Node(map[], None, 0, 1024, [], Database(map[], map i | i in indexes :: 0), 256, [])
    {
      this.rules := rules;
      this.blockOf := blockOf;
      undo := new UndoDatabase<V>(indexes);
      fork := new ForkDatabase();
      applied := [];
      new;
      undo.EnableLog();
    }

    /** Perform the edits of a block inside an open session. */
    method RunEdits(edits: seq<Edit<V>>)
      requires undo.Valid() && !undo.disabled && undo.layers != []
      modifies undo
      ensures undo.Valid() && !undo.disabled && undo.active == old(undo.active) && undo.maxSize == old(undo.maxSize)
      ensures |undo.layers| == |old(undo.layers)| && undo.snaps == old(undo.snaps)
      ensures Db() == Replayed(old(Db()), edits)
    {
      for i := 0 to |edits|
        invariant undo.Valid() && !undo.disabled && undo.active == old(undo.active) && undo.maxSize == old(undo.maxSize)
        invariant |undo.layers| == |old(undo.layers)| && undo.snaps == old(undo.snaps)
        invariant Db() == Replayed(old(Db()), edits[..i])
      {
        assert edits[..i + 1][..i] == edits[..i];
        match edits[i]
        case Create(index, value) => var _, _ := undo.Create(index, value);
        case Modify(id, value) => var _ := undo.Modify(id, value);
        case Remove(id) => var _ := undo.Remove(id);
      }
      assert edits[..|edits|] == edits;
    }

    /** Open a session, apply the block, and commit; a rejected block is undone by the session's destructor. */
    method ApplyBlock(b: Block) returns (ok: bool)
      requires Valid() && b.WellFormed() && blockOf(b.id) == b
      modifies this, undo, fork
      ensures Valid() && ok == Applied(rules, old(Db()), b).Some?
      ensures if ok then applied == old(applied) + [b] && Some(Db()) == Applied(rules, old(Db()), b)
              else applied == old(applied) && Db() == old(Db())
      ensures undo.snaps == Trimmed(old(undo.snaps), old(undo.maxSize)) + if ok then [old(Db())] else []
      ensures undo.maxSize == rules.judge(old(Db()), b).depth
      ensures fork.head == old(fork.head) && fork.index == Pruned(old(fork.index), old(fork.head), undo.maxSize)
      ensures fork.nextSerial == old(fork.nextSerial) && fork.maxSize == undo.maxSize && (old(fork.Valid()) ==> fork.Valid())
      ensures (old(fork.InOrder()) ==> fork.InOrder()) && fork.roots == old(fork.roots)
      ensures fork.head.Some? ==> fork.floor == Max(old(fork.floor), LowEnd(fork.head.value.Num(), undo.maxSize))
    {
      var v := rules.judge(Database(undo.objects, undo.nextIds), b);
      hide Faithful, Replays, Chain, Lawful, Kept, Trimmed;
      ghost var db, snaps := Db(), Trimmed(undo.snaps, undo.maxSize);
      TrimmedStillReplays(rules, undo.snaps, applied, db, undo.maxSize);
      InSession(v);
      fork.SetMaxSize(v.depth);
      ok := v.accepted;
      if ok {
        ApplyingStillReplays(rules, snaps, applied, db, b);
        applied := applied + [b];
      } else {
        assert undo.snaps == snaps;
      }
    }

    /** The session around apply_block: committed, or rolled back when the block throws. */
    method InSession(v: Verdict<V>)
      requires undo.Valid() && undo.active == 0 && !undo.disabled
      modifies undo
      ensures undo.Valid() && undo.active == 0 && !undo.disabled && undo.maxSize == v.depth
      ensures Db() == if v.accepted then Replayed(old(Db()), v.edits) else old(Db())
      ensures undo.snaps == Trimmed(old(undo.snaps), old(undo.maxSize)) + if v.accepted then [old(Db())] else []
    {
      hide Faithful;
      var _ := undo.StartSession(false);
      assert Db() == old(Db()) && undo.snaps == Trimmed(old(undo.snaps), old(undo.maxSize)) + [old(Db())];
      RunEdits(v.edits);
      undo.SetMaxSize(v.depth);
      assert undo.active == 1 && !undo.disabled;
      if v.accepted {
        var _ := undo.CommitSession();
      } else {
        var _ := undo.UndoSession();
      }
    }

    /** pop_block: the fork database's head and the applied chain both step back one block. */
    method PopBlock(held: Index) returns (ok: bool)
      requires Valid()
      modifies this, undo, fork`head
      ensures Valid() && undo.maxSize == old(undo.maxSize)
      ensures ok <==> old(undo.layers) != [] && Down(fork.index + held, old(fork.head), 1).Some?
      ensures if ok then
                && fork.head == Down(fork.index + held, old(fork.head), 1)
                && applied == old(applied)[..|old(applied)| - 1]
                && Db() == Rewound(old(undo.snaps), old(Db()), 1)
                && undo.snaps == old(undo.snaps)[..|old(undo.snaps)| - 1]
              else applied == old(applied) && Db() == old(Db()) && undo.snaps == old(undo.snaps)
    {
      hide Faithful, Replays, Chain, Lawful;
      ok := fork.PopHead(held);
      if !ok { return; }
      if undo.snaps != [] { PoppingStillReplays(rules, undo.snaps, applied, Db()); }
      ok := undo.PopCommitted();
      if ok { applied := applied[..|applied| - 1]; }
    }

    /** `k` blocks of the chain `at` have been popped, the fork database's head following from `head0`. */
    ghost predicate Back(k: nat, at: Past<V>, held: Index)
      reads this, undo, fork
    {
      && Valid() && undo.maxSize == at.maxSize && fork.index + held == at.live
      && SteppedBack(k, at.snaps, at.db, at.applied, undo.snaps, Db(), applied)
      && fork.head == Down(at.live, at.head, k) && (k > 0 ==> fork.head.Some?)
    }

    ghost function Now(held: Index): Past<V>
      reads this, undo, fork
    {
      Past(undo.snaps, Db(), applied, fork.index + held, fork.head, undo.maxSize)
    }

    /** Pop blocks until `target` is the head, which is `k` blocks back. */
    method PopTo(target: BlockId, held: Index, ghost k: nat) returns (ok: bool)
      requires Valid() && k <= |applied| && Tip(applied[..|applied| - k]) == target
      modifies this, undo, fork`head
      ensures Valid() && undo.maxSize == old(undo.maxSize)
      ensures ok <==> k == 0 || (k <= |old(undo.snaps)| && Down(fork.index + held, old(fork.head), k).Some?)
      ensures ok ==> Back(k, old(Now(held)), held)
      ensures !ok ==> |applied| > |old(applied)| - k && applied <= old(applied)
    {
      hide Faithful, Replays, Lawful, Chain;
      ghost var at, i := Now(held), 0;
      TipNum(applied[..|applied| - k], applied);
      while rules.head(Database(undo.objects, undo.nextIds)) != target
        invariant Back(i, at, held) && i <= k
        decreases k - i
      {
        ok := PopOnce(held, target, at, i, k);
        if !ok { return; }
        i := i + 1;
      }
      TipNum(applied, applied);
      ok := true;
    }

    method PopOnce(held: Index, ghost target: BlockId, ghost at: Past<V>, ghost i: nat, ghost k: nat) returns (ok: bool)
      requires Back(i, at, held) && i <= k <= |at.applied| && Tip(at.applied[..|at.applied| - k]) == target
      requires rules.head(Db()) != target
      modifies this, undo, fork`head
      ensures i < k && Valid() && undo.maxSize == old(undo.maxSize)
      ensures ok ==> Back(i + 1, at, held)
      ensures !ok ==> !(k <= |at.snaps| && Down(at.live, at.head, k).Some?) && applied == old(applied)
    {
      hide Faithful, Replays, Lawful, Chain;
      StepDown(at.live, at.head, i, k);
      SteppedBackOnce(i, at.snaps, at.db, at.applied, undo.snaps, Db(), applied);
      ok := PopBlock(held);
    }

    /** Apply the blocks of a line of descent, oldest first, up to the first one that is rejected. */
    method ApplyLine(line: seq<Item>) returns (k: nat)
      requires Valid() && forall i | 0 <= i < |line| :: line[i].block.WellFormed() && blockOf(line[i].block.id) == line[i].block
      modifies this, undo, fork
      ensures Valid() && k == Accepted(rules, old(Db()), Ascending(line))
      ensures applied == old(applied) + Ascending(line)[..k]
      ensures ApplyAll(rules, old(Db()), Ascending(line)[..k]) == Some(Db())
      ensures k < |line| ==> Applied(rules, Db(), Ascending(line)[k]).None?
      ensures k < |line| ==> (k <= |undo.snaps| <==> Deep(rules, old(Db()), Ascending(line), k))
      ensures k <= |undo.snaps| ==> Rewound(undo.snaps, Db(), k) == old(Db())
      ensures fork.head == old(fork.head) && fork.nextSerial == old(fork.nextSerial)
      ensures fork.index == Shrunk(rules, old(Db()), Ascending(line), old(fork.index), fork.head, if k < |line| then k + 1 else k)
      ensures old(fork.InOrder()) ==> fork.InOrder()
    {
      hide Faithful, Replays, Lawful, Chain, Applied, ApplyAll, Kept, Trimmed, Logged, Shrunk, Pruned, Deep, DepthOf, Accepted,
           ForkDatabase.InOrder, ForkDatabase.Valid;
      ghost var bs, db0, index0 := Ascending(line), Db(), fork.index;
      k := 0;
      LogStarts(rules, db0, bs, undo.snaps, undo.maxSize, index0, fork.head);
      while k < |line|
        invariant Valid() && k <= |line| && fork.head == old(fork.head) && fork.nextSerial == old(fork.nextSerial)
        invariant applied == old(applied) + bs[..k]
        invariant ApplyAll(rules, db0, bs[..k]) == Some(Db())
        invariant Logged(rules, db0, bs, undo.snaps, Db(), undo.maxSize, k)
        invariant fork.index == Shrunk(rules, db0, bs, index0, fork.head, k)
        invariant old(fork.InOrder()) ==> fork.InOrder()
      {
        ghost var snaps, db, size := undo.snaps, Db(), undo.maxSize;
        var ok := ApplyBlock(line[|line| - 1 - k].block);
        ShrinksOn(rules, db0, bs, index0, fork.head, k, db);
        LogGoesOn(rules, db0, bs, snaps, db, size, k, Db());
        ApplyOneMore(rules, db0, bs, k);
        if !ok {
          assert Trimmed(snaps, size) + [] == Trimmed(snaps, size);
          AcceptedIs(rules, db0, bs, k);
          return;
        }
        assert bs[..k] + [bs[k]] == bs[..k + 1];
        k := k + 1;
      }
      AcceptedIs(rules, db0, bs, k);
      LogReaches(rules, db0, bs, undo.snaps, Db(), undo.maxSize, k);
    }

    /** _push_block.  `p` and `q` are the branches of a fork switch. */
    method PushBlock(b: Block) returns (r: Outcome, ghost p: seq<Item>, ghost q: seq<Item>)
      requires Valid() && ForkSound() && b.WellFormed() && blockOf(b.id) == b
      modifies this, undo, fork
      ensures Valid() && ForkSound()
      ensures old(TooOldOrLoose(fork.index, fork.head, fork.maxSize, b)) ==>
                r.Rejected? && fork.index == old(fork.index) && fork.head == old(fork.head)
      ensures old(!TooOldOrLoose(fork.index, fork.head, fork.maxSize, b)) ==>
                (var at := old(PlacedBy(fork.index, fork.head, fork.nextSerial, fork.maxSize, b));
                 && r == Decided(rules, old(undo.snaps), old(Db()), Tip(old(applied)), at, b, p, q)
                 && (r.Switched? || r.Restored? || r.Stuck? ==>
                     && at.head.block.id in at.index && Tip(old(applied)) in at.index
                     && Branches(at.index, at.index[at.head.block.id], at.index[Tip(old(applied))], p, q)
                     && 0 < |q| < |p| && ReadyToSwitch(blockOf, at.index, fork.nextSerial, old(applied), p, q))
                 && (r.Switched? ==> |q| <= |old(undo.snaps)| && fork.head == Down(at.index, Some(at.head), |q|)
                                     && fork.index == Shrunk(rules, Rewound(old(undo.snaps), old(Db()), |q|), Ascending(p), at.index, fork.head, |p|))
                 && (r.Extended? || r.Ignored? || r.Rejected? ==> fork.head == Some(at.head))
                 && (r.Rejected? && at.head.block.previous == Tip(old(applied)) ==> b.id !in fork.index))
      ensures !(r.Switched? || r.Restored? || r.Stuck?) ==> View() == AfterPush(rules, old(View()), b)
      ensures r.Extended? ==> applied == old(applied) + [b] && Applied(rules, old(Db()), b) == Some(Db())
      ensures r.Rejected? || r.Ignored? || r.Restored? ==> applied == old(applied) && Db() == old(Db())
      ensures r.Switched? ==> |q| <= |old(undo.snaps)| && |q| <= |old(applied)|
      ensures r.Switched? ==> applied == old(applied)[..|old(applied)| - |q|] + Ascending(p)
      ensures r.Switched? ==> ApplyAll(rules, Rewound(old(undo.snaps), old(Db()), |q|), Ascending(p)) == Some(Db())
      ensures r.Stuck? ==> |q| <= |old(applied)|
      ensures r.Stuck? ==> old(applied)[..|old(applied)| - |q|] <= applied
      ensures old(fork.InOrder()) && (r.Extended? || r.Ignored? || r.Switched?) ==> fork.InOrder()
      ensures r.Extended? || r.Ignored? ==>
                && fork.roots == old(if fork.head.None? then fork.roots + {b.id} else fork.roots)
                && fork.head.Some? && fork.floor <= Max(old(fork.floor), Max(LowEnd(fork.head.value.Num(), old(fork.maxSize)), LowEnd(fork.head.value.Num(), fork.maxSize)))
      ensures old(InStep()) && (r.Extended? || r.Ignored?) ==> InStep()
      ensures old(InStep()) && (r.Switched? || r.Restored? || r.Stuck?) ==> |p| == |q| + 1
      ensures old(InStep()) && r.Rejected? ==> InStep() || (fork.head.Some? && fork.head.value.block == b)
    {
      hide NeverMeet, Meet, Inserted, Kept, Bound, LowEnd, NewHead, Sticks, Down, Shrunk, TooOldOrLoose, Tried;
      hide Faithful, Replays, Lawful, Chain, Applied, ApplyAll, Ascending, ReadyToSwitch, Sound, Genuine, GenuineChain,
           Branches, Linked, Joined, Tip, UndoDatabase.Valid, Ordered, Topped, ForkDatabase.InOrder;
      p, q := [], [];
      ghost var index0, head0, size0, serial0 := fork.index, fork.head, fork.maxSize, fork.nextSerial;
      StillGenuine(blockOf, index0, head0, serial0, size0, b);
      RefusedMeans(index0, head0, size0, b);
      StepsTogether(index0, head0, serial0, size0, b, applied);
      var pushed := fork.Push(b);
      if !pushed.Pushed? { return Rejected, p, q; }
      ghost var at := PlacedBy(index0, head0, serial0, size0, b);
      var newHead := pushed.head;
      BoundWithin(head0, newHead, size0);
      var headId := rules.head(Database(undo.objects, undo.nextIds));
      if newHead.block.previous != headId {
        if newHead.Num() <= headId.num { return Ignored, p, q; }
        r, p, q := SwitchTo(newHead);
      } else {
        TriedIs(rules, View(), b);
        var ok := TryBlock(b);
        SubIsSound(blockOf, fork.index, at.index, fork.nextSerial);
        r := if ok then Extended else Rejected;
      }
    }

    /** The first part: find the branches of the new head and the applied head, and switch. */
    method SwitchTo(newHead: Item) returns (r: Outcome, ghost p: seq<Item>, ghost q: seq<Item>)
      requires Valid() && ForkSound() && fork.head == Some(newHead) && newHead.Num() > Tip(applied).num
      modifies this, undo, fork
      ensures Valid() && ForkSound()
      ensures r == if NeverMeet(old(fork.index), newHead.block.id, Tip(old(applied))) then Rejected
                   else Switching(rules, old(undo.snaps), old(Db()), old(fork.index), Some(newHead), p, q)
      ensures r.Rejected? ==> View() == old(View())
      ensures !r.Rejected? ==>
                && newHead.block.id in old(fork.index) && Tip(old(applied)) in old(fork.index)
                && Branches(old(fork.index), old(fork.index)[newHead.block.id], old(fork.index)[Tip(old(applied))], p, q)
                && 0 < |q| < |p| && ReadyToSwitch(blockOf, old(fork.index), fork.nextSerial, old(applied), p, q)
      ensures r.Switched? ==> |q| <= |old(undo.snaps)| && fork.head == Down(old(fork.index), Some(newHead), |q|)
      ensures r.Switched? ==> fork.index == Shrunk(rules, Rewound(old(undo.snaps), old(Db()), |q|), Ascending(p), old(fork.index), fork.head, |p|)
      ensures r.Switched? && old(fork.InOrder()) ==> fork.InOrder()
      ensures r.Restored? ==> applied == old(applied) && Db() == old(Db())
      ensures !r.Rejected? ==> |q| <= |old(applied)| && |p| == |q| + (newHead.Num() - Tip(old(applied)).num)
      ensures r.Switched? ==> applied == old(applied)[..|old(applied)| - |q|] + Ascending(p)
      ensures r.Switched? ==> ApplyAll(rules, Rewound(old(undo.snaps), old(Db()), |q|), Ascending(p)) == Some(Db())
      ensures r.Stuck? ==> old(applied)[..|old(applied)| - |q|] <= applied
    {
      hide NeverMeet, Meet, Sticks, Down, Shrunk, Faithful, Replays, Lawful, Chain, Applied, ApplyAll, Ascending, Sound, Genuine, GenuineChain,
           Branches, Linked, Joined, Tip, UndoDatabase.Valid, ForkDatabase.InOrder, ReadyToSwitch;
      ghost var index := fork.index;
      var headId := rules.head(Database(undo.objects, undo.nextIds));
      var found, first, second := fork.FetchBranchFrom(newHead.block.id, headId);
      p, q := first, second;
      if !found { Strangers(fork.index, newHead.block.id, headId); return Rejected, p, q; }
      Acquaintances(fork.index, newHead.block.id, headId);
      SwitchIsReady(blockOf, fork.index, fork.nextSerial, newHead.block.id, applied, first, second);
      r := SwitchFork(first, second);
      SubIsSound(blockOf, fork.index, index, fork.nextSerial);
    }

    /** The last part of _push_block: apply the block to the applied chain, and erase it from the fork database when it is
        rejected. */
    method TryBlock(b: Block) returns (ok: bool)
      requires Valid() && b.WellFormed() && blockOf(b.id) == b
      modifies this, undo, fork
      ensures Valid() && ok == Applied(rules, old(Db()), b).Some? && Sub(fork.index, old(fork.index))
      ensures View() == Tried(rules, old(View()), b)
      ensures ok && old(fork.Valid()) ==> fork.Valid()
      ensures ok && old(fork.InOrder()) ==> fork.InOrder()
      ensures fork.roots == old(fork.roots)
      ensures fork.head.Some? ==> fork.floor == Max(old(fork.floor), LowEnd(fork.head.value.Num(), fork.maxSize))
    {
      hide Faithful, Replays, Lawful, Chain, Kept, Trimmed, GenuineChain, UndoDatabase.Valid, Sub, Pruned, ForkDatabase.InOrder, ForkDatabase.Valid;
      ghost var index0 := fork.index;
      ok := ApplyBlock(b);
      PrunedIsSub(index0, fork.head, undo.maxSize);
      if !ok {
        ghost var index1 := fork.index;
        fork.RemoveBlock(b.id);
        WithoutIsSub(index1, {b.id});
        SubChains(fork.index, index1, index0);
      }
    }

    /** The fork switch of _push_block: pop back to the common ancestor, apply the new branch `p`, and if one of
        its blocks is rejected pop those again and re-apply the old branch `q`. */
    method SwitchFork(p: seq<Item>, q: seq<Item>) returns (r: Outcome)
      requires Valid() && ReadyToSwitch(blockOf, fork.index, fork.nextSerial, applied, p, q)
      modifies this, undo, fork
      ensures Valid() && Sub(fork.index, old(fork.index)) && fork.nextSerial == old(fork.nextSerial)
      ensures r == Switching(rules, old(undo.snaps), old(Db()), old(fork.index), old(fork.head), p, q)
      ensures r.Switched? ==> |q| <= |old(undo.snaps)| && applied == old(applied)[..|old(applied)| - |q|] + Ascending(p)
      ensures r.Switched? ==> ApplyAll(rules, Rewound(old(undo.snaps), old(Db()), |q|), Ascending(p)) == Some(Db())
      ensures r.Switched? ==> fork.head == Down(old(fork.index), old(fork.head), |q|)
      ensures r.Switched? ==> fork.index == Shrunk(rules, Rewound(old(undo.snaps), old(Db()), |q|), Ascending(p), old(fork.index), fork.head, |p|)
      ensures r.Restored? ==> applied == old(applied) && Db() == old(Db())
      ensures r.Switched? && old(fork.InOrder()) ==> fork.InOrder()
      ensures old(applied)[..|old(applied)| - |q|] <= applied
    {
      hide Faithful, Replays, Lawful, Chain, Applied, ApplyAll, Ascending, ReadyToSwitch, HeldItems, Shrunk, Kept, Deep,
           Down, Tip, UndoDatabase.Valid, Sub, GenuineChain, ForkDatabase.InOrder;
      SwitchSetup(blockOf, fork.index, fork.nextSerial, applied, p, q);
      ghost var at := Now(map[]);
      var target, held := q[|q| - 1].block.previous, HeldItems(fork.index, p, q);
      var ok := PopTo(target, held, |q|);
      SubReflexive(fork.index);
      if !ok { return Stuck; }
      ghost var dbA, head := Db(), fork.head;
      var k := ApplyLine(p);
      ShrunkIsSub(rules, dbA, Ascending(p), at.live, head, if k < |p| then k + 1 else k);
      if k == |p| {
        assert Ascending(p)[..k] == Ascending(p);
        return Switched;
      }
      ApplyAllStops(rules, dbA, Ascending(p), k, Db());
      r := BackOut(p, q, target, held, k, at, dbA, head);
      SubChains(fork.index, Shrunk(rules, dbA, Ascending(p), at.live, head, k + 1), at.live);
    }

    /** After block `k` of the new branch was rejected: drop the branch from the fork database, pop what was
        applied of it, and put the old branch back. */
    method BackOut(p: seq<Item>, q: seq<Item>, target: BlockId, held: Index, k: nat,
                   ghost at: Past<V>, ghost dbA: Database<V>, ghost head: Option<Item>) returns (r: Outcome)
      requires Valid() && 0 < |q| < |p| && k < |p| && |q| <= |at.snaps| && |q| <= |at.applied|
      requires forall i | 0 <= i < |q| :: q[i].block.WellFormed() && blockOf(q[i].block.id) == q[i].block
      requires Replays(rules, at.snaps, at.applied, at.db) && Ascending(q) == at.applied[|at.applied| - |q|..]
      requires applied == at.applied[..|at.applied| - |q|] + Ascending(p)[..k]
      requires Tip(at.applied[..|at.applied| - |q|]) == target && held == HeldItems(at.live, p, q)
      requires Stored(at.live, p) && dbA == Rewound(at.snaps, at.db, |q|)
      requires k <= |undo.snaps| <==> Deep(rules, dbA, Ascending(p), k)
      requires k <= |undo.snaps| ==> Rewound(undo.snaps, Db(), k) == dbA
      requires fork.index == Shrunk(rules, dbA, Ascending(p), at.live, head, k + 1)
      modifies this, undo, fork
      ensures Valid() && (r.Restored? || r.Stuck?) && Sub(fork.index, old(fork.index)) && fork.nextSerial == old(fork.nextSerial)
      ensures r.Restored? <==> Deep(rules, dbA, Ascending(p), k) && Ancestor(old(fork.index) + held, q[0], k).Some?
      ensures r.Restored? ==> applied == at.applied && Db() == at.db
      ensures at.applied[..|at.applied| - |q|] <= applied
    {
      hide Faithful, Replays, Lawful, Chain, Ascending, HeldItems, Deep, Shrunk, Kept, Ids, Tip, UndoDatabase.Valid, Sub,
           Stored, GenuineChain;
      ghost var index1 := fork.index;
      assert applied[..|applied| - k] == at.applied[..|at.applied| - |q|];
      HeldCoversRemoved(rules, dbA, at.live, head, p, q, k);
      RemoveRest(p[..|p| - k]);
      WithoutIsSub(index1, Ids(p[..|p| - k]));
      fork.SetHead(q[0]);
      var ok := PopTo(target, held, k);
      if !ok { return Stuck; }
      Reapply(q, at.snaps, at.db, at.applied);
      SubChains(fork.index, index1 - Ids(p[..|p| - k]), index1);
      return Restored;
    }

    /** Re-applying the blocks of the old branch reaches the old database: none of them can be rejected. */
    method Reapply(q: seq<Item>, ghost snaps0: seq<Database<V>>, ghost db0: Database<V>, ghost applied0: seq<Block>)
      requires Valid() && forall i | 0 <= i < |q| :: q[i].block.WellFormed() && blockOf(q[i].block.id) == q[i].block
      requires Replays(rules, snaps0, applied0, db0) && |q| <= |snaps0| && Ascending(q) == applied0[|applied0| - |q|..]
      requires applied == applied0[..|applied0| - |q|] && Db() == Rewound(snaps0, db0, |q|)
      modifies this, undo, fork
      ensures Valid() && applied == applied0 && Db() == db0
      ensures Sub(fork.index, old(fork.index)) && fork.nextSerial == old(fork.nextSerial)
    {
      hide Faithful, Lawful, Chain, Applied, ApplyAll, Shrunk, Sub, Accepted, Deep;
      ghost var db1, index1 := Db(), fork.index;
      var k := ApplyLine(q);
      ReplayTop(rules, snaps0, applied0, db0, |q|, k);
      assert Ascending(q)[..|q|] == Ascending(q);
      ShrunkIsSub(rules, db1, Ascending(q), index1, fork.head, if k < |q| then k + 1 else k);
    }

    method RemoveRest(items: seq<Item>)
      modifies fork`index
      ensures fork.index == old(fork.index) - Ids(items)
    {
      for i := 0 to |items|
        invariant fork.index == old(fork.index) - Ids(items[..i])
      {
        assert Ids(items[..i + 1]) == Ids(items[..i]) + {items[i].block.id};
        fork.RemoveBlock(items[i].block.id);
      }
      assert items[..|items|] == items;
    }
  }

  // ------------------------------------------------------------- switching forks

  function Ids(items: seq<Item>): set<BlockId>
  {
    set i | 0 <= i < |items| :: items[i].block.id
  }

  /** The items both branches hold on to while the switch is under way. */
  function HeldItems(index: Index, p: seq<Item>, q: seq<Item>): Index
  {
    map id | id in index && id in Ids(p) + Ids(q) :: index[id]
  }

  ghost predicate Stored(index: Index, line: seq<Item>)
  {
    forall i | 0 <= i < |line| :: line[i].block.id in index && index[line[i].block.id] == line[i]
  }

  /** Stored blocks are the ones their ids belong to. */
  ghost predicate Genuine(blockOf: BlockId -> Block, index: Index)
  {
    forall id <- index :: index[id].block == blockOf(id)
  }

  ghost predicate GenuineChain(blockOf: BlockId -> Block, applied: seq<Block>)
  {
    forall i | 0 <= i < |applied| :: applied[i] == blockOf(applied[i].id)
  }

  /** `p` leads down from a stored block and `q` from the applied head to where they join. */
  ghost predicate ReadyToSwitch(blockOf: BlockId -> Block, index: Index, nextSerial: nat, applied: seq<Block>, p: seq<Item>, q: seq<Item>)
  {
    && Sound(index, nextSerial) && Genuine(blockOf, index) && Joined(p, q) && Linked(index, p) && Linked(index, q)
    && Stored(index, p) && Stored(index, q) && p[0].Num() > q[0].Num()
    && |q| <= |applied| && Ascending(q) == applied[|applied| - |q|..]
  }

  /** When a fork switch cannot be finished either way.  The old branch needs an undo layer for each of its blocks and a
      fork head with that many ancestors.  If block k of the new branch is rejected, the k blocks before it must have left
      their layers in the log, and the old head must still have k ancestors among what the fork database keeps and the
      branches hold. */
  ghost predicate Sticks<V(!new)>(rules: Rules<V>, snaps: seq<Database<V>>, db: Database<V>, index: Index, head: Option<Item>,
                                  p: seq<Item>, q: seq<Item>)
  {
    if q == [] || |q| > |snaps| || Down(index, head, |q|).None? then true
    else
      var dbA, bs := Rewound(snaps, db, |q|), Ascending(p);
      var k := Accepted(rules, dbA, bs);
      k < |p| && !(&& Deep(rules, dbA, bs, k)
                   && Ancestor(Shrunk(rules, dbA, bs, index, Down(index, head, |q|), k + 1) + HeldItems(index, p, q), q[0], k).Some?)
  }

  /** What a fork switch comes to. */
  ghost function Switching<V(!new)>(rules: Rules<V>, snaps: seq<Database<V>>, db: Database<V>, index: Index, head: Option<Item>,
                                    p: seq<Item>, q: seq<Item>): Outcome
  {
    if Sticks(rules, snaps, db, index, head, p, q) then Stuck
    else if ApplyAll(rules, Rewound(snaps, db, |q|), Ascending(p)).Some? then Switched else Restored
  }

  /** The fork database right after it has stored a block. */
  datatype Placed = Placed(head: Item, index: Index)

  ghost function PlacedBy(index: Index, head: Option<Item>, nextSerial: nat, maxSize: nat, b: Block): Placed
  {
    var item := NewItem(index, head, nextSerial, b);
    var newHead := NewHead(head, item);
    Placed(newHead, Kept(Inserted(index, item), Bound(head, newHead, maxSize)))
  }

  lemma RefusedMeans(index: Index, head: Option<Item>, maxSize: nat, b: Block)
    ensures TooOldOrLoose(index, head, maxSize, b) <==>
            head.Some? && (b.id.num <= LowEnd(head.value.Num(), maxSize) || (b.previous != NO_BLOCK && b.previous !in index))
  {
  }

  lemma TriedIs<V(!new)>(rules: Rules<V>, n: Node<V>, b: Block)
    ensures var m := Tried(rules, n, b);
            && m.head == n.head && m.nextSerial == n.nextSerial
            && (Applied(rules, n.db, b).Some? ==> m.applied == n.applied + [b] && Some(m.db) == Applied(rules, n.db, b))
            && (Applied(rules, n.db, b).None? ==> m.applied == n.applied && m.db == n.db && b.id !in m.index)
  {
  }

  lemma BoundWithin(before: Option<Item>, after: Item, maxSize: nat)
    ensures Bound(before, after, maxSize) <= LowEnd(after.Num(), maxSize)
  {
  }

  /** A block has been stored. */
  ghost function WithBlock<V>(n: Node<V>, b: Block): Node<V>
  {
    var at := PlacedBy(n.index, n.head, n.nextSerial, n.forkSize, b);
    n.(index := at.index, head := Some(at.head), nextSerial := n.nextSerial + 1)
  }

  /** A block has been tried on the applied chain: sizes are set either way, and a rejected block is erased. */
  ghost function Tried<V(!new)>(rules: Rules<V>, n: Node<V>, b: Block): Node<V>
  {
    var depth, next := rules.judge(n.db, b).depth, Applied(rules, n.db, b);
    var m := n.(index := Pruned(n.index, n.head, depth), forkSize := depth, logSize := depth, snaps := Trimmed(n.snaps, n.logSize));
    if next.Some? then m.(snaps := m.snaps + [n.db], db := next.value, applied := n.applied + [b])
    else m.(index := m.index - {b.id})
  }

  /** The state after a push that starts no fork switch. */
  ghost function AfterPush<V(!new)>(rules: Rules<V>, n: Node<V>, b: Block): Node<V>
  {
    if TooOldOrLoose(n.index, n.head, n.forkSize, b) then n
    else
      var m := WithBlock(n, b);
      if m.head.value.block.previous == Tip(n.applied) then Tried(rules, m, b) else m
  }

  /** What becomes of a stored block, by the fork database's head: tried when that builds on the applied chain, ignored
      when it is no higher, and otherwise the start of a fork switch. */
  ghost function Decided<V(!new)>(rules: Rules<V>, snaps: seq<Database<V>>, db: Database<V>, tip: BlockId, at: Placed, b: Block,
                                  p: seq<Item>, q: seq<Item>): Outcome
  {
    if at.head.block.previous == tip then (if Applied(rules, db, b).Some? then Extended else Rejected)
    else if at.head.Num() <= tip.num then Ignored
    else if NeverMeet(at.index, at.head.block.id, tip) then Rejected
    else Switching(rules, snaps, db, at.index, Some(at.head), p, q)
  }

  /** The history every block of the line asks for reaches down to the last irreversible block, and that has not passed
      block `a`: update_global_dynamic_data sets the sizes to the head's number minus the last irreversible one plus one,
      and a block rejected before that leaves the sizes of the block before it. */
  ghost predicate Reversible<V(!new)>(rules: Rules<V>, lib: Database<V> -> nat, db: Database<V>, bs: seq<Block>, a: nat)
  {
    forall j | 0 <= j < |bs| && ApplyAll(rules, db, bs[..j]).Some? ::
      var fixed := lib(ApplyAll(rules, db, bs[..j]).value);
      fixed <= a && DepthOf(rules, db, bs, j) + fixed >= bs[j].id.num
  }

  lemma ReversibleIsDeep<V(!new)>(rules: Rules<V>, lib: Database<V> -> nat, db: Database<V>, bs: seq<Block>, a: nat, j: nat)
    requires Reversible(rules, lib, db, bs, a) && j < |bs| && bs[j].id.num == a + j + 1 && ApplyAll(rules, db, bs[..j]).Some?
    ensures DepthOf(rules, db, bs, j) >= j + 1
  {
  }

  lemma {:induction false} AcceptedApply<V(!new)>(rules: Rules<V>, db: Database<V>, bs: seq<Block>, j: nat)
    requires j <= Accepted(rules, db, bs)
    ensures ApplyAll(rules, db, bs[..j]).Some?
  {
    if bs != [] {
      var n := |bs| - 1;
      if j <= Accepted(rules, db, bs[..n]) {
        AcceptedApply(rules, db, bs[..n], j);
        assert bs[..n][..j] == bs[..j];
      } else {
        assert bs[..j] == bs;
      }
    }
  }

  lemma {:induction false} KeptLow<V(!new)>(rules: Rules<V>, db: Database<V>, bs: seq<Block>, a: nat, k: nat)
    requires k <= |bs| && forall j | 0 <= j < k :: DepthOf(rules, db, bs, j) >= 1
    ensures LowestKept(rules, db, bs, a + 1, k) <= a
  {
    if k > 0 { KeptLow(rules, db, bs, a, k - 1); }
  }

  /** A switch to a branch one block longer never gets stuck while the last irreversible block does not pass the common
      ancestor, the log has a layer for each block of the old branch, and the common ancestor is still stored. */
  lemma ReversibleNeverSticks<V(!new)>(blockOf: BlockId -> Block, rules: Rules<V>, lib: Database<V> -> nat, snaps: seq<Database<V>>,
                                       db: Database<V>, index: Index, nextSerial: nat, applied: seq<Block>, p: seq<Item>, q: seq<Item>)
    requires Chain(applied) && ReadyToSwitch(blockOf, index, nextSerial, applied, p, q) && |p| == |q| + 1 && |q| <= |snaps|
    requires Reversible(rules, lib, Rewound(snaps, db, |q|), Ascending(p), q[|q| - 1].block.previous.num)
    requires Parent(index, q[|q| - 1]).Some?
    ensures !Sticks(rules, snaps, db, index, Some(p[0]), p, q)
  {
    hide ApplyAll, Accepted, DepthOf, Chain, Reversible, Linked, Joined, Genuine, Stored, Sound, Ascending, Ancestor;
    SwitchSetup(blockOf, index, nextSerial, applied, p, q);
    var dbA, bs, a := Rewound(snaps, db, |q|), Ascending(p), q[|q| - 1].block.previous.num;
    var k := Accepted(rules, dbA, bs);
    BranchNumbers(index, nextSerial, p, q);
    if k < |p| {
      forall j | 0 <= j <= k ensures DepthOf(rules, dbA, bs, j) >= j + 1 {
        AcceptedApply(rules, dbA, bs, j);
        ReversibleIsDeep(rules, lib, dbA, bs, a, j);
      }
      KeptLow(rules, dbA, bs, a, k + 1);
      OldHeadReaches(index, nextSerial, p, q, LowestKept(rules, dbA, bs, a + 1, k + 1), k);
    }
  }

  lemma BranchNumbers(index: Index, nextSerial: nat, p: seq<Item>, q: seq<Item>)
    requires Sound(index, nextSerial) && Linked(index, p) && Stored(index, p) && Joined(p, q) && |p| == |q| + 1
    requires q[|q| - 1].block.WellFormed()
    ensures var a := q[|q| - 1].block.previous.num;
            && Down(index, Some(p[0]), |q|) == Some(p[|q|]) && p[|q|].Num() == a + 1
            && forall j | 0 <= j < |p| :: Ascending(p)[j].id.num == a + j + 1
  {
    hide Linked, Ancestor, Parent;
    LinkedNums(index, nextSerial, p, |q|);
    forall j | 0 <= j < |p| ensures Ascending(p)[j].id.num == q[|q| - 1].block.previous.num + j + 1 {
      LinkedNums(index, nextSerial, p, |p| - 1 - j);
      LinkedNums(index, nextSerial, p, |p| - 1);
    }
  }

  lemma {:induction false} KeptBelowHead<V(!new)>(rules: Rules<V>, db: Database<V>, bs: seq<Block>, num: nat, k: nat)
    requires k <= |bs|
    ensures LowestKept(rules, db, bs, num, k) <= num
  {
    if k > 0 { KeptBelowHead(rules, db, bs, num, k - 1); }
  }

  /** A completed switch leaves the fork database's head as many blocks below the new applied head as the old branch was
      long, so the head is not the highest stored block. */
  lemma SwitchLeavesHeadBehind<V(!new)>(rules: Rules<V>, db: Database<V>, index: Index, nextSerial: nat, p: seq<Item>, q: seq<Item>)
    requires Sound(index, nextSerial) && Linked(index, p) && Stored(index, p) && 0 < |q| < |p|
    ensures var head := Down(index, Some(p[0]), |q|);
            head == Some(p[|q|]) && !Topped(Shrunk(rules, db, Ascending(p), index, head, |p|), head)
  {
    hide Linked, Ancestor, LowestKept;
    LinkedNums(index, nextSerial, p, |q|);
    KeptBelowHead(rules, db, Ascending(p), p[|q|].Num(), |p|);
    assert p[0].block.id in Shrunk(rules, db, Ascending(p), index, Some(p[|q|]), |p|);
  }

  /** As far as the common ancestor, the old head's ancestors are held or above the bound. */
  lemma {:induction false} OldHeadReaches(index: Index, nextSerial: nat, p: seq<Item>, q: seq<Item>, low: nat, k: nat)
    requires Sound(index, nextSerial) && Linked(index, q) && Stored(index, q) && q != [] && k <= |q|
    requires Parent(index, q[|q| - 1]).Some? && low <= q[|q| - 1].block.previous.num
    ensures var live := Kept(index, low) + HeldItems(index, p, q);
            Ancestor(live, q[0], k) == if k < |q| then Some(q[k]) else Parent(index, q[|q| - 1])
  {
    var live := Kept(index, low) + HeldItems(index, p, q);
    if k > 0 {
      OldHeadReaches(index, nextSerial, p, q, low, k - 1);
      AncestorStep(live, q[0], k - 1);
      if k < |q| {
        assert Parent(index, q[k - 1]) == Some(q[k]);
        assert q[k].block.id in HeldItems(index, p, q);
      } else {
        assert q[k - 1].block.previous in live;
      }
    }
  }

  /** Numbers go down by one along a stored line of descent. */
  lemma {:induction false} LinkedNums(index: Index, nextSerial: nat, line: seq<Item>, i: nat)
    requires Sound(index, nextSerial) && Linked(index, line) && Stored(index, line) && i < |line|
    ensures line[i].Num() + i == line[0].Num() && Ancestor(index, line[0], i) == Some(line[i])
  {
    if i > 0 {
      LinkedNums(index, nextSerial, line, i - 1);
      assert Parent(index, line[i - 1]) == Some(line[i]);
      AncestorStep(index, line[0], i - 1);
    }
  }

  lemma SwitchSetup(blockOf: BlockId -> Block, index: Index, nextSerial: nat, applied: seq<Block>, p: seq<Item>, q: seq<Item>)
    requires Chain(applied) && ReadyToSwitch(blockOf, index, nextSerial, applied, p, q)
    ensures 0 < |q| < |p| && |q| <= |applied|
    ensures Tip(applied[..|applied| - |q|]) == q[|q| - 1].block.previous
    ensures index + HeldItems(index, p, q) == index
    ensures index + map[] == index && Ascending(q) == applied[|applied| - |q|..]
    ensures Stored(index, p) && |p| == |q| + (p[0].Num() - q[0].Num())
    ensures forall i | 0 <= i < |p| :: p[i].block.WellFormed() && blockOf(p[i].block.id) == p[i].block
    ensures forall i | 0 <= i < |q| :: q[i].block.WellFormed() && blockOf(q[i].block.id) == q[i].block
  {
    hide Linked, Chain, Ascending, HeldItems, Ancestor, Parent;
    LinkedNums(index, nextSerial, p, |p| - 1);
    LinkedNums(index, nextSerial, q, |q| - 1);
    HeldAreStored(index, p, q);
    TargetIsBelow(applied, q);
  }

  lemma HeldAreStored(index: Index, p: seq<Item>, q: seq<Item>)
    ensures index + HeldItems(index, p, q) == index && index + map[] == index
  {
  }

  lemma TargetIsBelow(applied: seq<Block>, q: seq<Item>)
    requires Chain(applied) && 0 < |q| <= |applied| && Ascending(q) == applied[|applied| - |q|..]
    ensures Tip(applied[..|applied| - |q|]) == q[|q| - 1].block.previous
  {
    assert Ascending(q)[0] == q[|q| - 1].block == applied[|applied| - |q|];
  }

  lemma {:induction false} AncestorGrows(a: Index, b: Index, item: Item, k: nat)
    requires Sub(a, b) && Ancestor(a, item, k).Some?
    ensures Ancestor(b, item, k) == Ancestor(a, item, k)
    decreases k
  {
    if k > 0 { AncestorGrows(a, b, Parent(a, item).value, k - 1); }
  }

  /** Dropping the bad branch takes away nothing that the branches do not hold. */
  lemma HeldCoversRemoved<V(!new)>(rules: Rules<V>, db: Database<V>, index: Index, head: Option<Item>, p: seq<Item>, q: seq<Item>, k: nat)
    requires k < |p| && Stored(index, p)
    ensures var shrunk := Shrunk(rules, db, Ascending(p), index, head, k + 1);
            shrunk - Ids(p[..|p| - k]) + HeldItems(index, p, q) == shrunk + HeldItems(index, p, q)
  {
    hide LowestKept;
    var shrunk, held := Shrunk(rules, db, Ascending(p), index, head, k + 1), HeldItems(index, p, q);
    forall id | id in Ids(p[..|p| - k]) ensures id in held {
      var i :| 0 <= i < |p| - k && p[..|p| - k][i].block.id == id;
      assert p[i].block.id == id;
    }
  }

  /** A rejected block stops the whole branch. */
  lemma {:induction false} ApplyAllStops<V(!new)>(rules: Rules<V>, db: Database<V>, bs: seq<Block>, k: nat, d: Database<V>)
    requires k < |bs| && ApplyAll(rules, db, bs[..k]) == Some(d) && Applied(rules, d, bs[k]).None?
    ensures ApplyAll(rules, db, bs).None?
  {
    if k == |bs| - 1 {
      assert bs[..|bs| - 1] == bs[..k];
    } else {
      assert bs[..|bs| - 1][..k] == bs[..k];
      ApplyAllStops(rules, db, bs[..|bs| - 1], k, d);
    }
  }

  /** Applying the last blocks again runs through the databases the log remembers. */
  lemma {:induction false} ReplayTop<V(!new)>(rules: Rules<V>, snaps: seq<Database<V>>, applied: seq<Block>, db: Database<V>, q: nat, m: nat)
    requires Replays(rules, snaps, applied, db) && m <= q <= |snaps|
    ensures ApplyAll(rules, Rewound(snaps, db, q), applied[|applied| - q..][..m]) == Some(Rewound(snaps, db, q - m))
    ensures m < q ==> Applied(rules, Rewound(snaps, db, q - m), applied[|applied| - q..][m]).Some?
  {
    hide Applied, Replays, Rewound, ApplyAll;
    if m < q { ReplayOne(rules, snaps, applied, db, q, m); }
    if m > 0 {
      ReplayTop(rules, snaps, applied, db, q, m - 1);
      ReplayOne(rules, snaps, applied, db, q, m - 1);
      ApplyOneMore(rules, Rewound(snaps, db, q), applied[|applied| - q..], m - 1);
    } else {
      ApplyNone(rules, Rewound(snaps, db, q), applied[|applied| - q..]);
    }
  }

  lemma ReplayOne<V(!new)>(rules: Rules<V>, snaps: seq<Database<V>>, applied: seq<Block>, db: Database<V>, q: nat, m: nat)
    requires Replays(rules, snaps, applied, db) && m < q <= |snaps|
    ensures |snaps| <= |applied|
    ensures Applied(rules, Rewound(snaps, db, q - m), applied[|applied| - q..][m]) == Some(Rewound(snaps, db, q - m - 1))
  {
    hide Applied;
    assert ReplaysAt(rules, snaps, applied, db, |snaps| - q + m);
  }

  lemma ApplyNone<V(!new)>(rules: Rules<V>, db: Database<V>, bs: seq<Block>)
    ensures ApplyAll(rules, db, bs[..0]) == Some(db)
  {
  }

  lemma ApplyOneMore<V(!new)>(rules: Rules<V>, db: Database<V>, bs: seq<Block>, m: nat)
    requires m < |bs| && ApplyAll(rules, db, bs[..m]).Some?
    ensures ApplyAll(rules, db, bs[..m + 1]) == Applied(rules, ApplyAll(rules, db, bs[..m]).value, bs[m])
  {
    hide Applied;
    assert bs[..m + 1][..m] == bs[..m];
  }

  /** What the fork database refuses to store. */
  ghost predicate TooOldOrLoose(index: Index, head: Option<Item>, maxSize: nat, b: Block)
  {
    head.Some? && (b.id.num <= LowEnd(head.value.Num(), maxSize) || (b.previous != NO_BLOCK && b.previous !in index))
  }

  /** Two blocks, one of them perhaps not stored, without a common ancestor in the index. */
  ghost predicate NeverMeet(index: Index, x: BlockId, y: BlockId)
  {
    x !in index || y !in index || !exists i: nat, j: nat :: Meet(index, index[x], index[y], i, j)
  }

  lemma Strangers(index: Index, x: BlockId, y: BlockId)
    requires !(x in index && y in index && exists i: nat, j: nat :: Meet(index, index[x], index[y], i, j))
    ensures NeverMeet(index, x, y)
  {
  }

  lemma Acquaintances(index: Index, x: BlockId, y: BlockId)
    requires x in index && y in index && exists i: nat, j: nat :: Meet(index, index[x], index[y], i, j)
    ensures !NeverMeet(index, x, y)
  {
  }

  /** While the fork database's head is the last applied block, a new head is that block's child or the head stays. */
  lemma StepsTogether(index: Index, head: Option<Item>, nextSerial: nat, maxSize: nat, b: Block, applied: seq<Block>)
    requires Sound(index, nextSerial) && b.WellFormed()
    ensures Tip(applied + [b]) == b.id
    ensures (&& Topped(index, head) && !TooOldOrLoose(index, head, maxSize, b)
             && (if head.None? then applied == [] else head.value.block.id == Tip(applied))) ==>
              (var at, tip := PlacedBy(index, head, nextSerial, maxSize, b), Tip(applied);
               && (at.head.block.previous == tip ==> at.head.block == b)
               && (at.head.block.previous != tip && at.head.Num() <= tip.num ==> head == Some(at.head))
               && (head.Some? && at.head.Num() > tip.num ==> at.head.Num() == tip.num + 1)
               && (at.head.Num() > tip.num ==> at.head.block == b))
  {
    hide Kept, Inserted, Bound;
  }

  lemma StillGenuine(blockOf: BlockId -> Block, index: Index, head: Option<Item>, nextSerial: nat, maxSize: nat, b: Block)
    requires Genuine(blockOf, index) && blockOf(b.id) == b
    ensures Genuine(blockOf, PlacedBy(index, head, nextSerial, maxSize, b).index)
  {
  }

  lemma {:induction false} LinkedIsStored(index: Index, nextSerial: nat, line: seq<Item>, i: nat)
    requires Sound(index, nextSerial) && Linked(index, line) && i < |line|
    requires line[0].block.id in index && index[line[0].block.id] == line[0]
    ensures line[i].block.id in index && index[line[i].block.id] == line[i]
  {
    if i > 0 {
      LinkedIsStored(index, nextSerial, line, i - 1);
      assert Parent(index, line[i - 1]) == Some(line[i]);
    }
  }

  /** The line of descent from the applied head consists of the last applied blocks. */
  lemma {:induction false} OldBranchIsApplied(blockOf: BlockId -> Block, index: Index, nextSerial: nat, applied: seq<Block>, q: seq<Item>, i: nat)
    requires Sound(index, nextSerial) && Linked(index, q) && Stored(index, q) && i < |q|
    requires Chain(applied) && q[0].block.id == Tip(applied) && Genuine(blockOf, index) && GenuineChain(blockOf, applied)
    ensures i < |applied| && q[i].block == applied[|applied| - 1 - i]
  {
    if i > 0 {
      OldBranchIsApplied(blockOf, index, nextSerial, applied, q, i - 1);
      assert Parent(index, q[i - 1]) == Some(q[i]);
      var n := |applied| - i;
      assert applied[n].previous == Tip(applied[..n]);
      assert n > 0;
    }
  }

  lemma SwitchIsReady(blockOf: BlockId -> Block, index: Index, nextSerial: nat, top: BlockId, applied: seq<Block>, p: seq<Item>, q: seq<Item>)
    requires Sound(index, nextSerial) && Genuine(blockOf, index) && Chain(applied) && GenuineChain(blockOf, applied)
    requires top in index && Tip(applied) in index && Branches(index, index[top], index[Tip(applied)], p, q)
    requires top.num > Tip(applied).num
    ensures ReadyToSwitch(blockOf, index, nextSerial, applied, p, q) && 0 < |q| < |p| && |q| <= |applied|
    ensures |p| == |q| + (top.num - Tip(applied).num)
  {
    hide Linked, Stored, Chain, Ascending, Genuine, GenuineChain, Parent;
    LineIsStored(index, nextSerial, p);
    AtTip(index, nextSerial, applied);
    LineIsStored(index, nextSerial, q);
    OldBranchIsSuffix(blockOf, index, nextSerial, applied, q);
    SwitchSetup(blockOf, index, nextSerial, applied, p, q);
  }

  lemma AtTip(index: Index, nextSerial: nat, applied: seq<Block>)
    requires Sound(index, nextSerial) && Tip(applied) in index
    ensures index[Tip(applied)].block.id == Tip(applied)
  {
  }

  lemma LineIsStored(index: Index, nextSerial: nat, line: seq<Item>)
    requires Sound(index, nextSerial) && Linked(index, line) && line != []
    requires line[0].block.id in index && index[line[0].block.id] == line[0]
    ensures Stored(index, line)
  {
    forall i | 0 <= i < |line| ensures line[i].block.id in index && index[line[i].block.id] == line[i] { LinkedIsStored(index, nextSerial, line, i); }
  }

  lemma OldBranchIsSuffix(blockOf: BlockId -> Block, index: Index, nextSerial: nat, applied: seq<Block>, q: seq<Item>)
    requires Sound(index, nextSerial) && Linked(index, q) && Stored(index, q) && q != []
    requires Chain(applied) && q[0].block.id == Tip(applied) && Genuine(blockOf, index) && GenuineChain(blockOf, applied)
    ensures |q| <= |applied| && Ascending(q) == applied[|applied| - |q|..]
  {
    hide Sound, Linked, Stored, Chain, Genuine, GenuineChain;
    OldBranchIsApplied(blockOf, index, nextSerial, applied, q, |q| - 1);
    forall i | 0 <= i < |q| ensures Ascending(q)[i] == applied[|applied| - |q|..][i] {
      OldBranchIsApplied(blockOf, index, nextSerial, applied, q, |q| - 1 - i);
    }
  }

  /** Blocks are numbered from one, so the tip tells how many are applied. */
  lemma TipNum(prefix: seq<Block>, applied: seq<Block>)
    requires Chain(applied) && prefix <= applied
    ensures Tip(prefix).num == |prefix|
  {
  }

  /** `k` blocks have been popped: the layers, the database and the chain are those of that time. */
  ghost predicate SteppedBack<D>(k: nat, snaps0: seq<D>, db0: D, applied0: seq<Block>, snaps: seq<D>, db: D, applied: seq<Block>)
  {
    && k <= |snaps0| && k <= |applied0|
    && snaps == snaps0[..|snaps0| - k] && db == Rewound(snaps0, db0, k) && applied == applied0[..|applied0| - k]
  }

  lemma SteppedBackOnce<D>(k: nat, snaps0: seq<D>, db0: D, applied0: seq<Block>, snaps: seq<D>, db: D, applied: seq<Block>)
    requires SteppedBack(k, snaps0, db0, applied0, snaps, db, applied)
    ensures snaps != [] && applied != [] ==>
              SteppedBack(k + 1, snaps0, db0, applied0, snaps[..|snaps| - 1], Rewound(snaps, db, 1), applied[..|applied| - 1])
  {
    if snaps != [] && applied != [] {
      assert snaps0[..|snaps0| - k][..|snaps| - 1] == snaps0[..|snaps0| - (k + 1)];
      assert applied0[..|applied0| - k][..|applied| - 1] == applied0[..|applied0| - (k + 1)];
    }
  }

  /** One more step down from the head, and what it takes to get all the way to `k`. */
  lemma StepDown(index: Index, head: Option<Item>, i: nat, k: nat)
    requires i < k
    ensures Down(index, Down(index, head, i), 1) == Down(index, head, i + 1)
    ensures Down(index, head, k).Some? ==> Down(index, head, i + 1).Some?
  {
    if head.Some? {
      AncestorStep(index, head.value, i);
      if Ancestor(index, head.value, i).Some? { AncestorStep(index, Ancestor(index, head.value, i).value, 0); }
      if Ancestor(index, head.value, k).Some? { AncestorsEnd(index, head.value, i + 1, k); }
    }
  }

  /** `k` blocks of a line have been applied: the log leads back to the database before them exactly if each of them but
      the last, after which nothing has been trimmed yet, asked for enough layers. */
  ghost predicate Logged<V(!new)>(rules: Rules<V>, db0: Database<V>, bs: seq<Block>, snaps: seq<Database<V>>, db: Database<V>,
                                  size: nat, k: nat)
  {
    && k <= |bs| && (k <= |snaps| <==> Deep(rules, db0, bs, if k == 0 then 0 else k - 1))
    && (k <= |snaps| ==> Rewound(snaps, db, k) == db0)
    && (k > 0 ==> size == DepthOf(rules, db0, bs, k - 1))
  }

  lemma LogStarts<V(!new)>(rules: Rules<V>, db: Database<V>, bs: seq<Block>, snaps: seq<Database<V>>, size: nat, index: Index, head: Option<Item>)
    ensures Logged(rules, db, bs, snaps, db, size, 0) && ApplyAll(rules, db, bs[..0]) == Some(db)
    ensures Shrunk(rules, db, bs, index, head, 0) == index
  {
    KeptAll(index);
  }

  lemma LogReaches<V(!new)>(rules: Rules<V>, db0: Database<V>, bs: seq<Block>, snaps: seq<Database<V>>, db: Database<V>, size: nat, k: nat)
    requires Logged(rules, db0, bs, snaps, db, size, k)
    ensures k <= |snaps| ==> Rewound(snaps, db, k) == db0
  {
  }

  lemma LogGoesOn<V(!new)>(rules: Rules<V>, db0: Database<V>, bs: seq<Block>, snaps: seq<Database<V>>, db: Database<V>,
                           size: nat, k: nat, db': Database<V>)
    requires Logged(rules, db0, bs, snaps, db, size, k) && k < |bs| && ApplyAll(rules, db0, bs[..k]) == Some(db)
    ensures k <= |Trimmed(snaps, size)| <==> Deep(rules, db0, bs, k)
    ensures k <= |Trimmed(snaps, size)| ==> Rewound(Trimmed(snaps, size), db, k) == db0
    ensures Logged(rules, db0, bs, Trimmed(snaps, size) + [db], db', rules.judge(db, bs[k]).depth, k + 1)
  {
    hide ApplyAll;
  }

  lemma ShrinksOn<V(!new)>(rules: Rules<V>, db0: Database<V>, bs: seq<Block>, index: Index, head: Option<Item>, k: nat, db: Database<V>)
    requires k < |bs| && ApplyAll(rules, db0, bs[..k]) == Some(db)
    ensures Pruned(Shrunk(rules, db0, bs, index, head, k), head, rules.judge(db, bs[k]).depth) == Shrunk(rules, db0, bs, index, head, k + 1)
  {
    hide ApplyAll;
  }

  /** The first rejected block decides how many are accepted. */
  lemma {:induction false} AcceptedIs<V(!new)>(rules: Rules<V>, db: Database<V>, bs: seq<Block>, k: nat)
    requires k <= |bs| && ApplyAll(rules, db, bs[..k]).Some? && (k < |bs| ==> ApplyAll(rules, db, bs[..k + 1]).None?)
    ensures Accepted(rules, db, bs) == k
  {
    var n := |bs| - 1;
    if k == |bs| {
      assert bs[..k] == bs;
      if k > 0 {
        assert bs[..n][..n] == bs[..n];
        AcceptedIs(rules, db, bs[..n], n);
      }
    } else {
      assert bs[..n][..k] == bs[..k];
      if k < n { assert bs[..n][..k + 1] == bs[..k + 1]; } else { assert bs[..k + 1] == bs; }
      AcceptedIs(rules, db, bs[..n], k);
    }
  }

  lemma ShrunkIsSub<V(!new)>(rules: Rules<V>, db: Database<V>, bs: seq<Block>, index: Index, head: Option<Item>, k: nat)
    requires k <= |bs|
    ensures Sub(Shrunk(rules, db, bs, index, head, k), index)
  {
  }

  lemma PrunedIsSub(index: Index, head: Option<Item>, maxSize: nat)
    ensures Sub(Pruned(index, head, maxSize), index)
  {
  }

  lemma WithoutIsSub(index: Index, ids: set<BlockId>)
    ensures Sub(index - ids, index)
  {
  }

  lemma SubReflexive(index: Index)
    ensures Sub(index, index)
  {
  }

  lemma SubChains(a: Index, b: Index, c: Index)
    requires Sub(a, b) && Sub(b, c)
    ensures Sub(a, c)
  {
  }

  lemma SubIsSound(blockOf: BlockId -> Block, a: Index, b: Index, nextSerial: nat)
    requires Sub(a, b) && Sound(b, nextSerial) && Genuine(blockOf, b)
    ensures Sound(a, nextSerial) && Genuine(blockOf, a)
  {
  }

  /** `a` holds some of the items of `b`. */
  ghost predicate Sub(a: Index, b: Index)
  {
    forall id <- a :: id in b && b[id] == a[id]
  }

  lemma TrimmedStillReplays<V(!new)>(rules: Rules<V>, snaps: seq<Database<V>>, applied: seq<Block>, db: Database<V>, size: nat)
    requires Replays(rules, snaps, applied, db)
    ensures Replays(rules, Trimmed(snaps, size), applied, db)
  {
    hide Applied;
    var kept := Trimmed(snaps, size);
    var d := |snaps| - |kept|;
    forall j | 0 <= j < |kept| ensures ReplaysAt(rules, kept, applied, db, j) {
      assert ReplaysAt(rules, snaps, applied, db, j + d);
    }
  }

  lemma ApplyingStillReplays<V(!new)>(rules: Rules<V>, snaps: seq<Database<V>>, applied: seq<Block>, db: Database<V>, b: Block)
    requires Replays(rules, snaps, applied, db) && Applied(rules, db, b).Some?
    requires Lawful(rules) && Chain(applied) && rules.head(db) == Tip(applied) && b.WellFormed()
    ensures Replays(rules, snaps + [db], applied + [b], Applied(rules, db, b).value)
    ensures Chain(applied + [b]) && rules.head(Applied(rules, db, b).value) == Tip(applied + [b])
  {
    hide Applied;
    var snaps', applied', db' := snaps + [db], applied + [b], Applied(rules, db, b).value;
    forall j | 0 <= j < |snaps'| ensures ReplaysAt(rules, snaps', applied', db', j) {
      if j < |snaps| { assert ReplaysAt(rules, snaps, applied, db, j); }
    }
    forall i | 0 <= i < |applied'| ensures applied'[i].id.num == i + 1 && applied'[i].previous == Tip(applied'[..i]) {
      if i < |applied| { assert applied'[..i] == applied[..i]; } else { assert applied'[..i] == applied; }
    }
  }

  /** Dropping the top layer and block keeps the rest replayable. */
  lemma PoppingStillReplays<V(!new)>(rules: Rules<V>, snaps: seq<Database<V>>, applied: seq<Block>, db: Database<V>)
    requires Replays(rules, snaps, applied, db) && snaps != [] && Lawful(rules) && Chain(applied)
    ensures applied != [] && Replays(rules, snaps[..|snaps| - 1], applied[..|applied| - 1], snaps[|snaps| - 1])
    ensures Chain(applied[..|applied| - 1]) && rules.head(snaps[|snaps| - 1]) == Tip(applied[..|applied| - 1])
  {
    hide Applied;
    var n, m := |snaps| - 1, |applied| - 1;
    forall j | 0 <= j < n ensures ReplaysAt(rules, snaps[..n], applied[..m], snaps[n], j) {
      assert ReplaysAt(rules, snaps, applied, db, j);
    }
    assert ReplaysAt(rules, snaps, applied, db, n);
    forall i | 0 <= i < m ensures applied[..m][i].id.num == i + 1 && applied[..m][i].previous == Tip(applied[..m][..i]) {
      assert applied[..m][..i] == applied[..i];
    }
  }

  ghost function Pruned(index: Index, head: Option<Item>, maxSize: nat): Index
  {
    if head.None? then index else Kept(index, LowEnd(head.value.Num(), maxSize))
  }
}
