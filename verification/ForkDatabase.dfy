/**
 The fork database: a tree of recent blocks, pruned from below as the head rises
 (libraries/chain/fork_database.cpp).  A stored item points at its parent through a weak pointer,
 which is modelled by the parent item's serial number: it can be followed only while that very
 item is still stored.
 */
module ForkDatabases {
  import opened Options

  /** A block id carries its block's number in its first four bytes. */
  datatype BlockId = BlockId(num: nat, hash: nat)

  const NO_BLOCK := BlockId(0, 0)

  datatype Block = Block(id: BlockId, previous: BlockId)
  {
    /** make_id: a block is numbered one after the block it builds on. */
    predicate WellFormed() { id.num == previous.num + 1 }
  }

  datatype Item = Item(block: Block, serial: nat, link: Option<nat>)
  {
    function Num(): nat { block.id.num }
  }

  type Index = map<BlockId, Item>

  datatype PushResult = Pushed(head: Item) | TooOld | Unlinkable

  /** prev.lock() */
  function Parent(index: Index, item: Item): Option<Item>
  {
    if item.link.Some? && item.block.previous in index && index[item.block.previous].serial == item.link.value
    then Some(index[item.block.previous]) else None
  }

  /** The item `k` links below `item`, if all those links can be followed. */
  function Ancestor(index: Index, item: Item, k: nat): (r: Option<Item>)
    decreases k
  {
    if k == 0 then Some(item)
    else match Parent(index, item) case None => None case Some(p) => Ancestor(index, p, k - 1)
  }

  /** The items form one line of descent, each linked to the next. */
  ghost predicate Linked(index: Index, line: seq<Item>)
  {
    forall i | 0 <= i < |line| - 1 :: Parent(index, line[i]) == Some(line[i + 1])
  }

  /** Two ancestors at one height that build on the same block. */
  ghost predicate Meet(index: Index, a: Item, b: Item, i: nat, j: nat)
  {
    && Ancestor(index, a, i).Some? && Ancestor(index, b, j).Some?
    && Ancestor(index, a, i).value.Num() == Ancestor(index, b, j).value.Num()
    && Ancestor(index, a, i).value.block.previous == Ancestor(index, b, j).value.block.previous
  }

  /** No two items of the lines at one height build on the same block. */
  ghost predicate Apart(p: seq<Item>, q: seq<Item>)
  {
    forall i, j | 0 <= i < |p| && 0 <= j < |q| && p[i].Num() == q[j].Num() :: p[i].block.previous != q[j].block.previous
  }

  ghost predicate Above(p: seq<Item>, num: nat)
  {
    forall i | 0 <= i < |p| :: p[i].Num() > num
  }

  /** The lines, both ending at one height on items that build on the same block, keep apart above that. */
  ghost predicate Joined(p: seq<Item>, q: seq<Item>)
  {
    && p != [] && q != []
    && p[|p| - 1].Num() == q[|q| - 1].Num()
    && p[|p| - 1].block.previous == q[|q| - 1].block.previous
    && Above(p[..|p| - 1], p[|p| - 1].Num()) && Above(q[..|q| - 1], q[|q| - 1].Num())
    && Apart(p[..|p| - 1], q[..|q| - 1])
  }

  /** What fetch_branch_from returns: lines of descent from the two items down to where they first meet. */
  ghost predicate Branches(index: Index, a: Item, b: Item, p: seq<Item>, q: seq<Item>)
  {
    Joined(p, q) && p[0] == a && q[0] == b && Linked(index, p) && Linked(index, q)
  }

  /** Stored items agree with their keys, and no two share a serial number. */
  ghost predicate Sound(index: Index, nextSerial: nat)
  {
    && (forall id <- index :: index[id].block.id == id && index[id].block.WellFormed() && index[id].serial < nextSerial)
    && (forall x <- index, y <- index :: index[x].serial == index[y].serial ==> x == y)
  }

  ghost predicate First(roots: set<BlockId>, item: Item)
  {
    item.block.id in roots || item.block.previous == NO_BLOCK
  }

  /** The block has its parent stored, or is one of those that never had one. */
  ghost predicate Anchored(index: Index, roots: set<BlockId>, id: BlockId)
    requires id in index
  {
    First(roots, index[id]) || Parent(index, index[id]).Some?
  }

  /** Every block numbered above the pruning bound is anchored. */
  ghost predicate Ordered(index: Index, nextSerial: nat, roots: set<BlockId>, floor: nat)
  {
    Sound(index, nextSerial) && forall id <- index :: floor < id.num ==> Anchored(index, roots, id)
  }

  /** The head is stored and no block is numbered above it. */
  ghost predicate Topped(index: Index, head: Option<Item>)
  {
    match head
    case None => index == map[]
    case Some(h) => h.block.id in index && index[h.block.id] == h && forall id <- index :: id.num <= h.Num()
  }

  function Max(a: nat, b: nat): nat { if a < b then b else a }

  class ForkDatabase {
    var index: Index
    var head: Option<Item>
    var maxSize: nat
    var nextSerial: nat

    /** Blocks stored without a parent link on purpose: the first ones. */
    ghost var roots: set<BlockId>
    /** Everything pruned so far was numbered below this bound. */
    ghost var floor: nat

    ghost predicate InOrder()
      reads this`index, this`nextSerial, this`roots, this`floor
    {
      Ordered(index, nextSerial, roots, floor)
    }

    ghost predicate Valid()
      reads this
    {
      InOrder() && Topped(index, head)
    }

    constructor ()
      ensures Valid() && fresh(this) && index == map[] && head == None && maxSize == 1024
      ensures roots == {} && floor == 0 == nextSerial
    {
      index, head, maxSize, nextSerial := map[], None, 1024, 0;
      roots, floor := {}, 0;
    }

    /** start_block.  It keeps the database in order just when the block is new and not below any other. */
    method StartBlock(b: Block)
      requires Valid() && b.WellFormed()
      modifies this
      ensures Valid() <==> b.id !in old(index) && forall id <- old(index) :: id.num <= b.id.num
      ensures head == Some(Item(b, old(nextSerial), None)) && maxSize == old(maxSize)
      ensures index == if b.id in old(index) then old(index) else old(index)[b.id := head.value]
      ensures nextSerial == old(nextSerial) + 1 && floor == old(floor) && roots == old(roots) + {b.id}
    {
      var item := Item(b, nextSerial, None);
      StartedInOrder(index, nextSerial, roots, floor, item);
      nextSerial := nextSerial + 1;
      roots := roots + {b.id};
      if b.id !in index { index := index[b.id := item]; }
      head := Some(item);
    }

    /** Erase blocks from the low end of the number index. */
    method Prune(minNum: nat)
      modifies this`index
      ensures index == Kept(old(index), minNum)
    {
      while exists id <- index :: id.num < minNum
        invariant index.Keys <= old(index).Keys
        invariant forall id <- old(index) :: minNum <= id.num ==> id in index
        invariant forall id <- index :: index[id] == old(index)[id]
        decreases |index|
      {
        var id :| id in index && id.num < minNum;
        index := index - {id};
      }
    }

    /** _push_block, then push_block's result: the head, which moved if the new block is higher.  The head may be a block
        that is no longer stored; a database in order stays in order. */
    method Push(b: Block) returns (r: PushResult)
      requires Sound(index, nextSerial) && b.WellFormed()
      modifies this
      ensures Sound(index, nextSerial) && (old(Valid()) ==> Valid()) && maxSize == old(maxSize)
      ensures (old(InOrder()) ==> InOrder()) && roots == if old(head).None? then old(roots) + {b.id} else old(roots)
      ensures r.TooOld? <==> old(head).Some? && b.id.num <= LowEnd(old(head).value.Num(), maxSize)
      ensures r.Unlinkable? <==> !r.TooOld? && old(head).Some? && b.previous != NO_BLOCK && b.previous !in old(index)
      ensures !r.Pushed? ==> index == old(index) && head == old(head) && floor == old(floor)
      ensures nextSerial == if r.Pushed? then old(nextSerial) + 1 else old(nextSerial)
      ensures r.Pushed? ==> head == Some(r.head) && r.head == NewHead(old(head), NewItem(old(index), old(head), old(nextSerial), b))
      ensures r.Pushed? ==> index == Kept(Inserted(old(index), NewItem(old(index), old(head), old(nextSerial), b)),
                                          Bound(old(head), r.head, maxSize))
      ensures r.Pushed? ==> floor == Max(old(floor), Bound(old(head), r.head, maxSize))
      ensures r.TooOld? <==> old(head).Some? && (b.id.num == 0 || b.id.num + maxSize <= old(head).value.Num())
      ensures r.Pushed? ==> r.head.block == if old(head).Some? && b.id.num <= old(head).value.Num() then old(head).value.block else b
      ensures r.Pushed? ==> forall id: BlockId ::
                id in index <==> (id == b.id || id in old(index)) && (old(head).Some? && b.id.num > old(head).value.Num() ==> id.num + maxSize >= b.id.num)
      ensures r.Pushed? ==> forall id <- index :: if id in old(index) then index[id] == old(index)[id] else index[id].block == b
    {
      hide Ordered, Topped, Kept, Sound;
      if head.Some? && b.id.num <= LowEnd(head.value.Num(), maxSize) { return TooOld; }
      var item := Item(b, nextSerial, None);
      if head.Some? && b.previous != NO_BLOCK {
        if b.previous !in index { return Unlinkable; }
        item := item.(link := Some(index[b.previous].serial));
      }
      PushedStaysSound(index, head, nextSerial, maxSize, item);
      ghost var before := roots;
      if head.None? { roots := roots + {b.id}; }
      if Ordered(index, nextSerial, before, floor) {
        MoreRoots(index, nextSerial, before, roots, floor);
        PushedStaysInOrder(index, head, nextSerial, roots, floor, maxSize, item);
      }
      PlacedIs(index, head, item, maxSize);
      Place(item);
      return Pushed(head.value);
    }

    /** Store the item; if it is the highest block, make it the head and prune. */
    method Place(item: Item)
      modifies this`index, this`head, this`nextSerial, this`floor
      ensures head == Some(NewHead(old(head), item)) && nextSerial == old(nextSerial) + 1
      ensures index == Kept(Inserted(old(index), item), Bound(old(head), head.value, maxSize))
      ensures floor == Max(old(floor), Bound(old(head), head.value, maxSize))
    {
      nextSerial := nextSerial + 1;
      if item.block.id !in index { index := index[item.block.id := item]; }
      KeptAll(index);
      if head.None? {
        head := Some(item);
      } else if item.Num() > head.value.Num() {
        head := Some(item);
        var minNum := LowEnd(item.Num(), maxSize);
        floor := Max(floor, minNum);
        Prune(minNum);
      }
    }

    /** fetch_branch_from: fails exactly when the two lines of descent never come to build on one block. */
    method FetchBranchFrom(first: BlockId, second: BlockId) returns (found: bool, p: seq<Item>, q: seq<Item>)
      requires Sound(index, nextSerial)
      ensures found <==> first in index && second in index
                         && exists i: nat, j: nat :: Meet(index, index[first], index[second], i, j)
      ensures found ==> Branches(index, index[first], index[second], p, q)
    {
      p, q, found := [], [], false;
      if first !in index || second !in index { return; }
      var level: bool;
      level, p := WalkDown(first, second);
      if !level { return; }
      level, q := WalkDown(second, first);
      if !level { MeetIsSymmetric(index, index[first], index[second]); return; }
      found, p, q := WalkTogether(first, second, p, q);
      if found {
        LineIsLinked(index, index[first], p);
        LineIsLinked(index, index[second], q);
        assert Meet(index, index[first], index[second], |p| - 1, |q| - 1);
      }
    }

    /** From two lines ending at one height, go down both until the ends build on the same block. */
    method WalkTogether(x: BlockId, y: BlockId, p0: seq<Item>, q0: seq<Item>)
      returns (met: bool, p: seq<Item>, q: seq<Item>)
      requires Sound(index, nextSerial) && x in index && y in index
      requires Line(index, index[x], p0) && Line(index, index[y], q0)
      requires p0[|p0| - 1].Num() == q0[|q0| - 1].Num() && (|p0| == 1 || |q0| == 1)
      requires Above(p0[..|p0| - 1], p0[|p0| - 1].Num()) && Above(q0[..|q0| - 1], q0[|q0| - 1].Num())
      ensures met ==> Line(index, index[x], p) && Line(index, index[y], q) && Joined(p, q)
      ensures !met ==> !exists i: nat, j: nat :: Meet(index, index[x], index[y], i, j)
    {
      var a, b := p0[|p0| - 1], q0[|q0| - 1];
      p, q := p0[..|p0| - 1], q0[..|q0| - 1];
      assert p + [a] == p0 && q + [b] == q0;
      while a.block.previous != b.block.previous
        invariant a.Num() == b.Num()
        invariant Line(index, index[x], p + [a]) && Line(index, index[y], q + [b])
        invariant Above(p, a.Num()) && Above(q, a.Num()) && Apart(p, q)
        decreases a.Num()
      {
        ApartGrows(p, q, a, b);
        if Parent(index, a).None? { DeadEnd(index, nextSerial, x, y, p + [a], q + [b]); return false, p, q; }
        if Parent(index, b).None? {
          MeetIsSymmetric(index, index[x], index[y]);
          DeadEnd(index, nextSerial, y, x, q + [b], p + [a]);
          return false, p, q;
        }
        LineGrows(index, nextSerial, x, p + [a]);
        LineGrows(index, nextSerial, y, q + [b]);
        p, a := p + [a], Parent(index, a).value;
        q, b := q + [b], Parent(index, b).value;
      }
      met, p, q := true, p + [a], q + [b];
      assert p[..|p| - 1] + [a] == p && q[..|q| - 1] + [b] == q;
    }

    /** Follow the links from `x` until no higher than `y`; a missing link means the two lines cannot meet. */
    method WalkDown(x: BlockId, y: BlockId) returns (level: bool, line: seq<Item>)
      requires Sound(index, nextSerial) && x in index && y in index
      ensures level ==> Line(index, index[x], line) && (if x.num <= y.num then |line| == 1 else line[|line| - 1].Num() == y.num)
      ensures level ==> Above(line[..|line| - 1], y.num)
      ensures !level ==> !exists i: nat, j: nat :: Meet(index, index[x], index[y], i, j)
    {
      line := [];
      var a := index[x];
      while a.Num() > y.num
        invariant Line(index, index[x], line + [a])
        invariant if line == [] then a == index[x] else x.num > y.num && a.Num() >= y.num
        invariant Above(line, y.num)
        decreases a.Num()
      {
        if Parent(index, a).None? { DeadEnd(index, nextSerial, x, y, line + [a], [index[y]]); return false, line; }
        LineGrows(index, nextSerial, x, line + [a]);
        line, a := line + [a], Parent(index, a).value;
      }
      return true, line + [a];
    }

    /** set_max_size */
    method SetMaxSize(s: nat)
      modifies this
      ensures (old(Valid()) ==> Valid()) && (old(InOrder()) ==> InOrder())
      ensures head == old(head) && maxSize == s && roots == old(roots) && nextSerial == old(nextSerial)
      ensures index == if head.None? then old(index) else Kept(old(index), LowEnd(head.value.Num(), s))
      ensures floor == if head.None? then old(floor) else Max(old(floor), LowEnd(head.value.Num(), s))
    {
      maxSize := s;
      if head.None? { return; }
      var minNum := LowEnd(head.value.Num(), s);
      if InOrder() { KeptStaysOrdered(index, nextSerial, roots, floor, minNum); }
      floor := Max(floor, minNum);
      Prune(minNum);
    }

    /** pop_block: the head steps down to its parent, found among the stored items or those the caller still holds. */
    method PopHead(held: Index) returns (ok: bool)
      modifies this`head
      ensures ok <==> old(head).Some? && Parent(index + held, old(head).value).Some?
      ensures head == if ok then Parent(index + held, old(head).value) else old(head)
    {
      ok := head.Some? && Parent(index + held, head.value).Some?;
      if ok { head := Parent(index + held, head.value); }
    }

    method SetHead(item: Item)
      modifies this`head
      ensures head == Some(item)
    {
      head := Some(item);
    }

    method RemoveBlock(id: BlockId)
      modifies this`index
      ensures index == old(index) - {id}
    {
      index := index - {id};
    }
  }

  /** Storing a block keeps everyone's parent, and finds the new block its own. */
  lemma InsertedStaysOrdered(index: Index, nextSerial: nat, roots: set<BlockId>, floor: nat, item: Item)
    requires Ordered(index, nextSerial, roots, floor)
    requires item.serial == nextSerial && item.block.WellFormed()
    requires item.link.None? ==> item.block.previous == NO_BLOCK || item.block.id in roots
    requires item.link.Some? ==> item.block.previous in index && index[item.block.previous].serial == item.link.value
    ensures Ordered(Inserted(index, item), nextSerial + 1, roots, floor)
  {
    var index' := Inserted(index, item);
    forall id <- index' | floor < id.num ensures Anchored(index', roots, id) {
      if id in index { assert Anchored(index, roots, id); }
    }
  }

  /** A starting block tops the database exactly when it is new and not below any other. */
  lemma StartedInOrder(index: Index, nextSerial: nat, roots: set<BlockId>, floor: nat, item: Item)
    requires Ordered(index, nextSerial, roots, floor)
    requires item.serial == nextSerial && item.block.WellFormed() && item.link.None?
    ensures Ordered(Inserted(index, item), nextSerial + 1, roots + {item.block.id}, floor)
    ensures Topped(Inserted(index, item), Some(item)) <==>
            item.block.id !in index && forall id <- index :: id.num <= item.Num()
  {
    var roots' := roots + {item.block.id};
    forall id <- index | floor < id.num ensures Anchored(index, roots', id) { assert Anchored(index, roots, id); }
    InsertedStaysOrdered(index, nextSerial, roots', floor, item);
    if item.block.id in index { assert index[item.block.id].serial < nextSerial; }
  }

  /** Above the pruning bound every line of descent can be followed, down to the bound or to a first block. */
  lemma {:induction false} AncestorsAreKept(index: Index, nextSerial: nat, roots: set<BlockId>, floor: nat, id: BlockId, k: nat)
    requires Ordered(index, nextSerial, roots, floor) && id in index && floor + k <= id.num
    ensures Ancestor(index, index[id], k).Some? || exists m: nat | m < k ::
              Ancestor(index, index[id], m).Some? && First(roots, Ancestor(index, index[id], m).value)
    decreases k
  {
    if k > 0 {
      AncestorStep(index, index[id], k - 1);
      AncestorsAreKept(index, nextSerial, roots, floor, id, k - 1);
      if Ancestor(index, index[id], k - 1).Some? {
        AncestorNum(index, nextSerial, id, k - 1);
        assert Anchored(index, roots, Ancestor(index, index[id], k - 1).value.block.id);
      }
    }
  }

  lemma MoreRoots(index: Index, nextSerial: nat, roots: set<BlockId>, more: set<BlockId>, floor: nat)
    requires Ordered(index, nextSerial, roots, floor) && roots <= more
    ensures Ordered(index, nextSerial, more, floor)
  {
    forall id <- index | floor < id.num ensures Anchored(index, more, id) { assert Anchored(index, roots, id); }
  }

  lemma PushedStaysSound(index: Index, head: Option<Item>, nextSerial: nat, maxSize: nat, item: Item)
    requires Sound(index, nextSerial) && item.serial == nextSerial && item.block.WellFormed()
    ensures Sound(Kept(Inserted(index, item), Bound(head, NewHead(head, item), maxSize)), nextSerial + 1)
  {
  }

  /** Pushing keeps blocks anchored and the head on top. */
  lemma PushedStaysInOrder(index: Index, head: Option<Item>, nextSerial: nat, roots: set<BlockId>, floor: nat,
                           maxSize: nat, item: Item)
    requires Ordered(index, nextSerial, roots, floor)
    requires item.serial == nextSerial && item.block.WellFormed()
    requires item.link.None? ==> item.block.previous == NO_BLOCK || item.block.id in roots
    requires item.link.Some? ==> item.block.previous in index && index[item.block.previous].serial == item.link.value
    ensures var h := NewHead(head, item);
            var bound := Bound(head, h, maxSize);
            var index' := Kept(Inserted(index, item), bound);
            Ordered(index', nextSerial + 1, roots, Max(floor, bound)) && (Topped(index, head) ==> Topped(index', Some(h)))
  {
    InsertedStaysOrdered(index, nextSerial, roots, floor, item);
    KeptStaysOrdered(Inserted(index, item), nextSerial + 1, roots, floor, Bound(head, NewHead(head, item), maxSize));
  }

  /** A parent is one number below its child, so it survives whenever the child lies above the bound. */
  lemma KeptStaysOrdered(index: Index, nextSerial: nat, roots: set<BlockId>, floor: nat, minNum: nat)
    requires Ordered(index, nextSerial, roots, floor)
    ensures Ordered(Kept(index, minNum), nextSerial, roots, Max(floor, minNum))
  {
    var index' := Kept(index, minNum);
    forall id <- index' | Max(floor, minNum) < id.num ensures Anchored(index', roots, id) {
      assert Anchored(index, roots, id);
    }
  }

  // ------------------------------------------------------------ lines of descent

  /** The successive ancestors of `item`, itself first. */
  ghost predicate Line(index: Index, item: Item, line: seq<Item>)
  {
    line != [] && forall k | 0 <= k < |line| :: Ancestor(index, item, k) == Some(line[k])
  }

  lemma {:induction false} AncestorStep(index: Index, item: Item, k: nat)
    ensures Ancestor(index, item, k + 1) ==
            if Ancestor(index, item, k).Some? then Parent(index, Ancestor(index, item, k).value) else None
    decreases k
  {
    if k > 0 && Parent(index, item).Some? { AncestorStep(index, Parent(index, item).value, k - 1); }
  }

  lemma {:induction false} AncestorsEnd(index: Index, item: Item, k: nat, m: nat)
    requires k <= m && Ancestor(index, item, m).Some?
    ensures Ancestor(index, item, k).Some?
    decreases m
  {
    if k < m {
      AncestorStep(index, item, m - 1);
      AncestorsEnd(index, item, k, m - 1);
    }
  }

  /** Each link goes down by exactly one block number. */
  lemma {:induction false} AncestorNum(index: Index, nextSerial: nat, id: BlockId, k: nat)
    requires Sound(index, nextSerial) && id in index && Ancestor(index, index[id], k).Some?
    ensures var a := Ancestor(index, index[id], k).value;
            a.Num() + k == id.num && a.block.id in index && index[a.block.id] == a
    decreases k
  {
    if k > 0 {
      AncestorStep(index, index[id], k - 1);
      AncestorNum(index, nextSerial, id, k - 1);
    }
  }

  lemma LineIsLinked(index: Index, item: Item, line: seq<Item>)
    requires Line(index, item, line)
    ensures Linked(index, line) && line[0] == item
  {
    forall k | 0 <= k < |line| - 1 ensures Parent(index, line[k]) == Some(line[k + 1]) {
      AncestorStep(index, item, k);
    }
  }

  lemma LineGrows(index: Index, nextSerial: nat, id: BlockId, line: seq<Item>)
    requires Sound(index, nextSerial) && id in index
    requires Line(index, index[id], line) && Parent(index, line[|line| - 1]).Some?
    ensures var p := Parent(index, line[|line| - 1]).value;
            Line(index, index[id], line + [p]) && p.Num() + 1 == line[|line| - 1].Num()
  {
    AncestorStep(index, index[id], |line| - 1);
    AncestorNum(index, nextSerial, id, |line| - 1);
  }

  /** No meeting point so far: none among the pairs the two lines cover, and every further one is lower down. */
  lemma DeadEnd(index: Index, nextSerial: nat, x: BlockId, y: BlockId, p: seq<Item>, q: seq<Item>)
    requires Sound(index, nextSerial) && x in index && y in index
    requires Line(index, index[x], p) && Line(index, index[y], q)
    requires p[|p| - 1].Num() >= q[|q| - 1].Num() && (p[|p| - 1].Num() > q[|q| - 1].Num() ==> |q| == 1)
    requires Parent(index, p[|p| - 1]).None?
    requires Apart(p, q)
    ensures !exists i: nat, j: nat :: Meet(index, index[x], index[y], i, j)
  {
    forall i: nat, j: nat ensures !Meet(index, index[x], index[y], i, j) {
      if Meet(index, index[x], index[y], i, j) {
        if i >= |p| {
          AncestorStep(index, index[x], |p| - 1);
          AncestorsEnd(index, index[x], |p|, i);
          assert false;
        }
        assert Ancestor(index, index[x], i) == Some(p[i]);
        AncestorNum(index, nextSerial, x, i);
        AncestorNum(index, nextSerial, x, |p| - 1);
        AncestorNum(index, nextSerial, y, j);
        AncestorNum(index, nextSerial, y, |q| - 1);
      }
    }
  }

  lemma ApartGrows(p: seq<Item>, q: seq<Item>, a: Item, b: Item)
    requires Apart(p, q) && Above(p, a.Num()) && Above(q, b.Num())
    requires a.Num() == b.Num() && a.block.previous != b.block.previous
    ensures Apart(p + [a], q + [b]) && Apart(q + [b], p + [a])
    ensures a.Num() > 0 ==> Above(p + [a], a.Num() - 1) && Above(q + [b], b.Num() - 1)
  {
  }

  lemma MeetIsSymmetric(index: Index, a: Item, b: Item)
    ensures (exists i: nat, j: nat :: Meet(index, a, b, i, j)) <==> exists i: nat, j: nat :: Meet(index, b, a, i, j)
  {
    forall i: nat, j: nat ensures Meet(index, a, b, i, j) <==> Meet(index, b, a, j, i) {}
  }

  /** The lowest number kept below a head numbered `n`. */
  function LowEnd(n: nat, maxSize: nat): nat { if maxSize < n then n - maxSize else 0 }

  /** The bound a push prunes at: none unless the head moved. */
  ghost function Bound(before: Option<Item>, after: Item, maxSize: nat): nat
  {
    if before.None? || after == before.value then 0 else LowEnd(after.Num(), maxSize)
  }

  ghost function NewHead(head: Option<Item>, item: Item): Item
  {
    if head.Some? && item.Num() <= head.value.Num() then head.value else item
  }

  /** The id index is unique: a second block with the same id is not stored. */
  ghost function Inserted(index: Index, item: Item): Index
  {
    if item.block.id in index then index else index[item.block.id := item]
  }

  function Kept(index: Index, minNum: nat): Index
  {
    map id | id in index && minNum <= id.num :: index[id]
  }

  /** Storing a block adds it, and prunes below the size exactly when it becomes the head. */
  lemma PlacedIs(index: Index, head: Option<Item>, item: Item, maxSize: nat)
    ensures var top := NewHead(head, item);
            var r := Kept(Inserted(index, item), Bound(head, top, maxSize));
            && (forall id: BlockId ::
                  id in r <==> (id == item.block.id || id in index) && (head.Some? && item.Num() > head.value.Num() ==> id.num + maxSize >= item.Num()))
            && forall id <- r :: if id in index then r[id] == index[id] else r[id] == item
  {
  }

  lemma KeptAll(index: Index)
    ensures Kept(index, 0) == index
  {
  }

  ghost function NewItem(index: Index, head: Option<Item>, serial: nat, b: Block): Item
  {
    Item(b, serial, if head.Some? && b.previous != NO_BLOCK && b.previous in index then Some(index[b.previous].serial) else None)
  }
}
