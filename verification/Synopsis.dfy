/**
 How two nodes find out which blocks one of them is missing: a synopsis of one chain, thinning out
 towards its low end, and the reply computed from the other chain (libraries/app/application.cpp).
 */
module Synopsis {
  import opened Options
  import opened ForkDatabases
  import opened ChainDatabases

  /** A chain by the ids of its blocks 1, 2, 3, ... */
  ghost predicate Numbered(chain: seq<BlockId>)
  {
    forall k | 0 <= k < |chain| :: chain[k].num == k + 1
  }

  /** A block's id determines its parent's. */
  ghost predicate Hashed(chain: seq<BlockId>, parent: BlockId -> BlockId)
  {
    forall k | 0 < k < |chain| :: parent(chain[k]) == chain[k - 1]
  }

  /** How far two chains agree. */
  function Common(a: seq<BlockId>, b: seq<BlockId>): (f: nat)
    ensures f <= |a| && f <= |b| && a[..f] == b[..f]
  {
    if a == [] || b == [] || a[0] != b[0] then 0
    else
      var f := Common(a[1..], b[1..]);
      assert a[..f + 1] == [a[0]] + a[1..][..f] && b[..f + 1] == [b[0]] + b[1..][..f];
      f + 1
  }

  /** Chains that share a block share everything before it. */
  lemma {:induction false} SharedPast(a: seq<BlockId>, b: seq<BlockId>, parent: BlockId -> BlockId, k: nat)
    requires Hashed(a, parent) && Hashed(b, parent) && k < |a| && k < |b| && a[k] == b[k]
    ensures a[..k + 1] == b[..k + 1]
  {
    if k > 0 {
      SharedPast(a, b, parent, k - 1);
      assert a[..k + 1] == a[..k] + [a[k]] && b[..k + 1] == b[..k] + [b[k]];
    }
  }

  lemma {:induction false} CommonIsLongest(a: seq<BlockId>, b: seq<BlockId>, k: nat)
    requires k <= |a| && k <= |b| && a[..k] == b[..k]
    ensures k <= Common(a, b)
  {
    if k > 0 {
      assert a[0] == a[..k][0] == b[..k][0] == b[0];
      assert a[1..][..k - 1] == a[..k][1..] && b[1..][..k - 1] == b[..k][1..];
      CommonIsLongest(a[1..], b[1..], k - 1);
    }
  }

  /** Beyond the common part, no two blocks at the same height are the same. */
  lemma ApartBeyond(a: seq<BlockId>, b: seq<BlockId>, parent: BlockId -> BlockId, k: nat)
    requires Hashed(a, parent) && Hashed(b, parent) && k < |a| && k < |b|
    ensures a[k] == b[k] <==> k < Common(a, b)
  {
    if a[k] == b[k] {
      SharedPast(a, b, parent, k);
      CommonIsLongest(a, b, k + 1);
    }
    if k < Common(a, b) { assert a[k] == a[..Common(a, b)][k] == b[..Common(a, b)][k]; }
  }

  // ------------------------------------------------------------------ the numbers

  /** The block numbers in a synopsis from `low` to `high` when the peer will add ids up to `top`. */
  function Steps(low: nat, high: nat, top: nat): seq<nat>
    requires high <= top
    decreases high + 1 - low
  {
    if low > high then [] else [low] + Steps(low + (top - low + 2) / 2, high, top)
  }

  function Log2(m: nat): nat
    requires m > 0
  {
    if m == 1 then 0 else 1 + Log2(m / 2)
  }

  /** The numbers start at `low` and strictly increase, none above `high`. */
  lemma {:induction false} StepsIncrease(low: nat, high: nat, top: nat)
    requires low <= high <= top
    ensures var s := Steps(low, high, top);
            && s != [] && s[0] == low && (forall i | 0 <= i < |s| :: low <= s[i] <= high)
            && (forall i, j | 0 <= i < j < |s| :: s[i] < s[j])
    decreases high - low
  {
    var next := low + (top - low + 2) / 2;
    if next <= high { StepsIncrease(next, high, top); }
  }

  /** With nothing to add, the synopsis ends at `high` after floor(log2(high - low + 1)) + 1 numbers. */
  lemma {:induction false} StepsHalve(low: nat, high: nat)
    requires low <= high
    ensures var s := Steps(low, high, high);
            |s| == Log2(high - low + 1) + 1 && s[|s| - 1] == high
    decreases high - low
  {
    var m, next := high - low + 1, low + (high - low + 2) / 2;
    assert high - next + 1 == m / 2;
    if m > 1 { StepsHalve(next, high); }
  }

  /** The numbers are dense enough: above any of them, the next is at most half of what is left away. */
  lemma {:induction false} StepsAreClose(low: nat, high: nat, top: nat, i: nat)
    requires low <= high <= top && i < |Steps(low, high, top)|
    ensures var s := Steps(low, high, top);
            (if i + 1 < |s| then 2 * (s[i + 1] - s[i]) <= top - s[i] + 2 else 2 * (high - s[i]) <= top - s[i])
    decreases high - low
  {
    var next := low + (top - low + 2) / 2;
    if next <= high {
      StepsIncrease(next, high, top);
      if i > 0 { StepsAreClose(next, high, top, i - 1); }
    }
  }

  // ----------------------------------------------------------------- the synopsis

  predicate Included(chain: seq<BlockId>, id: BlockId)
  {
    0 < id.num <= |chain| && chain[id.num - 1] == id
  }

  /** is_included_block throws: the block store has no entry under that number. */
  predicate Unreadable(chain: seq<BlockId>, id: BlockId)
  {
    id != NO_BLOCK && !(0 < id.num <= |chain|)
  }

  function Reversed(s: seq<BlockId>): (r: seq<BlockId>)
    ensures |r| == |s| && forall i | 0 <= i < |s| :: r[i] == s[|s| - 1 - i]
  {
    if s == [] then [] else Reversed(s[1..]) + [s[0]]
  }

  /** What is summarised: our chain, or the chain up to the reference block wherever that is.
      `history` runs from the reference block down to the last block on our chain. */
  function Line(chain: seq<BlockId>, reference: BlockId, history: seq<BlockId>): (line: seq<BlockId>)
    requires Forked(chain, reference, history)
  {
    if reference == NO_BLOCK then chain
    else if Included(chain, reference) then chain[..reference.num]
    else chain[..history[|history| - 1].num] + Reversed(history[..|history| - 1])
  }

  /** What the fork database promises about the history of a block that is not on our chain. */
  predicate Forked(chain: seq<BlockId>, reference: BlockId, history: seq<BlockId>)
  {
    reference != NO_BLOCK && !Included(chain, reference) ==> FromFork(chain, reference, history)
  }

  /** Down from the reference block, one number at a time, to a block of our chain or to no block at all. */
  predicate FromFork(chain: seq<BlockId>, reference: BlockId, history: seq<BlockId>)
  {
    && |history| >= 2 && history[0] == reference
    && (history[|history| - 1] == NO_BLOCK || Included(chain, history[|history| - 1]))
    && forall i | 0 <= i < |history| - 1 :: history[i].num == history[i + 1].num + 1
  }

  function Low(chain: seq<BlockId>, lastFixed: nat, reference: BlockId): nat
  {
    var low := if reference != NO_BLOCK && Included(chain, reference) && reference.num < lastFixed then reference.num else lastFixed;
    if low == 0 then 1 else low
  }

  /** The low block is the last one that cannot be undone, as far as the line reaches, and at least the first. */
  lemma LowIs(chain: seq<BlockId>, lastFixed: nat, reference: BlockId, history: seq<BlockId>)
    requires Forked(chain, reference, history) && lastFixed <= |chain|
    requires reference != NO_BLOCK && !Included(chain, reference) ==> lastFixed <= history[|history| - 1].num
    ensures var n := |Line(chain, reference, history)|;
            var low := if lastFixed <= n then lastFixed else n;
            Low(chain, lastFixed, reference) == if low >= 1 then low else 1
  {
    hide Reversed;
  }

  lemma LineParts(chain: seq<BlockId>, reference: BlockId, history: seq<BlockId>)
    requires Forked(chain, reference, history)
    ensures var line := Line(chain, reference, history);
            if reference == NO_BLOCK then line == chain
            else if Included(chain, reference) then line == chain[..reference.num]
            else (var last, fork := history[|history| - 1], Reversed(history[..|history| - 1]);
                  line == chain[..last.num] + fork)
  {
  }

  /** The line is itself a chain, on a fork as well. */
  lemma LineIsChain(chain: seq<BlockId>, reference: BlockId, history: seq<BlockId>, parent: BlockId -> BlockId)
    requires Numbered(chain) && Hashed(chain, parent) && Forked(chain, reference, history)
    requires reference != NO_BLOCK && !Included(chain, reference) ==>
               forall i | 0 <= i < |history| - 1 :: parent(history[i]) == history[i + 1]
    ensures Numbered(Line(chain, reference, history)) && Hashed(Line(chain, reference, history), parent)
  {
    hide Reversed;
    if reference != NO_BLOCK && !Included(chain, reference) {
      var n, line := history[|history| - 1].num, Line(chain, reference, history);
      forall i | 0 <= i < |history| - 1 ensures history[i].num == n + |history| - 1 - i { Heights(history, i); }
      forall k | n <= k < |line| ensures line[k] == history[|history| - 2 - (k - n)] {}
    }
  }

  lemma {:induction false} Heights(history: seq<BlockId>, i: nat)
    requires i < |history| && forall j | 0 <= j < |history| - 1 :: history[j].num == history[j + 1].num + 1
    ensures history[i].num == history[|history| - 1].num + |history| - 1 - i
    decreases |history| - i
  {
    if i + 1 < |history| { Heights(history, i + 1); }
  }

  /** get_block_ids_on_fork: from a block down to the last one it shares with the applied chain.  Fails exactly when the
      fork database does not lead from both heads to a common block. */
  method BlockIdsOnFork(fork: ForkDatabase, chain: seq<BlockId>, reference: BlockId, ghost blockOf: BlockId -> Block,
                        ghost applied: seq<Block>) returns (history: Option<seq<BlockId>>)
    requires Sound(fork.index, fork.nextSerial) && Genuine(blockOf, fork.index)
    requires Chain(applied) && GenuineChain(blockOf, applied) && IdsOf(chain, applied)
    ensures history.None? <==> NeverMeet(fork.index, Tip(applied), reference)
    ensures history.Some? ==> |history.value| >= 2 && FromFork(chain, reference, history.value)
    ensures history.Some? ==> forall i | 0 <= i < |history.value| - 1 :: blockOf(history.value[i]).previous == history.value[i + 1]
  {
    hide Sound, Genuine, Chain, GenuineChain, NeverMeet, Branches, FromFork, Meet;
    TipIsLast(chain, applied);
    var head := if chain == [] then NO_BLOCK else chain[|chain| - 1];
    var found, p, q := fork.FetchBranchFrom(head, reference);
    if !found { Strangers(fork.index, head, reference); return None; }
    Acquaintances(fork.index, head, reference);
    ForkHistory(blockOf, fork.index, fork.nextSerial, chain, applied, reference, p, q);
    var ids: seq<BlockId> := [];
    for i := 0 to |q|
      invariant ids == ItemIds(q[..i])
    {
      assert q[..i + 1][..i] == q[..i];
      ids := ids + [q[i].block.id];
    }
    assert q[..|q|] == q;
    history := Some(ids + [p[|p| - 1].block.previous]);
  }

  function ItemIds(items: seq<Item>): (ids: seq<BlockId>)
    ensures |ids| == |items| && forall i | 0 <= i < |items| :: ids[i] == items[i].block.id
  {
    if items == [] then [] else ItemIds(items[..|items| - 1]) + [items[|items| - 1].block.id]
  }

  ghost predicate IdsOf(chain: seq<BlockId>, applied: seq<Block>)
  {
    |chain| == |applied| && forall i | 0 <= i < |chain| :: chain[i] == applied[i].id
  }

  lemma TipIsLast(chain: seq<BlockId>, applied: seq<Block>)
    requires IdsOf(chain, applied)
    ensures Tip(applied) == if chain == [] then NO_BLOCK else chain[|chain| - 1]
  {
  }

  /** The branch of the reference block and the block below both branches. */
  lemma ForkHistory(blockOf: BlockId -> Block, index: Index, nextSerial: nat, chain: seq<BlockId>, applied: seq<Block>,
                    reference: BlockId, p: seq<Item>, q: seq<Item>)
    requires Sound(index, nextSerial) && Genuine(blockOf, index)
    requires Chain(applied) && GenuineChain(blockOf, applied) && IdsOf(chain, applied)
    requires Tip(applied) in index && reference in index && Branches(index, index[Tip(applied)], index[reference], p, q)
    ensures p != [] && q != []
    ensures var history := ItemIds(q) + [p[|p| - 1].block.previous];
            && FromFork(chain, reference, history)
            && forall i | 0 <= i < |history| - 1 :: blockOf(history[i]).previous == history[i + 1]
  {
    LineIsStored(index, nextSerial, p);
    LineIsStored(index, nextSerial, q);
    OldBranchIsApplied(blockOf, index, nextSerial, applied, p, |p| - 1);
    var m, history := |applied| - |p|, ItemIds(q) + [p[|p| - 1].block.previous];
    assert applied[m].previous == Tip(applied[..m]);
    forall i | 0 <= i < |q| ensures history[i].num == history[i + 1].num + 1 && blockOf(history[i]).previous == history[i + 1] {
      if i < |q| - 1 { assert Parent(index, q[i]) == Some(q[i + 1]); }
    }
  }

  /** get_blockchain_synopsis; fails when the reference block is numbered above our chain, unknown or forked off too long
      ago.  What it summarises is a chain of linked blocks, even where it leaves ours. */
  method GetSynopsis(fork: ForkDatabase, chain: seq<BlockId>, lastFixed: nat, reference: BlockId, extra: nat,
                     ghost blockOf: BlockId -> Block, ghost applied: seq<Block>)
    returns (r: Option<seq<BlockId>>, ghost history: seq<BlockId>)
    requires Sound(fork.index, fork.nextSerial) && Genuine(blockOf, fork.index) && lastFixed <= |chain|
    requires Chain(applied) && GenuineChain(blockOf, applied) && IdsOf(chain, applied)
    ensures Unreadable(chain, reference) ==> r.None?
    ensures Unreadable(chain, reference) || Forked(chain, reference, history) ||
            (r.None? && reference != NO_BLOCK && !Included(chain, reference) && NeverMeet(fork.index, Tip(applied), reference))
    ensures !Unreadable(chain, reference) && Forked(chain, reference, history) ==>
              (r.None? <==> reference != NO_BLOCK && !Included(chain, reference) && history[|history| - 1].num < lastFixed)
    ensures r.Some? && reference == NO_BLOCK && chain == [] ==> r.value == []
    ensures r.Some? && !(reference == NO_BLOCK && chain == []) ==>
              (var line, low := Line(chain, reference, history), Low(chain, lastFixed, reference);
               && Numbered(line) && Hashed(line, id => blockOf(id).previous)
               && low <= |line| && Summary(line, low, extra, r.value))
  {
    hide Sound, Genuine, Chain, GenuineChain, Numbered, Hashed, Summary, NeverMeet, Line;
    IdsAreChain(blockOf, chain, applied);
    history := [];
    if Unreadable(chain, reference) { return None, []; }
    var h: Option<seq<BlockId>> := Some([]);
    if reference != NO_BLOCK && !Included(chain, reference) {
      h := BlockIdsOnFork(fork, chain, reference, blockOf, applied);
      if h.None? { return None, []; }
      history := h.value;
    }
    LineIsChain(chain, reference, history, id => blockOf(id).previous);
    r := Summarise(chain, lastFixed, reference, h, extra);
  }

  lemma IdsAreChain(blockOf: BlockId -> Block, chain: seq<BlockId>, applied: seq<Block>)
    requires Chain(applied) && GenuineChain(blockOf, applied) && IdsOf(chain, applied)
    ensures Numbered(chain) && Hashed(chain, id => blockOf(id).previous)
  {
    forall k | 0 < k < |chain| ensures blockOf(chain[k]).previous == chain[k - 1] {
      assert applied[k].previous == Tip(applied[..k]);
    }
  }

  /** get_blockchain_synopsis, given the history of a reference block that is not on our chain. */
  method Summarise(chain: seq<BlockId>, lastFixed: nat, reference: BlockId, history: Option<seq<BlockId>>, extra: nat)
    returns (r: Option<seq<BlockId>>)
    requires Numbered(chain) && lastFixed <= |chain|
    requires history.Some? && !Unreadable(chain, reference) ==> Forked(chain, reference, history.value)
    ensures r.None? <==> reference != NO_BLOCK && !Included(chain, reference) &&
                         (Unreadable(chain, reference) || history.None? || history.value[|history.value| - 1].num < lastFixed)
    ensures r.Some? && reference == NO_BLOCK && chain == [] ==> r.value == []
    ensures r.Some? && !(reference == NO_BLOCK && chain == []) ==>
              (var line := Line(chain, reference, if history.Some? then history.value else []);
               var low := Low(chain, lastFixed, reference);
               low <= |line| && Summary(line, low, extra, r.value))
  {
    hide Line, Summary, Reversed, Numbered;
    var high, nonFork, low, fork := |chain|, |chain|, lastFixed, [];
    if reference != NO_BLOCK {
      if Unreadable(chain, reference) { return None; }
      if Included(chain, reference) {
        high, nonFork := reference.num, reference.num;
        if reference.num < low { low := reference.num; }
      } else {
        if history.None? { return None; }
        var last := history.value[|history.value| - 1];
        fork := Reversed(history.value[..|history.value| - 1]);
        nonFork := last.num;
        high := nonFork + |fork|;
        if nonFork < low { return None; }
      }
    } else if high == 0 {
      return Some([]);
    }
    if low == 0 { low := 1; }
    ghost var line := Line(chain, reference, if history.Some? then history.value else []);
    LineParts(chain, reference, if history.Some? then history.value else []);
    assert |line| == high && forall k | 0 <= k < high :: line[k] == if k < nonFork then chain[k] else fork[k - nonFork];
    var ids := WalkUp(chain, nonFork, fork, low, high, high + extra, line);
    return Some(ids);
  }

  /** The synopsis of a line holds exactly the ids at the step numbers. */
  ghost predicate Summary(line: seq<BlockId>, low: nat, extra: nat, ids: seq<BlockId>)
    requires low <= |line|
  {
    var nums := Steps(low, |line|, |line| + extra);
    |ids| == |nums| && forall i | 0 <= i < |nums| :: 0 < nums[i] <= |line| && ids[i] == line[nums[i] - 1]
  }

  /** The do loop at the end of get_blockchain_synopsis. */
  method WalkUp(chain: seq<BlockId>, nonFork: nat, fork: seq<BlockId>, low0: nat, high: nat, top: nat, ghost line: seq<BlockId>)
    returns (ids: seq<BlockId>)
    requires 0 < low0 <= high <= top && nonFork <= |chain| && high == nonFork + |fork| == |line|
    requires forall k | 0 <= k < high :: line[k] == if k < nonFork then chain[k] else fork[k - nonFork]
    ensures Summary(line, low0, top - high, ids)
  {
    hide Walking, Summary;
    var low := low0;
    ids := [];
    ghost var done: seq<nat> := [];
    Departs(line, low0, top);
    while true
      invariant 0 < low <= high && Walking(line, low0, top, low, done, ids)
      decreases high - low
    {
      var id := if low <= nonFork then chain[low - 1] else fork[low - nonFork - 1];
      WalksOn(line, low0, top, low, done, ids);
      ids := ids + [id];
      done := done + [low];
      low := low + (top - low + 2) / 2;
      if low > high { break; }
    }
  }

  /** The ids collected so far are those at `done`, and `low` is next. */
  ghost predicate Walking(line: seq<BlockId>, low0: nat, top: nat, low: nat, done: seq<nat>, ids: seq<BlockId>)
    requires |line| <= top
  {
    && done + Steps(low, |line|, top) == Steps(low0, |line|, top) && |ids| == |done|
    && forall i | 0 <= i < |ids| :: 0 < done[i] <= |line| && ids[i] == line[done[i] - 1]
  }

  lemma Departs(line: seq<BlockId>, low: nat, top: nat)
    requires |line| <= top
    ensures Walking(line, low, top, low, [], [])
  {
    hide Steps;
    assert [] + Steps(low, |line|, top) == Steps(low, |line|, top);
  }

  lemma WalksOn(line: seq<BlockId>, low0: nat, top: nat, low: nat, done: seq<nat>, ids: seq<BlockId>)
    requires 0 < low <= |line| <= top && low0 <= |line| && Walking(line, low0, top, low, done, ids)
    ensures var next := low + (top - low + 2) / 2;
            && Walking(line, low0, top, next, done + [low], ids + [line[low - 1]])
            && (next > |line| ==> Summary(line, low0, top - |line|, ids + [line[low - 1]]))
  {
    hide Steps;
    NextStep(low, |line|, top, done);
  }

  lemma NextStep(low: nat, high: nat, top: nat, done: seq<nat>)
    requires low <= high <= top
    ensures var next := low + (top - low + 2) / 2;
            && done + Steps(low, high, top) == done + [low] + Steps(next, high, top)
            && (next > high ==> done + Steps(low, high, top) == done + [low])
  {
    hide Steps;
    var next := low + (top - low + 2) / 2;
    FirstStep(low, high, top);
    Regroup(done, [low], Steps(next, high, top));
  }

  lemma FirstStep(low: nat, high: nat, top: nat)
    requires low <= high <= top
    ensures var next := low + (top - low + 2) / 2;
            Steps(low, high, top) == [low] + Steps(next, high, top) && (next > high ==> Steps(next, high, top) == [])
  {
  }

  lemma Regroup(a: seq<nat>, b: seq<nat>, c: seq<nat>)
    ensures a + (b + c) == a + b + c && (c == [] ==> a + (b + c) == a + b)
  {
  }

  // ------------------------------------------------------------------- the reply

  predicate Recognised(chain: seq<BlockId>, known: set<BlockId>, id: BlockId)
  {
    id == NO_BLOCK || (id in known && Included(chain, id))
  }

  /** Asking whether a known block is on the chain throws when it is numbered above it. */
  predicate Throws(chain: seq<BlockId>, known: set<BlockId>, id: BlockId) { id in known && Unreadable(chain, id) }

  /** The search through a synopsis from its end ends at place `i`. */
  ghost predicate EndsAt(chain: seq<BlockId>, known: set<BlockId>, synopsis: seq<BlockId>, i: nat)
  {
    && i < |synopsis| && (Recognised(chain, known, synopsis[i]) || Throws(chain, known, synopsis[i]))
    && forall j | i < j < |synopsis| :: !Recognised(chain, known, synopsis[j]) && !Throws(chain, known, synopsis[j])
  }

  /** It ends at a block that is on the chain. */
  ghost predicate Answered(chain: seq<BlockId>, known: set<BlockId>, synopsis: seq<BlockId>)
  {
    exists i: nat :: EndsAt(chain, known, synopsis, i) && Recognised(chain, known, synopsis[i])
  }

  /** get_block_ids: our ids from the last one in the synopsis that we share, `limit` of them at most, and how many
      we have beyond those.  It throws when there is none, or when a known block above our chain comes later. */
  method GetBlockIds(chain: seq<BlockId>, known: set<BlockId>, synopsis: seq<BlockId>, limit: nat)
    returns (found: bool, start: nat, ids: seq<BlockId>, remaining: nat)
    requires Numbered(chain)
    ensures found <==> chain == [] || synopsis == [] || Answered(chain, known, synopsis)
    ensures chain == [] ==> ids == [] && remaining == 0
    ensures found && chain != [] ==> start <= |chain| && Reply(chain, start, limit, ids, remaining)
    ensures found && chain != [] && synopsis == [] ==> start == 0
    ensures found && chain != [] && synopsis != [] ==>
              exists i: nat :: EndsAt(chain, known, synopsis, i) && Recognised(chain, known, synopsis[i]) && start == synopsis[i].num
  {
    hide Recognised, Reply, Numbered, Throws;
    ids, remaining, start := [], 0, 0;
    if chain == [] { return true, 0, ids, 0; }
    if synopsis != [] {
      var i := LastRecognised(chain, known, synopsis);
      if i == |synopsis| || Throws(chain, known, synopsis[i]) {
        if i < |synopsis| { Exclusive(chain, known, synopsis[i]); }
        return false, 0, [], 0;
      }
      start := synopsis[i].num;
      InRange(chain, known, synopsis[i]);
    }
    found := true;
    ids, remaining := Collect(chain, start, limit);
  }

  lemma InRange(chain: seq<BlockId>, known: set<BlockId>, id: BlockId)
    requires Recognised(chain, known, id)
    ensures id.num <= |chain|
  {
  }

  lemma Exclusive(chain: seq<BlockId>, known: set<BlockId>, id: BlockId)
    requires Throws(chain, known, id)
    ensures !Recognised(chain, known, id)
  {
  }

  /** Where the search through a synopsis ends, or the synopsis's length. */
  method LastRecognised(chain: seq<BlockId>, known: set<BlockId>, synopsis: seq<BlockId>) returns (i: nat)
    ensures i <= |synopsis| && (i < |synopsis| ==> EndsAt(chain, known, synopsis, i))
    ensures i == |synopsis| ==> forall id <- synopsis :: !Recognised(chain, known, id) && !Throws(chain, known, id)
  {
    hide Recognised, Throws;
    i := |synopsis|;
    while i > 0
      invariant 0 <= i <= |synopsis|
      invariant forall j | i <= j < |synopsis| :: !Recognised(chain, known, synopsis[j]) && !Throws(chain, known, synopsis[j])
    {
      i := i - 1;
      if Recognised(chain, known, synopsis[i]) || Throws(chain, known, synopsis[i]) { return; }
    }
    i := |synopsis|;
  }

  /** The ids from block `start` on. */
  method Collect(chain: seq<BlockId>, start: nat, limit: nat) returns (ids: seq<BlockId>, remaining: nat)
    requires Numbered(chain) && start <= |chain| && chain != []
    ensures Reply(chain, start, limit, ids, remaining)
  {
    hide Numbered, Reply, Collected;
    ids, remaining := [], 0;
    var num := start;
    NoneCollected(chain, start);
    while num <= |chain| && |ids| < limit
      invariant start <= num <= |chain| + 1 && |ids| <= limit && Collected(chain, start, num, ids)
    {
      OneCollected(chain, start, num, ids);
      if num > 0 { ids := ids + [chain[num - 1]]; }
      num := num + 1;
    }
    LastCollected(chain, start, limit, num, ids);
    if ids != [] && ids[|ids| - 1].num < |chain| { remaining := |chain| - ids[|ids| - 1].num; }
  }

  /** The ids of the blocks from `start` up to `num`, without block 0. */
  ghost predicate Collected(chain: seq<BlockId>, start: nat, num: nat, ids: seq<BlockId>)
    requires start <= num <= |chain| + 1
  {
    ids == if num == 0 then [] else chain[Max(start, 1) - 1..num - 1]
  }

  lemma NoneCollected(chain: seq<BlockId>, start: nat)
    requires start <= |chain|
    ensures Collected(chain, start, start, [])
  {
  }

  lemma OneCollected(chain: seq<BlockId>, start: nat, num: nat, ids: seq<BlockId>)
    requires start <= num <= |chain| && Collected(chain, start, num, ids)
    ensures Collected(chain, start, num + 1, if num > 0 then ids + [chain[num - 1]] else ids)
  {
  }

  lemma LastCollected(chain: seq<BlockId>, start: nat, limit: nat, num: nat, ids: seq<BlockId>)
    requires Numbered(chain) && start <= num <= |chain| + 1 && start <= |chain| && Collected(chain, start, num, ids)
    requires |ids| <= limit && (num <= |chain| ==> |ids| >= limit)
    ensures Reply(chain, start, limit, ids, if ids == [] then 0 else |chain| - ids[|ids| - 1].num)
    ensures ids != [] ==> ids[|ids| - 1].num <= |chain|
  {
    hide Numbered;
    if ids != [] { NumberOf(chain, num - 1); }
  }

  /** A full stretch of the chain from block `start` on, cut only by the limit. */
  ghost predicate Reply(chain: seq<BlockId>, start: nat, limit: nat, ids: seq<BlockId>, remaining: nat)
    requires start <= |chain|
  {
    var from := Max(start, 1) - 1;
    && from + |ids| <= |chain| && ids == chain[from..from + |ids|]
    && (|ids| == limit || (|ids| < limit && from + |ids| == |chain|))
    && remaining == if ids == [] then 0 else |chain| - (from + |ids|)
  }

  // --------------------------------------------------------------- the exchange

  /** Two chains that agree through block f, at or above the synopsis's low end: the reply starts at the greatest number
      of the synopsis that is at most f, what we have before it followed by the reply is the start of the peer's chain,
      and the overlap is at most half of what the synopsis spans above that number. */
  lemma Exchange(line: seq<BlockId>, peer: seq<BlockId>, parent: BlockId -> BlockId, known: set<BlockId>, low: nat, extra: nat,
                 synopsis: seq<BlockId>, i: nat, limit: nat, ids: seq<BlockId>, remaining: nat)
    requires Numbered(line) && Numbered(peer) && Hashed(line, parent) && Hashed(peer, parent)
    requires forall id <- peer :: id in known
    requires 0 < low <= Common(line, peer) && Summary(line, low, extra, synopsis)
    requires EndsAt(peer, known, synopsis, i) && Recognised(peer, known, synopsis[i])
    requires Reply(peer, synopsis[i].num, limit, ids, remaining)
    ensures var f, s, nums := Common(line, peer), synopsis[i].num, Steps(low, |line|, |line| + extra);
            && s == nums[i] <= f && (forall j | i < j < |nums| :: nums[j] > f)
            && 0 < s <= |line| && s - 1 + |ids| <= |peer| && line[..s - 1] + ids == peer[..s - 1 + |ids|]
            && 2 * (f - s) <= |line| + extra - s
  {
    hide Steps, Hashed, Numbered, Recognised, Common;
    var f, nums := Common(line, peer), Steps(low, |line|, |line| + extra);
    var s := nums[i];
    NumberOf(line, s);
    StepsIncrease(low, |line|, |line| + extra);
    KnownIffCommon(line, peer, parent, known, s);
    forall j | i < j < |nums| ensures nums[j] > f { KnownIffCommon(line, peer, parent, known, nums[j]); }
    Spliced(line, peer, f, s, ids);
    StepsAreClose(low, |line|, |line| + extra, i);
  }

  lemma NumberOf(line: seq<BlockId>, n: nat)
    requires Numbered(line) && 0 < n <= |line|
    ensures line[n - 1].num == n
  {
  }

  lemma Spliced(line: seq<BlockId>, peer: seq<BlockId>, f: nat, s: nat, ids: seq<BlockId>)
    requires 0 < s <= f <= |line| && f <= |peer| && line[..f] == peer[..f]
    requires s - 1 + |ids| <= |peer| && ids == peer[s - 1..s - 1 + |ids|]
    ensures line[..s - 1] + ids == peer[..s - 1 + |ids|]
  {
    assert line[..s - 1] == line[..f][..s - 1] == peer[..f][..s - 1] == peer[..s - 1];
  }

  /** The peer recognises block `n` of our line exactly when it lies in the common part. */
  lemma KnownIffCommon(line: seq<BlockId>, peer: seq<BlockId>, parent: BlockId -> BlockId, known: set<BlockId>, n: nat)
    requires Numbered(line) && Numbered(peer) && Hashed(line, parent) && Hashed(peer, parent)
    requires (forall id <- peer :: id in known) && 0 < n <= |line|
    ensures Recognised(peer, known, line[n - 1]) <==> n <= Common(line, peer)
  {
    if n <= |peer| {
      ApartBeyond(line, peer, parent, n - 1);
      assert peer[n - 1] in peer;
    }
  }

  /** The peer always finds a block it shares, unless it knows a block of the synopsis above its own chain: then it throws. */
  lemma SomeBlockIsShared(line: seq<BlockId>, peer: seq<BlockId>, parent: BlockId -> BlockId, known: set<BlockId>,
                          low: nat, extra: nat, synopsis: seq<BlockId>)
    requires Numbered(line) && Numbered(peer) && Hashed(line, parent) && Hashed(peer, parent)
    requires forall id <- peer :: id in known
    requires 0 < low <= Common(line, peer) && Summary(line, low, extra, synopsis)
    ensures exists id <- synopsis :: Recognised(peer, known, id)
    ensures Answered(peer, known, synopsis) <==> forall id <- synopsis :: id in known ==> id.num <= |peer|
  {
    hide Steps, Numbered, Hashed, Common;
    StepsIncrease(low, |line|, |line| + extra);
    KnownIffCommon(line, peer, parent, known, low);
    assert synopsis[0] in synopsis;
    var nums := Steps(low, |line|, |line| + extra);
    forall j | 0 <= j < |synopsis| ensures synopsis[j].num == nums[j] > 0 && synopsis[j] != NO_BLOCK { NumberOf(line, nums[j]); }
    if forall id <- synopsis :: id in known ==> id.num <= |peer| {
      var i := LastShared(peer, known, synopsis);
      assert EndsAt(peer, known, synopsis, i) && Recognised(peer, known, synopsis[i]);
    } else {
      var k :| 0 <= k < |synopsis| && synopsis[k] in known && synopsis[k].num > |peer|;
      assert Throws(peer, known, synopsis[k]);
      forall i: nat | EndsAt(peer, known, synopsis, i) ensures !Recognised(peer, known, synopsis[i]) {
        assert i >= k;
        assert nums[i] >= nums[k];
      }
    }
  }

  lemma {:induction false} LastShared(peer: seq<BlockId>, known: set<BlockId>, synopsis: seq<BlockId>) returns (i: nat)
    requires (exists id <- synopsis :: Recognised(peer, known, id)) && forall id <- synopsis :: !Throws(peer, known, id)
    ensures EndsAt(peer, known, synopsis, i) && Recognised(peer, known, synopsis[i])
  {
    hide Recognised, Throws;
    i := |synopsis| - 1;
    if !Recognised(peer, known, synopsis[i]) {
      i := LastShared(peer, known, synopsis[..i]);
    }
  }
}
