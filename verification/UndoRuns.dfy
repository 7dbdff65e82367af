/**
 Sessions over whole runs of the undo log: how many are open, whether the log is switched off, and what nested sessions
 leave behind when they are all undone (libraries/db/undo_database.cpp, libraries/chain/db_block.cpp).
 */
module UndoRuns {
  import opened Options
  import opened UndoLog

  // ---------------------------------------------------------------- open sessions

  /** A start that pushes a layer: a switched-off log only does so when forced. */
  predicate Opens<V>(log: Log<V>, op: Op<V>) { op.Start? && (op.force || !log.disabled) }

  /** An undo, merge or commit that goes through. */
  predicate Closes<V>(log: Log<V>, op: Op<V>) { (op.Undo? || op.Merge? || op.Commit?) && !Fails(log, op) }

  ghost function OpenedIn<V>(log: Log<V>, ops: seq<Op<V>>): nat
    requires GuardedRun(log, ops)
    decreases |ops|
  {
    if ops == [] then 0 else (if Opens(log, ops[0]) then 1 else 0) + OpenedIn(Step(log, ops[0]), ops[1..])
  }

  ghost function ClosedIn<V>(log: Log<V>, ops: seq<Op<V>>): nat
    requires GuardedRun(log, ops)
    decreases |ops|
  {
    if ops == [] then 0 else (if Closes(log, ops[0]) then 1 else 0) + ClosedIn(Step(log, ops[0]), ops[1..])
  }

  /** In every guarded run the sessions still open are those opened less those closed. */
  lemma {:induction false} SessionsAreCounted<V>(log: Log<V>, ops: seq<Op<V>>)
    requires GuardedRun(log, ops)
    ensures Run(log, ops).active + ClosedIn(log, ops) == log.active + OpenedIn(log, ops)
    decreases |ops|
  {
    hide Undone, Merged, Noted, Edited, Trimmed, Guarded;
    if ops != [] { SessionsAreCounted(Step(log, ops[0]), ops[1..]); }
  }

  /** What switches the log on. */
  predicate SwitchesOn<V>(log: Log<V>, op: Op<V>)
  {
    op.Enable? || (op.Start? && op.force) || (op.PopCommit? && log.active == 0 && log.layers != [])
  }

  /** In every guarded run the log ends up switched off exactly if it was last switched off, and the size is the last one set. */
  lemma {:induction false} LastSwitchCounts<V>(log: Log<V>, ops: seq<Op<V>>, op: Op<V>)
    requires GuardedRun(log, ops + [op])
    ensures GuardedRun(log, ops) && Defined(Run(log, ops), op)
    ensures var before, after := Run(log, ops), Run(log, ops + [op]);
            && (after.disabled <==> op.Disable? || (before.disabled && !SwitchesOn(before, op)))
            && after.maxSize == if op.SetMaxSize? then op.size else before.maxSize
    decreases |ops|
  {
    hide Undone, Merged, Noted, Edited, Trimmed, Guarded;
    if ops == [] {
      assert [op][1..] == [];
    } else {
      assert (ops + [op])[1..] == ops[1..] + [op];
      LastSwitchCounts(Step(log, ops[0]), ops[1..], op);
    }
  }

  // --------------------------------------------------------------- nested sessions

  /** Edits one after the other; one that is not possible changes nothing. */
  function Edits<V>(log: Log<V>, edits: seq<Edit<V>>): Log<V>
    decreases |edits|
  {
    if edits == [] then log else Edits(Step(log, Do(edits[0])), edits[1..])
  }

  /** A session for each group of edits, each opened inside the one before, and then all of them undone, the innermost
      first; None when an undo is refused or finds no layer. */
  function Nested<V>(log: Log<V>, groups: seq<seq<Edit<V>>>): Option<Log<V>>
    decreases |groups|
  {
    if groups == [] then Some(log)
    else
      var inner := Nested(Edits(Step(log, Start(false)), groups[0]), groups[1..]);
      if inner.None? || Fails(inner.value, Undo) || !Defined(inner.value, Undo) then None
      else Some(Step(inner.value, Undo))
  }

  /** `end` is `log` with at most some of its oldest layers gone. */
  ghost predicate BackAt<V>(log: Log<V>, end: Log<V>)
  {
    end == log.(layers := end.layers) && |end.layers| <= |log.layers| && end.layers == log.layers[|log.layers| - |end.layers|..]
  }

  function Min(a: int, b: int): int { if a <= b then a else b }

  /** However many sessions are nested, as long as the log may hold all but the innermost, every undo goes through and
      together they give back the database, the sessions open at the start, and their layers. */
  lemma {:induction false} NestedUndoRestores<V(!new)>(log: Log<V>, snaps: seq<Database<V>>, groups: seq<seq<Edit<V>>>)
    requires Faithful(log, snaps) && !log.disabled && |groups| <= log.maxSize + 1
    ensures Nested(log, groups).Some?
    ensures var end := Nested(log, groups).value;
            && BackAt(log, end) && |end.layers| >= Min(|log.layers|, log.maxSize + 1 - |groups|)
            && |end.layers| <= |snaps| && Faithful(end, snaps[|snaps| - |end.layers|..])
    decreases |groups|
  {
    hide Faithful, Step, Opened, Edits, BackAt, Nested;
    SameLength(log, snaps);
    NestedIs(log, groups);
    if groups == [] {
      assert snaps[0..] == snaps;
      assert BackAt(log, log) by { Stays(log); }
    } else {
      var started, tops := Step(log, Start(false)), Trimmed(snaps, log.maxSize) + [log.db];
      Started(log, snaps);
      var edited := Edits(started, groups[0]);
      EditsStayInside(started, tops, groups[0]);
      NestedUndoRestores(edited, tops, groups[1..]);
      var inner := Nested(edited, groups[1..]).value;
      Inside(edited, inner);
      SameLength(edited, tops);
      NestedEnds(log, snaps, edited, inner);
    }
  }

  /** The undo that closes the outermost session. */
  lemma NestedEnds<V(!new)>(log: Log<V>, snaps: seq<Database<V>>, edited: Log<V>, inner: Log<V>)
    requires |snaps| == |log.layers| && edited.layers != [] && edited.layers[..|edited.layers| - 1] == Trimmed(log.layers, log.maxSize)
    requires edited == log.(db := edited.db, layers := edited.layers, active := log.active + 1) && !log.disabled
    requires BackAt(edited, inner) && 0 < |inner.layers| <= |edited.layers|
    requires var tops := Trimmed(snaps, log.maxSize) + [log.db]; Faithful(inner, tops[|tops| - |inner.layers|..])
    ensures var end := Step(inner, Undo);
            && !Fails(inner, Undo) && BackAt(log, end) && |end.layers| == |inner.layers| - 1
            && Faithful(end, snaps[|snaps| - |end.layers|..])
  {
    hide Faithful, Step, BackAt;
    var tops := Trimmed(snaps, log.maxSize) + [log.db];
    var kept := tops[|tops| - |inner.layers|..];
    Inside(edited, inner);
    UndoneOnce(inner, kept);
    Returns(log, edited, inner);
    assert kept[..|kept| - 1] == snaps[|snaps| - (|inner.layers| - 1)..];
  }

  lemma NestedIs<V>(log: Log<V>, groups: seq<seq<Edit<V>>>)
    ensures groups == [] ==> Nested(log, groups) == Some(log)
    ensures groups != [] ==>
              (var inner := Nested(Edits(Step(log, Start(false)), groups[0]), groups[1..]);
               inner.Some? && !Fails(inner.value, Undo) && Defined(inner.value, Undo) ==> Nested(log, groups) == Some(Step(inner.value, Undo)))
  {
  }

  lemma Stays<V>(log: Log<V>)
    ensures BackAt(log, log)
  {
  }

  lemma Inside<V>(log: Log<V>, end: Log<V>)
    requires BackAt(log, end)
    ensures end.active == log.active && end.disabled == log.disabled
  {
  }

  lemma Started<V(!new)>(log: Log<V>, snaps: seq<Database<V>>)
    requires Faithful(log, snaps) && !log.disabled
    ensures Step(log, Start(false)) == log.(layers := Trimmed(log.layers, log.maxSize) + [EmptyLayer()], active := log.active + 1)
    ensures Faithful(Step(log, Start(false)), Trimmed(snaps, log.maxSize) + [log.db])
  {
    StepStaysFaithful(log, snaps, Start(false));
  }

  lemma Returns<V>(log: Log<V>, edited: Log<V>, inner: Log<V>)
    requires edited.layers != [] && edited.layers[..|edited.layers| - 1] == Trimmed(log.layers, log.maxSize)
    requires edited == log.(db := edited.db, layers := edited.layers, active := log.active + 1)
    requires BackAt(edited, inner) && inner.layers != [] && !inner.disabled && Step(inner, Undo).db == log.db
    ensures BackAt(log, Step(inner, Undo)) && |Step(inner, Undo).layers| == |inner.layers| - 1
  {
    hide Undone;
  }

  lemma SameLength<V(!new)>(log: Log<V>, snaps: seq<Database<V>>)
    requires Faithful(log, snaps)
    ensures |snaps| == |log.layers|
  {
  }

  /** Edits of a log that is switched on only touch its top layer. */
  lemma {:induction false} EditsStayInside<V(!new)>(log: Log<V>, snaps: seq<Database<V>>, edits: seq<Edit<V>>)
    requires Faithful(log, snaps) && !log.disabled && log.layers != []
    ensures var r := Edits(log, edits);
            && Faithful(r, snaps) && |r.layers| == |log.layers| && r.layers[..|r.layers| - 1] == log.layers[..|log.layers| - 1]
            && r == log.(db := r.db, layers := r.layers)
    decreases |edits|
  {
    hide Faithful, Edited, Recorded;
    if edits != [] {
      var next := Step(log, Do(edits[0]));
      StepStaysFaithful(log, snaps, Do(edits[0]));
      EditsStayInside(next, snaps, edits[1..]);
    }
  }

  lemma UndoneOnce<V(!new)>(log: Log<V>, snaps: seq<Database<V>>)
    requires Faithful(log, snaps) && snaps != [] && !log.disabled && log.active > 0
    ensures log.layers != [] && Step(log, Undo).db == snaps[|snaps| - 1] && Faithful(Step(log, Undo), snaps[..|snaps| - 1])
  {
    var n := |snaps| - 1;
    assert Delta(log.layers[n], snaps[n], After(snaps, log.db, n));
    UndoneIsBefore(log.layers[n], snaps[n], log.db);
    StepStaysFaithful(log, snaps, Undo);
  }
}
