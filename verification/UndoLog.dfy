/**
 The undo log of the object database: a stack of layers, each recording just enough of what
 changed since it was opened to put the objects and the per-index id counters back.

 `Step` gives every operation in closed form; the class in UndoDatabase.dfy does the same work
 with the loops of libraries/db/undo_database.cpp.  The results here are about `Step`: whatever
 operations run, in whatever order, unwinding the log down to any layer that is still kept
 gives back exactly the database that layer was opened on.
 */
module UndoLog {

  /** An object id: the index (space and type) it lives in, and its number there. */
  datatype ObjectId = ObjectId(index: nat, instance: nat)

  /** The objects, and for every registered index the number its next object gets. */
  datatype Database<V> = Database(objects: map<ObjectId, V>, nextIds: map<nat, nat>)

  /** What one session has changed so far. */
  datatype Layer<V> = Layer(oldValues: map<ObjectId, V>, oldNextIds: map<nat, nat>,
                            newIds: set<ObjectId>, removed: map<ObjectId, V>)

  datatype Log<V> = Log(db: Database<V>, layers: seq<Layer<V>>, active: nat, disabled: bool, maxSize: nat)

  datatype Edit<V> = Create(index: nat, value: V) | Modify(id: ObjectId, newValue: V) | Remove(oldId: ObjectId)

  datatype Op<V> = Start(force: bool) | Do(edit: Edit<V>) | Undo | Merge | Commit | PopCommit
                 | Disable | Enable | SetMaxSize(size: nat)

  function EmptyLayer<V>(): Layer<V> { Layer(map[], map[], {}, map[]) }

  // ---------------------------------------------------------------- one edit

  /** The index or object the edit needs exists; the source throws otherwise. */
  predicate Legal<V>(db: Database<V>, e: Edit<V>)
  {
    match e
    case Create(index, _) => index in db.nextIds
    case Modify(id, _) => id in db.objects
    case Remove(id) => id in db.objects
  }

  function NewId<V>(db: Database<V>, index: nat): ObjectId
    requires index in db.nextIds
  {
    ObjectId(index, db.nextIds[index])
  }

  function Edited<V>(db: Database<V>, e: Edit<V>): Database<V>
    requires Legal(db, e)
  {
    match e
    case Create(index, value) =>
      Database(db.objects[NewId(db, index) := value], db.nextIds[index := db.nextIds[index] + 1])
    case Modify(id, value) => db.(objects := db.objects[id := value])
    case Remove(id) => db.(objects := db.objects - {id})
  }

  /** What on_create, on_modify and on_remove write into the top layer; `db` is the database before the edit. */
  function Recorded<V>(l: Layer<V>, db: Database<V>, e: Edit<V>): Layer<V>
    requires Legal(db, e)
  {
    match e
    case Create(index, _) =>
      var id := NewId(db, index);
      l.(oldNextIds := if index in l.oldNextIds then l.oldNextIds else l.oldNextIds[index := id.instance],
         newIds := l.newIds + {id})
    case Modify(id, _) =>
      if id in l.newIds || id in l.oldValues then l else l.(oldValues := l.oldValues[id := db.objects[id]])
    case Remove(id) =>
      if id in l.newIds then l.(newIds := l.newIds - {id})
      else if id in l.oldValues then
        l.(removed := l.removed[id := l.oldValues[id]], oldValues := l.oldValues - {id})
      else if id in l.removed then l
      else l.(removed := l.removed[id := db.objects[id]])
  }

  /** The stack after an edit has been recorded; an empty stack gets a layer first. */
  function Noted<V>(layers: seq<Layer<V>>, db: Database<V>, e: Edit<V>): seq<Layer<V>>
    requires Legal(db, e)
  {
    var stack := if layers == [] then [EmptyLayer()] else layers;
    stack[|stack| - 1 := Recorded(stack[|stack| - 1], db, e)]
  }

  // ------------------------------------------------- undoing and merging layers

  /** The database after undoing layer `l`. */
  function Undone<V>(l: Layer<V>, db: Database<V>): Database<V>
  {
    Database((db.objects + l.oldValues) - l.newIds + l.removed, db.nextIds + l.oldNextIds)
  }

  /** Old values of the merged layer before the deletions of `cur` are looked at. */
  function KeptValues<V>(prev: Layer<V>, cur: Layer<V>): map<ObjectId, V>
  {
    prev.oldValues + map id | id in cur.oldValues && id !in prev.newIds && id !in prev.oldValues :: cur.oldValues[id]
  }

  /** `base` with the deletions of `cur` in `ids` taken in. */
  function Folded<V>(base: Layer<V>, cur: Layer<V>, ids: set<ObjectId>): Layer<V>
  {
    Layer(base.oldValues - (ids - base.newIds), base.oldNextIds, base.newIds - ids,
          base.removed + RemovedBy(base, cur, ids))
  }

  function RemovedBy<V>(base: Layer<V>, cur: Layer<V>, ids: set<ObjectId>): map<ObjectId, V>
  {
    map id | id in ids && id in cur.removed && id !in base.newIds ::
      if id in base.oldValues then base.oldValues[id] else cur.removed[id]
  }

  /** One layer with the effect of `prev` followed by `cur`. */
  function Merged<V>(prev: Layer<V>, cur: Layer<V>): Layer<V>
  {
    var base := Layer(KeptValues(prev, cur), cur.oldNextIds + prev.oldNextIds, prev.newIds + cur.newIds, prev.removed);
    Folded(base, cur, cur.removed.Keys)
  }

  // ----------------------------------------------------------- whole operations

  function Trimmed<T>(s: seq<T>, size: nat): seq<T>
  {
    if |s| > size then s[|s| - size..] else s
  }

  /** Undo and merge reach for a top layer; without one the source's behaviour is undefined. */
  predicate Defined<V>(log: Log<V>, op: Op<V>)
  {
    op.Undo? && !log.disabled && log.active > 0 ==> log.layers != []
  }

  /** The operation fails one of the source's assertions and changes nothing. */
  predicate Fails<V>(log: Log<V>, op: Op<V>)
  {
    match op
    case Do(e) => !Legal(log.db, e)
    case Undo => log.disabled || log.active == 0
    case Merge => log.active == 0 || (!(log.active == 1 && |log.layers| == 1) && |log.layers| < 2)
    case Commit => log.active == 0
    case PopCommit => log.active != 0 || log.layers == []
    case _ => false
  }

  function Step<V>(log: Log<V>, op: Op<V>): Log<V>
    requires Defined(log, op)
  {
    if Fails(log, op) then log else
    var n := |log.layers|;
    match op
    case Start(force) =>
      if log.disabled && !force then log
      else log.(disabled := false, layers := Trimmed(log.layers, log.maxSize) + [EmptyLayer()], active := log.active + 1)
    case Do(e) =>
      var db := Edited(log.db, e);
      log.(db := db, layers := if log.disabled then log.layers else Noted(log.layers, log.db, e))
    case Undo =>
      log.(db := Undone(log.layers[n - 1], log.db), layers := log.layers[..n - 1], active := log.active - 1)
    case Merge =>
      if log.active == 1 && n == 1 then log.(layers := [], active := 0)
      else log.(layers := log.layers[..n - 2] + [Merged(log.layers[n - 2], log.layers[n - 1])], active := log.active - 1)
    case Commit => log.(active := log.active - 1)
    case PopCommit =>
      log.(db := Undone(log.layers[n - 1], log.db), layers := log.layers[..n - 1], disabled := false)
    case Disable => log.(disabled := true)
    case Enable => log.(disabled := false)
    case SetMaxSize(size) => log.(maxSize := size)
  }

  /** The databases the kept layers were opened on, carried along with `Step`. */
  function Opened<V>(log: Log<V>, snaps: seq<Database<V>>, op: Op<V>): seq<Database<V>>
    requires Defined(log, op) && |snaps| == |log.layers|
  {
    if Fails(log, op) then snaps else
    match op
    case Start(force) =>
      if log.disabled && !force then snaps else Trimmed(snaps, log.maxSize) + [log.db]
    case Do(_) => if log.disabled || log.layers != [] then snaps else [log.db]
    case Undo => snaps[..|snaps| - 1]
    case Merge => snaps[..|snaps| - 1]
    case PopCommit => snaps[..|snaps| - 1]
    case _ => snaps
  }

  // -------------------------------------------------------------- the invariant

  /** Every stored object has a number below its index's counter. */
  ghost predicate WellNumbered<V>(db: Database<V>)
  {
    forall id <- db.objects :: id.index in db.nextIds && id.instance < db.nextIds[id.index]
  }

  /** `l` is an exact record of what changed from `before` to `after`. */
  ghost predicate Delta<V(!new)>(l: Layer<V>, before: Database<V>, after: Database<V>)
  {
    (forall id :: Tracks(l, before, after, id)) && CountersDelta(l, before.nextIds, after.nextIds)
  }

  /** What the layer holds about one object: new, removed, changed or nothing, and never two of these. */
  ghost predicate Tracks<V>(l: Layer<V>, before: Database<V>, after: Database<V>, id: ObjectId)
  {
    && (id in l.newIds <==> id in after.objects && id !in before.objects)
    && (id in l.removed <==> id in before.objects && id !in after.objects)
    && (id in l.removed ==> l.removed[id] == before.objects[id])
    && (id in l.oldValues ==> id in before.objects && id in after.objects && l.oldValues[id] == before.objects[id])
    && (id in before.objects && id in after.objects && id !in l.oldValues ==> after.objects[id] == before.objects[id])
    && (id in l.newIds ==> id.index in before.nextIds && before.nextIds[id.index] <= id.instance)
  }

  ghost predicate CountersDelta<V>(l: Layer<V>, before: map<nat, nat>, after: map<nat, nat>)
  {
    && before.Keys == after.Keys
    && l.oldNextIds.Keys <= before.Keys
    && (forall i <- l.oldNextIds :: l.oldNextIds[i] == before[i])
    && (forall i <- before :: before[i] <= after[i])
    && (forall i <- before :: i !in l.oldNextIds ==> after[i] == before[i])
  }

  function After<T>(snaps: seq<T>, last: T, i: nat): T
    requires i < |snaps|
  {
    if i + 1 < |snaps| then snaps[i + 1] else last
  }

  /** Layer i leads from the database it was opened on to the one the next layer was opened on. */
  ghost predicate Faithful<V(!new)>(log: Log<V>, snaps: seq<Database<V>>)
  {
    && |snaps| == |log.layers|
    && WellNumbered(log.db)
    && (forall i | 0 <= i < |snaps| :: WellNumbered(snaps[i]))
    && (forall i | 0 <= i < |snaps| :: Delta(log.layers[i], snaps[i], After(snaps, log.db, i)))
  }

  /** Undo the layers of the stack, last one first. */
  function Unwound<V>(layers: seq<Layer<V>>, db: Database<V>): Database<V>
  {
    FoldBack(Undone, layers, db)
  }

  function FoldBack<L, D>(undo: (L, D) -> D, layers: seq<L>, d: D): D
  {
    if layers == [] then d
    else FoldBack(undo, layers[..|layers| - 1], undo(layers[|layers| - 1], d))
  }

  /** An edit bypasses a disabled log; harmless only if the top layer already holds what it overwrites. */
  ghost predicate Covered<V>(log: Log<V>, e: Edit<V>)
    requires log.layers != []
  {
    var top := log.layers[|log.layers| - 1];
    e.Modify? && (e.id in top.newIds || e.id in top.oldValues
                  || (e.id in log.db.objects && log.db.objects[e.id] == e.newValue))
  }

  /** What a caller must see to: no uncovered edit behind a disabled log, no session opened
      when that drops the layer of a session still open. */
  ghost predicate Guarded<V>(log: Log<V>, op: Op<V>)
  {
    match op
    case Do(e) => log.disabled && log.layers != [] && Legal(log.db, e) ==> Covered(log, e)
    case Start(force) => log.active <= log.maxSize || |log.layers| <= log.maxSize || (log.disabled && !force)
    case _ => true
  }

  // -------------------------------------------------------------- layer lemmas

  /** Undoing an exact layer gives back the earlier database, and none of the lookups it makes fails. */
  lemma UndoneIsBefore<V(!new)>(l: Layer<V>, before: Database<V>, after: Database<V>)
    requires Delta(l, before, after)
    ensures Undone(l, after) == before
    ensures l.oldValues.Keys <= after.objects.Keys
    ensures l.newIds <= after.objects.Keys && l.newIds !! l.oldValues.Keys
    ensures l.removed.Keys !! after.objects.Keys
    ensures l.oldNextIds.Keys <= after.nextIds.Keys
  {
    var db := Undone(l, after);
    forall id
      ensures id in db.objects <==> id in before.objects
      ensures id in before.objects ==> db.objects[id] == before.objects[id]
      ensures id in l.oldValues ==> id in after.objects && id !in l.newIds
      ensures id in l.newIds ==> id in after.objects
      ensures id in l.removed ==> id !in after.objects
    {
      assert Tracks(l, before, after, id);
    }
    assert db.objects == before.objects && db.nextIds == before.nextIds;
  }

  /** Recording an edit keeps the top layer exact; a removed object is never removed again. */
  lemma RecordedIsDelta<V(!new)>(l: Layer<V>, before: Database<V>, db: Database<V>, e: Edit<V>)
    requires WellNumbered(before) && WellNumbered(db) && Legal(db, e) && Delta(l, before, db)
    ensures Delta(Recorded(l, db, e), before, Edited(db, e)) && WellNumbered(Edited(db, e))
    ensures e.Remove? ==> e.oldId !in l.removed
  {
    forall id ensures Tracks(Recorded(l, db, e), before, Edited(db, e), id) {
      RecordedTracks(l, before, db, e, id);
    }
    if e.Remove? { assert Tracks(l, before, db, e.oldId); }
    EditStaysNumbered(db, e);
  }

  lemma RecordedTracks<V(!new)>(l: Layer<V>, before: Database<V>, db: Database<V>, e: Edit<V>, id: ObjectId)
    requires WellNumbered(before) && WellNumbered(db) && Legal(db, e) && Delta(l, before, db)
    ensures Tracks(Recorded(l, db, e), before, Edited(db, e), id)
  {
    assert Tracks(l, before, db, id);
    if e.Create? {
      assert NewId(db, e.index) !in before.objects && NewId(db, e.index) !in db.objects;
    }
  }

  /** Recording into an empty layer. */
  lemma EmptyLayerIsDelta<V(!new)>(db: Database<V>)
    ensures Delta(EmptyLayer(), db, db)
  {
  }

  /** What a layer has recorded of an object: a row or column of the merge table. */
  datatype Cell<V> = Untouched | New | Changed(was: V) | Gone(was: V)

  function CellOf<V>(l: Layer<V>, id: ObjectId): Cell<V>
  {
    if id in l.newIds then New
    else if id in l.oldValues then Changed(l.oldValues[id])
    else if id in l.removed then Gone(l.removed[id]) else Untouched
  }

  /** The cells of the merge table marked N/A. */
  predicate Impossible<V>(lower: Cell<V>, upper: Cell<V>)
  {
    if upper.New? then !lower.Untouched? else lower.Gone? && !upper.Untouched?
  }

  /** The table's other cells. */
  function Combined<V>(lower: Cell<V>, upper: Cell<V>): Cell<V>
    requires !Impossible(lower, upper)
  {
    if lower.Untouched? then upper
    else if !upper.Gone? then lower
    else if lower.New? then Untouched
    else Gone(lower.was)
  }

  /** The 4x4 merge table: for exact layers the N/A cells cannot occur, and every other cell of the merged layer is
      the one the table gives. */
  lemma MergeTable<V(!new)>(prev: Layer<V>, cur: Layer<V>, s0: Database<V>, s1: Database<V>, s2: Database<V>, id: ObjectId)
    requires WellNumbered(s0) && Delta(prev, s0, s1) && Delta(cur, s1, s2)
    ensures !Impossible(CellOf(prev, id), CellOf(cur, id))
    ensures CellOf(Merged(prev, cur), id) == Combined(CellOf(prev, id), CellOf(cur, id))
  {
    assert Tracks(prev, s0, s1, id) && Tracks(cur, s1, s2, id);
  }

  /** The lower layer has not removed what the upper one creates, changes or removes. */
  lemma MergeCells<V(!new)>(prev: Layer<V>, cur: Layer<V>, s0: Database<V>, s1: Database<V>, s2: Database<V>, id: ObjectId)
    requires WellNumbered(s0) && Delta(prev, s0, s1) && Delta(cur, s1, s2)
    ensures id in cur.newIds ==> id !in prev.newIds && id !in prev.oldValues && id !in prev.removed
    ensures id in cur.oldValues ==> id !in prev.removed
    ensures id in cur.removed ==> id !in prev.removed
  {
    assert Tracks(prev, s0, s1, id) && Tracks(cur, s1, s2, id);
  }

  /** The merged layer is exact for the two steps together. */
  lemma MergedIsDelta<V(!new)>(prev: Layer<V>, cur: Layer<V>, s0: Database<V>, s1: Database<V>, s2: Database<V>)
    requires WellNumbered(s0) && Delta(prev, s0, s1) && Delta(cur, s1, s2)
    ensures Delta(Merged(prev, cur), s0, s2)
  {
    forall id ensures Tracks(Merged(prev, cur), s0, s2, id) {
      assert Tracks(prev, s0, s1, id) && Tracks(cur, s1, s2, id);
    }
  }

  /** One undo of the merged layer is an undo of the upper layer followed by one of the lower. */
  lemma MergeComposesUndo<V(!new)>(prev: Layer<V>, cur: Layer<V>, s0: Database<V>, s1: Database<V>, s2: Database<V>)
    requires WellNumbered(s0) && Delta(prev, s0, s1) && Delta(cur, s1, s2)
    ensures Undone(Merged(prev, cur), s2) == Undone(prev, Undone(cur, s2)) == s0
  {
    MergedIsDelta(prev, cur, s0, s1, s2);
    UndoneIsBefore(Merged(prev, cur), s0, s2);
    UndoneIsBefore(cur, s1, s2);
    UndoneIsBefore(prev, s0, s1);
  }

  // ------------------------------------------------------------ whole runs

  /** Every operation keeps the log faithful; nothing is asked of the sizes. */
  lemma StepStaysFaithful<V(!new)>(log: Log<V>, snaps: seq<Database<V>>, op: Op<V>)
    requires Faithful(log, snaps) && Defined(log, op)
    requires op.Do? ==> Guarded(log, op)
    ensures Faithful(Step(log, op), Opened(log, snaps, op))
  {
    if Fails(log, op) { return; }
    match op
    case Start(force) => if !(log.disabled && !force) { StartStaysFaithful(log, snaps, force); }
    case Do(e) => EditStaysFaithful(log, snaps, e);
    case Undo => PoppingStaysFaithful(log, snaps, Step(log, op));
    case PopCommit => PoppingStaysFaithful(log, snaps, Step(log, op));
    case Merge => if |snaps| >= 2 { MergeStaysFaithful(log, snaps); }
    case Commit => SameLayersStayFaithful(log, snaps, Step(log, op));
    case Disable => SameLayersStayFaithful(log, snaps, Step(log, op));
    case Enable => SameLayersStayFaithful(log, snaps, Step(log, op));
    case SetMaxSize(_) => SameLayersStayFaithful(log, snaps, Step(log, op));
  }

  lemma SameLayersStayFaithful<V(!new)>(log: Log<V>, snaps: seq<Database<V>>, log': Log<V>)
    requires Faithful(log, snaps) && log'.db == log.db && log'.layers == log.layers
    ensures Faithful(log', snaps)
  {
  }

  lemma PoppingStaysFaithful<V(!new)>(log: Log<V>, snaps: seq<Database<V>>, log': Log<V>)
    requires Faithful(log, snaps) && snaps != []
    requires log'.layers == log.layers[..|snaps| - 1] && log'.db == Undone(log.layers[|snaps| - 1], log.db)
    ensures Faithful(log', snaps[..|snaps| - 1])
  {
    var n := |snaps| - 1;
    assert Delta(log.layers[n], snaps[n], After(snaps, log.db, n));
    UndoneIsBefore(log.layers[n], snaps[n], log.db);
    forall i | 0 <= i < n ensures Delta(log'.layers[i], snaps[..n][i], After(snaps[..n], log'.db, i)) {
      assert Delta(log.layers[i], snaps[i], After(snaps, log.db, i));
    }
  }

  lemma StartStaysFaithful<V(!new)>(log: Log<V>, snaps: seq<Database<V>>, force: bool)
    requires Faithful(log, snaps) && !(log.disabled && !force)
    ensures Faithful(Step(log, Start(force)), Opened(log, snaps, Start(force)))
  {
    TrimmingKeepsFaithful(log, snaps, log.maxSize);
    var kept := log.(layers := Trimmed(log.layers, log.maxSize));
    PushingStaysFaithful(kept, Trimmed(snaps, log.maxSize));
    SameLayersStayFaithful(kept.(layers := kept.layers + [EmptyLayer()]),
                           Trimmed(snaps, log.maxSize) + [log.db], Step(log, Start(force)));
  }

  lemma PushingStaysFaithful<V(!new)>(log: Log<V>, snaps: seq<Database<V>>)
    requires Faithful(log, snaps)
    ensures Faithful(log.(layers := log.layers + [EmptyLayer()]), snaps + [log.db])
  {
    EmptyLayerIsDelta(log.db);
    var layers, snaps' := log.layers + [EmptyLayer()], snaps + [log.db];
    forall i | 0 <= i < |snaps'| ensures Delta(layers[i], snaps'[i], After(snaps', log.db, i)) {
      if i < |snaps| { assert Delta(log.layers[i], snaps[i], After(snaps, log.db, i)); }
    }
  }

  lemma EditStaysFaithful<V(!new)>(log: Log<V>, snaps: seq<Database<V>>, e: Edit<V>)
    requires Faithful(log, snaps) && Legal(log.db, e) && Guarded(log, Do(e))
    ensures Faithful(Step(log, Do(e)), Opened(log, snaps, Do(e)))
  {
    var n, db' := |snaps|, Edited(log.db, e);
    EditStaysNumbered(log.db, e);
    if log.disabled {
      if n > 0 { UntrackedEdit(log, snaps, e); }
    } else if n == 0 {
      EmptyLayerIsDelta(log.db);
      RecordedIsDelta(EmptyLayer(), log.db, log.db, e);
    } else {
      assert Delta(log.layers[n - 1], snaps[n - 1], After(snaps, log.db, n - 1));
      RecordedIsDelta(log.layers[n - 1], snaps[n - 1], log.db, e);
      var layers := Noted(log.layers, log.db, e);
      forall i | 0 <= i < n ensures Delta(layers[i], snaps[i], After(snaps, db', i)) {
        if i < n - 1 { assert Delta(log.layers[i], snaps[i], After(snaps, log.db, i)); }
      }
    }
  }

  lemma MergeStaysFaithful<V(!new)>(log: Log<V>, snaps: seq<Database<V>>)
    requires Faithful(log, snaps) && |snaps| >= 2 && log.active > 0
    ensures Faithful(Step(log, Merge), Opened(log, snaps, Merge))
  {
    var n := |snaps|;
    assert Delta(log.layers[n - 2], snaps[n - 2], After(snaps, log.db, n - 2));
    assert Delta(log.layers[n - 1], snaps[n - 1], After(snaps, log.db, n - 1));
    MergedIsDelta(log.layers[n - 2], log.layers[n - 1], snaps[n - 2], snaps[n - 1], log.db);
    SpanningStaysFaithful(log, snaps, Merged(log.layers[n - 2], log.layers[n - 1]));
    SameLayersStayFaithful(log.(layers := Step(log, Merge).layers), snaps[..n - 1], Step(log, Merge));
  }

  /** A layer exact for the top two steps may stand in for the top two layers. */
  lemma SpanningStaysFaithful<V(!new)>(log: Log<V>, snaps: seq<Database<V>>, m: Layer<V>)
    requires Faithful(log, snaps) && |snaps| >= 2
    requires Delta(m, snaps[|snaps| - 2], log.db)
    ensures Faithful(log.(layers := log.layers[..|snaps| - 2] + [m]), snaps[..|snaps| - 1])
  {
    var n := |snaps|;
    var layers, snaps' := log.layers[..n - 2] + [m], snaps[..n - 1];
    forall i | 0 <= i < n - 1 ensures Delta(layers[i], snaps'[i], After(snaps', log.db, i)) {
      if i < n - 2 {
        assert Delta(log.layers[i], snaps[i], After(snaps, log.db, i));
        assert After(snaps', log.db, i) == After(snaps, log.db, i);
      }
    }
  }

  lemma EditStaysNumbered<V>(db: Database<V>, e: Edit<V>)
    requires WellNumbered(db) && Legal(db, e)
    ensures WellNumbered(Edited(db, e))
  {
  }

  /** Behind a disabled log an edit leaves the kept layers right if and only if they already cover it. */
  lemma UntrackedEdit<V(!new)>(log: Log<V>, snaps: seq<Database<V>>, e: Edit<V>)
    requires Faithful(log, snaps) && Legal(log.db, e) && log.disabled && log.layers != []
    ensures Faithful(Step(log, Do(e)), snaps) <==> Covered(log, e)
  {
    var n := |snaps| - 1;
    var db, db' := log.db, Edited(log.db, e);
    assert Delta(log.layers[n], snaps[n], After(snaps, db, n));
    EditStaysNumbered(db, e);
    if Covered(log, e) {
      CoveredEditKeepsDelta(log, snaps[n], e);
      forall i | 0 <= i < |snaps| ensures Delta(log.layers[i], snaps[i], After(snaps, db', i)) {
        assert Delta(log.layers[i], snaps[i], After(snaps, db, i));
      }
    } else {
      UncoveredEditBreaksDelta(log, snaps[n], e);
      assert !Delta(log.layers[n], snaps[n], After(snaps, db', n));
    }
  }

  lemma CoveredEditKeepsDelta<V(!new)>(log: Log<V>, before: Database<V>, e: Edit<V>)
    requires log.layers != [] && Legal(log.db, e) && Covered(log, e)
    requires Delta(log.layers[|log.layers| - 1], before, log.db)
    ensures Delta(log.layers[|log.layers| - 1], before, Edited(log.db, e))
  {
    var top, db' := log.layers[|log.layers| - 1], Edited(log.db, e);
    forall id ensures Tracks(top, before, db', id) { assert Tracks(top, before, log.db, id); }
  }

  lemma UncoveredEditBreaksDelta<V(!new)>(log: Log<V>, before: Database<V>, e: Edit<V>)
    requires log.layers != [] && Legal(log.db, e) && !Covered(log, e)
    requires WellNumbered(before) && WellNumbered(log.db)
    requires Delta(log.layers[|log.layers| - 1], before, log.db)
    ensures !Delta(log.layers[|log.layers| - 1], before, Edited(log.db, e))
  {
    var top, db' := log.layers[|log.layers| - 1], Edited(log.db, e);
    var id := match e case Create(index, _) => NewId(log.db, index) case Modify(id, _) => id case Remove(id) => id;
    assert Tracks(top, before, log.db, id);
    assert !Tracks(top, before, db', id);
  }

  /** Unwinding down to any kept layer restores the database that layer was opened on. */
  lemma UnwindingRestores<V(!new)>(log: Log<V>, snaps: seq<Database<V>>, i: nat)
    requires Faithful(log, snaps) && i < |snaps|
    ensures Unwound(log.layers[i..], log.db) == snaps[i]
  {
    forall j | 0 <= j < |snaps| ensures Undone(log.layers[j], After(snaps, log.db, j)) == snaps[j] {
      assert Delta(log.layers[j], snaps[j], After(snaps, log.db, j));
      UndoneIsBefore(log.layers[j], snaps[j], After(snaps, log.db, j));
    }
    ChainFoldsBack(Undone, log.layers, snaps, log.db, i);
  }

  lemma {:induction false} ChainFoldsBack<L, D>(undo: (L, D) -> D, layers: seq<L>, snaps: seq<D>, d: D, i: nat)
    requires |layers| == |snaps| && i < |snaps|
    requires forall j | 0 <= j < |snaps| :: undo(layers[j], After(snaps, d, j)) == snaps[j]
    ensures FoldBack(undo, layers[i..], d) == snaps[i]
  {
    var n, above := |snaps| - 1, layers[i..];
    assert above[|above| - 1] == layers[n] && above[..|above| - 1] == layers[..n][i..];
    assert undo(layers[n], After(snaps, d, n)) == snaps[n];
    if i < n {
      forall j | 0 <= j < n ensures undo(layers[..n][j], After(snaps[..n], snaps[n], j)) == snaps[..n][j] {
        assert undo(layers[j], After(snaps, d, j)) == snaps[j];
      }
      ChainFoldsBack(undo, layers[..n], snaps[..n], snaps[n], i);
    }
  }

  /** Trimming old layers never harms the rest. */
  lemma TrimmingKeepsFaithful<V(!new)>(log: Log<V>, snaps: seq<Database<V>>, size: nat)
    requires Faithful(log, snaps)
    ensures Faithful(log.(layers := Trimmed(log.layers, size)), Trimmed(snaps, size))
  {
    var d := if |snaps| > size then |snaps| - size else 0;
    var log', snaps' := log.(layers := Trimmed(log.layers, size)), Trimmed(snaps, size);
    forall i | 0 <= i < |snaps'| ensures Delta(log'.layers[i], snaps'[i], After(snaps', log'.db, i)) {
      assert Delta(log.layers[i + d], snaps[i + d], After(snaps, log.db, i + d));
    }
  }

  /** Opening a session keeps a layer for every open session if and only if the guard on it holds. */
  lemma StartKeepsLiveLayers<V>(log: Log<V>, force: bool)
    requires log.active <= |log.layers|
    ensures var log' := Step(log, Start(force));
            log'.active <= |log'.layers| <==> Guarded(log, Start(force))
  {
  }

  /** Every open session has a layer, so undo always finds one. */
  lemma StepKeepsLiveLayers<V>(log: Log<V>, op: Op<V>)
    requires log.active <= |log.layers| && Guarded(log, op)
    ensures Defined(log, op)
    ensures Step(log, op).active <= |Step(log, op).layers|
  {
  }

  /** The states a guarded run passes through, with the databases their layers were opened on. */
  ghost predicate GuardedRun<V>(log: Log<V>, ops: seq<Op<V>>)
    decreases |ops|
  {
    ops == [] || (Defined(log, ops[0]) && Guarded(log, ops[0]) && GuardedRun(Step(log, ops[0]), ops[1..]))
  }

  ghost function Run<V>(log: Log<V>, ops: seq<Op<V>>): Log<V>
    requires GuardedRun(log, ops)
    decreases |ops|
  {
    if ops == [] then log else Run(Step(log, ops[0]), ops[1..])
  }

  ghost function OpenedInRun<V(!new)>(log: Log<V>, snaps: seq<Database<V>>, ops: seq<Op<V>>): seq<Database<V>>
    requires GuardedRun(log, ops) && Faithful(log, snaps)
    decreases |ops|
  {
    if ops == [] then snaps
    else
      StepStaysFaithful(log, snaps, ops[0]);
      OpenedInRun(Step(log, ops[0]), Opened(log, snaps, ops[0]), ops[1..])
  }

  /** After every guarded run, from a fresh log on, unwinding to any layer still kept restores exactly
      the objects and id counters that were there when it was opened, and every open session has a layer. */
  lemma {:induction false} RunRestores<V(!new)>(log: Log<V>, snaps: seq<Database<V>>, ops: seq<Op<V>>)
    requires Faithful(log, snaps) && log.active <= |log.layers| && GuardedRun(log, ops)
    ensures var end, starts := Run(log, ops), OpenedInRun(log, snaps, ops);
            && Faithful(end, starts) && end.active <= |end.layers|
            && forall i | 0 <= i < |starts| :: Unwound(end.layers[i..], end.db) == starts[i]
    decreases |ops|
  {
    if ops == [] {
      forall i | 0 <= i < |snaps| ensures Unwound(log.layers[i..], log.db) == snaps[i] {
        UnwindingRestores(log, snaps, i);
      }
    } else {
      StepStaysFaithful(log, snaps, ops[0]);
      StepKeepsLiveLayers(log, ops[0]);
      RunRestores(Step(log, ops[0]), Opened(log, snaps, ops[0]), ops[1..]);
    }
  }
}
