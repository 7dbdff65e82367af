/**
 The object database with its undo log, updated in place as libraries/db/undo_database.cpp does it.
 Every method takes exactly the corresponding `UndoLog.Step`; the loops visit the entries of the
 hash maps in an arbitrary order.
 */
module UndoDatabases {
  import opened UndoLog

  class UndoDatabase<V(!new)> {
    var objects: map<ObjectId, V>
    var nextIds: map<nat, nat>
    var layers: seq<Layer<V>>
    var active: nat
    var disabled: bool
    var maxSize: nat

    /** The databases the kept layers were opened on. */
    ghost var snaps: seq<Database<V>>

    ghost function View(): Log<V>
      reads this
    {
      Log(Database(objects, nextIds), layers, active, disabled, maxSize)
    }

    ghost predicate Valid()
      reads this
    {
      Faithful(View(), snaps) && |snaps| == |layers| && active <= |layers|
    }

    constructor (indexes: set<nat>)
      ensures Valid() && fresh(this)
      ensures View() == Log(Database(map[], map i | i in indexes :: 0), [], 0, true, 256) && snaps == []
    {
      objects, nextIds := map[], map i | i in indexes :: 0;
      layers, active, disabled, maxSize := [], 0, true, 256;
      snaps := [];
    }

    method OnCreate(id: ObjectId, ghost db: Database<V>, ghost value: V)
      requires id.index in db.nextIds && id == NewId(db, id.index)
      modifies this`layers
      ensures layers == if disabled then old(layers) else Noted(old(layers), db, Edit.Create(id.index, value))
    {
      if disabled { return; }
      if layers == [] { layers := [EmptyLayer()]; }
      var state := layers[|layers| - 1];
      if id.index !in state.oldNextIds {
        state := state.(oldNextIds := state.oldNextIds[id.index := id.instance]);
      }
      state := state.(newIds := state.newIds + {id});
      layers := layers[|layers| - 1 := state];
    }

    method OnModify(id: ObjectId, ghost value: V)
      requires id in objects
      modifies this`layers
      ensures layers == if disabled then old(layers)
                        else Noted(old(layers), Database(objects, nextIds), Edit.Modify(id, value))
    {
      if disabled { return; }
      if layers == [] { layers := [EmptyLayer()]; }
      var state := layers[|layers| - 1];
      if id in state.newIds { return; }
      if id in state.oldValues { return; }
      layers := layers[|layers| - 1 := state.(oldValues := state.oldValues[id := objects[id]])];
    }

    method OnRemove(id: ObjectId)
      requires id in objects
      modifies this`layers
      ensures layers == if disabled then old(layers)
                        else Noted(old(layers), Database(objects, nextIds), Edit.Remove(id))
    {
      if disabled { return; }
      if layers == [] { layers := [EmptyLayer()]; }
      var state := layers[|layers| - 1];
      if id in state.newIds {
        state := state.(newIds := state.newIds - {id});
      } else if id in state.oldValues {
        state := state.(removed := state.removed[id := state.oldValues[id]], oldValues := state.oldValues - {id});
      } else if id !in state.removed {
        state := state.(removed := state.removed[id := objects[id]]);
      }
      layers := layers[|layers| - 1 := state];
    }

    /** create, then on_create; the new object's id, or a failure when there is no such index. */
    method Create(index: nat, value: V) returns (ok: bool, id: ObjectId)
      requires Valid() && Guarded(View(), Do(Edit.Create(index, value)))
      modifies this
      ensures Valid() && View() == Step(old(View()), Do(Edit.Create(index, value)))
      ensures snaps == Opened(old(View()), old(snaps), Do(Edit.Create(index, value)))
      ensures ok == (index in old(nextIds))
      ensures ok ==> id == ObjectId(index, old(nextIds[index])) && id !in old(objects) && id in objects
    {
      ghost var log, op := View(), Do(Edit.Create(index, value));
      ok, id := index in nextIds, ObjectId(index, 0);
      if ok {
        id := ObjectId(index, nextIds[index]);
        objects := objects[id := value];
        nextIds := nextIds[index := nextIds[index] + 1];
        OnCreate(id, log.db, value);
        Follow(log, op);
      }
    }

    /** on_modify, then the modification. */
    method Modify(id: ObjectId, value: V) returns (ok: bool)
      requires Valid() && Guarded(View(), Do(Edit.Modify(id, value)))
      modifies this
      ensures Valid() && View() == Step(old(View()), Do(Edit.Modify(id, value)))
      ensures snaps == Opened(old(View()), old(snaps), Do(Edit.Modify(id, value)))
      ensures ok == (id in old(objects))
    {
      ghost var log, op := View(), Do(Edit.Modify(id, value));
      ok := id in objects;
      if ok {
        OnModify(id, value);
        objects := objects[id := value];
        Follow(log, op);
      }
    }

    /** on_remove, then the removal. */
    method Remove(id: ObjectId) returns (ok: bool)
      requires Valid() && Guarded(View(), Do(Edit.Remove(id)))
      modifies this
      ensures Valid() && View() == Step(old(View()), Do(Edit.Remove(id)))
      ensures snaps == Opened(old(View()), old(snaps), Do(Edit.Remove(id)))
      ensures ok == (id in old(objects))
    {
      ghost var log, op := View(), Do(Edit.Remove(id));
      ok := id in objects;
      if ok {
        OnRemove(id);
        objects := objects - {id};
        Follow(log, op);
      }
    }

    /** Bring the recorded opening databases up to date after the fields have taken step `op`. */
    ghost method Follow(log: Log<V>, op: Op<V>)
      requires Faithful(log, snaps) && log.active <= |log.layers| && Guarded(log, op)
      requires Defined(log, op) && View() == Step(log, op)
      modifies this`snaps
      ensures Valid() && View() == Step(log, op) && snaps == Opened(log, old(snaps), op)
    {
      StepStaysFaithful(log, snaps, op);
      StepKeepsLiveLayers(log, op);
      snaps := Opened(log, snaps, op);
    }

    /** enable: from here on edits are recorded. */
    method EnableLog()
      requires Valid()
      modifies this
      ensures Valid() && View() == Step(old(View()), Enable) && snaps == old(snaps)
    {
      ghost var log := View();
      disabled := false;
      Follow(log, Enable);
    }

    /** disable: edits bypass the layers until the log is enabled again. */
    method DisableLog()
      requires Valid()
      modifies this
      ensures Valid() && View() == Step(old(View()), Disable) && snaps == old(snaps)
    {
      ghost var log := View();
      disabled := true;
      Follow(log, Disable);
    }

    /** start_undo_session; the result tells whether a layer was pushed. */
    method StartSession(force: bool) returns (pushed: bool)
      requires Valid() && Guarded(View(), Start(force))
      modifies this
      ensures Valid() && View() == Step(old(View()), Start(force))
      ensures snaps == Opened(old(View()), old(snaps), Start(force))
      ensures pushed == (force || !old(disabled))
    {
      ghost var log := View();
      pushed := force || !disabled;
      if pushed {
        if force { disabled := false; }
        DropOldest();
        layers := layers + [EmptyLayer()];
        active := active + 1;
        Follow(log, Start(force));
      }
    }

    method DropOldest()
      modifies this`layers
      ensures layers == Trimmed(old(layers), maxSize)
    {
      while |layers| > maxSize
        invariant |Trimmed(old(layers), maxSize)| <= |layers| <= |old(layers)|
        invariant layers == old(layers)[|old(layers)| - |layers|..]
      {
        layers := layers[1..];
      }
    }

    /** The four loops undo and pop_commit share: write back old values, drop new objects, reset the
        counters, re-insert removed objects.  The asserts are the lookups and insertions that throw. */
    method RollBack(state: Layer<V>, ghost before: Database<V>)
      requires Delta(state, before, Database(objects, nextIds))
      modifies this`objects, this`nextIds
      ensures Database(objects, nextIds) == before == Undone(state, old(Database(objects, nextIds)))
    {
      UndoneIsBefore(state, before, Database(objects, nextIds));
      WriteBack(state);
      DropNew(state);
      ResetCounters(state);
      InsertRemoved(state);
    }

    method InsertRemoved(state: Layer<V>)
      requires state.removed.Keys !! objects.Keys
      modifies this`objects
      ensures objects == old(objects) + state.removed
    {
      var todo := state.removed.Keys;
      while todo != {}
        invariant todo <= state.removed.Keys
        invariant objects == old(objects) + map id | id in state.removed && id !in todo :: state.removed[id]
      {
        var id :| id in todo;
        assert id !in objects;  // insert
        objects := objects[id := state.removed[id]];
        todo := todo - {id};
      }
    }

    method WriteBack(state: Layer<V>)
      requires state.oldValues.Keys <= objects.Keys
      modifies this`objects
      ensures objects == old(objects) + state.oldValues
    {
      var todo := state.oldValues.Keys;
      while todo != {}
        invariant todo <= state.oldValues.Keys
        invariant objects == old(objects) + map id | id in state.oldValues && id !in todo :: state.oldValues[id]
      {
        var id :| id in todo;
        assert id in objects;  // get_object
        objects := objects[id := state.oldValues[id]];
        todo := todo - {id};
      }
    }

    method DropNew(state: Layer<V>)
      requires state.newIds <= objects.Keys
      modifies this`objects
      ensures objects == old(objects) - state.newIds
    {
      var todo := state.newIds;
      while todo != {}
        invariant todo <= state.newIds
        invariant objects == old(objects) - (state.newIds - todo)
      {
        var id :| id in todo;
        assert id in objects;  // get_object
        objects := objects - {id};
        todo := todo - {id};
      }
    }

    method ResetCounters(state: Layer<V>)
      requires state.oldNextIds.Keys <= nextIds.Keys
      modifies this`nextIds
      ensures nextIds == old(nextIds) + state.oldNextIds
    {
      var todo := state.oldNextIds.Keys;
      while todo != {}
        invariant todo <= state.oldNextIds.Keys
        invariant nextIds == old(nextIds) + map i | i in state.oldNextIds && i !in todo :: state.oldNextIds[i]
      {
        var i :| i in todo;
        assert i in nextIds;  // get_mutable_index
        nextIds := nextIds[i := state.oldNextIds[i]];
        todo := todo - {i};
      }
    }

    /** What undo and pop_commit do to the top layer: disable the log, roll back, pop, enable. */
    method RollBackTop()
      requires Faithful(View(), snaps) && layers != []
      modifies this`objects, this`nextIds, this`layers, this`disabled
      ensures Database(objects, nextIds) == snaps[|snaps| - 1]
           == Undone(old(layers)[|old(layers)| - 1], old(Database(objects, nextIds)))
      ensures layers == old(layers)[..|old(layers)| - 1] && !disabled
    {
      assert Delta(layers[|layers| - 1], snaps[|snaps| - 1], After(snaps, View().db, |snaps| - 1));
      disabled := true;
      RollBack(layers[|layers| - 1], snaps[|snaps| - 1]);
      layers := layers[..|layers| - 1];
      disabled := false;
    }

    /** undo: back to the database the top layer was opened on. */
    method UndoSession() returns (ok: bool)
      requires Valid()
      modifies this
      ensures Valid() && View() == Step(old(View()), Op.Undo)
      ensures snaps == Opened(old(View()), old(snaps), Op.Undo)
      ensures ok == (!old(disabled) && old(active) > 0)
      ensures ok ==> Database(objects, nextIds) == old(snaps)[|old(snaps)| - 1]
    {
      ghost var log := View();
      ok := !disabled && active > 0;
      if ok {
        RollBackTop();
        active := active - 1;
        Follow(log, Op.Undo);
      }
    }

    /** pop_commit: undo the last committed layer. */
    method PopCommitted() returns (ok: bool)
      requires Valid()
      modifies this
      ensures Valid() && View() == Step(old(View()), Op.PopCommit)
      ensures snaps == Opened(old(View()), old(snaps), Op.PopCommit)
      ensures ok == (old(active) == 0 && old(layers) != [])
      ensures ok ==> Database(objects, nextIds) == old(snaps)[|old(snaps)| - 1]
    {
      ghost var log := View();
      ok := active == 0 && layers != [];
      if ok {
        RollBackTop();
        Follow(log, Op.PopCommit);
      }
    }

    method CommitSession() returns (ok: bool)
      requires Valid()
      modifies this
      ensures Valid() && View() == Step(old(View()), Op.Commit) && snaps == old(snaps)
      ensures ok == (old(active) > 0)
    {
      ghost var log := View();
      ok := active > 0;
      if ok {
        active := active - 1;
        Follow(log, Op.Commit);
      }
    }

    method SetMaxSize(size: nat)
      requires Valid()
      modifies this`maxSize
      ensures Valid() && View() == Step(old(View()), Op.SetMaxSize(size))
    {
      SameLayersStayFaithful(View(), snaps, Step(View(), Op.SetMaxSize(size)));
      maxSize := size;
    }

    /** merge: fold the top layer into the one below. */
    method MergeSession() returns (ok: bool)
      requires Valid()
      modifies this
      ensures Valid() && View() == Step(old(View()), Op.Merge)
      ensures snaps == Opened(old(View()), old(snaps), Op.Merge)
      ensures ok == !Fails(old(View()), Op.Merge)
    {
      ghost var log := View();
      ok := active > 0;
      if !ok { return; }
      if active == 1 && |layers| == 1 {
        layers, active := layers[..|layers| - 1], active - 1;
      } else {
        ok := |layers| >= 2;
        if !ok { return; }
        MergeTop();
        active := active - 1;
      }
      Follow(log, Op.Merge);
    }

    method MergeTop()
      requires Faithful(View(), snaps) && |layers| >= 2
      modifies this`layers
      ensures var n := |old(layers)|;
              layers == old(layers)[..n - 2] + [Merged(old(layers)[n - 2], old(layers)[n - 1])]
    {
      var n := |layers|;
      ghost var db := View().db;
      assert Delta(layers[n - 2], snaps[n - 2], After(snaps, db, n - 2));
      assert Delta(layers[n - 1], snaps[n - 1], After(snaps, db, n - 1));
      var merged := MergeLayers(layers[n - 2], layers[n - 1], snaps[n - 2], snaps[n - 1], db);
      layers := layers[..n - 2] + [merged];
    }
  }

  /** The loops of merge over one layer's containers, folding them into the layer below. */
  method MergeLayers<V(!new)>(below: Layer<V>, state: Layer<V>,
                              ghost s0: Database<V>, ghost s1: Database<V>, ghost s2: Database<V>)
    returns (prev: Layer<V>)
    requires WellNumbered(s0) && Delta(below, s0, s1) && Delta(state, s1, s2)
    ensures prev == Merged(below, state)
    ensures Undone(prev, s2) == Undone(below, Undone(state, s2)) == s0
  {
    forall id ensures id in state.oldValues || id in state.removed ==> id !in below.removed {
      MergeCells(below, state, s0, s1, s2, id);
    }
    MergeComposesUndo(below, state, s0, s1, s2);
    var oldValues := FoldOldValues(below, state);
    var oldNextIds := FoldCounters(below, state);
    prev := Layer(oldValues, oldNextIds, below.newIds + state.newIds, below.removed);
    prev := FoldRemoved(prev, state);
  }

  /** *+upd */
  method FoldOldValues<V>(below: Layer<V>, state: Layer<V>) returns (oldValues: map<ObjectId, V>)
    requires state.oldValues.Keys !! below.removed.Keys
    ensures oldValues == KeptValues(below, state)
  {
    oldValues := below.oldValues;
    var todo := state.oldValues.Keys;
    while todo != {}
      invariant todo <= state.oldValues.Keys
      invariant oldValues == below.oldValues + map id | id in state.oldValues && id !in todo
                               && id !in below.newIds && id !in below.oldValues :: state.oldValues[id]
    {
      var id :| id in todo;
      todo := todo - {id};
      if id !in below.newIds && id !in oldValues {
        assert id !in below.removed;  // del+upd cannot happen
        oldValues := oldValues[id := state.oldValues[id]];
      }
    }
  }

  method FoldCounters<V>(below: Layer<V>, state: Layer<V>) returns (oldNextIds: map<nat, nat>)
    ensures oldNextIds == state.oldNextIds + below.oldNextIds
  {
    oldNextIds := below.oldNextIds;
    var todo := state.oldNextIds.Keys;
    while todo != {}
      invariant todo <= state.oldNextIds.Keys
      invariant oldNextIds == (map i | i in state.oldNextIds && i !in todo :: state.oldNextIds[i]) + below.oldNextIds
    {
      var i :| i in todo;
      todo := todo - {i};
      if i !in oldNextIds { oldNextIds := oldNextIds[i := state.oldNextIds[i]]; }
    }
  }

  /** *+del */
  method FoldRemoved<V>(base: Layer<V>, state: Layer<V>) returns (prev: Layer<V>)
    requires state.removed.Keys !! base.removed.Keys
    ensures prev == Folded(base, state, state.removed.Keys)
  {
    prev := base;
    var todo := state.removed.Keys;
    ghost var done := {};
    assert prev == Folded(base, state, done);
    while todo != {}
      invariant todo !! done && todo + done == state.removed.Keys
      invariant prev == Folded(base, state, done)
    {
      var id :| id in todo;
      FoldedNext(base, state, done, id);
      prev := FoldOneRemoved(prev, state, id);
      todo, done := todo - {id}, done + {id};
    }
    assert done == state.removed.Keys;
  }

  /** del+del cannot happen: an id still to be folded is not among the removed ones. */
  function FoldOneRemoved<V>(prev: Layer<V>, state: Layer<V>, id: ObjectId): Layer<V>
    requires id in state.removed && id !in prev.removed
  {
    if id in prev.newIds then prev.(newIds := prev.newIds - {id})
    else if id in prev.oldValues then
      prev.(removed := prev.removed[id := prev.oldValues[id]], oldValues := prev.oldValues - {id})
    else prev.(removed := prev.removed[id := state.removed[id]])
  }

  lemma FoldedNext<V>(base: Layer<V>, state: Layer<V>, done: set<ObjectId>, id: ObjectId)
    requires state.removed.Keys !! base.removed.Keys && id in state.removed && id !in done
    ensures id !in Folded(base, state, done).removed
    ensures FoldOneRemoved(Folded(base, state, done), state, id) == Folded(base, state, done + {id})
  {
    if id in base.newIds { FoldedNextNew(base, state, done, id); } else { FoldedNextOld(base, state, done, id); }
  }

  lemma FoldedNextNew<V>(base: Layer<V>, state: Layer<V>, done: set<ObjectId>, id: ObjectId)
    requires state.removed.Keys !! base.removed.Keys && id in state.removed && id !in done && id in base.newIds
    ensures id !in Folded(base, state, done).removed
    ensures FoldOneRemoved(Folded(base, state, done), state, id) == Folded(base, state, done + {id})
  {
    RemovedByNext(base, state, done, id);
    assert done + {id} - base.newIds == done - base.newIds;
    assert Folded(base, state, done + {id}).newIds == Folded(base, state, done).newIds - {id};
  }

  lemma FoldedNextOld<V>(base: Layer<V>, state: Layer<V>, done: set<ObjectId>, id: ObjectId)
    requires state.removed.Keys !! base.removed.Keys && id in state.removed && id !in done && id !in base.newIds
    ensures id !in Folded(base, state, done).removed
    ensures FoldOneRemoved(Folded(base, state, done), state, id) == Folded(base, state, done + {id})
  {
    hide RemovedBy;
    var prev, next := Folded(base, state, done), Folded(base, state, done + {id});
    RemovedByNext(base, state, done, id);
    assert next.newIds == prev.newIds;
    assert (done + {id}) - base.newIds == (done - base.newIds) + {id};
    assert next.oldValues == prev.oldValues - {id};
    assert base.removed + RemovedBy(base, state, done)[id := next.removed[id]] == prev.removed[id := next.removed[id]];
  }

  lemma RemovedByNext<V>(base: Layer<V>, state: Layer<V>, done: set<ObjectId>, id: ObjectId)
    requires id in state.removed && id !in done
    ensures id !in RemovedBy(base, state, done)
    ensures RemovedBy(base, state, done + {id}) ==
            if id in base.newIds then RemovedBy(base, state, done)
            else RemovedBy(base, state, done)[id := if id in base.oldValues then base.oldValues[id] else state.removed[id]]
  {
  }
}
