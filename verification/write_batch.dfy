/**
 * A write batch: puts and deletes staged in order on an engine handle and
 * applied to a database together. Staging cannot fail.
 */
module WriteBatches {
  import opened Common
  import opened Native
  import opened Stores
  import Lib

  class WriteBatch {
    const engine: Engine
    const inner: Handle

    ghost predicate Live()
      reads engine
    {
      engine.Inv() && engine.IsBatch(inner)
    }

    /** The operations staged so far, oldest first. */
    ghost function Ops(): seq<BatchOp>
      reads engine
      requires Live()
    {
      engine.live[inner].ops
    }

    /** `WriteBatch::new`, from `define!`: an empty batch. */
    constructor (engine: Engine)
      requires engine.Inv()
      modifies engine
      ensures this.engine == engine && Live() && Ops() == []
      ensures engine.Fresh(inner, Batch([]))
    {
      var h := Lib.DefineNew(engine, WriteBatchKind);
      this.engine, inner := engine, h;
    }

    method Clear()
      requires Live()
      modifies engine
      ensures Live() && Ops() == [] && engine.Set(inner, Batch([]))
    {
      engine.BatchClear(inner);
    }

    /** `count`: the number of staged operations; the batch is left as it was. */
    method Count() returns (c: int)
      requires Live()
      ensures c == |Ops()|
    {
      c := engine.BatchCount(inner);
    }

    method Put(key: Key, value: Value)
      requires Live()
      modifies engine
      ensures Live() && Ops() == old(Ops()) + [BatchOp.Put(key, value)]
      ensures engine.Set(inner, Batch(old(Ops()) + [BatchOp.Put(key, value)]))
    {
      engine.BatchAppend(inner, BatchOp.Put(key, value));
    }

    method Delete(key: Key)
      requires Live()
      modifies engine
      ensures Live() && Ops() == old(Ops()) + [BatchOp.Delete(key)]
      ensures engine.Set(inner, Batch(old(Ops()) + [BatchOp.Delete(key)]))
    {
      engine.BatchAppend(inner, BatchOp.Delete(key));
    }

    method Drop()
      requires Live()
      modifies engine
      ensures engine.Inv() && engine.Gone(inner)
    {
      Lib.DefineDrop(engine, inner, WriteBatchKind);
    }
  }
}
