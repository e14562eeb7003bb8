/**
 * A transaction of a transaction database: writes are staged on the
 * transaction, read back by its own reads, and reach the database only on
 * commit. Commit and rollback consume the transaction: on success they give
 * back a token that still owns the same live handle, ready to be reused by
 * the next `begin`; on failure they give back the transaction itself,
 * still live, together with the error.
 */
module Transactions {
  import opened Common
  import opened Stores
  import opened Native
  import opened Errors
  import opened ByteViews
  import opened Snapshots
  import opened Opts
  import opened Iterators
  import Ffi

  class Transaction {
    const engine: Engine
    const inner: Handle

    ghost predicate Live()
      reads engine
    {
      engine.Inv() && engine.IsTxn(inner)
    }

    /** The writes staged since the transaction began, oldest first. */
    ghost function Staged(): seq<BatchOp>
      reads engine
      requires Live()
    {
      engine.live[inner].pending
    }

    /** What a read through `ro` sees: the staged writes over the database view. */
    ghost function Seen(ro: ReadOptions): Store
      reads engine
      requires Live() && ro.engine == engine && ro.Live()
    {
      engine.TxnView(inner, ro.inner)
    }

    /** `Transaction::new`: wraps the handle `begin` returned. */
    constructor (engine: Engine, inner: Handle)
      ensures this.engine == engine && this.inner == inner
    {
      this.engine, this.inner := engine, inner;
    }

    method SetSavepoint()
      requires Live()
      modifies engine
      ensures Live() && Staged() == old(Staged())
      ensures engine.Set(inner, old(engine.live[inner]).(savepoints := old(engine.live[inner].savepoints) + [old(Staged())]))
    {
      engine.SetSavepoint(inner);
    }

    /** `rollback_to_savepoint`: back to the latest savepoint, or an error when none is set. */
    method RollbackToSavepoint() returns (r: Result<()>)
      requires Live()
      modifies engine
      ensures Live()
      ensures old(engine.fault).Some? ==> r == Err(Error(old(engine.fault).value)) && engine.Reported()
      ensures old(engine.fault).None? && old(engine.live[inner].savepoints) == [] ==>
        r == Err(Error("NotFound: ")) && engine.Reported()
      ensures old(engine.fault).None? && old(engine.live[inner].savepoints) != [] ==> (
        var sp := old(engine.live[inner].savepoints);
        r == Ok(()) && Staged() == sp[|sp| - 1] &&
        engine.Set(inner, old(engine.live[inner]).(pending := sp[|sp| - 1], savepoints := sp[..|sp| - 1])))
    {
      var errptr := engine.RollbackToSavepoint(inner);
      r := Ffi.Check(engine, (), errptr);
    }

    /**
     * `commit`: consumes the transaction. On success the staged writes are on
     * the database and the token owns this same live handle; on failure the
     * transaction comes back live, with the error.
     */
    method Commit() returns (r: Finish)
      requires Live() && engine.NotBorrowed(inner)
      modifies engine
      ensures Live()
      ensures r.Finished? <==> old(engine.fault).None?
      ensures r.Finished? ==> (
        r.token == OldTransaction(this) && Staged() == [] &&
        engine.live == old(engine.live)[inner := Txn(old(engine.live[inner].db), [], [], None)] &&
        engine.next == old(engine.next) && engine.destroyed == old(engine.destroyed) && engine.fault == old(engine.fault) &&
        engine.disk == old(engine.disk)[old(engine.live[engine.live[inner].db].path) :=
                                          Apply(old(engine.Current(engine.live[inner].db)), old(Staged()))])
      ensures r.Failed? ==> r.failure == TransactionError(this, Error(old(engine.fault).value)) && engine.Reported()
    {
      var errptr := engine.Commit(inner);
      if errptr.Null? {
        r := Finished(OldTransaction(this));
      } else {
        var e := NewError(engine, errptr);
        r := Failed(TransactionError(this, e));
      }
    }

    /** `rollback`: the same shape as `commit`, with the staged writes dropped instead. */
    method Rollback() returns (r: Finish)
      requires Live() && engine.NotBorrowed(inner)
      modifies engine
      ensures Live()
      ensures r.Finished? <==> old(engine.fault).None?
      ensures r.Finished? ==> (
        r.token == OldTransaction(this) && Staged() == [] &&
        engine.Set(inner, Txn(old(engine.live[inner].db), [], [], None)))
      ensures r.Failed? ==> r.failure == TransactionError(this, Error(old(engine.fault).value)) && engine.Reported()
    {
      var errptr := engine.Rollback(inner);
      if errptr.Null? {
        r := Finished(OldTransaction(this));
      } else {
        var e := NewError(engine, errptr);
        r := Failed(TransactionError(this, e));
      }
    }

    /** `get_snapshot`: None exactly when the engine returns null; otherwise a borrowed snapshot. */
    method GetSnapshot() returns (s: Option<Snapshot>)
      requires Live()
      modifies engine
      ensures Live()
      ensures s.None? <==> old(engine.live[inner].snap).None?
      ensures s.None? ==> unchanged(engine)
      ensures s.Some? ==> (
        s.value == Borrowed(old(engine.next)) && s.value.Live(engine) &&
        engine.Fresh(s.value.inner, Snapshot(old(engine.live[inner].snap.value), ByAllocator(inner))))
    {
      var p := engine.TxnGetSnapshot(inner);
      if p.At? {
        s := Some(Borrowed(p.h));
      } else {
        s := None;
      }
    }

    /** `get`: reads the transaction's own staged writes over the database. */
    method Get(ro: ReadOptions, key: Key) returns (r: Result<Option<Bytes>>)
      requires Live() && ro.engine == engine && ro.Live()
      modifies engine
      ensures Live()
      ensures old(engine.fault).Some? ==> r == Err(Error(old(engine.fault).value)) && engine.Reported()
      ensures old(engine.fault).None? && key !in old(Seen(ro)) ==> r == Ok(None) && unchanged(engine)
      ensures old(engine.fault).None? && key in old(Seen(ro)) ==> (
        r.Ok? && r.value.Some? && fresh(r.value.value) && r.value.value.engine == engine &&
        engine.Fresh(r.value.value.ptr, Buf(old(Seen(ro))[key])) &&
        r.value.value.Live() && r.value.value.AsRef() == old(Seen(ro))[key])
    {
      var value, len, errptr := engine.TxnGet(inner, ro.inner, key);
      var checked := Ffi.Check(engine, value, errptr);
      if checked.Err? {
        return Err(checked.error);
      }
      var b := Own(engine, checked.value, len);
      r := Ok(b);
    }

    /** `get_for_update`: reads like `get`; the lock it takes is not modelled. */
    method GetForUpdate(ro: ReadOptions, key: Key, exclusive: bool) returns (r: Result<Option<Bytes>>)
      requires Live() && ro.engine == engine && ro.Live()
      modifies engine
      ensures Live()
      ensures old(engine.fault).Some? ==> r == Err(Error(old(engine.fault).value)) && engine.Reported()
      ensures old(engine.fault).None? && key !in old(Seen(ro)) ==> r == Ok(None) && unchanged(engine)
      ensures old(engine.fault).None? && key in old(Seen(ro)) ==> (
        r.Ok? && r.value.Some? && fresh(r.value.value) && r.value.value.engine == engine &&
        engine.Fresh(r.value.value.ptr, Buf(old(Seen(ro))[key])) &&
        r.value.value.Live() && r.value.value.AsRef() == old(Seen(ro))[key])
    {
      var value, len, errptr := engine.TxnGet(inner, ro.inner, key);
      var checked := Ffi.Check(engine, value, errptr);
      if checked.Err? {
        return Err(checked.error);
      }
      var b := Own(engine, checked.value, len);
      r := Ok(b);
    }

    /** `put`: staged on the transaction; the database is untouched until commit. */
    method Put(key: Key, value: Value) returns (r: Result<()>)
      requires Live()
      modifies engine
      ensures Live()
      ensures old(engine.fault).Some? ==> r == Err(Error(old(engine.fault).value)) && engine.Reported()
      ensures old(engine.fault).None? ==> (
        r == Ok(()) && Staged() == old(Staged()) + [BatchOp.Put(key, value)] &&
        engine.Set(inner, old(engine.live[inner]).(pending := old(Staged()) + [BatchOp.Put(key, value)])))
    {
      var errptr := engine.TxnStage(inner, BatchOp.Put(key, value));
      r := Ffi.Check(engine, (), errptr);
    }

    /** `delete`: staged on the transaction; the database is untouched until commit. */
    method Delete(key: Key) returns (r: Result<()>)
      requires Live()
      modifies engine
      ensures Live()
      ensures old(engine.fault).Some? ==> r == Err(Error(old(engine.fault).value)) && engine.Reported()
      ensures old(engine.fault).None? ==> (
        r == Ok(()) && Staged() == old(Staged()) + [BatchOp.Delete(key)] &&
        engine.Set(inner, old(engine.live[inner]).(pending := old(Staged()) + [BatchOp.Delete(key)])))
    {
      var errptr := engine.TxnStage(inner, BatchOp.Delete(key));
      r := Ffi.Check(engine, (), errptr);
    }

    /** `create_iterator`: an invalid cursor over what the transaction sees; it borrows the transaction. */
    method CreateIterator(ro: ReadOptions) returns (it: Iterator)
      requires Live() && ro.engine == engine && ro.Live()
      modifies engine
      ensures Live() && fresh(it) && it.engine == engine && it.Live()
      ensures it.Contents() == old(Seen(ro)) && it.Cursor() == None
      ensures engine.Fresh(it.inner, Iter(inner, old(Seen(ro)), None))
    {
      var h := engine.CreateIterator(inner, ro.inner);
      it := new Iterator(engine, h);
    }

    /** `Drop`: `rocksdb_transaction_destroy`, once, after every borrow of the transaction has ended. */
    method Drop()
      requires Live() && engine.NotBorrowed(inner)
      modifies engine
      ensures engine.Inv() && engine.Gone(inner)
    {
      engine.TxnDestroy(inner);
    }
  }

  /** A finished transaction whose handle can be handed to the next `begin`. */
  datatype OldTransaction = OldTransaction(txn: Transaction)
  {
    /** `into_raw`: hands out the handle and suppresses the destroy; the handle stays live. */
    method IntoRaw() returns (h: Handle)
      ensures h == txn.inner
    {
      h := txn.inner;
    }

    /** An unused token is dropped like the transaction inside it: destroyed, once. */
    method Drop()
      requires txn.Live() && txn.engine.NotBorrowed(txn.inner)
      modifies txn.engine
      ensures txn.engine.Inv() && txn.engine.Gone(txn.inner)
    {
      txn.Drop();
    }
  }

  /** A failed commit or rollback: the transaction, still live, and why it failed. */
  datatype TransactionError = TransactionError(txn: Transaction, error: Error)
  {
    function Unwrap(): (Transaction, Error)
    {
      (txn, error)
    }

    /**
     * `From<TransactionError> for Error`: the error is moved out and the rest
     * of the value is dropped, so the transaction inside is destroyed, once.
     */
    method IntoError() returns (r: Error)
      requires txn.Live() && txn.engine.NotBorrowed(txn.inner)
      modifies txn.engine
      ensures r == error
      ensures txn.engine.Inv() && txn.engine.Gone(txn.inner)
    {
      txn.Drop();
      r := error;
    }
  }

  /** What `commit` and `rollback` return. */
  datatype Finish = Finished(token: OldTransaction) | Failed(failure: TransactionError)
}
