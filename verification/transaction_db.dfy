/**
 * A transaction database: a database opened for transactions. Besides the
 * plain reads and writes it begins transactions, optionally reusing the
 * handle of a finished one, and it closes once when dropped, after every
 * transaction, iterator and snapshot that borrows it has ended.
 */
module TransactionDBs {
  import opened Common
  import opened Stores
  import opened Native
  import opened Errors
  import opened ByteViews
  import opened Snapshots
  import opened Opts
  import opened WriteBatches
  import opened Iterators
  import opened Transactions
  import Lib
  import Ffi

  class TransactionDB {
    const engine: Engine
    const inner: Handle

    ghost predicate Live()
      reads engine
    {
      engine.Inv() && engine.IsDatabase(inner) && engine.live[inner].transactional
    }

    ghost function Seen(ro: ReadOptions): Store
      reads engine
      requires Live() && ro.engine == engine && ro.Live()
    {
      engine.View(inner, ro.inner)
    }

    constructor Wrap(engine: Engine, inner: Handle)
      ensures this.engine == engine && this.inner == inner
    {
      this.engine, this.inner := engine, inner;
    }

    /** `TransactionDB::open`: Err and no database whenever the engine fills the error slot. */
    static method Open(engine: Engine, options: Options, txnDbOptions: TransactionDBOptions, name: string)
      returns (r: Result<TransactionDB>)
      requires engine.Inv() && options.engine == engine && options.Live() && NoNul(name)
      requires txnDbOptions.engine == engine && txnDbOptions.Live()
      modifies engine
      ensures engine.Inv()
      ensures r.Ok? <==> old(engine.OpenError(engine.live[options.inner], name)).None?
      ensures r.Err? ==> r.error.message == old(engine.OpenError(engine.live[options.inner], name)).value
      ensures r.Err? ==> engine.Reported()
      ensures r.Ok? ==> (
        fresh(r.value) && r.value.engine == engine && r.value.Live() &&
        r.value.inner == old(engine.next) && engine.next == old(engine.next) + 1 &&
        engine.live == old(engine.live)[r.value.inner := Database(name, true)] &&
        engine.disk == (if name in old(engine.disk) then old(engine.disk) else old(engine.disk)[name := map[]]) &&
        engine.destroyed == old(engine.destroyed) && engine.fault == old(engine.fault))
    {
      var db, errptr := engine.Open(options.inner, name, true);
      var checked := Ffi.Check(engine, db, errptr);
      if checked.Err? {
        return Err(checked.error);
      }
      var d := new TransactionDB.Wrap(engine, checked.value.h);
      r := Ok(d);
    }

    /** `create_snapshot`: an owned snapshot released only through this database. */
    method CreateSnapshot() returns (s: Snapshot)
      requires Live()
      modifies engine
      ensures Live() && s == Owned(old(engine.next), inner, true) && s.Live(engine)
      ensures engine.Fresh(s.inner, Snapshot(old(engine.Current(inner)), ByDatabase(inner)))
    {
      var h := engine.CreateSnapshot(inner);
      s := Owned(h, inner, true);
    }

    method Get(ro: ReadOptions, key: Key) returns (r: Result<Option<Bytes>>)
      requires Live() && ro.engine == engine && ro.Live()
      modifies engine
      ensures Live()
      ensures old(engine.fault).Some? ==> r == Err(Error(old(engine.fault).value)) && engine.Reported()
      ensures old(engine.fault).None? && key !in old(Seen(ro)) ==> r == Ok(None) && unchanged(engine)
      ensures old(engine.fault).None? && key in old(Seen(ro)) ==> (
        r.Ok? && r.value.Some? && fresh(r.value.value) && r.value.value.engine == engine &&
        engine.Fresh(r.value.value.ptr, Buf(old(Seen(ro))[key])) &&
        r.value.value.Live() && r.value.value.AsRef() == old(Seen(ro))[key])
    {
      var value, len, errptr := engine.Get(inner, ro.inner, key);
      var checked := Ffi.Check(engine, value, errptr);
      if checked.Err? {
        return Err(checked.error);
      }
      var b := Own(engine, checked.value, len);
      r := Ok(b);
    }

    method Put(wo: WriteOptions, key: Key, value: Value) returns (r: Result<()>)
      requires Live() && wo.engine == engine && wo.Live()
      modifies engine
      ensures Live()
      ensures old(engine.fault).Some? ==> r == Err(Error(old(engine.fault).value)) && engine.Reported()
      ensures old(engine.fault).None? ==> (
        r == Ok(()) && engine.DiskOnly() &&
        engine.disk == old(engine.disk)[old(engine.live[inner].path) := old(engine.Current(inner))[key := value]])
    {
      var errptr := engine.Write(inner, wo.inner, [BatchOp.Put(key, value)]);
      r := Ffi.Check(engine, (), errptr);
    }

    method Write(wo: WriteOptions, batch: WriteBatch) returns (r: Result<()>)
      requires Live() && wo.engine == engine && wo.Live() && batch.engine == engine && batch.Live()
      modifies engine
      ensures Live() && batch.Live() && batch.Ops() == old(batch.Ops())
      ensures old(engine.fault).Some? ==> r == Err(Error(old(engine.fault).value)) && engine.Reported()
      ensures old(engine.fault).None? ==> (
        r == Ok(()) && engine.DiskOnly() &&
        engine.disk == old(engine.disk)[old(engine.live[inner].path) := Apply(old(engine.Current(inner)), old(batch.Ops()))])
    {
      var errptr := engine.Write(inner, wo.inner, engine.live[batch.inner].ops);
      r := Ffi.Check(engine, (), errptr);
    }

    method Delete(wo: WriteOptions, key: Key) returns (r: Result<()>)
      requires Live() && wo.engine == engine && wo.Live()
      modifies engine
      ensures Live()
      ensures old(engine.fault).Some? ==> r == Err(Error(old(engine.fault).value)) && engine.Reported()
      ensures old(engine.fault).None? ==> (
        r == Ok(()) && engine.DiskOnly() &&
        engine.disk == old(engine.disk)[old(engine.live[inner].path) := old(engine.Current(inner)) - {key}])
    {
      var errptr := engine.Write(inner, wo.inner, [BatchOp.Delete(key)]);
      r := Ffi.Check(engine, (), errptr);
    }

    method CreateIterator(ro: ReadOptions) returns (it: Iterator)
      requires Live() && ro.engine == engine && ro.Live()
      modifies engine
      ensures Live() && fresh(it) && it.engine == engine && it.Live()
      ensures it.Contents() == old(Seen(ro)) && it.Cursor() == None
      ensures engine.Fresh(it.inner, Iter(inner, old(Seen(ro)), None))
    {
      var h := engine.CreateIterator(inner, ro.inner);
      it := new Iterator(engine, h);
    }

    /**
     * `begin`: with a token, that token's handle is passed to the engine and
     * reinitialised in place, and the token is used up without a destroy;
     * without one, null is passed and a fresh handle comes back. Either way
     * the handle is wrapped in a new `Transaction`.
     */
    method Begin(wo: WriteOptions, to: TransactionOptions, oldTxn: Option<OldTransaction>) returns (t: Transaction)
      requires Live() && wo.engine == engine && wo.Live() && to.engine == engine && to.Live()
      requires oldTxn.Some? ==> oldTxn.value.txn.engine == engine && oldTxn.value.txn.Live()
      requires oldTxn.Some? ==> engine.NotBorrowed(oldTxn.value.txn.inner)
      modifies engine
      ensures Live() && fresh(t) && t.engine == engine && t.Live() && t.Staged() == []
      ensures oldTxn.None? ==> engine.Fresh(t.inner, old(engine.Begun(inner, to.inner)))
      ensures oldTxn.Some? ==> t.inner == oldTxn.value.txn.inner && engine.Set(t.inner, old(engine.Begun(inner, to.inner)))
    {
      var reuse := Null;
      if oldTxn.Some? {
        var h := oldTxn.value.IntoRaw();
        reuse := At(h);
      }
      var h := engine.Begin(inner, wo.inner, to.inner, reuse);
      t := new Transaction(engine, h);
    }

    /** `Drop`: `rocksdb_transactiondb_close`, once, after every borrow of the database has ended. */
    method Drop()
      requires Live() && engine.NotBorrowed(inner)
      modifies engine
      ensures engine.Inv() && engine.Gone(inner)
    {
      engine.Close(inner, true);
    }
  }

  class TransactionDBOptions {
    const engine: Engine
    const inner: Handle

    ghost predicate Live()
      reads engine
    {
      engine.Inv() && inner in engine.live && engine.live[inner].TxnDbOpts?
    }

    constructor (engine: Engine)
      requires engine.Inv()
      modifies engine
      ensures this.engine == engine && Live()
      ensures engine.Fresh(inner, TxnDbOpts)
    {
      var h := Lib.DefineNew(engine, TxnDbOptionsKind);
      this.engine, inner := engine, h;
    }

    method Drop()
      requires Live()
      modifies engine
      ensures engine.Inv() && engine.Gone(inner)
    {
      Lib.DefineDrop(engine, inner, TxnDbOptionsKind);
    }
  }

  class TransactionOptions {
    const engine: Engine
    const inner: Handle

    ghost predicate Live()
      reads engine
    {
      engine.Inv() && inner in engine.live && engine.live[inner].TxnOpts?
    }

    constructor (engine: Engine)
      requires engine.Inv()
      modifies engine
      ensures this.engine == engine && Live()
      ensures engine.Fresh(inner, TxnOpts(false))
    {
      var h := Lib.DefineNew(engine, TxnOptionsKind);
      this.engine, inner := engine, h;
    }

    /** `set_set_snapshot`: whether `begin` pins a snapshot for the new transaction. */
    method SetSetSnapshot(setSnapshot: bool)
      requires Live()
      modifies engine
      ensures Live() && engine.Set(inner, TxnOpts(setSnapshot))
    {
      engine.TxnOptionsSetSnapshot(inner, setSnapshot);
    }

    method Drop()
      requires Live()
      modifies engine
      ensures engine.Inv() && engine.Gone(inner)
    {
      Lib.DefineDrop(engine, inner, TxnOptionsKind);
    }
  }
}
