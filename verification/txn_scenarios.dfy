/**
 * The transaction tests of the repository, replayed against the model in
 * the same way as the plain-database scenarios.
 */
module TxnScenarios {
  import opened Common
  import opened Stores
  import opened Native
  import opened Errors
  import opened ByteViews
  import opened Opts
  import opened Snapshots
  import opened WriteBatches
  import opened Iterators
  import opened Transactions
  import opened TransactionDBs
  import opened Scenarios

  /** No iterator and no snapshot is alive, so nothing borrows a transaction. */
  ghost predicate NoCursors(engine: Engine)
    reads engine
  {
    NoCursorsIn(engine.live)
  }

  ghost predicate NoCursorsIn(live: map<Handle, Obj>)
  {
    forall o | o in live :: !live[o].Iter? && !live[o].Snapshot?
  }

  /** Without iterators or snapshots, the only objects that point anywhere point at databases and snapshots. */
  lemma NoCursorsUnborrowed(engine: Engine, t: Handle)
    requires engine.Inv() && engine.IsTxn(t) && NoCursors(engine)
    ensures engine.NotBorrowed(t)
  {
    forall o | o in engine.live
      ensures t !in engine.live[o].Refs()
    {
      assert Fits(engine.live[o], engine.live, engine.disk);
    }
  }

  /** What the staged writes of the transaction tests leave for foo. */
  lemma StagedEffects()
    ensures Get(Apply(map[], []), Foo) == None
    ensures Get(Apply(map[], [BatchOp.Put(Foo, Bar)]), Foo) == Some(Bar)
    ensures Get(Apply(map[], [BatchOp.Put(Foo, Bar), BatchOp.Delete(Foo)]), Foo) == None
  {
    var ops := [BatchOp.Put(Foo, Bar), BatchOp.Delete(Foo)];
    assert [BatchOp.Put(Foo, Bar)][1..] == [];
    assert ops[1..] == [BatchOp.Delete(Foo)] && ops[1..][1..] == [];
  }

  /** The settings `open_new_db` builds: create_if_missing and error_if_exists, and default transaction database options. */
  method NewDbSettings() returns (engine: Engine, options: Options, txnOptions: TransactionDBOptions)
    ensures fresh(engine) && engine.Inv() && engine.fault == None && engine.disk == map[]
    ensures options.engine == engine && options.Live() && txnOptions.engine == engine && txnOptions.Live()
    ensures engine.live == map[options.inner := DbOptions(true, true), txnOptions.inner := TxnDbOpts]
  {
    engine := new Engine(map[]);
    options := new Options(engine);
    options.SetCreateIfMissing(true);
    options.SetErrorIfExists(true);
    txnOptions := new TransactionDBOptions(engine);
  }

  /** The tests' `open_new_db` on a transactional database. */
  method OpenNewTxnDb() returns (db: TransactionDB)
    ensures fresh(db.engine) && db.Live() && db.engine.fault == None && NoCursors(db.engine)
    ensures db.engine.Current(db.inner) == map[]
  {
    var engine, options, txnOptions := NewDbSettings();
    ghost var live0 := engine.live;
    var r := TransactionDB.Open(engine, options, txnOptions, PathA);
    db := r.value;
    assert NoCursorsIn(live0);
  }

  /** A new database and a transaction begun on it with default options and no old transaction. */
  method BeginFresh() returns (db: TransactionDB, t: Transaction)
    ensures fresh(db.engine) && db.Live() && db.engine.fault == None && NoCursors(db.engine)
    ensures db.engine.Current(db.inner) == map[]
    ensures t.engine == db.engine && t.Live() && t.Staged() == []
    ensures db.engine.live[t.inner].db == db.inner
  {
    db := OpenNewTxnDb();
    var wo := new WriteOptions(db.engine);
    var to := new TransactionOptions(db.engine);
    t := db.Begin(wo, to, None);
  }

  /** `db.get(ro, key)` on a transactional database, the returned bytes dropped at once. */
  method ReadTxnDb(db: TransactionDB, ro: ReadOptions, key: Key) returns (v: Option<Value>)
    requires db.Live() && ro.engine == db.engine && ro.Live() && db.engine.fault == None
    modifies db.engine
    ensures v == Get(old(db.Seen(ro)), key)
    ensures db.engine.live == old(db.engine.live) && db.engine.disk == old(db.engine.disk)
    ensures db.engine.fault == None && db.Live() && ro.Live()
  {
    var r := db.Get(ro, key);
    if r.value.Some? {
      v := Some(r.value.value.AsRef());
      r.value.value.Drop();
    } else {
      v := None;
    }
  }

  /** `txn.get(ro, key)`, the returned bytes dropped at once. */
  method ReadTxn(t: Transaction, ro: ReadOptions, key: Key) returns (v: Option<Value>)
    requires t.Live() && ro.engine == t.engine && ro.Live() && t.engine.fault == None
    modifies t.engine
    ensures v == Get(old(t.Seen(ro)), key)
    ensures t.engine.live == old(t.engine.live) && t.engine.disk == old(t.engine.disk)
    ensures t.engine.fault == None && t.Live() && ro.Live()
  {
    var r := t.Get(ro, key);
    if r.value.Some? {
      v := Some(r.value.value.AsRef());
      r.value.value.Drop();
    } else {
      v := None;
    }
  }

  /** `test_get_put_delete` of transactions: a transaction reads its own staged writes. */
  method TxnGetPutDelete() returns (ok: bool, before: Option<Value>, during: Option<Value>, after: Option<Value>)
    ensures ok
    ensures before == None
    ensures during == Some(Bar)
    ensures after == None
  {
    var db, t := BeginFresh();
    var ro := new ReadOptions(db.engine);
    StagedEffects();
    before := ReadTxn(t, ro, Foo);
    var p := t.Put(Foo, Bar);
    assert t.Staged() == [BatchOp.Put(Foo, Bar)];
    assert db.engine.live[t.inner].db == db.inner;
    assert db.engine.live[ro.inner] == ReadOpts(Null);
    assert db.engine.Current(db.inner) == map[];
    assert db.engine.View(db.inner, ro.inner) == map[];
    assert t.Seen(ro) == Apply(map[], [BatchOp.Put(Foo, Bar)]);
    during := ReadTxn(t, ro, Foo);
    var d := t.Delete(Foo);
    after := ReadTxn(t, ro, Foo);
    ok := p.Ok? && d.Ok?;
  }

  /** A fresh transaction begun, then `db.get` of foo through new read options. */
  method BeginThenRead() returns (db: TransactionDB, t: Transaction, before: Option<Value>)
    ensures fresh(db.engine) && db.Live() && db.engine.fault == None && NoCursors(db.engine)
    ensures db.engine.Current(db.inner) == map[]
    ensures t.engine == db.engine && t.Live() && t.Staged() == []
    ensures db.engine.live[t.inner].db == db.inner
    ensures before == None
  {
    db, t := BeginFresh();
    var ro := new ReadOptions(db.engine);
    before := ReadTxnDb(db, ro, Foo);
  }

  /** The first half of `test_commit`: a put staged on a fresh transaction, unseen by the database. */
  method StagePut() returns (db: TransactionDB, t: Transaction, ro: ReadOptions, ok: bool, before: Option<Value>, staged: Option<Value>)
    ensures fresh(db.engine) && db.Live() && db.engine.fault == None && NoCursors(db.engine)
    ensures db.engine.Current(db.inner) == map[]
    ensures t.engine == db.engine && t.Live() && t.Staged() == [BatchOp.Put(Foo, Bar)]
    ensures db.engine.live[t.inner].db == db.inner
    ensures ro.engine == db.engine && ro.Live() && db.engine.live[ro.inner].snapshot == Null
    ensures ok && before == None && staged == None
  {
    var t0;
    db, t0, before := BeginThenRead();
    var p := t0.Put(Foo, Bar);
    ro := new ReadOptions(db.engine);
    staged := ReadTxnDb(db, ro, Foo);
    t, ok := t0, p.Ok?;
  }

  /** The second half of `test_commit`: after the commit the database sees the put. */
  method CommitThenRead(db: TransactionDB, t: Transaction, ro: ReadOptions) returns (ok: bool, committed: Option<Value>)
    requires db.Live() && db.engine.fault == None && NoCursors(db.engine) && db.engine.Current(db.inner) == map[]
    requires t.engine == db.engine && t.Live() && t.Staged() == [BatchOp.Put(Foo, Bar)]
    requires db.engine.live[t.inner].db == db.inner
    requires ro.engine == db.engine && ro.Live() && db.engine.live[ro.inner].snapshot == Null
    modifies db.engine
    ensures ok && committed == Some(Bar)
  {
    NoCursorsUnborrowed(db.engine, t.inner);
    var c := t.Commit();
    StagedEffects();
    committed := ReadTxnDb(db, ro, Foo);
    ok := c.Finished?;
  }

  /** `test_commit`: a staged put is invisible to the database until the transaction commits. */
  method TxnCommitVisibility() returns (ok: bool, before: Option<Value>, staged: Option<Value>, committed: Option<Value>)
    ensures ok && before == None && staged == None && committed == Some(Bar)
  {
    var db, t, ro, ok1, b, st := StagePut();
    var ok2, c := CommitThenRead(db, t, ro);
    ok, before, staged, committed := ok1 && ok2, b, st, c;
  }

  /** The first half of `test_snapshot` on a transactional database: a snapshot of the empty database, then a put. */
  method TxnSnapshotThenPut() returns (db: TransactionDB, sp: Snapshot)
    ensures fresh(db.engine) && db.Live() && db.engine.fault == None
    ensures sp.Owned? && sp.Live(db.engine) && db.engine.live[sp.inner].view == map[]
    ensures db.engine.Current(db.inner) == map[Foo := Bar]
  {
    db := OpenNewTxnDb();
    sp := db.CreateSnapshot();
    var wo := new WriteOptions(db.engine);
    var _ := db.Put(wo, Foo, Bar);
  }

  /** `ro.set_snapshot(s)` followed by `db.get(ro, key)` on a transactional database. */
  method ReadTxnDbWith(db: TransactionDB, ro: ReadOptions, s: Snapshot, key: Key) returns (v: Option<Value>)
    requires db.Live() && ro.engine == db.engine && ro.Live() && db.engine.fault == None && s.Live(db.engine)
    modifies db.engine
    ensures v == Get(if s.NullSnapshot? then old(db.engine.Current(db.inner)) else old(db.engine.live[s.inner].view), key)
    ensures db.engine.fault == None && db.engine.disk == old(db.engine.disk) && db.Live() && ro.Live() && s.Live(db.engine)
    ensures db.engine.live.Keys == old(db.engine.live).Keys
    ensures forall h | h in old(db.engine.live) && h != ro.inner :: db.engine.live[h] == old(db.engine.live)[h]
  {
    ro.SetSnapshot(s);
    v := ReadTxnDb(db, ro, key);
  }

  /** `test_snapshot` of the transactional database: the snapshot misses a later put; the null snapshot sees it. */
  method TxnDbSnapshot() returns (seen: seq<Option<Value>>)
    ensures seen == [Some(Bar), None, Some(Bar)]
  {
    var db, sp := TxnSnapshotThenPut();
    var ro := new ReadOptions(db.engine);
    var v1 := ReadTxnDb(db, ro, Foo);
    var v2 := ReadTxnDbWith(db, ro, sp, Foo);
    var v3 := ReadTxnDbWith(db, ro, NullSnapshot, Foo);
    seen := [v1, v2, v3];
  }

  /** `test_open` of the transactional database: a new path opens with both switches set. */
  method TxnDbOpen() returns (ok: bool)
    ensures ok
  {
    var engine, options, txnOptions := NewDbSettings();
    assert !engine.Locked(PathA);
    var r := TransactionDB.Open(engine, options, txnOptions, PathA);
    ok := r.Ok?;
  }

  /** `test_get_put_delete` of the transactional database. */
  method TxnDbGetPutDelete() returns (ok: bool, before: Option<Value>, during: Option<Value>, after: Option<Value>)
    ensures ok && before == None && during == Some(Bar) && after == None
  {
    var db := OpenNewTxnDb();
    var ro := new ReadOptions(db.engine);
    before := ReadTxnDb(db, ro, Foo);
    var wo := new WriteOptions(db.engine);
    var p := db.Put(wo, Foo, Bar);
    during := ReadTxnDb(db, ro, Foo);
    var d := db.Delete(wo, Foo);
    after := ReadTxnDb(db, ro, Foo);
    ok := p.Ok? && d.Ok?;
  }

  /** A new transactional database, the filled batch and the option handles `test_write_batch` uses. */
  method TxnPrepareBatch() returns (db: TransactionDB, wo: WriteOptions, wb: WriteBatch, ro: ReadOptions, counts: seq<int>)
    ensures fresh(db.engine) && db.Live() && db.engine.fault == None
    ensures wo.engine == db.engine && wo.Live() && wb.engine == db.engine && wb.Live()
    ensures ro.engine == db.engine && ro.Live() && db.engine.live[ro.inner].snapshot == Null
    ensures db.engine.Current(db.inner) == map[]
    ensures wb.Ops() == [BatchOp.Put(Foo, Bar), BatchOp.Put(Bar, Baz)] && counts == [0, 2]
  {
    db := OpenNewTxnDb();
    wb, counts := FillBatch(db.engine);
    wo := new WriteOptions(db.engine);
    ro := new ReadOptions(db.engine);
  }

  /** `db.write(wo, wb)` on a transactional database, then `get` of foo and of bar through plain read options. */
  method TxnWriteThenGet(db: TransactionDB, wo: WriteOptions, wb: WriteBatch, ro: ReadOptions) returns (ok: bool, vs: seq<Option<Value>>)
    requires db.Live() && wo.engine == db.engine && wo.Live() && wb.engine == db.engine && wb.Live()
    requires ro.engine == db.engine && ro.Live() && db.engine.live[ro.inner].snapshot == Null
    requires db.engine.fault == None
    modifies db.engine
    ensures db.Live() && wo.Live() && wb.Live() && wb.Ops() == old(wb.Ops())
    ensures ro.Live() && db.engine.live[ro.inner].snapshot == Null && db.engine.fault == None
    ensures db.engine.Current(db.inner) == Apply(old(db.engine.Current(db.inner)), old(wb.Ops()))
    ensures ok && vs == [Get(db.engine.Current(db.inner), Foo), Get(db.engine.Current(db.inner), Bar)]
  {
    var w := db.Write(wo, wb);
    ok := w.Ok?;
    var v1 := ReadTxnDb(db, ro, Foo);
    var v2 := ReadTxnDb(db, ro, Bar);
    vs := [v1, v2];
  }

  /** The first half of `test_write_batch` on a transactional database: two puts batched, written and read back. */
  method TxnFirstBatch() returns (db: TransactionDB, wo: WriteOptions, wb: WriteBatch, ro: ReadOptions,
                                  counts: seq<int>, ok: bool, vs: seq<Option<Value>>)
    ensures fresh(db.engine) && db.Live() && db.engine.fault == None
    ensures wo.engine == db.engine && wo.Live() && wb.engine == db.engine && wb.Live()
    ensures ro.engine == db.engine && ro.Live() && db.engine.live[ro.inner].snapshot == Null
    ensures db.engine.Current(db.inner) == map[Foo := Bar, Bar := Baz]
    ensures counts == [0, 2] && ok && vs == [Some(Bar), Some(Baz)]
  {
    db, wo, wb, ro, counts := TxnPrepareBatch();
    BatchEffects();
    ok, vs := TxnWriteThenGet(db, wo, wb, ro);
  }

  /** The second half: the cleared batch, reused for one delete. */
  method TxnSecondBatch(db: TransactionDB, wo: WriteOptions, wb: WriteBatch, ro: ReadOptions) returns (count: int, ok: bool, vs: seq<Option<Value>>)
    requires db.Live() && db.engine.fault == None
    requires wo.engine == db.engine && wo.Live() && wb.engine == db.engine && wb.Live()
    requires ro.engine == db.engine && ro.Live() && db.engine.live[ro.inner].snapshot == Null
    requires db.engine.Current(db.inner) == map[Foo := Bar, Bar := Baz]
    modifies db.engine
    ensures count == 0 && ok && vs == [None, Some(Baz)]
  {
    wb.Clear();
    count := wb.Count();
    wb.Delete(Foo);
    BatchEffects();
    ok, vs := TxnWriteThenGet(db, wo, wb, ro);
  }

  /** `test_write_batch` of the transactional database. */
  method TxnDbWriteBatch() returns (counts: seq<int>, ok: bool, first: seq<Option<Value>>, second: seq<Option<Value>>)
    ensures counts == [0, 2, 0] && ok
    ensures first == [Some(Bar), Some(Baz)] && second == [None, Some(Baz)]
  {
    var db, wo, wb, ro, c01, ok1, vs1 := TxnFirstBatch();
    var c2, ok2, vs2 := TxnSecondBatch(db, wo, wb, ro);
    counts, ok, first, second := c01 + [c2], ok1 && ok2, vs1, vs2;
  }

  /** The iterator `test_iterator` opens on a transactional database after writing foo1 and foo2. */
  method TxnTwoKeyIterator() returns (it: Iterator)
    ensures fresh(it.engine) && it.Live() && it.Contents() == TwoKeys && it.Cursor() == None
  {
    var db := OpenNewTxnDb();
    var wo := new WriteOptions(db.engine);
    var _ := db.Put(wo, Foo1, Bar1);
    var _ := db.Put(wo, Foo2, Bar2);
    var ro := new ReadOptions(db.engine);
    it := db.CreateIterator(ro);
  }

  /** `test_iterator` of the transactional database: the same walk as on the plain database. */
  method TxnDbIteratorWalk() returns (valid: seq<bool>, keys: seq<Key>, values: seq<Value>)
    ensures valid == [false, true, true, false, true, true, false, false, true]
    ensures keys == [Foo1, Foo2, Foo2, Foo1]
    ensures values == [Bar1, Bar2, Bar2, Bar1]
  {
    var it := TxnTwoKeyIterator();
    valid, keys, values := WalkAll(it);
  }

  const DiskFull: string := "IO error: No space left on device"

  /** A put staged on a fresh transaction whose commit then meets an environment failure. */
  method FailCommit() returns (db: TransactionDB, t: Transaction, failed: bool, message: string, e: TransactionError)
    ensures fresh(db.engine) && db.Live() && db.engine.fault == None && NoCursors(db.engine)
    ensures db.engine.Current(db.inner) == map[]
    ensures t.engine == db.engine && t.Live() && t.Staged() == [BatchOp.Put(Foo, Bar)]
    ensures db.engine.live[t.inner].db == db.inner
    ensures failed && message == DiskFull && e == TransactionError(t, Error(DiskFull))
  {
    var t0;
    db, t0 := BeginFresh();
    var _ := t0.Put(Foo, Bar);
    db.engine.SetFault(Some(DiskFull));
    NoCursorsUnborrowed(db.engine, t0.inner);
    var c := t0.Commit();
    failed := c.Failed?;
    t, message, e := c.failure.txn, c.failure.error.message, c.failure;
    db.engine.SetFault(None);
  }

  /**
   * A failed `commit` hands the transaction back live: its staged put is
   * still readable through it, the database did not receive it, and the
   * transaction can still be rolled back.
   */
  method CommitUnderFault() returns (failed: bool, message: string, staged: Option<Value>, stored: Option<Value>, rolledBack: bool)
    ensures failed && message == DiskFull
    ensures staged == Some(Bar) && stored == None && rolledBack
  {
    var db, t, f, m, _ := FailCommit();
    failed, message := f, m;
    var ro := new ReadOptions(db.engine);
    StagedEffects();
    assert db.engine.View(db.inner, ro.inner) == map[];
    assert t.Seen(ro) == Apply(map[], [BatchOp.Put(Foo, Bar)]);
    staged := ReadTxn(t, ro, Foo);
    stored := ReadTxnDb(db, ro, Foo);
    NoCursorsUnborrowed(db.engine, t.inner);
    var r := t.Rollback();
    rolledBack := r.Finished?;
  }

  /**
   * A failed commit turned into a plain `Error`, as `?` does: the message
   * survives and the transaction handle is destroyed with the rest.
   */
  method CommitErrorConverted() returns (message: string, stillLive: bool)
    ensures message == DiskFull && !stillLive
  {
    var db, t, f, m, failure := FailCommit();
    NoCursorsUnborrowed(db.engine, t.inner);
    var e := failure.IntoError();
    message := e.message;
    stillLive := t.inner in db.engine.live;
  }
}
