/**
 * A stand-in for the foreign engine behind the wrapper: every native object
 * lives in a handle table, handles are never reused, and every destroy, close,
 * release or free removes a live handle that nothing borrows any longer.
 * Databases keep their contents on a `disk` indexed by path; reads, writes,
 * snapshots, transactions and iterators are reduced to maps. A few calls the
 * engine leaves undefined get a defined result here: a read through another
 * database's snapshot, and `next`/`prev` on an invalid cursor. While `fault`
 * holds a message, every fallible call reports it through the error slot and
 * changes nothing else.
 */
module Native {
  import opened Common
  import opened Keys
  import opened Stores

  /** Who gives a snapshot marker back: the database that took it, or the allocator. */
  datatype SnapOwner = ByDatabase(db: Handle) | ByAllocator(txn: Handle)

  /** A native object, as the engine holds it behind its handle. */
  datatype Obj =
    | Database(path: string, transactional: bool)
    | Snapshot(view: Store, owner: SnapOwner)
    | Txn(db: Handle, pending: seq<BatchOp>, savepoints: seq<seq<BatchOp>>, snap: Option<Store>)
    | Iter(source: Handle, view: Store, pos: Option<Key>)
    | Batch(ops: seq<BatchOp>)
    | DbOptions(createIfMissing: bool, errorIfExists: bool)
    | ReadOpts(snapshot: Ptr)
    | WriteOpts
    | FlushOpts
    | TxnDbOpts
    | TxnOpts(setSnapshot: bool)
    | Str(msg: string)
    | Buf(bytes: seq<byte>)
  {
    /** The handles this object points at, which must outlive it. */
    function Refs(): set<Handle>
    {
      match this
      case Snapshot(_, owner) => if owner.ByDatabase? then {owner.db} else {owner.txn}
      case Txn(db, _, _, _) => {db}
      case Iter(source, _, _) => {source}
      case ReadOpts(p) => if p.At? then {p.h} else {}
      case _ => {}
    }

    /** Memory handed out by the engine allocator, given back with `rocksdb_free`. */
    predicate IsAllocation()
    {
      Str? || Buf? || (Snapshot? && owner.ByAllocator?)
    }
  }

  /** The resources created and destroyed through one paired create/destroy call. */
  datatype ScopedKind =
    | OptionsKind | ReadOptionsKind | WriteOptionsKind | FlushOptionsKind
    | WriteBatchKind | TxnDbOptionsKind | TxnOptionsKind

  /** The object a create call makes: engine defaults, an empty batch. */
  function Initial(kind: ScopedKind): Obj
  {
    match kind
    case OptionsKind => DbOptions(false, false)
    case ReadOptionsKind => ReadOpts(Null)
    case WriteOptionsKind => WriteOpts
    case FlushOptionsKind => FlushOpts
    case WriteBatchKind => Batch([])
    case TxnDbOptionsKind => TxnDbOpts
    case TxnOptionsKind => TxnOpts(false)
  }

  predicate OfKind(o: Obj, kind: ScopedKind)
  {
    match kind
    case OptionsKind => o.DbOptions?
    case ReadOptionsKind => o.ReadOpts?
    case WriteOptionsKind => o.WriteOpts?
    case FlushOptionsKind => o.FlushOpts?
    case WriteBatchKind => o.Batch?
    case TxnDbOptionsKind => o.TxnDbOpts?
    case TxnOptionsKind => o.TxnOpts?
  }

  /** Every object's references point at live objects of the right kind. */
  ghost predicate Fits(o: Obj, live: map<Handle, Obj>, disk: map<string, Store>)
  {
    match o
    case Database(path, _) => path in disk
    case Snapshot(_, owner) =>
      (match owner
       case ByDatabase(db) => db in live && live[db].Database?
       case ByAllocator(t) => t in live && live[t].Txn?)
    case Txn(db, _, _, _) => db in live && live[db].Database? && live[db].transactional
    case Iter(source, view, pos) =>
      source in live && (live[source].Database? || live[source].Txn?) &&
      (pos.Some? ==> pos.value in view)
    case ReadOpts(p) => p.At? ==> p.h in live && live[p.h].Snapshot?
    case _ => true
  }

  /** A snapshot read through read options, or the current contents of a database. */
  function ReadView(live: map<Handle, Obj>, disk: map<string, Store>, db: Handle, ro: Handle): Store
    requires db in live && live[db].Database? && live[db].path in disk
    requires ro in live && live[ro].ReadOpts?
    requires live[ro].snapshot.At? ==> live[ro].snapshot.h in live && live[live[ro].snapshot.h].Snapshot?
  {
    match live[ro].snapshot
    case At(s) => live[s].view
    case Null => disk[live[db].path]
  }

  class Engine {
    var live: map<Handle, Obj>
    var next: Handle
    ghost var destroyed: multiset<Handle>
    var disk: map<string, Store>
    var fault: Option<string>

    ghost predicate Inv()
      reads this
    {
      && (forall h | h in live :: h < next && Fits(live[h], live, disk))
      && (forall h | h in destroyed :: h < next && h !in live && destroyed[h] == 1)
    }

    /** No live object points at `h`: the borrows of `h` have all ended. */
    ghost predicate NotBorrowed(h: Handle)
      reads this
    {
      forall o | o in live :: h !in live[o].Refs()
    }

    /** Only databases, transactions and snapshots are ever pointed at. */
    lemma Unreferenced(h: Handle)
      requires Inv() && h in live && !live[h].Database? && !live[h].Txn? && !live[h].Snapshot?
      ensures NotBorrowed(h)
    {
      forall o | o in live
        ensures h !in live[o].Refs()
      {
        assert Fits(live[o], live, disk);
      }
    }

    predicate IsDatabase(h: Handle) reads this { h in live && live[h].Database? }
    predicate IsTxn(h: Handle) reads this { h in live && live[h].Txn? }
    predicate IsIter(h: Handle) reads this { h in live && live[h].Iter? }
    predicate IsBatch(h: Handle) reads this { h in live && live[h].Batch? }
    predicate IsReadOpts(h: Handle) reads this { h in live && live[h].ReadOpts? }
    predicate IsSnapshot(h: Handle) reads this { h in live && live[h].Snapshot? }
    predicate IsOptions(h: Handle) reads this { h in live && live[h].DbOptions? }

    /** One fresh handle `h` now names `o`; nothing else changed. */
    twostate predicate Fresh(h: Handle, o: Obj)
      reads this
    {
      h == old(next) && next == old(next) + 1 && live == old(live)[h := o] &&
      destroyed == old(destroyed) && disk == old(disk) && fault == old(fault)
    }

    /** The live object `h` now is `o`; nothing else changed. */
    twostate predicate Set(h: Handle, o: Obj)
      reads this
    {
      h in old(live) && next == old(next) && live == old(live)[h := o] &&
      destroyed == old(destroyed) && disk == old(disk) && fault == old(fault)
    }

    /** The live handle `h` was destroyed, for the first and only time. */
    twostate predicate Gone(h: Handle)
      reads this
    {
      h in old(live) && next == old(next) && live == old(live) - {h} &&
      destroyed == old(destroyed) + multiset{h} && disk == old(disk) && fault == old(fault)
    }

    /** Only the contents on disk changed. */
    twostate predicate DiskOnly()
      reads this
    {
      live == old(live) && next == old(next) && destroyed == old(destroyed) && fault == old(fault)
    }

    /**
     * A fallible call failed and the wrapper has already copied and freed its
     * error string: one handle was used up, and nothing else changed.
     */
    twostate predicate Reported()
      reads this
    {
      live == old(live) && next == old(next) + 1 && destroyed == old(destroyed) + multiset{old(next)} &&
      disk == old(disk) && fault == old(fault)
    }

    /** A fallible call that failed: a fresh engine string holds the fault message. */
    twostate predicate Failed(err: Ptr)
      reads this
    {
      old(fault).Some? && err.At? && Fresh(err.h, Str(old(fault).value))
    }

    constructor (disk: map<string, Store>)
      ensures Inv() && this.disk == disk && fault == None
      ensures live == map[] && destroyed == multiset{}
    {
      live, next, destroyed := map[], 0, multiset{};
      this.disk, fault := disk, None;
    }

    function Current(db: Handle): Store
      reads this
      requires Inv() && IsDatabase(db)
    {
      disk[live[db].path]
    }

    function View(db: Handle, ro: Handle): Store
      reads this
      requires Inv() && IsDatabase(db) && IsReadOpts(ro)
    {
      ReadView(live, disk, db, ro)
    }

    /** What a transaction reads: its own staged writes over the database view. */
    function TxnView(t: Handle, ro: Handle): Store
      reads this
      requires Inv() && IsTxn(t) && IsReadOpts(ro)
    {
      Apply(View(live[t].db, ro), live[t].pending)
    }

    /** The environment starts or stops failing (a full disk, a lost device). */
    method SetFault(f: Option<string>)
      requires Inv()
      modifies this
      ensures Inv() && fault == f
      ensures live == old(live) && next == old(next) && destroyed == old(destroyed) && disk == old(disk)
    {
      fault := f;
    }

    method Alloc(o: Obj) returns (h: Handle)
      requires Inv() && Fits(o, live, disk)
      modifies this
      ensures Inv() && Fresh(h, o)
    {
      h := next;
      live := live[h := o];
      next := next + 1;
    }

    method Update(h: Handle, o: Obj)
      requires Inv() && h in live && Fits(o, live, disk)
      requires o.Database? <==> live[h].Database?
      requires o.Database? ==> o.transactional == live[h].transactional
      requires o.Txn? <==> live[h].Txn?
      requires o.Snapshot? <==> live[h].Snapshot?
      modifies this
      ensures Inv() && Set(h, o)
    {
      live := live[h := o];
    }

    method Release(h: Handle)
      requires Inv() && h in live && NotBorrowed(h)
      modifies this
      ensures Inv() && Gone(h)
    {
      live := live - {h};
      destroyed := destroyed + multiset{h};
    }

    /** The engine fills the error slot with a copy of the fault message. */
    method Fail() returns (err: Ptr)
      requires Inv() && fault.Some?
      modifies this
      ensures Inv() && Failed(err)
    {
      var h := Alloc(Str(fault.value));
      err := At(h);
    }

    // ----- paired create and destroy calls ----------------------------------

    /** `rocksdb_*_create` for options, read options and write batches. */
    method Create(kind: ScopedKind) returns (h: Handle)
      requires Inv()
      modifies this
      ensures Inv() && Fresh(h, Initial(kind))
    {
      h := Alloc(Initial(kind));
    }

    /** `rocksdb_*_destroy` for options, read options and write batches. */
    method Destroy(h: Handle, kind: ScopedKind)
      requires Inv() && h in live && OfKind(live[h], kind) && NotBorrowed(h)
      modifies this
      ensures Inv() && Gone(h)
    {
      Release(h);
    }

    /** `rocksdb_free`: gives back memory the engine allocated. */
    method Free(h: Handle)
      requires Inv() && h in live && live[h].IsAllocation() && NotBorrowed(h)
      modifies this
      ensures Inv() && Gone(h)
    {
      Release(h);
    }

    // ----- options -------------------------------------------------------------

    /** `rocksdb_options_create_copy`. */
    method OptionsCopy(h: Handle) returns (c: Handle)
      requires Inv() && IsOptions(h)
      modifies this
      ensures Inv() && Fresh(c, old(live[h]))
    {
      c := Alloc(live[h]);
    }

    method OptionsSetCreateIfMissing(h: Handle, b: bool)
      requires Inv() && IsOptions(h)
      modifies this
      ensures Inv() && Set(h, old(live[h]).(createIfMissing := b))
    {
      Update(h, live[h].(createIfMissing := b));
    }

    method OptionsSetErrorIfExists(h: Handle, b: bool)
      requires Inv() && IsOptions(h)
      modifies this
      ensures Inv() && Set(h, old(live[h]).(errorIfExists := b))
    {
      Update(h, live[h].(errorIfExists := b));
    }

    function OptionsGetCreateIfMissing(h: Handle): bool
      reads this
      requires IsOptions(h)
    {
      live[h].createIfMissing
    }

    function OptionsGetErrorIfExists(h: Handle): bool
      reads this
      requires IsOptions(h)
    {
      live[h].errorIfExists
    }

    /** `rocksdb_readoptions_set_snapshot`: overwrites the snapshot slot, nothing else. */
    method ReadOptionsSetSnapshot(ro: Handle, p: Ptr)
      requires Inv() && IsReadOpts(ro) && (p.At? ==> IsSnapshot(p.h))
      modifies this
      ensures Inv() && Set(ro, ReadOpts(p))
    {
      Update(ro, ReadOpts(p));
    }

    /** `rocksdb_transaction_options_set_set_snapshot`. */
    method TxnOptionsSetSnapshot(to: Handle, b: bool)
      requires Inv() && to in live && live[to].TxnOpts?
      modifies this
      ensures Inv() && Set(to, TxnOpts(b))
    {
      Update(to, TxnOpts(b));
    }

    // ----- opening, closing and administering databases -----------------------

    /** Some open database holds the lock on `path`. */
    predicate Locked(path: string)
      reads this
    {
      exists h | h in live :: live[h].Database? && live[h].path == path
    }

    /** The error `open` reports under the given settings, if any. */
    function OpenError(opts: Obj, path: string): Option<string>
      reads this
      requires opts.DbOptions?
    {
      if fault.Some? then fault
      else if Locked(path) then Some("IO error: lock " + path + "/LOCK: held by an open database")
      else if path !in disk && !opts.createIfMissing then
        Some("Invalid argument: " + path + ": does not exist (create_if_missing is false)")
      else if path in disk && opts.errorIfExists then
        Some("Invalid argument: " + path + ": exists (error_if_exists is true)")
      else None
    }

    /** `rocksdb_open` and `rocksdb_transactiondb_open`. */
    method Open(opts: Handle, path: string, transactional: bool) returns (db: Ptr, err: Ptr)
      requires Inv() && IsOptions(opts)
      modifies this
      ensures Inv()
      ensures old(OpenError(live[opts], path)).Some? ==>
        db == Null && err.At? && Fresh(err.h, Str(old(OpenError(live[opts], path)).value))
      ensures old(OpenError(live[opts], path)).None? ==>
        err == Null && db.At? && db.h == old(next) && next == old(next) + 1 &&
        live == old(live)[db.h := Database(path, transactional)] &&
        disk == (if path in old(disk) then old(disk) else old(disk)[path := map[]]) &&
        destroyed == old(destroyed) && fault == old(fault)
    {
      var e := OpenError(live[opts], path);
      if e.Some? {
        var h := Alloc(Str(e.value));
        db, err := Null, At(h);
      } else {
        if path !in disk {
          disk := disk[path := map[]];
        }
        var h := Alloc(Database(path, transactional));
        db, err := At(h), Null;
      }
    }

    /** `rocksdb_close` and `rocksdb_transactiondb_close`. */
    method Close(db: Handle, transactional: bool)
      requires Inv() && IsDatabase(db) && live[db].transactional == transactional && NotBorrowed(db)
      modifies this
      ensures Inv() && Gone(db)
    {
      Release(db);
    }

    /** The error `destroy_db` and `repair_db` report, if any. */
    function AdminError(path: string): Option<string>
      reads this
    {
      if fault.Some? then fault
      else if Locked(path) then Some("IO error: lock " + path + "/LOCK: held by an open database")
      else None
    }

    /** `rocksdb_destroy_db`: removes the database stored at `path`. */
    method DestroyDb(opts: Handle, path: string) returns (err: Ptr)
      requires Inv() && IsOptions(opts)
      modifies this
      ensures Inv()
      ensures old(AdminError(path)).Some? ==> err.At? && Fresh(err.h, Str(old(AdminError(path)).value))
      ensures old(AdminError(path)).None? ==> err == Null && DiskOnly() && disk == old(disk) - {path}
    {
      var e := AdminError(path);
      if e.Some? {
        var h := Alloc(Str(e.value));
        err := At(h);
      } else {
        disk := disk - {path};
        err := Null;
      }
    }

    /** `rocksdb_repair_db`: the stand-in has nothing to repair. */
    method RepairDb(opts: Handle, path: string) returns (err: Ptr)
      requires Inv() && IsOptions(opts)
      modifies this
      ensures Inv()
      ensures old(AdminError(path)).Some? ==> err.At? && Fresh(err.h, Str(old(AdminError(path)).value))
      ensures old(AdminError(path)).None? ==> err == Null && unchanged(this)
    {
      var e := AdminError(path);
      if e.Some? {
        var h := Alloc(Str(e.value));
        err := At(h);
      } else {
        err := Null;
      }
    }

    // ----- point operations ------------------------------------------------------

    /** Hands a found value to the caller in a fresh engine buffer. */
    method Lookup(view: Store, key: Key) returns (val: Ptr, len: nat)
      requires Inv()
      modifies this
      ensures Inv()
      ensures key !in view ==> val == Null && len == 0 && unchanged(this)
      ensures key in view ==> val.At? && Fresh(val.h, Buf(view[key])) && len == |view[key]|
    {
      if key in view {
        var h := Alloc(Buf(view[key]));
        val, len := At(h), |view[key]|;
      } else {
        val, len := Null, 0;
      }
    }

    /** `rocksdb_get` and `rocksdb_transactiondb_get`. */
    method Get(db: Handle, ro: Handle, key: Key) returns (val: Ptr, len: nat, err: Ptr)
      requires Inv() && IsDatabase(db) && IsReadOpts(ro)
      modifies this
      ensures Inv()
      ensures old(fault).Some? ==> val == Null && len == 0 && Failed(err)
      ensures old(fault).None? ==> (
        err == Null &&
        (key !in old(View(db, ro)) ==> val == Null && len == 0 && unchanged(this)) &&
        (key in old(View(db, ro)) ==>
          val.At? && Fresh(val.h, Buf(old(View(db, ro))[key])) && len == |old(View(db, ro))[key]|))
    {
      if fault.Some? {
        val, len := Null, 0;
        err := Fail();
      } else {
        val, len := Lookup(View(db, ro), key);
        err := Null;
      }
    }

    /** `rocksdb_multi_get`: slot `i` gets handle `old(next) + i` if it needs one. */
    method MultiGet(db: Handle, ro: Handle, keys: seq<Key>) returns (vals: seq<Ptr>, sizes: seq<nat>, errs: seq<Ptr>)
      requires Inv() && IsDatabase(db) && IsReadOpts(ro)
      modifies this
      ensures Inv()
      ensures |vals| == |sizes| == |errs| == |keys|
      ensures next == old(next) + |keys|
      ensures destroyed == old(destroyed) && disk == old(disk) && fault == old(fault)
      ensures forall h | h in old(live) :: h in live && live[h] == old(live)[h]
      ensures forall h | h in live && h !in old(live) :: old(next) <= h < next
      ensures forall i | 0 <= i < |keys| ::
        MultiGetSlot(live, old(next) + i, old(fault), old(View(db, ro)), keys[i], vals[i], sizes[i], errs[i])
    {
      var view := View(db, ro);
      ghost var next0, live0 := next, live;
      vals, sizes, errs := [], [], [];
      while |vals| < |keys|
        invariant Inv() && |vals| <= |keys|
        invariant fault == old(fault) && destroyed == old(destroyed) && disk == old(disk)
        invariant Filled(next0, live0, view, keys, vals, sizes, errs)
        decreases |keys| - |vals|
      {
        vals, sizes, errs := MultiGetNext(next0, live0, view, keys, vals, sizes, errs);
      }
    }

    /** The first `|vals|` slots of `rocksdb_multi_get` are filled, under handles from `next0` on. */
    ghost predicate Filled(next0: Handle, live0: map<Handle, Obj>, view: Store, keys: seq<Key>,
                           vals: seq<Ptr>, sizes: seq<nat>, errs: seq<Ptr>)
      reads this
    {
      && |vals| == |sizes| == |errs| <= |keys| && next == next0 + |vals|
      && (forall h | h in live0 :: h in live && live[h] == live0[h])
      && (forall h | h in live && h !in live0 :: next0 <= h < next)
      && (forall j | 0 <= j < |vals| ::
            MultiGetSlot(live, next0 + j, fault, view, keys[j], vals[j], sizes[j], errs[j]))
    }

    /** Fills the next slot of `rocksdb_multi_get`. */
    method MultiGetNext(ghost next0: Handle, ghost live0: map<Handle, Obj>, view: Store, keys: seq<Key>,
                        vals: seq<Ptr>, sizes: seq<nat>, errs: seq<Ptr>)
      returns (vals': seq<Ptr>, sizes': seq<nat>, errs': seq<Ptr>)
      requires Inv() && |vals| < |keys| && Filled(next0, live0, view, keys, vals, sizes, errs)
      modifies this
      ensures Inv() && |vals'| == |vals| + 1
      ensures fault == old(fault) && destroyed == old(destroyed) && disk == old(disk)
      ensures Filled(next0, live0, view, keys, vals', sizes', errs')
    {
      var i := |vals|;
      ghost var before := live;
      var v, n, e := MultiGetOne(view, keys[i]);
      SlotsKept(before, live, next0, i, fault, view, keys, vals, sizes, errs);
      vals', sizes', errs' := vals + [v], sizes + [n], errs + [e];
    }

    /** One key of `rocksdb_multi_get`, answered under the handle `old(next)`. */
    method MultiGetOne(view: Store, key: Key) returns (val: Ptr, size: nat, err: Ptr)
      requires Inv()
      modifies this
      ensures Inv() && next == old(next) + 1
      ensures destroyed == old(destroyed) && disk == old(disk) && fault == old(fault)
      ensures old(next) !in old(live)
      ensures forall h | h in old(live) :: h in live && live[h] == old(live)[h]
      ensures forall h | h in live && h !in old(live) :: h == old(next)
      ensures MultiGetSlot(live, old(next), fault, view, key, val, size, err)
    {
      if fault.Some? {
        val, size := Null, 0;
        err := Fail();
      } else if key in view {
        var h := Alloc(Buf(view[key]));
        val, size, err := At(h), |view[key]|, Null;
      } else {
        val, size, err := Null, 0, Null;
        next := next + 1;
      }
    }

    /** `rocksdb_put`, `rocksdb_delete`, `rocksdb_write` and their transactiondb forms. */
    method Write(db: Handle, wo: Handle, ops: seq<BatchOp>) returns (err: Ptr)
      requires Inv() && IsDatabase(db) && wo in live && live[wo].WriteOpts?
      modifies this
      ensures Inv()
      ensures old(fault).Some? ==> Failed(err)
      ensures old(fault).None? ==> (
        err == Null && DiskOnly() &&
        disk == old(disk)[old(live[db].path) := Apply(old(Current(db)), ops)])
    {
      if fault.Some? {
        err := Fail();
      } else {
        var path := live[db].path;
        disk := disk[path := Apply(disk[path], ops)];
        err := Null;
      }
    }

    /** `rocksdb_flush`: the stand-in keeps no memtable, so only a fault shows. */
    method Flush(db: Handle, fo: Handle) returns (err: Ptr)
      requires Inv() && IsDatabase(db) && fo in live && live[fo].FlushOpts?
      modifies this
      ensures Inv()
      ensures old(fault).Some? ==> Failed(err)
      ensures old(fault).None? ==> err == Null && unchanged(this)
    {
      if fault.Some? {
        err := Fail();
      } else {
        err := Null;
      }
    }

    // ----- snapshots -----------------------------------------------------------------

    /** `rocksdb_create_snapshot` and `rocksdb_transactiondb_create_snapshot`. */
    method CreateSnapshot(db: Handle) returns (s: Handle)
      requires Inv() && IsDatabase(db)
      modifies this
      ensures Inv() && Fresh(s, Snapshot(old(Current(db)), ByDatabase(db)))
    {
      s := Alloc(Snapshot(Current(db), ByDatabase(db)));
    }

    /**
     * `rocksdb_release_snapshot` and `rocksdb_transactiondb_release_snapshot`:
     * only the database that took the snapshot gives it back, through the
     * release call of its own kind.
     */
    method ReleaseSnapshot(db: Handle, s: Handle, transactional: bool)
      requires Inv() && IsSnapshot(s) && live[s].owner == ByDatabase(db) && NotBorrowed(s)
      requires live[db].transactional == transactional
      modifies this
      ensures Inv() && Gone(s)
    {
      Release(s);
    }

    // ----- write batches ---------------------------------------------------------

    function BatchCount(b: Handle): int
      reads this
      requires IsBatch(b)
    {
      |live[b].ops|
    }

    method BatchAppend(b: Handle, op: BatchOp)
      requires Inv() && IsBatch(b)
      modifies this
      ensures Inv() && Set(b, Batch(old(live[b].ops) + [op]))
    {
      Update(b, Batch(live[b].ops + [op]));
    }

    method BatchClear(b: Handle)
      requires Inv() && IsBatch(b)
      modifies this
      ensures Inv() && Set(b, Batch([]))
    {
      Update(b, Batch([]));
    }

    // ----- iterators ---------------------------------------------------------------

    /** `rocksdb_create_iterator` and the transactiondb and transaction forms. */
    method CreateIterator(source: Handle, ro: Handle) returns (it: Handle)
      requires Inv() && (IsDatabase(source) || IsTxn(source)) && IsReadOpts(ro)
      modifies this
      ensures Inv()
      ensures Fresh(it, Iter(source, old(if live[source].Database? then View(source, ro) else TxnView(source, ro)), None))
    {
      var view := if live[source].Database? then View(source, ro) else TxnView(source, ro);
      it := Alloc(Iter(source, view, None));
    }

    function IterValid(it: Handle): bool
      reads this
      requires IsIter(it)
    {
      live[it].pos.Some?
    }

    function IterKey(it: Handle): Key
      reads this
      requires IsIter(it) && live[it].pos.Some?
    {
      live[it].pos.value
    }

    function IterValue(it: Handle): Value
      reads this
      requires Inv() && IsIter(it) && live[it].pos.Some?
    {
      live[it].view[live[it].pos.value]
    }

    /** `rocksdb_iter_get_error`. */
    method IterGetError(it: Handle) returns (err: Ptr)
      requires Inv() && IsIter(it)
      modifies this
      ensures Inv()
      ensures old(fault).Some? ==> Failed(err)
      ensures old(fault).None? ==> err == Null && unchanged(this)
    {
      if fault.Some? {
        err := Fail();
      } else {
        err := Null;
      }
    }

    method LeastIn(s: set<Key>) returns (r: Option<Key>)
      ensures r == LeastOf(s)
    {
      if s == {} {
        r := None;
      } else {
        var m := Least(s);
        LeastUnique(m, LeastOf(s).value, s);
        r := Some(m);
      }
    }

    method GreatestIn(s: set<Key>) returns (r: Option<Key>)
      ensures r == GreatestOf(s)
    {
      if s == {} {
        r := None;
      } else {
        var m := Greatest(s);
        GreatestUnique(m, GreatestOf(s).value, s);
        r := Some(m);
      }
    }

    method Reposition(it: Handle, pos: Option<Key>)
      requires Inv() && IsIter(it) && (pos.Some? ==> pos.value in live[it].view)
      modifies this
      ensures Inv() && Set(it, old(live[it]).(pos := pos))
    {
      Update(it, live[it].(pos := pos));
    }

    /** `rocksdb_iter_seek`: the first key at or after `k`. */
    method Seek(it: Handle, k: Key)
      requires Inv() && IsIter(it)
      modifies this
      ensures Inv() && Set(it, old(live[it]).(pos := LeastOf(AtOrAfter(old(live[it]).view.Keys, k))))
    {
      var p := LeastIn(AtOrAfter(live[it].view.Keys, k));
      Reposition(it, p);
    }

    /** `rocksdb_iter_seek_for_prev`: the last key at or before `k`. */
    method SeekForPrev(it: Handle, k: Key)
      requires Inv() && IsIter(it)
      modifies this
      ensures Inv() && Set(it, old(live[it]).(pos := GreatestOf(AtOrBefore(old(live[it]).view.Keys, k))))
    {
      var p := GreatestIn(AtOrBefore(live[it].view.Keys, k));
      Reposition(it, p);
    }

    method SeekToFirst(it: Handle)
      requires Inv() && IsIter(it)
      modifies this
      ensures Inv() && Set(it, old(live[it]).(pos := LeastOf(old(live[it]).view.Keys)))
    {
      var p := LeastIn(live[it].view.Keys);
      Reposition(it, p);
    }

    method SeekToLast(it: Handle)
      requires Inv() && IsIter(it)
      modifies this
      ensures Inv() && Set(it, old(live[it]).(pos := GreatestOf(old(live[it]).view.Keys)))
    {
      var p := GreatestIn(live[it].view.Keys);
      Reposition(it, p);
    }

    /** `rocksdb_iter_next`: the next larger key; an invalid cursor stays invalid. */
    method Next(it: Handle)
      requires Inv() && IsIter(it)
      modifies this
      ensures Inv()
      ensures Set(it, old(live[it]).(pos := NextPos(old(live[it]).view, old(live[it]).pos)))
    {
      var p := None;
      if live[it].pos.Some? {
        p := LeastIn(After(live[it].view.Keys, live[it].pos.value));
      }
      Reposition(it, p);
    }

    /** `rocksdb_iter_prev`: the next smaller key; an invalid cursor stays invalid. */
    method Prev(it: Handle)
      requires Inv() && IsIter(it)
      modifies this
      ensures Inv()
      ensures Set(it, old(live[it]).(pos := PrevPos(old(live[it]).view, old(live[it]).pos)))
    {
      var p := None;
      if live[it].pos.Some? {
        p := GreatestIn(Before(live[it].view.Keys, live[it].pos.value));
      }
      Reposition(it, p);
    }

    /** `rocksdb_iter_destroy`. */
    method IterDestroy(it: Handle)
      requires Inv() && IsIter(it) && NotBorrowed(it)
      modifies this
      ensures Inv() && Gone(it)
    {
      Release(it);
    }

    // ----- transactions ----------------------------------------------------------------

    /** A transaction just begun: nothing staged, a snapshot only if the options ask. */
    function Begun(db: Handle, to: Handle): Obj
      reads this
      requires Inv() && IsDatabase(db) && to in live && live[to].TxnOpts?
    {
      Txn(db, [], [], if live[to].setSnapshot then Some(Current(db)) else None)
    }

    /** `rocksdb_transaction_begin`: a non-null `reuse` handle is reinitialised and returned. */
    method Begin(db: Handle, wo: Handle, to: Handle, reuse: Ptr) returns (t: Handle)
      requires Inv() && IsDatabase(db) && live[db].transactional
      requires wo in live && live[wo].WriteOpts? && to in live && live[to].TxnOpts?
      requires reuse.At? ==> IsTxn(reuse.h)
      modifies this
      ensures Inv()
      ensures reuse.Null? ==> Fresh(t, old(Begun(db, to)))
      ensures reuse.At? ==> t == reuse.h && Set(t, old(Begun(db, to)))
    {
      var o := Begun(db, to);
      if reuse.Null? {
        t := Alloc(o);
      } else {
        t := reuse.h;
        Update(t, o);
      }
    }

    method SetSavepoint(t: Handle)
      requires Inv() && IsTxn(t)
      modifies this
      ensures Inv()
      ensures Set(t, old(live[t]).(savepoints := old(live[t]).savepoints + [old(live[t]).pending]))
    {
      Update(t, live[t].(savepoints := live[t].savepoints + [live[t].pending]));
    }

    /** `rocksdb_transaction_rollback_to_savepoint`: fails when no savepoint is set. */
    method RollbackToSavepoint(t: Handle) returns (err: Ptr)
      requires Inv() && IsTxn(t)
      modifies this
      ensures Inv()
      ensures old(fault).Some? ==> Failed(err)
      ensures old(fault).None? && old(live[t]).savepoints == [] ==> err.At? && Fresh(err.h, Str("NotFound: "))
      ensures old(fault).None? && old(live[t]).savepoints != [] ==> (
        var sp := old(live[t]).savepoints;
        err == Null && Set(t, old(live[t]).(pending := sp[|sp| - 1], savepoints := sp[..|sp| - 1])))
    {
      if fault.Some? {
        err := Fail();
      } else if live[t].savepoints == [] {
        var h := Alloc(Str("NotFound: "));
        err := At(h);
      } else {
        var sp := live[t].savepoints;
        Update(t, live[t].(pending := sp[|sp| - 1], savepoints := sp[..|sp| - 1]));
        err := Null;
      }
    }

    /** `rocksdb_transaction_commit`: the staged writes reach the database at once. */
    method Commit(t: Handle) returns (err: Ptr)
      requires Inv() && IsTxn(t)
      modifies this
      ensures Inv()
      ensures old(fault).Some? ==> Failed(err)
      ensures old(fault).None? ==> (
        err == Null &&
        live == old(live)[t := Txn(old(live[t].db), [], [], None)] &&
        next == old(next) && destroyed == old(destroyed) && fault == old(fault) &&
        disk == old(disk)[old(live[live[t].db].path) := Apply(old(Current(live[t].db)), old(live[t].pending))])
    {
      if fault.Some? {
        err := Fail();
      } else {
        var db := live[t].db;
        var path := live[db].path;
        disk := disk[path := Apply(disk[path], live[t].pending)];
        Update(t, Txn(db, [], [], None));
        err := Null;
      }
    }

    /** `rocksdb_transaction_rollback`: the staged writes are dropped. */
    method Rollback(t: Handle) returns (err: Ptr)
      requires Inv() && IsTxn(t)
      modifies this
      ensures Inv()
      ensures old(fault).Some? ==> Failed(err)
      ensures old(fault).None? ==> err == Null && Set(t, Txn(old(live[t].db), [], [], None))
    {
      if fault.Some? {
        err := Fail();
      } else {
        Update(t, Txn(live[t].db, [], [], None));
        err := Null;
      }
    }

    /** `rocksdb_transaction_get_snapshot`: a fresh allocation, or null without a snapshot. */
    method TxnGetSnapshot(t: Handle) returns (p: Ptr)
      requires Inv() && IsTxn(t)
      modifies this
      ensures Inv()
      ensures old(live[t].snap).None? ==> p == Null && unchanged(this)
      ensures old(live[t].snap).Some? ==> p.At? && Fresh(p.h, Snapshot(old(live[t].snap.value), ByAllocator(t)))
    {
      if live[t].snap.None? {
        p := Null;
      } else {
        var h := Alloc(Snapshot(live[t].snap.value, ByAllocator(t)));
        p := At(h);
      }
    }

    /** `rocksdb_transaction_get` and `rocksdb_transaction_get_for_update`. */
    method TxnGet(t: Handle, ro: Handle, key: Key) returns (val: Ptr, len: nat, err: Ptr)
      requires Inv() && IsTxn(t) && IsReadOpts(ro)
      modifies this
      ensures Inv()
      ensures old(fault).Some? ==> val == Null && len == 0 && Failed(err)
      ensures old(fault).None? ==> (
        err == Null &&
        (key !in old(TxnView(t, ro)) ==> val == Null && len == 0 && unchanged(this)) &&
        (key in old(TxnView(t, ro)) ==>
          val.At? && Fresh(val.h, Buf(old(TxnView(t, ro))[key])) && len == |old(TxnView(t, ro))[key]|))
    {
      if fault.Some? {
        val, len := Null, 0;
        err := Fail();
      } else {
        val, len := Lookup(TxnView(t, ro), key);
        err := Null;
      }
    }

    /** `rocksdb_transaction_put` and `rocksdb_transaction_delete`: staged, not yet written. */
    method TxnStage(t: Handle, op: BatchOp) returns (err: Ptr)
      requires Inv() && IsTxn(t)
      modifies this
      ensures Inv()
      ensures old(fault).Some? ==> Failed(err)
      ensures old(fault).None? ==> err == Null && Set(t, old(live[t]).(pending := old(live[t]).pending + [op]))
    {
      if fault.Some? {
        err := Fail();
      } else {
        Update(t, live[t].(pending := live[t].pending + [op]));
        err := Null;
      }
    }

    /** `rocksdb_transaction_destroy`. */
    method TxnDestroy(t: Handle)
      requires Inv() && IsTxn(t) && NotBorrowed(t)
      modifies this
      ensures Inv() && Gone(t)
    {
      Release(t);
    }
  }

  /** What one slot of `rocksdb_multi_get` holds, and what its handle `h` names in `live`. */
  ghost predicate MultiGetSlot(live: map<Handle, Obj>, h: Handle, f: Option<string>, view: Store,
                               key: Key, val: Ptr, size: nat, err: Ptr)
  {
    if f.Some? then val == Null && size == 0 && err == At(h) && h in live && live[h] == Str(f.value)
    else if key in view then err == Null && val == At(h) && size == |view[key]| && h in live && live[h] == Buf(view[key])
    else err == Null && val == Null && size == 0 && h !in live
  }

  /** Slots already filled keep what they hold when the table only gains handle `next0 + i`. */
  lemma SlotsKept(before: map<Handle, Obj>, after: map<Handle, Obj>, next0: Handle, i: nat, f: Option<string>,
                  view: Store, keys: seq<Key>, vals: seq<Ptr>, sizes: seq<nat>, errs: seq<Ptr>)
    requires i <= |keys| && |vals| == |sizes| == |errs| == i
    requires forall h | h in before :: h in after && after[h] == before[h]
    requires forall h | h in after && h !in before :: h == next0 + i
    requires forall j | 0 <= j < i :: MultiGetSlot(before, next0 + j, f, view, keys[j], vals[j], sizes[j], errs[j])
    ensures forall j | 0 <= j < i :: MultiGetSlot(after, next0 + j, f, view, keys[j], vals[j], sizes[j], errs[j])
  {
    forall j | 0 <= j < i
      ensures MultiGetSlot(after, next0 + j, f, view, keys[j], vals[j], sizes[j], errs[j])
    {
      assert MultiGetSlot(before, next0 + j, f, view, keys[j], vals[j], sizes[j], errs[j]);
    }
  }

  /** Where `next` moves a cursor over `view`. */
  ghost function NextPos(view: Store, pos: Option<Key>): Option<Key>
  {
    if pos.Some? then LeastOf(After(view.Keys, pos.value)) else None
  }

  /** Where `prev` moves a cursor over `view`. */
  ghost function PrevPos(view: Store, pos: Option<Key>): Option<Key>
  {
    if pos.Some? then GreatestOf(Before(view.Keys, pos.value)) else None
  }
}
