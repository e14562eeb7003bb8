/**
 * A plain database: opened at a path under options, read and written
 * through read and write options, snapshotted, iterated, and closed once
 * when dropped.
 */
module Databases {
  import opened Common
  import opened Stores
  import opened Native
  import opened Errors
  import opened ByteViews
  import opened Snapshots
  import opened Opts
  import opened WriteBatches
  import opened Iterators
  import Ffi

  class DB {
    const engine: Engine
    const inner: Handle

    ghost predicate Live()
      reads engine
    {
      engine.Inv() && engine.IsDatabase(inner) && !engine.live[inner].transactional
    }

    /** What a read through `ro` sees: the pinned snapshot, or the current contents. */
    ghost function Seen(ro: ReadOptions): Store
      reads engine
      requires Live() && ro.engine == engine && ro.Live()
    {
      engine.View(inner, ro.inner)
    }

    constructor Wrap(engine: Engine, inner: Handle)
      ensures this.engine == engine && this.inner == inner
    {
      this.engine, this.inner := engine, inner;
    }

    /** `DB::open`: a new handle on success; on failure the engine's message and no database. */
    static method Open(engine: Engine, options: Options, name: string) returns (r: Result<DB>)
      requires engine.Inv() && options.engine == engine && options.Live() && NoNul(name)
      modifies engine
      ensures engine.Inv()
      ensures r.Ok? <==> old(engine.OpenError(engine.live[options.inner], name)).None?
      ensures r.Err? ==> r.error.message == old(engine.OpenError(engine.live[options.inner], name)).value
      ensures r.Err? ==> engine.Reported()
      ensures r.Ok? ==> (
        fresh(r.value) && r.value.engine == engine && r.value.Live() &&
        r.value.inner == old(engine.next) && engine.next == old(engine.next) + 1 &&
        engine.live == old(engine.live)[r.value.inner := Database(name, false)] &&
        engine.disk == (if name in old(engine.disk) then old(engine.disk) else old(engine.disk)[name := map[]]) &&
        engine.destroyed == old(engine.destroyed) && engine.fault == old(engine.fault))
    {
      var db, errptr := engine.Open(options.inner, name, false);
      var checked := Ffi.Check(engine, db, errptr);
      if checked.Err? {
        return Err(checked.error);
      }
      var d := new DB.Wrap(engine, checked.value.h);
      r := Ok(d);
    }

    /** `DB::destroy`: removes the database stored under `name`, or reports why not. */
    static method Destroy(engine: Engine, options: Options, name: string) returns (r: Result<()>)
      requires engine.Inv() && options.engine == engine && options.Live() && NoNul(name)
      modifies engine
      ensures engine.Inv()
      ensures r.Ok? <==> old(engine.AdminError(name)).None?
      ensures r.Err? ==> r.error.message == old(engine.AdminError(name)).value && engine.Reported()
      ensures r.Ok? ==> engine.DiskOnly() && engine.disk == old(engine.disk) - {name}
    {
      var errptr := engine.DestroyDb(options.inner, name);
      var checked := Ffi.Check(engine, (), errptr);
      if checked.Err? {
        return Err(checked.error);
      }
      r := Ok(());
    }

    /** `DB::repair`: nothing to repair in the stand-in, but a held lock or a fault is reported. */
    static method Repair(engine: Engine, options: Options, name: string) returns (r: Result<()>)
      requires engine.Inv() && options.engine == engine && options.Live() && NoNul(name)
      modifies engine
      ensures engine.Inv()
      ensures r.Ok? <==> old(engine.AdminError(name)).None?
      ensures r.Err? ==> r.error.message == old(engine.AdminError(name)).value && engine.Reported()
      ensures r.Ok? ==> unchanged(engine)
    {
      var errptr := engine.RepairDb(options.inner, name);
      var checked := Ffi.Check(engine, (), errptr);
      if checked.Err? {
        return Err(checked.error);
      }
      r := Ok(());
    }

    /** `create_iterator`: an invalid cursor over what `ro` sees; it borrows the database. */
    method CreateIterator(ro: ReadOptions) returns (it: Iterator)
      requires Live() && ro.engine == engine && ro.Live()
      modifies engine
      ensures Live() && fresh(it) && it.engine == engine && it.Live()
      ensures it.Contents() == old(Seen(ro)) && it.Cursor() == None
      ensures engine.Fresh(it.inner, Iter(inner, old(Seen(ro)), None))
    {
      var h := engine.CreateIterator(inner, ro.inner);
      it := new Iterator(engine, h);
    }

    /** `get`: Ok(None) for an absent key, Ok(Some(bytes)) holding its value, or the engine's error. */
    method Get(ro: ReadOptions, key: Key) returns (r: Result<Option<Bytes>>)
      requires Live() && ro.engine == engine && ro.Live()
      modifies engine
      ensures Live()
      ensures old(engine.fault).Some? ==> r == Err(Error(old(engine.fault).value)) && engine.Reported()
      ensures old(engine.fault).None? && key !in old(Seen(ro)) ==> r == Ok(None) && unchanged(engine)
      ensures old(engine.fault).None? && key in old(Seen(ro)) ==> (
        r.Ok? && r.value.Some? && fresh(r.value.value) && r.value.value.engine == engine &&
        engine.Fresh(r.value.value.ptr, Buf(old(Seen(ro))[key])) &&
        r.value.value.Live() && r.value.value.AsRef() == old(Seen(ro))[key])
    {
      var value, len, errptr := engine.Get(inner, ro.inner, key);
      var checked := Ffi.Check(engine, value, errptr);
      if checked.Err? {
        return Err(checked.error);
      }
      var b := Own(engine, checked.value, len);
      r := Ok(b);
    }

    /**
     * `multi_get`: one result per key, in the order of the keys; result `i`
     * answers key `i` alone and owns the handle the engine gave slot `i`.
     */
    method MultiGet(ro: ReadOptions, keys: seq<Key>) returns (ret: seq<Result<Option<Bytes>>>)
      requires Live() && ro.engine == engine && ro.Live()
      modifies engine
      ensures Live() && |ret| == |keys|
      ensures forall i | 0 <= i < |keys| ::
        Answers(engine, ret[i], old(engine.fault), old(Seen(ro)), keys[i], old(engine.next) + i)
      ensures forall i | 0 <= i < |keys| && ret[i].Ok? && ret[i].value.Some? :: fresh(ret[i].value.value)
      ensures engine.next == old(engine.next) + |keys| && engine.disk == old(engine.disk) && engine.fault == old(engine.fault)
      ensures old(engine.fault).Some? ==>
        engine.live == old(engine.live) &&
        engine.destroyed == old(engine.destroyed) + multiset(Range(old(engine.next), |keys|))
      ensures old(engine.fault).None? ==>
        engine.destroyed == old(engine.destroyed) &&
        (forall h | h in old(engine.live) :: h in engine.live && engine.live[h] == old(engine.live)[h]) &&
        (forall h | h in engine.live && h !in old(engine.live) :: old(engine.next) <= h < engine.next)
    {
      ghost var view, next0, live0 := Seen(ro), engine.next, engine.live;
      var keysList := KeyList(keys);
      var vals, sizes, errs := engine.MultiGet(inner, ro.inner, keysList);
      ret := Collect(engine, view, keys, next0, live0, vals, sizes, errs);
    }

    method Put(wo: WriteOptions, key: Key, value: Value) returns (r: Result<()>)
      requires Live() && wo.engine == engine && wo.Live()
      modifies engine
      ensures Live()
      ensures old(engine.fault).Some? ==> r == Err(Error(old(engine.fault).value)) && engine.Reported()
      ensures old(engine.fault).None? ==> (
        r == Ok(()) && engine.DiskOnly() &&
        engine.disk == old(engine.disk)[old(engine.live[inner].path) := old(engine.Current(inner))[key := value]])
    {
      var errptr := engine.Write(inner, wo.inner, [BatchOp.Put(key, value)]);
      r := Ffi.Check(engine, (), errptr);
    }

    /** `write`: the batch's operations reach the database together, oldest first. */
    method Write(wo: WriteOptions, batch: WriteBatch) returns (r: Result<()>)
      requires Live() && wo.engine == engine && wo.Live() && batch.engine == engine && batch.Live()
      modifies engine
      ensures Live() && batch.Live() && batch.Ops() == old(batch.Ops())
      ensures old(engine.fault).Some? ==> r == Err(Error(old(engine.fault).value)) && engine.Reported()
      ensures old(engine.fault).None? ==> (
        r == Ok(()) && engine.DiskOnly() &&
        engine.disk == old(engine.disk)[old(engine.live[inner].path) := Apply(old(engine.Current(inner)), old(batch.Ops()))])
    {
      var errptr := engine.Write(inner, wo.inner, engine.live[batch.inner].ops);
      r := Ffi.Check(engine, (), errptr);
    }

    method Delete(wo: WriteOptions, key: Key) returns (r: Result<()>)
      requires Live() && wo.engine == engine && wo.Live()
      modifies engine
      ensures Live()
      ensures old(engine.fault).Some? ==> r == Err(Error(old(engine.fault).value)) && engine.Reported()
      ensures old(engine.fault).None? ==> (
        r == Ok(()) && engine.DiskOnly() &&
        engine.disk == old(engine.disk)[old(engine.live[inner].path) := old(engine.Current(inner)) - {key}])
    {
      var errptr := engine.Write(inner, wo.inner, [BatchOp.Delete(key)]);
      r := Ffi.Check(engine, (), errptr);
    }

    method Flush(fo: FlushOptions) returns (r: Result<()>)
      requires Live() && fo.engine == engine && fo.Live()
      modifies engine
      ensures Live()
      ensures old(engine.fault).Some? ==> r == Err(Error(old(engine.fault).value)) && engine.Reported()
      ensures old(engine.fault).None? ==> r == Ok(()) && unchanged(engine)
    {
      var errptr := engine.Flush(inner, fo.inner);
      r := Ffi.Check(engine, (), errptr);
    }

    /** `create_snapshot`: an owned snapshot of the current contents, tied to this database. */
    method CreateSnapshot() returns (s: Snapshot)
      requires Live()
      modifies engine
      ensures Live() && s == Owned(old(engine.next), inner, false) && s.Live(engine)
      ensures engine.Fresh(s.inner, Snapshot(old(engine.Current(inner)), ByDatabase(inner)))
    {
      var h := engine.CreateSnapshot(inner);
      s := Owned(h, inner, false);
    }

    /** `Drop`: `rocksdb_close`, once, after every borrow of the database has ended. */
    method Drop()
      requires Live() && engine.NotBorrowed(inner)
      modifies engine
      ensures engine.Inv() && engine.Gone(inner)
    {
      engine.Close(inner, false);
    }
  }

  /** The first loop of `multi_get`: the key array handed to the engine, one entry per key, in order. */
  method KeyList(keys: seq<Key>) returns (keysList: seq<Key>)
    ensures keysList == keys
  {
    keysList := [];
    for i := 0 to |keys|
      invariant keysList == keys[..i]
    {
      keysList := keysList + [keys[i]];
    }
    assert keysList == keys[..|keys|] == keys;
  }

  /**
   * The second half of `multi_get`: the slots the engine filled, from handle
   * `next0` on, are converted into one result per key.
   */
  method Collect(engine: Engine, ghost view: Store, keys: seq<Key>, ghost next0: Handle, ghost live0: map<Handle, Obj>,
                 vals: seq<Ptr>, sizes: seq<nat>, errs: seq<Ptr>) returns (ret: seq<Result<Option<Bytes>>>)
    requires engine.Inv() && |vals| == |sizes| == |errs| == |keys| && engine.next == next0 + |keys|
    requires forall h | h in live0 :: h < next0
    requires forall h | h in live0 :: h in engine.live && engine.live[h] == live0[h]
    requires forall h | h in engine.live && h !in live0 :: next0 <= h < engine.next
    requires forall i | 0 <= i < |keys| ::
      MultiGetSlot(engine.live, next0 + i, engine.fault, view, keys[i], vals[i], sizes[i], errs[i])
    modifies engine
    ensures engine.Inv() && |ret| == |keys|
    ensures forall i | 0 <= i < |keys| :: Answers(engine, ret[i], old(engine.fault), view, keys[i], next0 + i)
    ensures forall i | 0 <= i < |keys| && ret[i].Ok? && ret[i].value.Some? :: fresh(ret[i].value.value)
    ensures engine.next == old(engine.next) && engine.disk == old(engine.disk) && engine.fault == old(engine.fault)
    ensures old(engine.fault).Some? ==>
      engine.live == live0 && engine.destroyed == old(engine.destroyed) + multiset(Range(next0, |keys|))
    ensures old(engine.fault).None? ==> engine.destroyed == old(engine.destroyed) && engine.live == old(engine.live)
  {
    ghost var live1, fault := engine.live, engine.fault;
    if fault.Some? {
      SlotErrors(live1, next0, fault, view, keys, vals, sizes, errs);
      FaultFrame(live0, live1, next0, |keys|);
    } else {
      NoSlotErrors(live1, next0, view, keys, vals, sizes, errs);
    }
    ret := Convert(engine, vals, sizes, errs);
    AllAnswer(engine, ret, fault, view, keys, next0, vals, sizes, errs, live1);
  }

  /** The handles `lo`, ..., `lo + n - 1`. */
  function Range(lo: Handle, n: nat): (r: set<Handle>)
    ensures forall h :: h in r <==> lo <= h < lo + n
    decreases n
  {
    if n == 0 then {} else Range(lo, n - 1) + {lo + n - 1}
  }

  /** The error strings among the slots. */
  ghost function ErrorHandles(errs: seq<Ptr>): set<Handle>
  {
    set i | 0 <= i < |errs| && errs[i].At? :: errs[i].h
  }

  /** How slot `i` of `multi_get` is converted, from what the engine left in the three arrays. */
  ghost predicate Converted(engine: Engine, r: Result<Option<Bytes>>, err: Ptr, val: Ptr, size: nat, live: map<Handle, Obj>)
  {
    if err.At? then err.h in live && live[err.h].Str? && r == Err(Error(live[err.h].msg))
    else if val.At? then r.Ok? && r.value.Some? && r.value.value.engine == engine &&
                         r.value.value.ptr == val.h && r.value.value.len == size
    else r == Ok(None)
  }

  /** How one `multi_get` result answers its key against what the read sees. */
  ghost predicate Answers(engine: Engine, r: Result<Option<Bytes>>, fault: Option<string>, view: Store, key: Key, h: Handle)
    reads engine
  {
    if fault.Some? then r == Err(Error(fault.value))
    else if key in view then
      r.Ok? && r.value.Some? && r.value.value.engine == engine && r.value.value.ptr == h &&
      r.value.value.Live() && r.value.value.AsRef() == view[key]
    else r == Ok(None) && h !in engine.live
  }

  /** Under a fault every slot holds a fresh error string: exactly the handles the call used. */
  lemma SlotErrors(live: map<Handle, Obj>, next0: Handle, fault: Option<string>, view: Store, keys: seq<Key>,
                   vals: seq<Ptr>, sizes: seq<nat>, errs: seq<Ptr>)
    requires fault.Some? && |vals| == |sizes| == |errs| == |keys|
    requires forall i | 0 <= i < |keys| :: MultiGetSlot(live, next0 + i, fault, view, keys[i], vals[i], sizes[i], errs[i])
    ensures ErrorHandles(errs) == Range(next0, |keys|)
    ensures forall i | 0 <= i < |errs| && errs[i].At? :: errs[i].h in live && live[errs[i].h].Str?
    ensures forall i, j | 0 <= i < j < |errs| && errs[i].At? && errs[j].At? :: errs[i].h != errs[j].h
  {
    forall h | h in Range(next0, |keys|) ensures h in ErrorHandles(errs) {
      var i := h - next0;
      assert MultiGetSlot(live, next0 + i, fault, view, keys[i], vals[i], sizes[i], errs[i]);
    }
    forall h | h in ErrorHandles(errs) ensures h in Range(next0, |keys|) {
      var i :| 0 <= i < |errs| && errs[i].At? && errs[i].h == h;
      assert MultiGetSlot(live, next0 + i, fault, view, keys[i], vals[i], sizes[i], errs[i]);
    }
    forall i, j | 0 <= i < j < |errs| && errs[i].At? && errs[j].At? ensures errs[i].h != errs[j].h {
      assert MultiGetSlot(live, next0 + i, fault, view, keys[i], vals[i], sizes[i], errs[i]);
      assert MultiGetSlot(live, next0 + j, fault, view, keys[j], vals[j], sizes[j], errs[j]);
    }
  }

  /** Without a fault no slot holds an error. */
  lemma NoSlotErrors(live: map<Handle, Obj>, next0: Handle, view: Store, keys: seq<Key>,
                     vals: seq<Ptr>, sizes: seq<nat>, errs: seq<Ptr>)
    requires |vals| == |sizes| == |errs| == |keys|
    requires forall i | 0 <= i < |keys| :: MultiGetSlot(live, next0 + i, None, view, keys[i], vals[i], sizes[i], errs[i])
    ensures ErrorHandles(errs) == {}
  {
    forall i | 0 <= i < |errs| ensures errs[i].Null? {
      assert MultiGetSlot(live, next0 + i, None, view, keys[i], vals[i], sizes[i], errs[i]);
    }
  }

  /** Freeing the error strings of a failed call leaves the handle table as it was. */
  lemma FaultFrame(live0: map<Handle, Obj>, live1: map<Handle, Obj>, next0: Handle, n: nat)
    requires forall h | h in live0 :: h < next0
    requires forall h | h in live0 :: h in live1 && live1[h] == live0[h]
    requires forall h | h in live1 && h !in live0 :: next0 <= h < next0 + n
    ensures live1 - Range(next0, n) == live0
  {
    assert (live1 - Range(next0, n)).Keys == live0.Keys;
  }

  /** Every slot the engine filled and the wrapper converted answers its own key. */
  lemma AllAnswer(engine: Engine, ret: seq<Result<Option<Bytes>>>, fault: Option<string>, view: Store, keys: seq<Key>,
                  next0: Handle, vals: seq<Ptr>, sizes: seq<nat>, errs: seq<Ptr>, live1: map<Handle, Obj>)
    requires engine.Inv() && |ret| == |vals| == |sizes| == |errs| == |keys|
    requires forall i | 0 <= i < |keys| :: MultiGetSlot(live1, next0 + i, fault, view, keys[i], vals[i], sizes[i], errs[i])
    requires forall i | 0 <= i < |keys| :: Converted(engine, ret[i], errs[i], vals[i], sizes[i], live1)
    requires fault.None? ==> engine.live == live1
    ensures forall i | 0 <= i < |keys| :: Answers(engine, ret[i], fault, view, keys[i], next0 + i)
  {
    forall i | 0 <= i < |keys|
      ensures Answers(engine, ret[i], fault, view, keys[i], next0 + i)
    {
      SlotAnswers(engine, ret[i], fault, view, keys[i], next0 + i, vals[i], sizes[i], errs[i], live1);
    }
  }

  /** A slot the engine filled and the wrapper converted answers its key. */
  lemma SlotAnswers(engine: Engine, r: Result<Option<Bytes>>, fault: Option<string>, view: Store, key: Key, h: Handle,
                    val: Ptr, size: nat, err: Ptr, live1: map<Handle, Obj>)
    requires engine.Inv() && MultiGetSlot(live1, h, fault, view, key, val, size, err)
    requires Converted(engine, r, err, val, size, live1)
    requires fault.None? ==> engine.live == live1
    ensures Answers(engine, r, fault, view, key, h)
  {
  }

  lemma ErrorHandlesNext(errs: seq<Ptr>, i: nat)
    requires i < |errs|
    ensures ErrorHandles(errs[..i + 1]) == ErrorHandles(errs[..i]) + (if errs[i].At? then {errs[i].h} else {})
  {
    var a, b := errs[..i + 1], errs[..i];
    forall h | h in ErrorHandles(a) ensures h in ErrorHandles(b) + (if errs[i].At? then {errs[i].h} else {}) {
      var j :| 0 <= j < |a| && a[j].At? && a[j].h == h;
      if j < i { assert b[j] == a[j]; }
    }
    forall h | h in ErrorHandles(b) ensures h in ErrorHandles(a) {
      var j :| 0 <= j < |b| && b[j].At? && b[j].h == h;
      assert a[j] == b[j];
    }
    if errs[i].At? {
      assert a[i] == errs[i];
    }
  }

  /**
   * The second loop of `multi_get`: slot by slot, an error string becomes
   * `Err` (whatever the value slot holds) and is freed, a value becomes
   * owned bytes, and a null value becomes `Ok(None)`.
   */
  method Convert(engine: Engine, vals: seq<Ptr>, sizes: seq<nat>, errs: seq<Ptr>) returns (ret: seq<Result<Option<Bytes>>>)
    requires engine.Inv() && |vals| == |sizes| == |errs|
    requires forall i | 0 <= i < |errs| && errs[i].At? :: errs[i].h in engine.live && engine.live[errs[i].h].Str?
    requires forall i, j | 0 <= i < j < |errs| && errs[i].At? && errs[j].At? :: errs[i].h != errs[j].h
    modifies engine
    ensures engine.Inv() && |ret| == |errs|
    ensures forall i | 0 <= i < |errs| :: Converted(engine, ret[i], errs[i], vals[i], sizes[i], old(engine.live))
    ensures forall i | 0 <= i < |errs| && ret[i].Ok? && ret[i].value.Some? :: fresh(ret[i].value.value)
    ensures engine.live == old(engine.live) - ErrorHandles(errs)
    ensures engine.destroyed == old(engine.destroyed) + multiset(ErrorHandles(errs))
    ensures engine.next == old(engine.next) && engine.disk == old(engine.disk) && engine.fault == old(engine.fault)
  {
    ghost var live0, destroyed0 := engine.live, engine.destroyed;
    ret := [];
    while |ret| < |errs|
      invariant engine.Inv() && |ret| <= |errs|
      invariant Converting(engine, live0, destroyed0, engine.live, engine.destroyed, vals, sizes, errs, ret)
      invariant forall j | 0 <= j < |ret| && ret[j].Ok? && ret[j].value.Some? :: fresh(ret[j].value.value)
      invariant engine.next == old(engine.next) && engine.disk == old(engine.disk) && engine.fault == old(engine.fault)
      decreases |errs| - |ret|
    {
      ret := ConvertNext(engine, live0, destroyed0, vals, sizes, errs, ret);
    }
    assert errs[..|errs|] == errs;
  }

  /**
   * The first `|ret|` slots are converted against the table `live0` the loop
   * started from, and their error strings are freed: `live` and `destroyed`
   * are the table and the record of given-back handles after that.
   */
  ghost predicate Converting(engine: Engine, live0: map<Handle, Obj>, destroyed0: multiset<Handle>,
                             live: map<Handle, Obj>, destroyed: multiset<Handle>,
                             vals: seq<Ptr>, sizes: seq<nat>, errs: seq<Ptr>, ret: seq<Result<Option<Bytes>>>)
  {
    && |vals| == |sizes| == |errs| && |ret| <= |errs|
    && (forall j | 0 <= j < |ret| :: Converted(engine, ret[j], errs[j], vals[j], sizes[j], live0))
    && live == live0 - ErrorHandles(errs[..|ret|])
    && destroyed == destroyed0 + multiset(ErrorHandles(errs[..|ret|]))
  }

  /** The error string of the next slot has not been freed yet. */
  lemma SlotLive(live0: map<Handle, Obj>, live: map<Handle, Obj>, errs: seq<Ptr>, i: nat)
    requires i < |errs| && live == live0 - ErrorHandles(errs[..i])
    requires forall k | 0 <= k < |errs| && errs[k].At? :: errs[k].h in live0 && live0[errs[k].h].Str?
    requires forall k, j | 0 <= k < j < |errs| && errs[k].At? && errs[j].At? :: errs[k].h != errs[j].h
    ensures errs[i].At? ==> errs[i].h !in ErrorHandles(errs[..i]) && errs[i].h in live && live[errs[i].h] == live0[errs[i].h]
  {
  }

  /** Converting one more slot, and freeing its error string, extends the converted prefix. */
  lemma ConvertStep(engine: Engine, live0: map<Handle, Obj>, destroyed0: multiset<Handle>,
                    live: map<Handle, Obj>, destroyed: multiset<Handle>,
                    live': map<Handle, Obj>, destroyed': multiset<Handle>,
                    vals: seq<Ptr>, sizes: seq<nat>, errs: seq<Ptr>, ret: seq<Result<Option<Bytes>>>, v: Result<Option<Bytes>>)
    requires |ret| < |errs| && Converting(engine, live0, destroyed0, live, destroyed, vals, sizes, errs, ret)
    requires var e := errs[|ret|]; e.At? ==> e.h !in ErrorHandles(errs[..|ret|]) && e.h in live && live[e.h] == live0[e.h]
    requires Converted(engine, v, errs[|ret|], vals[|ret|], sizes[|ret|], live)
    requires errs[|ret|].Null? ==> live' == live && destroyed' == destroyed
    requires errs[|ret|].At? ==> live' == live - {errs[|ret|].h} && destroyed' == destroyed + multiset{errs[|ret|].h}
    ensures Converting(engine, live0, destroyed0, live', destroyed', vals, sizes, errs, ret + [v])
  {
    var i := |ret|;
    FreedNext(live0, destroyed0, live, destroyed, live', destroyed', errs, i);
    var ret' := ret + [v];
    forall j | 0 <= j < |ret'| ensures Converted(engine, ret'[j], errs[j], vals[j], sizes[j], live0) {
      if j < i { assert ret'[j] == ret[j]; }
    }
  }

  /** Freeing the next slot's error string extends the freed prefix by that handle. */
  lemma FreedNext(live0: map<Handle, Obj>, destroyed0: multiset<Handle>,
                  live: map<Handle, Obj>, destroyed: multiset<Handle>,
                  live': map<Handle, Obj>, destroyed': multiset<Handle>, errs: seq<Ptr>, i: nat)
    requires i < |errs|
    requires live == live0 - ErrorHandles(errs[..i]) && destroyed == destroyed0 + multiset(ErrorHandles(errs[..i]))
    requires errs[i].At? ==> errs[i].h !in ErrorHandles(errs[..i])
    requires errs[i].Null? ==> live' == live && destroyed' == destroyed
    requires errs[i].At? ==> live' == live - {errs[i].h} && destroyed' == destroyed + multiset{errs[i].h}
    ensures live' == live0 - ErrorHandles(errs[..i + 1])
    ensures destroyed' == destroyed0 + multiset(ErrorHandles(errs[..i + 1]))
  {
    ErrorHandlesNext(errs, i);
    if errs[i].At? {
      var e := ErrorHandles(errs[..i]);
      assert multiset(e + {errs[i].h}) == multiset(e) + multiset{errs[i].h};
    }
  }

  /** Converts the next slot of `multi_get`. */
  method ConvertNext(engine: Engine, ghost live0: map<Handle, Obj>, ghost destroyed0: multiset<Handle>,
                     vals: seq<Ptr>, sizes: seq<nat>, errs: seq<Ptr>, ret: seq<Result<Option<Bytes>>>)
    returns (ret': seq<Result<Option<Bytes>>>)
    requires engine.Inv() && |ret| < |errs|
    requires Converting(engine, live0, destroyed0, engine.live, engine.destroyed, vals, sizes, errs, ret)
    requires forall i | 0 <= i < |errs| && errs[i].At? :: errs[i].h in live0 && live0[errs[i].h].Str?
    requires forall i, j | 0 <= i < j < |errs| && errs[i].At? && errs[j].At? :: errs[i].h != errs[j].h
    modifies engine
    ensures engine.Inv() && |ret'| == |ret| + 1 && ret'[..|ret|] == ret
    ensures ret'[|ret|].Ok? && ret'[|ret|].value.Some? ==> fresh(ret'[|ret|].value.value)
    ensures Converting(engine, live0, destroyed0, engine.live, engine.destroyed, vals, sizes, errs, ret')
    ensures engine.next == old(engine.next) && engine.disk == old(engine.disk) && engine.fault == old(engine.fault)
  {
    var i := |ret|;
    ghost var live1, destroyed1 := engine.live, engine.destroyed;
    SlotLive(live0, live1, errs, i);
    var v := ConvertOne(engine, vals[i], sizes[i], errs[i]);
    ConvertStep(engine, live0, destroyed0, live1, destroyed1, engine.live, engine.destroyed, vals, sizes, errs, ret, v);
    ret' := ret + [v];
  }

  /** One slot of the second loop of `multi_get`. */
  method ConvertOne(engine: Engine, val: Ptr, size: nat, err: Ptr) returns (v: Result<Option<Bytes>>)
    requires engine.Inv() && (err.At? ==> err.h in engine.live && engine.live[err.h].Str?)
    modifies engine
    ensures engine.Inv() && Converted(engine, v, err, val, size, old(engine.live))
    ensures v.Ok? && v.value.Some? ==> fresh(v.value.value)
    ensures err.Null? ==> unchanged(engine)
    ensures err.At? ==> engine.Gone(err.h)
  {
    if err.Null? {
      var b := Own(engine, val, size);
      v := Ok(b);
    } else {
      var e := NewError(engine, err);
      v := Err(e);
    }
  }
}
