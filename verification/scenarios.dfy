/**
 * The repository's own test scenarios, replayed against the model on a
 * fresh engine with an empty disk and no fault. Each method returns what
 * the test observes and states, as its postcondition, what the test
 * asserts. Temporary databases the tests drop at the end of a statement
 * are dropped at the same point here.
 */
module Scenarios {
  import opened Common
  import opened Keys
  import opened Stores
  import opened Native
  import opened Errors
  import opened ByteViews
  import opened Snapshots
  import opened Opts
  import opened WriteBatches
  import opened Iterators
  import opened Databases

  const Foo: Key := [0x66, 0x6f, 0x6f]
  const Bar: Value := [0x62, 0x61, 0x72]
  const Baz: Value := [0x62, 0x61, 0x7a]
  const Foo1: Key := [0x66, 0x6f, 0x6f, 0x31]
  const Foo2: Key := [0x66, 0x6f, 0x6f, 0x32]
  const Foo3: Key := [0x66, 0x6f, 0x6f, 0x33]
  const Bar1: Value := [0x62, 0x61, 0x72, 0x31]
  const Bar2: Value := [0x62, 0x61, 0x72, 0x32]
  const PathA: string := "/tmp/rocksdb_test_a"
  const PathB: string := "/tmp/rocksdb_test_b"

  lemma FooOrder()
    ensures Less(Foo1, Foo2) && Less(Foo2, Foo3) && Less(Foo1, Foo3)
  {
    assert Foo1[1..] == [0x6f, 0x6f, 0x31] && Foo2[1..] == [0x6f, 0x6f, 0x32] && Foo3[1..] == [0x6f, 0x6f, 0x33];
    assert Foo1[2..] == [0x6f, 0x31] && Foo2[2..] == [0x6f, 0x32] && Foo3[2..] == [0x6f, 0x33];
    assert Foo1[3..] == [0x31] && Foo2[3..] == [0x32] && Foo3[3..] == [0x33];
    assert Less(Foo1[3..], Foo2[3..]) && Less(Foo2[3..], Foo3[3..]) && Less(Foo1[3..], Foo3[3..]);
  }

  /** The walk the iterator test takes over the two keys it wrote. */
  lemma TwoKeyWalk(view: Store)
    requires view == map[Foo1 := Bar1, Foo2 := Bar2]
    ensures LeastOf(view.Keys) == Some(Foo1) && GreatestOf(view.Keys) == Some(Foo2)
    ensures NextPos(view, Some(Foo1)) == Some(Foo2) && NextPos(view, Some(Foo2)) == None
    ensures PrevPos(view, Some(Foo2)) == Some(Foo1) && PrevPos(view, Some(Foo1)) == None
    ensures LeastOf(AtOrAfter(view.Keys, Foo3)) == None
    ensures GreatestOf(AtOrBefore(view.Keys, Foo3)) == Some(Foo2)
  {
    FooOrder();
    LessIrreflexive(Foo1);
    LessIrreflexive(Foo2);
    LessAsymmetric(Foo1, Foo2);
    var keys := view.Keys;
    assert keys == {Foo1, Foo2};
    assert IsLeast(Foo1, keys) && IsGreatest(Foo2, keys);
    LeastUnique(Foo1, LeastOf(keys).value, keys);
    GreatestUnique(Foo2, GreatestOf(keys).value, keys);
    assert After(keys, Foo1) == {Foo2};
    assert IsLeast(Foo2, {Foo2});
    assert After(keys, Foo2) == {};
    assert Before(keys, Foo2) == {Foo1};
    assert IsGreatest(Foo1, {Foo1});
    assert Before(keys, Foo1) == {};
    LessAsymmetric(Foo1, Foo3);
    LessAsymmetric(Foo2, Foo3);
    SeekPastEnd(view, Foo3);
  }

  /** A fresh engine with a new database opened at `PathA` with create_if_missing and error_if_exists set. */
  method OpenNewDb() returns (engine: Engine, db: DB)
    ensures fresh(engine) && db.engine == engine && db.Live() && engine.fault == None
    ensures engine.disk == map[PathA := map[]] && engine.Current(db.inner) == map[]
  {
    engine := new Engine(map[]);
    var options := new Options(engine);
    options.SetCreateIfMissing(true);
    options.SetErrorIfExists(true);
    var r := DB.Open(engine, options, PathA);
    db := r.value;
    options.Drop();
  }

  /**
   * `db.get(ro, key)` with the returned bytes dropped at the end of the
   * statement, as the tests' temporaries are.
   */
  method ReadDb(db: DB, ro: ReadOptions, key: Key) returns (v: Option<Value>)
    requires db.Live() && ro.engine == db.engine && ro.Live() && db.engine.fault == None
    modifies db.engine
    ensures v == Get(old(db.Seen(ro)), key)
    ensures db.engine.live == old(db.engine.live) && db.engine.disk == old(db.engine.disk)
    ensures db.engine.fault == None && db.Live() && ro.Live() && db.Seen(ro) == old(db.Seen(ro))
  {
    var r := db.Get(ro, key);
    if r.value.Some? {
      v := Some(r.value.value.AsRef());
      r.value.value.Drop();
    } else {
      v := None;
    }
  }

  /** A result of `multi_get` read back as the test reads it: the value, or none. */
  method Observe(engine: Engine, ret: seq<Result<Option<Bytes>>>, ghost view: Store, keys: seq<Key>, ghost h0: Handle)
    returns (vs: seq<Option<Value>>)
    requires |ret| == |keys|
    requires forall i | 0 <= i < |keys| :: Answers(engine, ret[i], None, view, keys[i], h0 + i)
    ensures |vs| == |keys| && forall i | 0 <= i < |keys| :: vs[i] == Get(view, keys[i])
  {
    vs := [];
    for i := 0 to |ret|
      invariant |vs| == i && forall j | 0 <= j < i :: vs[j] == Get(view, keys[j])
    {
      assert Answers(engine, ret[i], None, view, keys[i], h0 + i);
      var x := if ret[i].value.Some? then Some(ret[i].value.value.AsRef()) else None;
      vs := vs + [x];
    }
  }

  /** No database is open on the engine, so no path is locked. */
  ghost predicate NoOpenDb(engine: Engine)
    reads engine
  {
    forall h | h in engine.live :: !engine.live[h].Database?
  }

  /**
   * `DB::open(..).is_ok()`: the database the test opens is dropped at the end
   * of the statement. With no database open, the outcome depends only on the
   * two switches and on whether the path exists.
   */
  method OpenAndDrop(engine: Engine, options: Options, name: string) returns (ok: bool)
    requires options.engine == engine && options.Live() && NoNul(name)
    requires engine.fault == None && NoOpenDb(engine)
    modifies engine
    ensures ok <==> if name in old(engine.disk) then !old(engine.live[options.inner]).errorIfExists
                    else old(engine.live[options.inner]).createIfMissing
    ensures engine.live == old(engine.live) && options.Live() && NoOpenDb(engine) && engine.fault == None
    ensures engine.disk == (if ok && name !in old(engine.disk) then old(engine.disk)[name := map[]] else old(engine.disk))
  {
    ghost var live0 := engine.live;
    assert !engine.Locked(name);
    var r := DB.Open(engine, options, name);
    ok := r.Ok?;
    if ok {
      var db := r.value;
      forall o | o in engine.live
        ensures db.inner !in engine.live[o].Refs()
      {
        if o != db.inner {
          assert Fits(live0[o], live0, old(engine.disk));
        }
      }
      db.Drop();
      assert engine.live == live0;
    }
  }

  /** `test_open` of the plain database: a new path opens with both switches set. */
  method DbOpen() returns (ok: bool)
    ensures ok
  {
    var engine := new Engine(map[]);
    var options := new Options(engine);
    options.SetCreateIfMissing(true);
    options.SetErrorIfExists(true);
    ok := OpenAndDrop(engine, options, PathA);
  }

  /** `test_options_create_if_missing`: open fails on a missing path until create_if_missing is set. */
  method OptionsCreateIfMissing() returns (creating: seq<bool>, opens: seq<bool>)
    ensures creating == [false, true] && opens == [false, true]
  {
    var engine := new Engine(map[]);
    var options := new Options(engine);
    options.SetErrorIfExists(true);
    options.SetCreateIfMissing(false);
    var c1 := options.GetCreateIfMissing();
    var o1 := OpenAndDrop(engine, options, PathA);
    options.SetCreateIfMissing(true);
    var c2 := options.GetCreateIfMissing();
    var o2 := OpenAndDrop(engine, options, PathB);
    creating, opens := [c1, c2], [o1, o2];
  }

  /** `test_options_set_error_if_exists`: reopening an existing path fails only with error_if_exists. */
  method OptionsErrorIfExists() returns (error: seq<bool>, opens: seq<bool>)
    ensures error == [false, true] && opens == [true, true, false]
  {
    var engine := new Engine(map[]);
    var options := new Options(engine);
    options.SetCreateIfMissing(true);
    var o1 := OpenAndDrop(engine, options, PathA);
    options.SetErrorIfExists(false);
    var e1 := options.GetErrorIfExists();
    var o2 := OpenAndDrop(engine, options, PathA);
    options.SetErrorIfExists(true);
    var e2 := options.GetErrorIfExists();
    var o3 := OpenAndDrop(engine, options, PathA);
    error, opens := [e1, e2], [o1, o2, o3];
  }

  /** `test_destroy`: a destroyed database is gone, so opening without create_if_missing fails. */
  method DestroyThenOpen() returns (results: seq<bool>)
    ensures results == [true, true, true, false]
  {
    var engine := new Engine(map[]);
    var options := new Options(engine);
    options.SetCreateIfMissing(true);
    var o1 := OpenAndDrop(engine, options, PathA);
    options.SetCreateIfMissing(false);
    var o2 := OpenAndDrop(engine, options, PathA);
    var d := DB.Destroy(engine, options, PathA);
    var o3 := OpenAndDrop(engine, options, PathA);
    results := [o1, o2, d.Ok?, o3];
  }

  /** `test_get_put_delete` of the plain database. */
  method DbGetPutDelete() returns (ok: bool, before: Option<Value>, during: Option<Value>, after: Option<Value>)
    ensures ok && before == None && during == Some(Bar) && after == None
  {
    var engine, db := OpenNewDb();
    var ro := new ReadOptions(engine);
    before := ReadDb(db, ro, Foo);
    var wo := new WriteOptions(engine);
    var p := db.Put(wo, Foo, Bar);
    during := ReadDb(db, ro, Foo);
    var d := db.Delete(wo, Foo);
    after := ReadDb(db, ro, Foo);
    ok := p.Ok? && d.Ok?;
  }

  /** `db.multi_get(ro, keys)` read back as the test reads it; the results stay held. */
  method MultiRead(db: DB, ro: ReadOptions, keys: seq<Key>) returns (vs: seq<Option<Value>>)
    requires db.Live() && ro.engine == db.engine && ro.Live() && db.engine.fault == None
    modifies db.engine
    ensures |vs| == |keys| && forall i | 0 <= i < |keys| :: vs[i] == Get(old(db.Seen(ro)), keys[i])
    ensures db.Live() && ro.Live() && db.engine.disk == old(db.engine.disk) && db.engine.fault == None
    ensures forall h | h in old(db.engine.live) :: h in db.engine.live && db.engine.live[h] == old(db.engine.live)[h]
  {
    ghost var h0, view := db.engine.next, db.Seen(ro);
    var ret := db.MultiGet(ro, keys);
    vs := Observe(db.engine, ret, view, keys, h0);
  }

  /** `db.put(wo, key, value)` whose result the test discards. */
  method PutDb(db: DB, wo: WriteOptions, key: Key, value: Value)
    requires db.Live() && wo.engine == db.engine && wo.Live() && db.engine.fault == None
    modifies db.engine
    ensures db.Live() && wo.Live() && db.engine.fault == None && db.engine.live == old(db.engine.live)
    ensures db.engine.Current(db.inner) == old(db.engine.Current(db.inner))[key := value]
  {
    var _ := db.Put(wo, key, value);
  }

  /** `test_multi_get`: one answer per key, before and after both keys are written. */
  method DbMultiGet() returns (first: seq<Option<Value>>, second: seq<Option<Value>>)
    ensures first == [None, None] && second == [Some(Bar), Some(Baz)]
  {
    var engine, db := OpenNewDb();
    var ro := new ReadOptions(engine);
    first := MultiRead(db, ro, [Foo, Bar]);
    var wo := new WriteOptions(engine);
    PutDb(db, wo, Foo, Bar);
    PutDb(db, wo, Bar, Baz);
    second := MultiRead(db, ro, [Foo, Bar]);
  }

  /** What the two batches of `test_write_batch` leave behind. */
  lemma BatchEffects()
    ensures Apply(map[], [BatchOp.Put(Foo, Bar), BatchOp.Put(Bar, Baz)]) == map[Foo := Bar, Bar := Baz]
    ensures Apply(map[Foo := Bar, Bar := Baz], [BatchOp.Delete(Foo)]) == map[Bar := Baz]
  {
    var ops := [BatchOp.Put(Foo, Bar), BatchOp.Put(Bar, Baz)];
    assert ops[1..] == [BatchOp.Put(Bar, Baz)] && ops[1..][1..] == [];
    assert Apply(map[], ops) == Apply(map[Foo := Bar], ops[1..]) == Apply(map[Foo := Bar, Bar := Baz], []);
    assert [BatchOp.Delete(Foo)][1..] == [];
    assert Foo != Bar;
    assert map[Foo := Bar, Bar := Baz] - {Foo} == map[Bar := Baz];
  }

  /** `db.write(wo, wb)` followed by a `multi_get` of foo and bar through plain read options. */
  method WriteThenRead(db: DB, wo: WriteOptions, wb: WriteBatch, ro: ReadOptions) returns (ok: bool, vs: seq<Option<Value>>)
    requires db.Live() && wo.engine == db.engine && wo.Live() && wb.engine == db.engine && wb.Live()
    requires ro.engine == db.engine && ro.Live() && db.engine.live[ro.inner].snapshot == Null
    requires db.engine.fault == None
    modifies db.engine
    ensures db.Live() && wo.Live() && wb.Live() && wb.Ops() == old(wb.Ops())
    ensures ro.Live() && db.engine.live[ro.inner].snapshot == Null && db.engine.fault == None
    ensures db.engine.Current(db.inner) == Apply(old(db.engine.Current(db.inner)), old(wb.Ops()))
    ensures ok && vs == [Get(db.engine.Current(db.inner), Foo), Get(db.engine.Current(db.inner), Bar)]
  {
    var w := db.Write(wo, wb);
    ok := w.Ok?;
    vs := MultiRead(db, ro, [Foo, Bar]);
  }

  /** A new batch holding put(foo, bar) and put(bar, baz), counted before and after. */
  method FillBatch(engine: Engine) returns (wb: WriteBatch, counts: seq<int>)
    requires engine.Inv()
    modifies engine
    ensures engine.Inv() && fresh(wb) && wb.engine == engine && wb.Live()
    ensures wb.Ops() == [BatchOp.Put(Foo, Bar), BatchOp.Put(Bar, Baz)] && counts == [0, 2]
    ensures engine.disk == old(engine.disk) && engine.fault == old(engine.fault)
    ensures forall h | h in old(engine.live) :: h in engine.live && engine.live[h] == old(engine.live)[h]
  {
    wb := new WriteBatch(engine);
    var c0 := wb.Count();
    wb.Put(Foo, Bar);
    wb.Put(Bar, Baz);
    var c1 := wb.Count();
    counts := [c0, c1];
  }

  /** The first half of `test_write_batch`: two puts batched, written and read back. */
  method FirstBatch() returns (db: DB, wo: WriteOptions, wb: WriteBatch, ro: ReadOptions,
                               counts: seq<int>, ok: bool, vs: seq<Option<Value>>)
    ensures fresh(db.engine) && db.Live() && db.engine.fault == None
    ensures wo.engine == db.engine && wo.Live() && wb.engine == db.engine && wb.Live()
    ensures ro.engine == db.engine && ro.Live() && db.engine.live[ro.inner].snapshot == Null
    ensures db.engine.Current(db.inner) == map[Foo := Bar, Bar := Baz]
    ensures counts == [0, 2] && ok && vs == [Some(Bar), Some(Baz)]
  {
    db, wo, wb, ro, counts := PrepareBatch();
    BatchEffects();
    ok, vs := WriteThenRead(db, wo, wb, ro);
  }

  /** A new database, the filled batch and the option handles `test_write_batch` uses. */
  method PrepareBatch() returns (db: DB, wo: WriteOptions, wb: WriteBatch, ro: ReadOptions, counts: seq<int>)
    ensures fresh(db.engine) && db.Live() && db.engine.fault == None
    ensures wo.engine == db.engine && wo.Live() && wb.engine == db.engine && wb.Live()
    ensures ro.engine == db.engine && ro.Live() && db.engine.live[ro.inner].snapshot == Null
    ensures db.engine.Current(db.inner) == map[]
    ensures wb.Ops() == [BatchOp.Put(Foo, Bar), BatchOp.Put(Bar, Baz)] && counts == [0, 2]
  {
    var engine;
    engine, db := OpenNewDb();
    wb, counts := FillBatch(engine);
    wo := new WriteOptions(engine);
    ro := new ReadOptions(engine);
  }

  /** The second half: the cleared batch, reused for one delete. */
  method SecondBatch(db: DB, wo: WriteOptions, wb: WriteBatch, ro: ReadOptions) returns (count: int, ok: bool, vs: seq<Option<Value>>)
    requires db.Live() && db.engine.fault == None
    requires wo.engine == db.engine && wo.Live() && wb.engine == db.engine && wb.Live()
    requires ro.engine == db.engine && ro.Live() && db.engine.live[ro.inner].snapshot == Null
    requires db.engine.Current(db.inner) == map[Foo := Bar, Bar := Baz]
    modifies db.engine
    ensures count == 0 && ok && vs == [None, Some(Baz)]
  {
    wb.Clear();
    count := wb.Count();
    wb.Delete(Foo);
    BatchEffects();
    ok, vs := WriteThenRead(db, wo, wb, ro);
  }

  /** `test_write_batch` of the plain database: a batch applies in order and can be cleared and reused. */
  method DbWriteBatch() returns (counts: seq<int>, ok: bool, first: seq<Option<Value>>, second: seq<Option<Value>>)
    ensures counts == [0, 2, 0] && ok
    ensures first == [Some(Bar), Some(Baz)] && second == [None, Some(Baz)]
  {
    var db, wo, wb, ro, c01, ok1, vs1 := FirstBatch();
    var c2, ok2, vs2 := SecondBatch(db, wo, wb, ro);
    counts, ok, first, second := c01 + [c2], ok1 && ok2, vs1, vs2;
  }

  /** The first half of `test_snapshot`: a snapshot of the empty database, then a put. */
  method SnapshotThenPut() returns (engine: Engine, db: DB, sp: Snapshot)
    ensures fresh(engine) && db.engine == engine && db.Live() && engine.fault == None
    ensures sp.Owned? && sp.Live(engine) && engine.live[sp.inner].view == map[]
    ensures engine.Current(db.inner) == map[Foo := Bar]
  {
    engine, db := OpenNewDb();
    sp := db.CreateSnapshot();
    var wo := new WriteOptions(engine);
    var _ := db.Put(wo, Foo, Bar);
  }

  /** `ro.set_snapshot(s)` followed by `db.get(ro, key)`: what the read sees through `s`. */
  method ReadWith(db: DB, ro: ReadOptions, s: Snapshot, key: Key) returns (v: Option<Value>)
    requires db.Live() && ro.engine == db.engine && ro.Live() && db.engine.fault == None && s.Live(db.engine)
    modifies db.engine
    ensures v == Get(if s.NullSnapshot? then old(db.engine.Current(db.inner)) else old(db.engine.live[s.inner].view), key)
    ensures db.engine.fault == None && db.engine.disk == old(db.engine.disk) && db.Live() && ro.Live() && s.Live(db.engine)
    ensures db.engine.live.Keys == old(db.engine.live).Keys
    ensures forall h | h in old(db.engine.live) && h != ro.inner :: db.engine.live[h] == old(db.engine.live)[h]
  {
    ro.SetSnapshot(s);
    v := ReadDb(db, ro, key);
  }

  /** `test_snapshot`: a read through the snapshot misses a later write; the null snapshot sees it. */
  method DbSnapshot() returns (seen: seq<Option<Value>>)
    ensures seen == [Some(Bar), None, Some(Bar)]
  {
    var engine, db, sp := SnapshotThenPut();
    var ro := new ReadOptions(engine);
    var v1 := ReadDb(db, ro, Foo);
    var v2 := ReadWith(db, ro, sp, Foo);
    var v3 := ReadWith(db, ro, NullSnapshot, Foo);
    seen := [v1, v2, v3];
  }

  const TwoKeys: Store := map[Foo1 := Bar1, Foo2 := Bar2]

  /** The iterator `test_iterator` opens after writing foo1 and foo2. */
  method TwoKeyIterator() returns (it: Iterator)
    ensures fresh(it.engine) && it.Live() && it.Contents() == TwoKeys && it.Cursor() == None
  {
    var engine, db := OpenNewDb();
    var wo := new WriteOptions(engine);
    var _ := db.Put(wo, Foo1, Bar1);
    var _ := db.Put(wo, Foo2, Bar2);
    var ro := new ReadOptions(engine);
    it := db.CreateIterator(ro);
  }

  /** seek_to_first, then next twice: both entries in ascending order, then the end. */
  method WalkForward(it: Iterator) returns (valid: seq<bool>, keys: seq<Key>, values: seq<Value>)
    requires it.Live() && it.Contents() == TwoKeys
    modifies it.engine
    ensures it.Live() && it.Contents() == TwoKeys
    ensures valid == [true, true, false] && keys == [Foo1, Foo2] && values == [Bar1, Bar2]
  {
    TwoKeyWalk(TwoKeys);
    it.SeekToFirst();
    var v1 := it.Valid();
    var k1 := it.Key();
    var x1 := it.Value();
    it.Next();
    var v2 := it.Valid();
    var k2 := it.Key();
    var x2 := it.Value();
    it.Next();
    var v3 := it.Valid();
    valid, keys, values := [v1, v2, v3], [k1.bytes, k2.bytes], [x1.bytes, x2.bytes];
  }

  /** seek_to_last, then prev twice: both entries in descending order, then the end. */
  method WalkBackward(it: Iterator) returns (valid: seq<bool>, keys: seq<Key>, values: seq<Value>)
    requires it.Live() && it.Contents() == TwoKeys
    modifies it.engine
    ensures it.Live() && it.Contents() == TwoKeys
    ensures valid == [true, true, false] && keys == [Foo2, Foo1] && values == [Bar2, Bar1]
  {
    TwoKeyWalk(TwoKeys);
    it.SeekToLast();
    var v1 := it.Valid();
    var k1 := it.Key();
    var x1 := it.Value();
    it.Prev();
    var v2 := it.Valid();
    var k2 := it.Key();
    var x2 := it.Value();
    it.Prev();
    var v3 := it.Valid();
    valid, keys, values := [v1, v2, v3], [k1.bytes, k2.bytes], [x1.bytes, x2.bytes];
  }

  /** seek past the last key finds nothing; seek_for_prev from there finds the last key. */
  method SeekBeyond(it: Iterator) returns (valid: seq<bool>)
    requires it.Live() && it.Contents() == TwoKeys
    modifies it.engine
    ensures valid == [false, true]
  {
    TwoKeyWalk(TwoKeys);
    it.Seek(Foo3);
    var v1 := it.Valid();
    it.SeekForPrev(Foo3);
    var v2 := it.Valid();
    valid := [v1, v2];
  }

  /** `test_iterator` of the plain database. */
  method IteratorWalk() returns (valid: seq<bool>, keys: seq<Key>, values: seq<Value>)
    ensures valid == [false, true, true, false, true, true, false, false, true]
    ensures keys == [Foo1, Foo2, Foo2, Foo1]
    ensures values == [Bar1, Bar2, Bar2, Bar1]
  {
    var it := TwoKeyIterator();
    valid, keys, values := WalkAll(it);
  }

  /** The whole walk of `test_iterator` over an unpositioned cursor on foo1 and foo2. */
  method WalkAll(it: Iterator) returns (valid: seq<bool>, keys: seq<Key>, values: seq<Value>)
    requires it.Live() && it.Contents() == TwoKeys && it.Cursor() == None
    modifies it.engine
    ensures valid == [false, true, true, false, true, true, false, false, true]
    ensures keys == [Foo1, Foo2, Foo2, Foo1]
    ensures values == [Bar1, Bar2, Bar2, Bar1]
  {
    var v0 := it.Valid();
    var vf, kf, xf := WalkForward(it);
    var vb, kb, xb := WalkBackward(it);
    var vs := SeekBeyond(it);
    valid, keys, values := [v0] + vf + vb + vs, kf + kb, xf + xb;
  }
}
