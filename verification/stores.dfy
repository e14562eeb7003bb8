/**
 * The key-value contents the engine stand-in keeps per database, and the
 * ordered put/delete operations that write batches and transactions stage.
 */
module Stores {
  import opened Common

  type Store = map<Key, Value>

  /** One staged write: a put of a value or a delete of a key. */
  datatype BatchOp = Put(key: Key, value: Value) | Delete(key: Key)

  function Get(s: Store, k: Key): Option<Value>
  {
    if k in s then Some(s[k]) else None
  }

  function Step(s: Store, op: BatchOp): Store
  {
    match op
    case Put(k, v) => s[k := v]
    case Delete(k) => s - {k}
  }

  /** Applies staged operations in insertion order, the first one first. */
  function Apply(s: Store, ops: seq<BatchOp>): Store
    decreases |ops|
  {
    if ops == [] then s else Apply(Step(s, ops[0]), ops[1..])
  }

  /**
   * Reference reading of a key after `ops`: the last operation on `k`
   * decides; without one, the value before the operations stays.
   */
  function LastWrite(ops: seq<BatchOp>, k: Key, before: Option<Value>): Option<Value>
    decreases |ops|
  {
    if ops == [] then before
    else if ops[|ops| - 1].key == k then
      (match ops[|ops| - 1]
       case Put(_, v) => Some(v)
       case Delete(_) => None)
    else LastWrite(ops[..|ops| - 1], k, before)
  }

  /** Appending one operation applies it after all the earlier ones. */
  lemma {:induction false} ApplyAppend(s: Store, ops: seq<BatchOp>, op: BatchOp)
    ensures Apply(s, ops + [op]) == Step(Apply(s, ops), op)
    decreases |ops|
  {
    if ops == [] {
      assert [op][1..] == [];
    } else {
      assert (ops + [op])[1..] == ops[1..] + [op];
      ApplyAppend(Step(s, ops[0]), ops[1..], op);
    }
  }

  /** Applying staged operations agrees, key by key, with the last-write reading. */
  lemma {:induction false} ApplyIsLastWrite(s: Store, ops: seq<BatchOp>, k: Key)
    ensures Get(Apply(s, ops), k) == LastWrite(ops, k, Get(s, k))
    decreases |ops|
  {
    if ops != [] {
      var init := ops[..|ops| - 1];
      assert ops == init + [ops[|ops| - 1]];
      ApplyAppend(s, init, ops[|ops| - 1]);
      ApplyIsLastWrite(s, init, k);
    }
  }

  /** A key that no staged operation mentions keeps its value. */
  lemma {:induction false} ApplyFrame(s: Store, ops: seq<BatchOp>, k: Key)
    requires forall i | 0 <= i < |ops| :: ops[i].key != k
    ensures Get(Apply(s, ops), k) == Get(s, k)
    decreases |ops|
  {
    ApplyIsLastWrite(s, ops, k);
    LastWriteUntouched(ops, k, Get(s, k));
  }

  lemma {:induction false} LastWriteUntouched(ops: seq<BatchOp>, k: Key, before: Option<Value>)
    requires forall i | 0 <= i < |ops| :: ops[i].key != k
    ensures LastWrite(ops, k, before) == before
    decreases |ops|
  {
    if ops != [] {
      LastWriteUntouched(ops[..|ops| - 1], k, before);
    }
  }
}
