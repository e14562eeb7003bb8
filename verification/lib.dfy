/**
 * The crate's shared plumbing: the engine allocator's `free`, and the body
 * that the `define!` macro gives every wrapper around a create/destroy pair.
 */
module Lib {
  import opened Common
  import opened Native

  /** `free`: memory the engine handed out goes back through `rocksdb_free`, and only there. */
  method Free(engine: Engine, h: Handle)
    requires engine.Inv() && h in engine.live && engine.live[h].IsAllocation() && engine.NotBorrowed(h)
    modifies engine
    ensures engine.Inv() && engine.Gone(h)
  {
    engine.Free(h);
  }

  /** `define!`'s `new()`: exactly one handle, made by the paired create call. */
  method DefineNew(engine: Engine, kind: ScopedKind) returns (h: Handle)
    requires engine.Inv()
    modifies engine
    ensures engine.Inv() && engine.Fresh(h, Initial(kind))
  {
    h := engine.Create(kind);
  }

  /**
   * `define!`'s `drop()`: the paired destroy call, once. None of these
   * resources is ever pointed at by another native object.
   */
  method DefineDrop(engine: Engine, h: Handle, kind: ScopedKind)
    requires engine.Inv() && h in engine.live && OfKind(engine.live[h], kind)
    modifies engine
    ensures engine.Inv() && engine.Gone(h)
  {
    engine.Unreferenced(h);
    engine.Destroy(h, kind);
  }
}

/**
 * The `ffi!` macro: a native call that reports failure through an error
 * out-parameter. The slot starts out null; if the engine left it null the
 * call's return value passes through untouched, otherwise the enclosing
 * function returns the converted error at once and the return value is
 * dropped.
 */
module Ffi {
  import opened Common
  import opened Native
  import opened Errors

  /** What the macro does once the native call has returned `ret` and left `errptr`. */
  method Check<T>(engine: Engine, ret: T, errptr: Ptr) returns (r: Result<T>)
    requires engine.Inv()
    requires errptr.At? ==> errptr.h in engine.live && engine.live[errptr.h].Str?
    modifies engine
    ensures engine.Inv()
    ensures errptr.Null? ==> r == Ok(ret) && unchanged(engine)
    ensures errptr.At? ==> r == Err(Error(old(engine.live[errptr.h].msg))) && engine.Gone(errptr.h)
  {
    if errptr.Null? {
      r := Ok(ret);
    } else {
      var e := NewError(engine, errptr);
      r := Err(e);
    }
  }
}
