/**
 * Option handles: database options with their `create_if_missing` and
 * `error_if_exists` switches, read options that can be pinned to a
 * snapshot, and write and flush options. Each owns one engine handle made
 * by its create call and destroyed once by its destroy call.
 */
module Opts {
  import opened Common
  import opened Native
  import opened Snapshots
  import Lib

  class Options {
    const engine: Engine
    const inner: Handle

    ghost predicate Live()
      reads engine
    {
      engine.Inv() && engine.IsOptions(inner)
    }

    /** `Options::new`, from `define!`: the engine defaults, both switches off. */
    constructor (engine: Engine)
      requires engine.Inv()
      modifies engine
      ensures this.engine == engine && Live()
      ensures engine.Fresh(inner, DbOptions(false, false))
    {
      var h := Lib.DefineNew(engine, OptionsKind);
      this.engine, inner := engine, h;
    }

    method SetCreateIfMissing(create: bool)
      requires Live()
      modifies engine
      ensures Live() && engine.Set(inner, old(engine.live[inner]).(createIfMissing := create))
    {
      engine.OptionsSetCreateIfMissing(inner, create);
    }

    /** `get_create_if_missing`: reads the switch back without changing anything. */
    method GetCreateIfMissing() returns (create: bool)
      requires Live()
      ensures create == engine.live[inner].createIfMissing
    {
      create := engine.OptionsGetCreateIfMissing(inner);
    }

    method SetErrorIfExists(error: bool)
      requires Live()
      modifies engine
      ensures Live() && engine.Set(inner, old(engine.live[inner]).(errorIfExists := error))
    {
      engine.OptionsSetErrorIfExists(inner, error);
    }

    /** `get_error_if_exists`: reads the switch back without changing anything. */
    method GetErrorIfExists() returns (error: bool)
      requires Live()
      ensures error == engine.live[inner].errorIfExists
    {
      error := engine.OptionsGetErrorIfExists(inner);
    }

    /** `Clone`: a distinct handle made by `create_copy`, holding the same settings. */
    method Clone() returns (c: Options)
      requires Live()
      modifies engine
      ensures fresh(c) && c.engine == engine && c.Live() && c.inner != inner
      ensures engine.Fresh(c.inner, old(engine.live[inner]))
    {
      var h := engine.OptionsCopy(inner);
      c := new Options.Wrap(engine, h);
    }

    /** Wraps a handle just made by `create_copy`. */
    constructor Wrap(engine: Engine, h: Handle)
      ensures this.engine == engine && inner == h
    {
      this.engine, inner := engine, h;
    }

    method Drop()
      requires Live()
      modifies engine
      ensures engine.Inv() && engine.Gone(inner)
    {
      Lib.DefineDrop(engine, inner, OptionsKind);
    }
  }

  class ReadOptions {
    const engine: Engine
    const inner: Handle

    ghost predicate Live()
      reads engine
    {
      engine.Inv() && engine.IsReadOpts(inner)
    }

    /** `ReadOptions::new`: one handle, reading the current state. */
    constructor (engine: Engine)
      requires engine.Inv()
      modifies engine
      ensures this.engine == engine && Live()
      ensures engine.Fresh(inner, ReadOpts(Null))
    {
      var h := Lib.DefineNew(engine, ReadOptionsKind);
      this.engine, inner := engine, h;
    }

    /**
     * `set_snapshot`: the snapshot slot becomes the snapshot's marker, or null for
     * the null snapshot. The previous pointer is overwritten; nothing is
     * allocated and no snapshot is released.
     */
    method SetSnapshot(s: Snapshot)
      requires Live() && s.Live(engine)
      modifies engine
      ensures Live()
      ensures engine.Set(inner, ReadOpts(if s.AsRef().Some? then At(s.AsRef().value) else Null))
    {
      var p := match s.AsRef() case Some(m) => At(m) case None => Null;
      engine.ReadOptionsSetSnapshot(inner, p);
    }

    /** `Drop`: `rocksdb_readoptions_destroy`, once. */
    method Drop()
      requires Live()
      modifies engine
      ensures engine.Inv() && engine.Gone(inner)
    {
      Lib.DefineDrop(engine, inner, ReadOptionsKind);
    }
  }

  class WriteOptions {
    const engine: Engine
    const inner: Handle

    ghost predicate Live()
      reads engine
    {
      engine.Inv() && inner in engine.live && engine.live[inner].WriteOpts?
    }

    constructor (engine: Engine)
      requires engine.Inv()
      modifies engine
      ensures this.engine == engine && Live()
      ensures engine.Fresh(inner, WriteOpts)
    {
      var h := Lib.DefineNew(engine, WriteOptionsKind);
      this.engine, inner := engine, h;
    }

    method Drop()
      requires Live()
      modifies engine
      ensures engine.Inv() && engine.Gone(inner)
    {
      Lib.DefineDrop(engine, inner, WriteOptionsKind);
    }
  }

  class FlushOptions {
    const engine: Engine
    const inner: Handle

    ghost predicate Live()
      reads engine
    {
      engine.Inv() && inner in engine.live && engine.live[inner].FlushOpts?
    }

    constructor (engine: Engine)
      requires engine.Inv()
      modifies engine
      ensures this.engine == engine && Live()
      ensures engine.Fresh(inner, FlushOpts)
    {
      var h := Lib.DefineNew(engine, FlushOptionsKind);
      this.engine, inner := engine, h;
    }

    method Drop()
      requires Live()
      modifies engine
      ensures engine.Inv() && engine.Gone(inner)
    {
      Lib.DefineDrop(engine, inner, FlushOptionsKind);
    }
  }
}
