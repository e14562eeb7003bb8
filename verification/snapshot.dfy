/**
 * The three kinds of snapshot a read can be pinned to. An owned snapshot
 * was taken from a database, keeps that database borrowed, and goes back
 * through that database's release call; a borrowed one was handed out by a
 * transaction and goes back to the allocator; the null snapshot stands for
 * "read the current state" and owns nothing.
 */
module Snapshots {
  import opened Common
  import opened Native
  import Lib

  datatype Snapshot =
    | Owned(inner: Handle, db: Handle, transactional: bool)
    | Borrowed(inner: Handle)
    | NullSnapshot
  {
    /** `Snapshot::as_ref`: the marker for owned and borrowed snapshots, none for the null one. */
    function AsRef(): (r: Option<Handle>)
      ensures r.None? <==> NullSnapshot?
      ensures r.Some? ==> r.value == inner
    {
      match this
      case Owned(inner, _, _) => Some(inner)
      case Borrowed(inner) => Some(inner)
      case NullSnapshot => None
    }

    /** The engine still holds this snapshot's marker, owned by whoever must give it back. */
    ghost predicate Live(engine: Engine)
      reads engine
    {
      match this
      case Owned(inner, db, transactional) =>
        engine.IsSnapshot(inner) && engine.live[inner].owner == ByDatabase(db) &&
        db in engine.live && engine.live[db].Database? && engine.live[db].transactional == transactional
      case Borrowed(inner) => engine.IsSnapshot(inner) && engine.live[inner].owner.ByAllocator?
      case NullSnapshot => true
    }
  }

  /** `impl ReleaseSnapshot for DB`: `rocksdb_release_snapshot` on the snapshot's own database. */
  method ReleaseThroughDB(engine: Engine, db: Handle, s: Handle)
    requires engine.Inv() && engine.IsSnapshot(s) && engine.live[s].owner == ByDatabase(db)
    requires !engine.live[db].transactional && engine.NotBorrowed(s)
    modifies engine
    ensures engine.Inv() && engine.Gone(s)
  {
    engine.ReleaseSnapshot(db, s, false);
  }

  /** `impl ReleaseSnapshot for TransactionDB`: `rocksdb_transactiondb_release_snapshot` on its database. */
  method ReleaseThroughTransactionDB(engine: Engine, db: Handle, s: Handle)
    requires engine.Inv() && engine.IsSnapshot(s) && engine.live[s].owner == ByDatabase(db)
    requires engine.live[db].transactional && engine.NotBorrowed(s)
    modifies engine
    ensures engine.Inv() && engine.Gone(s)
  {
    engine.ReleaseSnapshot(db, s, true);
  }

  /**
   * Dropping a snapshot: an owned one is released once through the database
   * it came from, a borrowed one is freed once through the allocator, and
   * the null one releases nothing.
   */
  method Drop(engine: Engine, s: Snapshot)
    requires engine.Inv() && s.Live(engine)
    requires s.AsRef().Some? ==> engine.NotBorrowed(s.inner)
    modifies engine
    ensures engine.Inv()
    ensures s.NullSnapshot? ==> unchanged(engine)
    ensures !s.NullSnapshot? ==> engine.Gone(s.inner)
  {
    match s
    case Owned(inner, db, transactional) =>
      if transactional {
        ReleaseThroughTransactionDB(engine, db, inner);
      } else {
        ReleaseThroughDB(engine, db, inner);
      }
    case Borrowed(inner) =>
      Lib.Free(engine, inner);
    case NullSnapshot =>
  }
}
