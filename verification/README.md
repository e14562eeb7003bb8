# A model of the `rocksdb` safety wrapper

The `rocksdb` crate is a thin Rust layer over the RocksDB C API. Almost every
method is a single foreign call. The crate's own logic is small but easy to get
wrong:

- the `ffi!` macro turns the C error out-parameter into a `Result` and
  returns early;
- `Error::new` copies the engine's message and frees the engine string once;
- every native handle has one owner, which creates it once and destroys,
  closes, releases or frees it once, and never after its borrowers are gone:
  the `define!` types, `DB`, `TransactionDB`, `Iterator`, `Bytes` and the
  snapshots;
- null value pointers become `Ok(None)`, and `multi_get` builds one result
  per key;
- `commit`/`rollback` consume the transaction. They hand back either a token
  that `begin` reuses without a destroy, or the live transaction with its
  error;
- the three snapshot kinds release through different routes;
- `Debug` renders byte views with ASCII `escape_default`.

This Dafny project models that logic, module by module, in the crate's own
form:

- Wrapper types that own a native handle are classes. Each has a `const
  engine` and a `const inner` handle, and its methods carry `modifies engine`.
- Plain values are datatypes: `Error`, `Result`, `Slice`, `Snapshot`,
  `OldTransaction`, `TransactionError`.

The C library is not part of the repository. It is replaced by a stand-in,
the class `Native.Engine`:

- a handle table `live` and a counter `next`, so handles are never reused;
- a ghost record `destroyed` of every handle given back, plus an invariant that
  no handle is given back twice or used afterwards;
- `disk`, the key-value contents of each database path;
- an optional environment `fault`. While it is set, every fallible call fills
  its error slot with that message, so the wrapper's error paths are reachable.

The stand-in's destroy, close, release and free calls require the handle to be
live, and no live object may still point at it (`NotBorrowed`). That is how the
model states the borrows Rust's lifetimes enforce. Reads, writes, snapshots,
transactions and iterators are reduced to maps under the bytewise key order
(`Keys`). The stand-in gives a defined result to some calls the engine leaves
undefined; "## Left out" lists them. Write batches and transactions stage
an ordered list of puts and deletes (`Stores`). The engine stand-in has no rows
below because it models no code of this repository. The wrapper members that
call it do.

The modules `Scenarios` and `TxnScenarios` replay the repository's unit tests
against the model: every test of `src/db.rs`, `src/options.rs`,
`src/transaction.rs` and `src/transaction_db.rs`. `TxnScenarios.CommitUnderFault`
adds one error path that no test reaches. Each test becomes a method with no `modifies` clause. It
builds a fresh engine, makes the same calls, and returns what the test observes.
Its postcondition is what the test asserts.

## Model

| member | source | states |
|---|---|---|
| `Ffi.Check` | src/lib.rs:12-22 | A null error slot passes the native return value through with the engine untouched. A non-null slot yields `Err` carrying the engine's message; the value is discarded and the string is freed once. |
| `Lib.DefineNew` | src/lib.rs:30-36 | `new()` acquires exactly one fresh handle, holding the paired create call's initial object; nothing else changes. |
| `Lib.DefineDrop` | src/lib.rs:38-42 | `drop()` destroys the handle through the paired destroy call, exactly once, and nothing else changes. |
| `Lib.Free` | src/lib.rs:60-62 | `free` gives an engine allocation back exactly once; every other handle and the disk are unchanged. |
| `Errors.NewError` | src/error.rs:14-19 | Needs a non-null slot. The message is copied verbatim into the `Error`, and then the engine string is freed exactly once. |
| `ByteViews.Escape` | src/bytes.rs:73 | One byte's ASCII `escape_default` is 1 to 4 printable characters. It is a single character exactly when the byte is printable and is not a backslash or a quote. |
| `ByteViews.Quoted` | src/bytes.rs:71-77 | The Debug text starts and ends with a double quote. |
| `ByteViews.UnescapeEscapeAll` | src/bytes.rs:73-75 | The escaped bytes read back to exactly the input, in order, so rendering loses nothing. |
| `ByteViews.EscapeAllPrintable` | src/bytes.rs:72-76 | Between the quotes every character is printable ASCII, and every `"` is preceded by a backslash, so no bare quote ends the text early. |
| `ByteViews.QuotedReadsBack` | src/bytes.rs:71-77 | The text between the outer quotes determines the bytes. |
| `ByteViews.FormatSlice` | src/bytes.rs:71-77 | The byte-by-byte writing loop produces exactly `Quoted(s)`. |
| `ByteViews.Bytes.constructor` | src/bytes.rs:15-18 | `Bytes::new` takes a non-null pointer and a length, and stores both. |
| `ByteViews.Bytes.AsRef` | src/bytes.rs:21-25 | `as_ref` yields exactly `len` bytes, a prefix of the engine buffer. |
| `ByteViews.Bytes.Debug` | src/bytes.rs:33-37 | The Debug text of `Bytes` is `Quoted` of its contents, the same text as a `Slice` with equal contents. |
| `ByteViews.Bytes.Drop` | src/bytes.rs:39-43 | Dropping `Bytes` frees its buffer exactly once; nothing else changes. |
| `ByteViews.Own` | src/db.rs:48-52 | A null value pointer maps to `None`; a non-null one maps to a fresh `Bytes` of that pointer and length. |
| `ByteViews.Slice.Debug` | src/bytes.rs:65-69 | The Debug text of a `Slice` is `Quoted` of its bytes. A slice has no drop, so it never frees. |
| `Snapshots.Snapshot.AsRef` | src/snapshot.rs:20-72 | `as_ref` is `None` exactly for the null snapshot. For owned and borrowed snapshots it is the snapshot's own marker. |
| `Snapshots.ReleaseThroughDB` | src/db.rs:147-151 | A plain database releases a snapshot it took through `rocksdb_release_snapshot`, once. |
| `Snapshots.ReleaseThroughTransactionDB` | src/transaction_db.rs:112-116 | A transactional database releases its snapshot through its own release call, once. |
| `Snapshots.Drop` | src/snapshot.rs:26-60 | An owned snapshot goes back once through the database it came from, and a borrowed one once through the allocator. The null snapshot releases nothing and leaves the engine unchanged. |
| `Opts.Options.constructor` | src/options.rs:9-14 | `Options::new` acquires one fresh options handle, both flags false. |
| `Opts.Options.SetCreateIfMissing` | src/options.rs:17-19 | Overwrites only the create_if_missing flag of this handle. |
| `Opts.Options.GetCreateIfMissing` | src/options.rs:21-23 | Returns the flag as last set, changing nothing. |
| `Opts.Options.SetErrorIfExists` | src/options.rs:25-27 | Overwrites only the error_if_exists flag of this handle. |
| `Opts.Options.GetErrorIfExists` | src/options.rs:29-31 | Returns the flag as last set, changing nothing. |
| `Opts.Options.Clone` | src/options.rs:34-40 | `clone` makes a distinct fresh handle with the same settings; the original handle is not shared. |
| `Opts.Options.Wrap` | src/options.rs:36-38 | Wraps the handle `create_copy` returned. |
| `Opts.Options.Drop` | src/options.rs:9-14 | Destroys the options handle once. |
| `Opts.ReadOptions.constructor` | src/options.rs:48-53 | Acquires one fresh read-options handle with no snapshot attached. |
| `Opts.ReadOptions.SetSnapshot` | src/options.rs:55-61 | Stores the snapshot's marker when `as_ref` is `Some`, and null otherwise. The previous attachment is overwritten; nothing is allocated or released. |
| `Opts.ReadOptions.Drop` | src/options.rs:74-78 | Destroys the read-options handle once. |
| `Opts.WriteOptions.constructor` | src/options.rs:84-89 | Acquires one fresh write-options handle. |
| `Opts.WriteOptions.Drop` | src/options.rs:84-89 | Destroys it once. |
| `Opts.FlushOptions.constructor` | src/options.rs:91-96 | Acquires one fresh flush-options handle. |
| `Opts.FlushOptions.Drop` | src/options.rs:91-96 | Destroys it once. |
| `WriteBatches.WriteBatch.constructor` | src/write_batch.rs:5-10 | A new batch stages nothing. |
| `WriteBatches.WriteBatch.Clear` | src/write_batch.rs:13-15 | `clear` empties the staged list and cannot fail. |
| `WriteBatches.WriteBatch.Count` | src/write_batch.rs:17-19 | `count` is the number of staged operations and leaves the batch unchanged. |
| `WriteBatches.WriteBatch.Put` | src/write_batch.rs:21-33 | `put` appends one put, after all earlier operations, and cannot fail. |
| `WriteBatches.WriteBatch.Delete` | src/write_batch.rs:35-38 | `delete` appends one delete, after all earlier operations, and cannot fail. |
| `WriteBatches.WriteBatch.Drop` | src/write_batch.rs:5-10 | Destroys the batch handle once. |
| `Stores.ApplyAppend` | src/write_batch.rs:21-38 | An appended operation applies after every operation staged before it. |
| `Stores.ApplyIsLastWrite` | src/db.rs:122-124 | Writing a batch agrees, key by key, with the reference reading: the last staged operation on a key decides its value. |
| `Stores.ApplyFrame` | src/db.rs:122-124 | A key that no staged operation mentions keeps its value. |
| `Stores.LastWriteUntouched` | src/db.rs:122-124 | Under the reference reading, a key no operation mentions keeps its earlier value. |
| `Keys.LessIrreflexive` | src/iterator.rs:36-60 | The key order the cursor moves in is irreflexive. |
| `Keys.LessTransitive` | src/iterator.rs:36-60 | The key order is transitive. |
| `Keys.LessTotal` | src/iterator.rs:36-60 | Any two distinct keys are ordered one way or the other. |
| `Keys.LessAsymmetric` | src/iterator.rs:36-60 | The key order is asymmetric. |
| `Keys.LeastUnique` | src/iterator.rs:36-48 | Models the engine's bytewise comparator and cursor, which the cited wrapper line reaches through one foreign call. A set has at most one least key, so the target of `seek`/`seek_to_first` is well defined. |
| `Keys.GreatestUnique` | src/iterator.rs:41-52 | Models the engine's bytewise comparator and cursor, which the cited wrapper line reaches through one foreign call. A set has at most one greatest key, so the target of `seek_for_prev`/`seek_to_last` is well defined. |
| `Keys.Least` | src/iterator.rs:46-48 | Models the engine's bytewise comparator and cursor, which the cited wrapper line reaches through one foreign call. One pass over a non-empty key set finds its least key, where `seek_to_first` lands. |
| `Keys.Greatest` | src/iterator.rs:50-52 | Models the engine's bytewise comparator and cursor, which the cited wrapper line reaches through one foreign call. One pass over a non-empty key set finds its greatest key, where `seek_to_last` lands. |
| `Keys.LeastExists` | src/iterator.rs:46-48 | Models the engine's bytewise comparator and cursor, which the cited wrapper line reaches through one foreign call. Every non-empty finite key set has a least key. |
| `Keys.GreatestExists` | src/iterator.rs:50-52 | Models the engine's bytewise comparator and cursor, which the cited wrapper line reaches through one foreign call. Every non-empty finite key set has a greatest key. |
| `Keys.LeastOf` | src/iterator.rs:36-48 | Models the engine's bytewise comparator and cursor, which the cited wrapper line reaches through one foreign call. The cursor target is `None` exactly for an empty set, and otherwise its least key. |
| `Keys.GreatestOf` | src/iterator.rs:41-52 | Models the engine's bytewise comparator and cursor, which the cited wrapper line reaches through one foreign call. The cursor target is `None` exactly for an empty set, and otherwise its greatest key. |
| `Iterators.Iterator.constructor` | src/iterator.rs:15-20 | Wraps the iterator handle it is given. |
| `Iterators.Iterator.Valid` | src/iterator.rs:22-24 | `valid` holds exactly when the cursor is on a key, and it changes nothing. |
| `Iterators.Iterator.GetError` | src/iterator.rs:26-34 | `Some` exactly when the engine fills the error slot; it carries that message and the string is freed once. `None` leaves everything unchanged. The cursor never moves. |
| `Iterators.Iterator.Seek` | src/iterator.rs:36-39 | The cursor moves to the least key at or after `key`, or becomes invalid. The contents do not change. |
| `Iterators.Iterator.SeekForPrev` | src/iterator.rs:41-44 | The cursor moves to the greatest key at or before `key`, or becomes invalid. |
| `Iterators.Iterator.SeekToFirst` | src/iterator.rs:46-48 | The cursor moves to the least key, or becomes invalid when there are none. |
| `Iterators.Iterator.SeekToLast` | src/iterator.rs:50-52 | The cursor moves to the greatest key, or becomes invalid when there are none. |
| `Iterators.Iterator.Next` | src/iterator.rs:54-56 | The cursor moves to the next key after the current one, or becomes invalid at the end. |
| `Iterators.Iterator.Prev` | src/iterator.rs:58-60 | The cursor moves to the key before the current one, or becomes invalid at the start. |
| `Iterators.Iterator.Key` | src/iterator.rs:62-66 | Requires `valid()`. Returns a borrowed slice holding exactly the current key, and moves nothing. |
| `Iterators.Iterator.Value` | src/iterator.rs:68-72 | Requires `valid()`. Returns a borrowed slice holding exactly the value stored under the current key. |
| `Iterators.Iterator.Drop` | src/iterator.rs:79-83 | Destroys the iterator handle once. |
| `Iterators.NextThenPrev` | src/iterator.rs:54-60 | `next` followed by `prev` comes back to the same key. |
| `Iterators.PrevThenNext` | src/iterator.rs:54-60 | `prev` followed by `next` comes back to the same key. |
| `Iterators.NextIsSuccessor` | src/iterator.rs:54-56 | `next` moves strictly forward and skips no key. |
| `Iterators.SeekPresent` | src/iterator.rs:36-44 | Seeking a present key, in either direction, lands on that key. |
| `Iterators.SeekPastEnd` | src/iterator.rs:36-44 | Past the greatest key, `seek` finds nothing, while `seek_for_prev` lands on the greatest key. |
| `Databases.DB.Wrap` | src/db.rs:18-20 | Wraps the handle `rocksdb_open` returned. |
| `Databases.DB.Open` | src/db.rs:16-21 | `Ok` exactly when the engine reports no error, and then a fresh database handle on that path. Otherwise `Err` with the engine's message and no database. |
| `Databases.DB.Destroy` | src/db.rs:23-26 | Removes the database at `name`, or returns the engine's error with the disk unchanged. |
| `Databases.DB.Repair` | src/db.rs:28-32 | `Ok` leaves everything unchanged; an engine error surfaces as `Err`. |
| `Databases.DB.CreateIterator` | src/db.rs:34-36 | Returns a fresh, invalid cursor over what the read options see. It borrows the database. |
| `Databases.DB.Get` | src/db.rs:38-53 | An engine error surfaces as `Err`. An absent key gives `Ok(None)` with the engine unchanged. A present key gives `Ok(Some(bytes))` holding exactly its value in a fresh buffer. |
| `Databases.DB.MultiGet` | src/db.rs:55-102 | Exactly one result per key, in key order. Result `i` answers key `i` alone and owns the handle of slot `i`. A key with no value yields `Ok(None)` and leaves no handle behind; only slots with values add live handles. Under an error every slot is `Err` and every error string is freed once. |
| `Databases.Convert` | src/db.rs:86-101 | The result loop converts slot `i`: `Err` iff `errs[i]` is non-null, whatever `values_list[i]` holds. Otherwise it is `Ok(None)` or `Ok(Some(bytes))` of that value and size. |
| `Databases.DB.Put` | src/db.rs:104-120 | Sets the key to the value on disk, or surfaces the engine error with nothing written. |
| `Databases.DB.Write` | src/db.rs:122-124 | Applies the batch's operations to the database in order, all together, and leaves the batch as it was. |
| `Databases.DB.Delete` | src/db.rs:126-134 | Removes the key on disk, or surfaces the engine error. |
| `Databases.DB.Flush` | src/db.rs:136-138 | `Ok` with nothing visible changed, or the engine error. |
| `Databases.DB.CreateSnapshot` | src/db.rs:140-144 | Returns an owned snapshot of the current contents, tied to this database. |
| `Databases.DB.Drop` | src/db.rs:153-157 | Closes the database once, after every borrow of it has ended. |
| `Transactions.Transaction.constructor` | src/transaction.rs:17-22 | Wraps the handle `begin` returned. |
| `Transactions.Transaction.SetSavepoint` | src/transaction.rs:24-26 | Records the staged writes as a new savepoint. |
| `Transactions.Transaction.RollbackToSavepoint` | src/transaction.rs:28-30 | Restores the writes of the latest savepoint and pops it. With no savepoint, or under an engine error, returns `Err`. |
| `Transactions.Transaction.Commit` | src/transaction.rs:32-43 | Succeeds exactly when the engine reports no error. Success yields a token over this same live handle: the staged writes are on disk and the transaction is empty. Failure returns this live transaction with the error. |
| `Transactions.Transaction.Rollback` | src/transaction.rs:45-56 | The same shape as commit, with the staged writes dropped instead. |
| `Transactions.Transaction.GetSnapshot` | src/transaction.rs:58-65 | `None` exactly when the engine returns null. Otherwise a borrowed snapshot of the transaction's pinned view. |
| `Transactions.Transaction.Get` | src/transaction.rs:67-82 | Reads the staged writes over the database view. Absent gives `Ok(None)`, present gives `Ok(Some)` of its value, and an error gives `Err`. |
| `Transactions.Transaction.GetForUpdate` | src/transaction.rs:84-105 | Maps results like `get`. |
| `Transactions.Transaction.Put` | src/transaction.rs:107-117 | Stages one put on the transaction; the database is untouched. |
| `Transactions.Transaction.Delete` | src/transaction.rs:119-126 | Stages one delete on the transaction; the database is untouched. |
| `Transactions.Transaction.CreateIterator` | src/transaction.rs:128-132 | A fresh, invalid cursor over what the transaction sees. |
| `Transactions.Transaction.Drop` | src/transaction.rs:135-139 | Destroys the transaction handle once. |
| `Transactions.OldTransaction.IntoRaw` | src/transaction.rs:146-150 | Hands out the same handle without destroying it. |
| `Transactions.TransactionError.IntoError` | src/transaction.rs:164-168 | The conversion returns the carried error unchanged and destroys the transaction inside once, as dropping the rest of the value does. |
| `Transactions.OldTransaction.Drop` | src/transaction.rs:143 | An unused token destroys its transaction once. |
| `TransactionDBs.TransactionDB.Wrap` | src/transaction_db.rs:27 | Wraps the opened handle. |
| `TransactionDBs.TransactionDB.Open` | src/transaction_db.rs:16-28 | `Ok` with a fresh transactional database exactly when the engine reports no error. Otherwise `Err` and no database. |
| `TransactionDBs.TransactionDB.CreateSnapshot` | src/transaction_db.rs:30-34 | An owned snapshot of the current contents. It is released only through this database. |
| `TransactionDBs.TransactionDB.Get` | src/transaction_db.rs:36-51 | Null maps to `Ok(None)`, non-null to `Ok(Some(bytes))` of the value, and an error to `Err`. |
| `TransactionDBs.TransactionDB.Put` | src/transaction_db.rs:53-69 | Sets the key on disk, or surfaces the engine error. |
| `TransactionDBs.TransactionDB.Write` | src/transaction_db.rs:71-77 | Applies the batch in order. |
| `TransactionDBs.TransactionDB.Delete` | src/transaction_db.rs:79-87 | Removes the key on disk, or surfaces the engine error. |
| `TransactionDBs.TransactionDB.CreateIterator` | src/transaction_db.rs:89-93 | A fresh, invalid cursor over what the read options see. |
| `TransactionDBs.TransactionDB.Begin` | src/transaction_db.rs:95-109 | With a token, its handle is passed to the engine and reinitialised in place, with no destroy. Without one, null is passed and a fresh handle is begun. Either way the handle is wrapped in a new, empty `Transaction`. |
| `TransactionDBs.TransactionDB.Drop` | src/transaction_db.rs:118-122 | Closes the database once, after every borrow of it has ended. |
| `TransactionDBs.TransactionDBOptions.constructor` | src/transaction_db.rs:124-129 | Acquires one fresh handle. |
| `TransactionDBs.TransactionDBOptions.Drop` | src/transaction_db.rs:124-129 | Destroys it once. |
| `TransactionDBs.TransactionOptions.constructor` | src/transaction_db.rs:153-158 | Acquires one fresh handle, with set_snapshot off. |
| `TransactionDBs.TransactionOptions.SetSetSnapshot` | src/transaction_db.rs:161-163 | Overwrites only the set_snapshot flag. |
| `TransactionDBs.TransactionOptions.Drop` | src/transaction_db.rs:153-158 | Destroys it once. |
| `Scenarios.OptionsCreateIfMissing` | src/options.rs:142-154 | The getter returns false, then true. Opening a missing path fails until create_if_missing is set. |
| `Scenarios.OptionsErrorIfExists` | src/options.rs:157-170 | Reopening an existing path succeeds with error_if_exists false and fails with it true. |
| `Scenarios.DestroyThenOpen` | src/db.rs:179-190 | Open, reopen and destroy succeed. A later open without create_if_missing fails. |
| `Scenarios.DbGetPutDelete` | src/db.rs:200-213 | On a fresh database get is `None`, after a put it is the value, and after a delete it is `None` again. |
| `Scenarios.DbMultiGet` | src/db.rs:216-237 | Both keys are absent at first. After two puts each result holds its own key's value. |
| `Scenarios.DbWriteBatch` | src/db.rs:240-275 | The counts are 0, 2 and 0. After the written batch both keys are readable. After clear, delete and write, foo is absent and bar is unchanged. |
| `Scenarios.DbSnapshot` | src/db.rs:278-294 | A read through the earlier snapshot misses the put; plain and null-snapshot reads see it. |
| `Scenarios.IteratorWalk` | src/db.rs:297-348 | A fresh iterator is invalid. First/next gives foo1, foo2, then invalid; last/prev gives foo2, foo1, then invalid. `seek` past the end is invalid, while `seek_for_prev` is valid. |
| `TxnScenarios.NoCursorsUnborrowed` | src/transaction.rs:32 | With no iterator or snapshot alive, nothing borrows a transaction, so it can be moved into `commit`. |
| `TxnScenarios.TxnGetPutDelete` | src/transaction.rs:195-211 | A transaction reads its own staged put, then its own staged delete. |
| `TxnScenarios.TxnCommitVisibility` | src/transaction.rs:214-232 | The staged put is invisible to the database before commit and visible after it. |
| `Scenarios.DbOpen` | src/db.rs:169-176 | A new path opens with create_if_missing and error_if_exists both set. |
| `TxnScenarios.TxnDbOpen` | src/transaction_db.rs:202-210 | A new path opens as a transactional database with both switches set. |
| `TxnScenarios.TxnDbGetPutDelete` | src/transaction_db.rs:212-226 | On a fresh transactional database get is `None`, after a put it is the value, and after a delete it is `None` again. |
| `TxnScenarios.TxnDbWriteBatch` | src/transaction_db.rs:228-252 | The counts are 0, 2 and 0. After the written batch both keys are readable. After clear, delete and write, foo is absent and bar is unchanged. |
| `TxnScenarios.TxnDbIteratorWalk` | src/transaction_db.rs:273-325 | The same walk as on the plain database: first/next gives foo1, foo2, then invalid; last/prev gives foo2, foo1, then invalid; `seek` past the end is invalid, `seek_for_prev` valid. |
| `TxnScenarios.CommitErrorConverted` | src/transaction.rs:164-168 | Converting a failed commit into `Error` keeps the engine's message and destroys the transaction handle. |
| `TxnScenarios.CommitUnderFault` | src/transaction.rs:32-43 | Under an environment failure `commit` returns the error with the transaction. The staged put stays readable through it, the database does not see it, and the returned transaction can still be rolled back. |
| `TxnScenarios.TxnDbSnapshot` | src/transaction_db.rs:255-271 | On a transactional database, the snapshot misses a later put and the null snapshot sees it. |

## Left out

- The RocksDB engine behind every foreign call: storage, compaction,
  durability, locking, threads. `Native.Engine` stands in for it with a handle
  table, maps and a sorted cursor. Its error messages for a held lock, a
  missing path or an existing path are stand-ins for the engine's text.
  Environment failures are modelled only as the single `fault` message.
- `Send`/`Sync` impls: concurrency claims with no wrapper logic of their own.
- `Opts.Options.SetErrorIfExists`: `set_error_if_exists` takes `&self` while
  `set_create_if_missing` takes `&mut self`, and `Options` is `Sync`. So safe
  code can change the error_if_exists switch through a shared reference, from
  several threads or while another call borrows the options. The model does
  not distinguish `&` from `&mut` receivers or represent threads, so this gap in
  the exclusive-ownership rule for options is not captured.
- Tuning setters that are single foreign calls with no logic:
  - `TransactionDBOptions` setters and the `TransactionOptions` setters other
    than `set_set_snapshot`;
  - the iterate bounds on `ReadOptions`;
  - `FlushOptions::set_wait`.
- `Display`/`Debug` of `Error`, which delegate to the standard library's
  `CString` formatting. `TransactionError`'s formatting and `source` delegate
  the same way. `TransactionError::unwrap` is modelled as a projection with no
  contract.
- `Bytes::as_mut`: a mutable view of the same buffer, with no logic beyond
  `as_ref`.
- `Slice` is modelled by its bytes alone. Its pointer and the lifetime that
  ties it to the iterator are not represented.
- `CString::new(name).unwrap()` panics on a name with an interior NUL. The
  model makes a NUL-free name a precondition (`NoNul`) instead of modelling
  the panic.
- Moves are not enforced. Dafny does not stop a caller from using a
  `Transaction` after `commit` or an `OldTransaction` after `begin`; the
  model's `NotBorrowed` preconditions and the scenarios respect Rust's rules.
- Calls the engine leaves undefined get a defined result in the stand-in,
  although the wrapper exposes them as safe functions. A read whose options
  hold a snapshot of another database reads that snapshot (`Native.ReadView`).
  `next` and `prev` on an invalid cursor leave it invalid (`Native.Engine.Next`,
  `Native.Engine.Prev`). The model does not flag these calls as errors.
- `Iterator::new` is public and re-exported from the crate root, so safe code
  can wrap any raw pointer, and `Drop` will then destroy it. The model's
  `Iterators.Iterator.constructor` mirrors this and accepts any handle. Only its
  callers supply live iterator handles, so the hazard is not captured.
- `WriteBatches.WriteBatch.Count`: returns the mathematical count, not a C
  `int`, so overflow past 2^31 - 1 staged operations is not modelled.
- `Transactions.Transaction.GetForUpdate`: the row lock and the `exclusive`
  flag are not modelled; it reads like `get`.
- `Databases.DB.Flush`: the stand-in keeps no memtable, so a successful flush
  changes nothing visible.
- Write failures of the `Formatter` in `format_slice`: the model's
  `FormatSlice` builds the whole string, so the `?` early returns after a
  failed write are not represented.
- The `DBPath` test helper and its directory cleanup. Each scenario opens its
  databases on a fresh engine with an empty disk.
