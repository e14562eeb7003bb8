/**
 * An iterator: a cursor over the keys of the view it was created on, in
 * bytewise order. Positioning calls move the cursor; `valid`, `key`,
 * `value` and `get_error` only read it.
 */
module Iterators {
  import opened Common
  import opened Keys
  import opened Stores
  import opened Native
  import opened Errors
  import opened ByteViews

  class Iterator {
    const engine: Engine
    const inner: Handle

    ghost predicate Live()
      reads engine
    {
      engine.Inv() && engine.IsIter(inner)
    }

    /** The contents the iterator walks over. */
    ghost function Contents(): Store
      reads engine
      requires Live()
    {
      engine.live[inner].view
    }

    /** The key under the cursor, or None when the cursor is not valid. */
    ghost function Cursor(): Option<Key>
      reads engine
      requires Live()
    {
      engine.live[inner].pos
    }

    /** `Iterator::new`: wraps the handle a create call returned. */
    constructor (engine: Engine, inner: Handle)
      ensures this.engine == engine && this.inner == inner
    {
      this.engine, this.inner := engine, inner;
    }

    method Valid() returns (b: bool)
      requires Live()
      ensures b <==> Cursor().Some?
    {
      b := engine.IterValid(inner);
    }

    /** `get_error`: Some exactly when the engine filled the error slot; the message is copied and freed. */
    method GetError() returns (e: Option<Error>)
      requires Live()
      modifies engine
      ensures Live() && Contents() == old(Contents()) && Cursor() == old(Cursor())
      ensures e.Some? <==> old(engine.fault).Some?
      ensures e.Some? ==> (
        e.value.message == old(engine.fault).value && engine.next == old(engine.next) + 1 &&
        engine.live == old(engine.live) && engine.destroyed == old(engine.destroyed) + multiset{old(engine.next)})
      ensures e.None? ==> unchanged(engine)
    {
      var errptr := engine.IterGetError(inner);
      if errptr.At? {
        var err := NewError(engine, errptr);
        e := Some(err);
      } else {
        e := None;
      }
    }

    /** `seek`: the first key at or after `key`. */
    method Seek(key: Key)
      requires Live()
      modifies engine
      ensures Live() && Contents() == old(Contents())
      ensures Cursor() == LeastOf(AtOrAfter(old(Contents()).Keys, key))
      ensures engine.Set(inner, old(engine.live[inner]).(pos := Cursor()))
    {
      engine.Seek(inner, key);
    }

    /** `seek_for_prev`: the last key at or before `key`. */
    method SeekForPrev(key: Key)
      requires Live()
      modifies engine
      ensures Live() && Contents() == old(Contents())
      ensures Cursor() == GreatestOf(AtOrBefore(old(Contents()).Keys, key))
      ensures engine.Set(inner, old(engine.live[inner]).(pos := Cursor()))
    {
      engine.SeekForPrev(inner, key);
    }

    method SeekToFirst()
      requires Live()
      modifies engine
      ensures Live() && Contents() == old(Contents())
      ensures Cursor() == LeastOf(old(Contents()).Keys)
      ensures engine.Set(inner, old(engine.live[inner]).(pos := Cursor()))
    {
      engine.SeekToFirst(inner);
    }

    method SeekToLast()
      requires Live()
      modifies engine
      ensures Live() && Contents() == old(Contents())
      ensures Cursor() == GreatestOf(old(Contents()).Keys)
      ensures engine.Set(inner, old(engine.live[inner]).(pos := Cursor()))
    {
      engine.SeekToLast(inner);
    }

    /** `next`: the next larger key; past the last key the cursor becomes invalid. */
    method Next()
      requires Live()
      modifies engine
      ensures Live() && Contents() == old(Contents())
      ensures Cursor() == NextPos(old(Contents()), old(Cursor()))
      ensures engine.Set(inner, old(engine.live[inner]).(pos := Cursor()))
    {
      engine.Next(inner);
    }

    /** `prev`: the next smaller key; before the first key the cursor becomes invalid. */
    method Prev()
      requires Live()
      modifies engine
      ensures Live() && Contents() == old(Contents())
      ensures Cursor() == PrevPos(old(Contents()), old(Cursor()))
      ensures engine.Set(inner, old(engine.live[inner]).(pos := Cursor()))
    {
      engine.Prev(inner);
    }

    /** `key`, for a valid cursor only: a borrowed view of the current key. */
    method Key() returns (s: Slice)
      requires Live() && Cursor().Some?
      ensures s.bytes == Cursor().value
    {
      s := Slice(engine.IterKey(inner));
    }

    /** `value`, for a valid cursor only: a borrowed view of the current key's value. */
    method Value() returns (s: Slice)
      requires Live() && Cursor().Some?
      ensures Cursor().value in Contents() && s.bytes == Contents()[Cursor().value]
    {
      s := Slice(engine.IterValue(inner));
    }

    /** `Drop`: `rocksdb_iter_destroy`, once; the source it borrowed is free again. */
    method Drop()
      requires Live()
      modifies engine
      ensures engine.Inv() && engine.Gone(inner)
    {
      engine.Unreferenced(inner);
      engine.IterDestroy(inner);
    }
  }

  // ----- the cursor's order ------------------------------------------------------

  /** `next` then `prev` comes back to the same key: the two moves are inverse on the keys. */
  lemma NextThenPrev(view: Store, k: Key)
    requires k in view && NextPos(view, Some(k)).Some?
    ensures PrevPos(view, NextPos(view, Some(k))) == Some(k)
  {
    var m := NextPos(view, Some(k)).value;
    assert IsLeast(m, After(view.Keys, k));
    var before := Before(view.Keys, m);
    assert k in before;
    forall x | x in before
      ensures x == k || Less(x, k)
    {
      LessTotal(x, k);
      if Less(k, x) {
        assert x in After(view.Keys, k);
        if x != m {
          LessAsymmetric(m, x);
        }
        LessIrreflexive(x);
      }
    }
    assert IsGreatest(k, before);
    GreatestUnique(k, GreatestOf(before).value, before);
  }

  /** `prev` then `next` comes back to the same key. */
  lemma PrevThenNext(view: Store, k: Key)
    requires k in view && PrevPos(view, Some(k)).Some?
    ensures NextPos(view, PrevPos(view, Some(k))) == Some(k)
  {
    var m := PrevPos(view, Some(k)).value;
    assert IsGreatest(m, Before(view.Keys, k));
    var after := After(view.Keys, m);
    assert k in after;
    forall x | x in after
      ensures x == k || Less(k, x)
    {
      LessTotal(x, k);
      if Less(x, k) {
        assert x in Before(view.Keys, k);
        if x != m {
          LessAsymmetric(x, m);
        }
        LessIrreflexive(x);
      }
    }
    assert IsLeast(k, after);
    LeastUnique(k, LeastOf(after).value, after);
  }

  /** `next` moves strictly forward and skips no key. */
  lemma NextIsSuccessor(view: Store, k: Key)
    requires NextPos(view, Some(k)).Some?
    ensures var m := NextPos(view, Some(k)).value;
      m in view && Less(k, m) && forall x | x in view && Less(k, x) :: !Less(x, m)
  {
    var m := NextPos(view, Some(k)).value;
    assert IsLeast(m, After(view.Keys, k));
    forall x | x in view && Less(k, x)
      ensures !Less(x, m)
    {
      assert x in After(view.Keys, k);
      if x == m {
        LessIrreflexive(x);
      } else {
        LessAsymmetric(m, x);
      }
    }
  }

  /** Seeking a present key lands on it; seeking for prev lands on it too. */
  lemma SeekPresent(view: Store, k: Key)
    requires k in view
    ensures LeastOf(AtOrAfter(view.Keys, k)) == Some(k)
    ensures GreatestOf(AtOrBefore(view.Keys, k)) == Some(k)
  {
    LessIrreflexive(k);
    var up, down := AtOrAfter(view.Keys, k), AtOrBefore(view.Keys, k);
    forall x | x in up ensures x == k || Less(k, x) {
      LessTotal(x, k);
    }
    forall x | x in down ensures x == k || Less(x, k) {
      LessTotal(x, k);
    }
    assert IsLeast(k, up) && IsGreatest(k, down);
    LeastUnique(k, LeastOf(up).value, up);
    GreatestUnique(k, GreatestOf(down).value, down);
  }

  /** Past the greatest key `seek` finds nothing, while `seek_for_prev` lands on the greatest key. */
  lemma SeekPastEnd(view: Store, k: Key)
    requires view != map[] && forall x | x in view :: Less(x, k)
    ensures LeastOf(AtOrAfter(view.Keys, k)) == None
    ensures GreatestOf(AtOrBefore(view.Keys, k)) == GreatestOf(view.Keys)
    ensures GreatestOf(view.Keys).Some?
  {
    var down := AtOrBefore(view.Keys, k);
    forall x | x in view ensures x in down {
      LessAsymmetric(x, k);
    }
    assert down == view.Keys;
  }
}
