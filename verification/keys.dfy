/**
 * The engine's default comparator: keys ordered bytewise, a proper prefix
 * before its extensions. Iterator positioning (seek, next, prev, ...) is
 * defined on finite key sets through least and greatest elements.
 */
module Keys {
  import opened Common

  /** Bytewise strict order on keys. */
  predicate Less(a: Key, b: Key)
  {
    if |a| == 0 then |b| > 0
    else if |b| == 0 then false
    else if a[0] != b[0] then a[0] < b[0]
    else Less(a[1..], b[1..])
  }

  lemma {:induction false} LessIrreflexive(a: Key)
    ensures !Less(a, a)
  {
    if |a| > 0 {
      LessIrreflexive(a[1..]);
    }
  }

  lemma {:induction false} LessTransitive(a: Key, b: Key, c: Key)
    requires Less(a, b) && Less(b, c)
    ensures Less(a, c)
  {
    if |a| > 0 && |b| > 0 && |c| > 0 && a[0] == b[0] && b[0] == c[0] {
      LessTransitive(a[1..], b[1..], c[1..]);
    }
  }

  /** Any two distinct keys are ordered one way or the other. */
  lemma {:induction false} LessTotal(a: Key, b: Key)
    ensures a == b || Less(a, b) || Less(b, a)
  {
    if |a| > 0 && |b| > 0 && a[0] == b[0] {
      LessTotal(a[1..], b[1..]);
      if a[1..] == b[1..] {
        assert a == [a[0]] + a[1..] && b == [b[0]] + b[1..];
      }
    }
  }

  lemma LessAsymmetric(a: Key, b: Key)
    requires Less(a, b)
    ensures !Less(b, a)
  {
    if Less(b, a) {
      LessTransitive(a, b, a);
      LessIrreflexive(a);
    }
  }

  ghost predicate IsLeast(m: Key, s: set<Key>)
  {
    m in s && forall x | x in s :: x == m || Less(m, x)
  }

  ghost predicate IsGreatest(m: Key, s: set<Key>)
  {
    m in s && forall x | x in s :: x == m || Less(x, m)
  }

  lemma LeastUnique(m1: Key, m2: Key, s: set<Key>)
    requires IsLeast(m1, s) && IsLeast(m2, s)
    ensures m1 == m2
  {
    if m1 != m2 {
      LessAsymmetric(m1, m2);
    }
  }

  lemma GreatestUnique(m1: Key, m2: Key, s: set<Key>)
    requires IsGreatest(m1, s) && IsGreatest(m2, s)
    ensures m1 == m2
  {
    if m1 != m2 {
      LessAsymmetric(m1, m2);
    }
  }

  /** The least key of a non-empty finite set, found by one pass over it. */
  method Least(s: set<Key>) returns (m: Key)
    requires s != {}
    ensures IsLeast(m, s)
  {
    m :| m in s;
    var rest := s - {m};
    while rest != {}
      invariant rest <= s && m in s && m !in rest
      invariant forall x | x in s - rest :: x == m || Less(m, x)
      decreases rest
    {
      var x :| x in rest;
      LessTotal(x, m);
      if Less(x, m) {
        forall y | y in s - rest
          ensures y == x || Less(x, y)
        {
          if y != m { LessTransitive(x, m, y); }
        }
        m := x;
      }
      rest := rest - {x};
    }
  }

  /** The greatest key of a non-empty finite set, found by one pass over it. */
  method Greatest(s: set<Key>) returns (m: Key)
    requires s != {}
    ensures IsGreatest(m, s)
  {
    m :| m in s;
    var rest := s - {m};
    while rest != {}
      invariant rest <= s && m in s && m !in rest
      invariant forall x | x in s - rest :: x == m || Less(x, m)
      decreases rest
    {
      var x :| x in rest;
      LessTotal(x, m);
      if Less(m, x) {
        forall y | y in s - rest
          ensures y == x || Less(y, x)
        {
          if y != m { LessTransitive(y, m, x); }
        }
        m := x;
      }
      rest := rest - {x};
    }
  }

  /** Every non-empty finite set of keys has a least element. */
  lemma {:induction false} LeastExists(s: set<Key>)
    requires s != {}
    ensures exists m :: IsLeast(m, s)
    decreases |s|
  {
    var x :| x in s;
    var rest := s - {x};
    if rest == {} {
      assert s == {x};
      assert IsLeast(x, s);
    } else {
      LeastExists(rest);
      var m :| IsLeast(m, rest);
      LessTotal(x, m);
      if Less(x, m) {
        forall y | y in s ensures y == x || Less(x, y) {
          if y != x && y != m { LessTransitive(x, m, y); }
        }
        assert IsLeast(x, s);
      } else {
        assert IsLeast(m, s);
      }
    }
  }

  /** Every non-empty finite set of keys has a greatest element. */
  lemma {:induction false} GreatestExists(s: set<Key>)
    requires s != {}
    ensures exists m :: IsGreatest(m, s)
    decreases |s|
  {
    var x :| x in s;
    var rest := s - {x};
    if rest == {} {
      assert s == {x};
      assert IsGreatest(x, s);
    } else {
      GreatestExists(rest);
      var m :| IsGreatest(m, rest);
      LessTotal(x, m);
      if Less(m, x) {
        forall y | y in s ensures y == x || Less(y, x) {
          if y != x && y != m { LessTransitive(y, m, x); }
        }
        assert IsGreatest(x, s);
      } else {
        assert IsGreatest(m, s);
      }
    }
  }

  /** The least key of `s`, or None when `s` is empty. */
  ghost function LeastOf(s: set<Key>): (r: Option<Key>)
    ensures r.None? <==> s == {}
    ensures r.Some? ==> IsLeast(r.value, s)
  {
    if s == {} then None
    else
      LeastExists(s);
      var m :| IsLeast(m, s);
      Some(m)
  }

  /** The greatest key of `s`, or None when `s` is empty. */
  ghost function GreatestOf(s: set<Key>): (r: Option<Key>)
    ensures r.None? <==> s == {}
    ensures r.Some? ==> IsGreatest(r.value, s)
  {
    if s == {} then None
    else
      GreatestExists(s);
      var m :| IsGreatest(m, s);
      Some(m)
  }

  /** Keys at or after `k`, and at or before `k`. */
  function AtOrAfter(keys: set<Key>, k: Key): set<Key> { set x | x in keys && !Less(x, k) }
  function AtOrBefore(keys: set<Key>, k: Key): set<Key> { set x | x in keys && !Less(k, x) }
  function After(keys: set<Key>, k: Key): set<Key> { set x | x in keys && Less(k, x) }
  function Before(keys: set<Key>, k: Key): set<Key> { set x | x in keys && Less(x, k) }
}
