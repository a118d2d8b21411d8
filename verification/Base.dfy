/** Small values shared by every part of the model. */
module Base {

  datatype Option<+T> = None | Some(value: T)

  function Max(a: int, b: int): (m: int)
    ensures a <= m && b <= m && m in {a, b}
  {
    if a < b then b else a
  }

  function Min(a: int, b: int): (m: int)
    ensures m <= a && m <= b && m in {a, b}
  {
    if a < b then a else b
  }

  ghost predicate IsLeast(m: nat, s: set<nat>) {
    m in s && forall x | x in s :: m <= x
  }

  ghost predicate IsGreatest(m: nat, s: set<nat>) {
    m in s && forall x | x in s :: x <= m
  }

  /** Some least member lies at or below any given member. */
  lemma LeastExists(s: set<nat>, y: nat)
    requires y in s
    ensures exists m :: IsLeast(m, s)
    decreases y
  {
    if x :| x in s && x < y {
      LeastExists(s, x);
    } else {
      assert IsLeast(y, s);
    }
  }

  /** The least member of a set. */
  function Least(s: set<nat>): (m: nat)
    requires s != {}
    ensures IsLeast(m, s)
  {
    assert exists m :: IsLeast(m, s) by {
      var y :| y in s;
      LeastExists(s, y);
    }
    var m :| m in s && forall x | x in s :: m <= x;
    m
  }

  /** A finite set of naturals is bounded, so climbing from any member ends. */
  lemma GreatestExists(s: set<nat>, above: set<nat>, y: nat)
    requires y in s
    requires above == set x | x in s && y < x
    ensures exists m :: IsGreatest(m, s)
    decreases |above|
  {
    if x :| x in above {
      var higher := set z | z in s && x < z;
      assert higher <= above - {x};
      Cardinality(higher, above - {x});
      GreatestExists(s, higher, x);
    } else {
      assert forall x | x in s && y < x :: x in above;
      assert IsGreatest(y, s);
    }
  }

  lemma Cardinality<T>(a: set<T>, b: set<T>)
    requires a <= b
    ensures |a| <= |b|
    ensures a != b ==> |a| < |b|
  {
    assert b == a + (b - a);
    assert |b| == |a| + |b - a|;
    if a != b {
      assert b - a != {};
    }
  }

  /** The greatest member of a set, or 0 when there is none. */
  function Greatest(s: set<nat>): (m: nat)
    ensures forall x | x in s :: x <= m
    ensures s != {} ==> m in s
  {
    if s == {} then 0 else
      assert exists m :: IsGreatest(m, s) by {
        var y :| y in s;
        GreatestExists(s, (set x | x in s && y < x), y);
      }
      var m :| m in s && forall x | x in s :: x <= m;
      m
  }

  function Elements(s: seq<nat>): set<nat> { set x | x in s }

  lemma ElementsSnoc(s: seq<nat>, x: nat)
    ensures Elements(s + [x]) == Elements(s) + {x}
  {
  }

  lemma {:induction false} DistinctSize(s: seq<nat>)
    requires forall i, j | 0 <= i < j < |s| :: s[i] != s[j]
    ensures |Elements(s)| == |s|
  {
    if s != [] {
      var init, last := s[..|s| - 1], s[|s| - 1];
      DistinctSize(init);
      assert s == init + [last];
      ElementsSnoc(init, last);
      assert last !in Elements(init);
      hide Elements;
    }
  }
}
