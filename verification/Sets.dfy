/** Sizes of finite sets, and their least elements. */
module Sets {

  lemma SubsetSize<T>(a: set<T>, b: set<T>)
    requires a <= b
    ensures |a| <= |b|
  {
    assert b == a + (b - a);
  }

  lemma PartsFit<T>(a: set<T>, b: set<T>, whole: set<T>)
    requires a !! b && a + b <= whole
    ensures |a| + |b| <= |whole|
  {
    SubsetSize(a + b, whole);
    assert |a + b| == |a| + |b|;
  }

  /** The first n indices. */
  function Indices(n: nat): (s: set<int>)
    ensures |s| == n && forall i :: i in s <==> 0 <= i < n
  {
    if n == 0 then {} else Indices(n - 1) + {n - 1}
  }

  // --- The least element by a key -----------------------------------------------

  /** Ordered by key, and by id where keys are equal. */
  predicate AtMost(key: nat -> int, a: nat, b: nat) {
    key(a) < key(b) || (key(a) == key(b) && a <= b)
  }

  predicate IsLeast(key: nat -> int, pool: set<nat>, m: nat) {
    m in pool && forall x | x in pool :: AtMost(key, m, x)
  }

  lemma {:induction false} LeastExists(key: nat -> int, pool: set<nat>)
    requires pool != {}
    ensures exists m :: IsLeast(key, pool, m)
    decreases |pool|
  {
    var x :| x in pool;
    if pool == {x} {
      assert IsLeast(key, pool, x);
    } else {
      LeastExists(key, pool - {x});
      var m :| IsLeast(key, pool - {x}, m);
      assert pool == (pool - {x}) + {x};
      assert IsLeast(key, pool, if AtMost(key, x, m) then x else m);
    }
  }

  function Least(key: nat -> int, pool: set<nat>): (m: nat)
    requires pool != {}
    ensures IsLeast(key, pool, m)
  {
    LeastExists(key, pool);
    var m :| IsLeast(key, pool, m);
    m
  }
}
