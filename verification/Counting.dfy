/** Sizes of finite sets. */
module Counting {

  lemma {:induction false} SubsetCount<T>(a: set<T>, b: set<T>)
    requires a <= b
    ensures |a| <= |b|
  {
    if a != {} {
      var x :| x in a;
      SubsetCount(a - {x}, b - {x});
    }
  }

  lemma SplitCount<T>(a: set<T>, b: set<T>)
    ensures |a| <= |a - b| + |b|
  {
    SubsetCount(a * b, b);
    assert a == (a - b) + (a * b);
  }

  lemma {:induction false} FreshNat(used: set<nat>) returns (p: nat)
    ensures forall q :: q in used ==> q < p
  {
    p := 0;
    if used != {} {
      var q :| q in used;
      var r := FreshNat(used - {q});
      p := if q < r then r else q + 1;
      assert forall k :: k in used ==> k == q || k in used - {q};
    }
  }

  function Image<T, U>(a: set<T>, m: map<T, U>): set<U>
    requires a <= m.Keys
  {
    set x | x in a :: m[x]
  }

  lemma {:induction false} ImageCount<T, U>(a: set<T>, m: map<T, U>)
    requires a <= m.Keys
    ensures |Image(a, m)| <= |a|
  {
    if a != {} {
      var y :| y in a;
      var rest := a - {y};
      ImageCount(rest, m);
      GrownCount(Image(rest, m), Image(a, m), m[y]);
    }
  }

  lemma GrownCount<T>(a: set<T>, b: set<T>, x: T)
    requires b <= a + {x}
    ensures |b| <= |a| + 1
  {
    SubsetCount(b - {x}, a);
    if x in b {
      assert b == (b - {x}) + {x};
    } else {
      assert b == b - {x};
    }
  }
}
