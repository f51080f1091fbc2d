/** Slash-separated paths relative to `.jj/repo`, with the byte order in which Rust sorts strings. */
module Paths {
  type Path = string

  predicate Leq(a: Path, b: Path) {
    |a| == 0 || (|b| > 0 && (a[0] < b[0] || (a[0] == b[0] && Leq(a[1..], b[1..]))))
  }

  predicate Less(a: Path, b: Path) {
    a != b && Leq(a, b)
  }

  /** At place `k` the two differ for the first time, and `a` has the smaller character. */
  ghost predicate SmallerAt(a: Path, b: Path, k: nat) {
    k < |a| && k < |b| && a[..k] == b[..k] && a[k] < b[k]
  }

  /** The order in which strings sort: a proper prefix comes first, otherwise the first difference decides. */
  lemma {:induction false} LessIsByteOrder(a: Path, b: Path)
    ensures Less(a, b) <==> a < b || exists k :: SmallerAt(a, b, k)
  {
    if |a| > 0 && |b| > 0 {
      assert a == [a[0]] + a[1..] && b == [b[0]] + b[1..];
      if a[0] == b[0] {
        LessIsByteOrder(a[1..], b[1..]);
        SmallerShifts(a, b);
      } else if a[0] < b[0] {
        assert SmallerAt(a, b, 0);
      } else {
        forall k: nat ensures !SmallerAt(a, b, k) {
          if 0 < k < |a| && k < |b| {
            assert a[..k][0] != b[..k][0];
          }
        }
      }
    }
  }

  lemma SmallerShifts(a: Path, b: Path)
    requires |a| > 0 && |b| > 0 && a[0] == b[0]
    ensures (exists k :: SmallerAt(a, b, k)) <==> (exists k :: SmallerAt(a[1..], b[1..], k))
  {
    if k: nat :| SmallerAt(a, b, k) {
      assert k > 0;
      assert a[1..][..k - 1] == a[..k][1..] && b[1..][..k - 1] == b[..k][1..];
      assert SmallerAt(a[1..], b[1..], k - 1);
    }
    if k: nat :| SmallerAt(a[1..], b[1..], k) {
      assert a[..k + 1] == [a[0]] + a[1..][..k] && b[..k + 1] == [b[0]] + b[1..][..k];
      assert SmallerAt(a, b, k + 1);
    }
  }

  lemma {:induction false} LeqReflexive(a: Path)
    ensures Leq(a, a)
  {
    if |a| > 0 {
      LeqReflexive(a[1..]);
    }
  }

  lemma {:induction false} LeqTotal(a: Path, b: Path)
    ensures Leq(a, b) || Leq(b, a)
  {
    if |a| > 0 && |b| > 0 {
      LeqTotal(a[1..], b[1..]);
    }
  }

  lemma {:induction false} LeqAntisymmetric(a: Path, b: Path)
    requires Leq(a, b) && Leq(b, a)
    ensures a == b
  {
    if |a| > 0 && |b| > 0 {
      LeqAntisymmetric(a[1..], b[1..]);
      assert a == [a[0]] + a[1..] && b == [b[0]] + b[1..];
    }
  }

  lemma {:induction false} LeqTransitive(a: Path, b: Path, c: Path)
    requires Leq(a, b) && Leq(b, c)
    ensures Leq(a, c)
  {
    if |a| > 0 && a[0] == b[0] && b[0] == c[0] {
      LeqTransitive(a[1..], b[1..], c[1..]);
    }
  }

  predicate IsLeast(m: Path, s: set<Path>) {
    m in s && forall x | x in s :: Leq(m, x)
  }

  lemma {:induction false} LeastExists(s: set<Path>) returns (m: Path)
    requires s != {}
    ensures IsLeast(m, s)
    decreases |s|
  {
    var x :| x in s;
    LeqReflexive(x);
    if s == {x} {
      m := x;
    } else {
      var rest := s - {x};
      var y := LeastExists(rest);
      LeqTotal(x, y);
      m := if Leq(x, y) then x else y;
      LeqReflexive(y);
      forall z | z in s ensures Leq(m, z) {
        if z in rest && m == x {
          LeqTransitive(x, y, z);
        }
      }
    }
  }

  /** The smallest path of a set: the first element of a Rust `BTreeSet`. */
  function Least(s: set<Path>): (m: Path)
    requires s != {}
    ensures IsLeast(m, s)
  {
    ghost var least := LeastOf(s);
    assert forall a, b | IsLeast(a, s) && IsLeast(b, s) :: a == b by {
      forall a, b | IsLeast(a, s) && IsLeast(b, s) ensures a == b {
        LeqAntisymmetric(a, b);
      }
    }
    var m :| m in s && IsLeast(m, s);
    m
  }

  ghost function LeastOf(s: set<Path>): (m: Path)
    requires s != {}
    ensures IsLeast(m, s)
  {
    assert exists m :: IsLeast(m, s) by {
      var m := LeastExists(s);
    }
    var m :| IsLeast(m, s);
    m
  }

  lemma LeastIsUnique(s: set<Path>, m: Path)
    requires IsLeast(m, s)
    ensures m == Least(s)
  {
    LeqAntisymmetric(m, Least(s));
  }

  // ---- sequences without repetition ----

  ghost predicate Distinct<T(!new)>(xs: seq<T>) {
    forall i, j | 0 <= i < j < |xs| :: xs[i] != xs[j]
  }

  function Elems<T(==)>(xs: seq<T>): set<T> {
    set x | x in xs
  }

  lemma ElemsConcat<T>(xs: seq<T>, ys: seq<T>)
    ensures Elems(xs + ys) == Elems(xs) + Elems(ys)
  {
  }

  lemma DistinctConcat<T(!new)>(xs: seq<T>, ys: seq<T>)
    requires Distinct(xs) && Distinct(ys) && forall x | x in ys :: x !in xs
    ensures Distinct(xs + ys)
  {
    forall i, j | 0 <= i < j < |xs + ys| ensures (xs + ys)[i] != (xs + ys)[j] {
      if i < |xs| <= j {
        assert xs[i] in xs && ys[j - |xs|] in ys;
      }
    }
  }

  lemma {:induction false} SubsetSize<T>(a: set<T>, b: set<T>)
    requires a <= b
    ensures |a| <= |b|
    ensures |a| == |b| ==> a == b
    decreases |a|
  {
    if a != {} {
      var x :| x in a;
      SubsetSize(a - {x}, b - {x});
      assert a == (a - {x}) + {x} && b == (b - {x}) + {x};
    }
  }

  lemma {:induction false} DistinctSize<T(!new)>(xs: seq<T>)
    ensures |Elems(xs)| <= |xs|
    ensures |Elems(xs)| == |xs| <==> Distinct(xs)
    decreases |xs|
  {
    if |xs| > 0 {
      var front, last := xs[..|xs| - 1], xs[|xs| - 1];
      DistinctSize(front);
      assert xs == front + [last];
      assert Elems(xs) == Elems(front) + {last};
      if Distinct(front) && last !in front {
        assert Distinct(xs);
      }
      if Distinct(xs) {
        assert Distinct(front) && last !in front;
      }
    }
  }

  lemma {:induction false} DistinctCount<T(!new)>(xs: seq<T>, x: T)
    requires Distinct(xs)
    ensures multiset(xs)[x] == if x in xs then 1 else 0
  {
    if xs != [] {
      var front, last := xs[..|xs| - 1], xs[|xs| - 1];
      assert xs == front + [last];
      DistinctCount(front, x);
    }
  }

  /** Sequences without repetition are permutations of each other exactly when they have the same elements. */
  lemma DistinctMultisets<T(!new)>(xs: seq<T>, ys: seq<T>)
    requires Distinct(xs) && Distinct(ys)
    ensures multiset(xs) == multiset(ys) <==> Elems(xs) == Elems(ys)
  {
    if Elems(xs) == Elems(ys) {
      forall x ensures multiset(xs)[x] == multiset(ys)[x] {
        DistinctCount(xs, x);
        DistinctCount(ys, x);
        assert x in xs <==> x in Elems(xs);
        assert x in ys <==> x in Elems(ys);
      }
    } else if multiset(xs) == multiset(ys) {
      forall x ensures x in xs <==> x in ys {
        assert x in multiset(xs) <==> x in multiset(ys);
      }
    }
  }

  /** Keeps the elements of `xs` that lie in `keep`, in order. */
  function Filter(xs: seq<Path>, keep: set<Path>): (r: seq<Path>)
    ensures Elems(r) == Elems(xs) * keep
  {
    if xs == [] then []
    else
      assert Elems(xs) == {xs[0]} + Elems(xs[1..]);
      var rest := Filter(xs[1..], keep);
      assert Elems([xs[0]] + rest) == {xs[0]} + Elems(rest);
      if xs[0] in keep then [xs[0]] + rest else rest
  }

  lemma {:induction false} FilterAppend(xs: seq<Path>, x: Path, keep: set<Path>)
    ensures Filter(xs + [x], keep) == Filter(xs, keep) + (if x in keep then [x] else [])
  {
    if xs == [] {
      assert xs + [x] == [x];
    } else {
      FilterAppend(xs[1..], x, keep);
      assert (xs + [x])[1..] == xs[1..] + [x];
    }
  }

  lemma {:induction false} FilterDistinct(xs: seq<Path>, keep: set<Path>)
    requires Distinct(xs)
    ensures Distinct(Filter(xs, keep))
  {
    if xs != [] {
      FilterDistinct(xs[1..], keep);
      assert Elems(Filter(xs[1..], keep)) == Elems(xs[1..]) * keep;
      assert xs[0] !in xs[1..];
      var rest := Filter(xs[1..], keep);
      assert xs[0] !in Elems(rest);
    }
  }
}
