/** Sequence algorithms the source takes from Python's library: `sorted` (a stable
    sort, here an insertion sort under a strict total order) and "the first item of a
    sequence for which something is found", which both OCR passes use. */
module Seqs {
  import opened Strings

  ghost predicate IsStrictTotalOrder<T(!new)>(lt: (T, T) -> bool) {
    && (forall x :: !lt(x, x))
    && (forall x, y, z :: lt(x, y) && lt(y, z) ==> lt(x, z))
    && (forall x, y :: x == y || lt(x, y) || lt(y, x))
  }

  ghost predicate SortedBy<T>(s: seq<T>, lt: (T, T) -> bool) {
    forall i, j | 0 <= i < j < |s| :: !lt(s[j], s[i])
  }

  /** Puts `x` in front of the first element that is not below it. */
  function Insert<T>(x: T, s: seq<T>, lt: (T, T) -> bool): seq<T>
    decreases |s|
  {
    if s == [] || !lt(s[0], x) then [x] + s else [s[0]] + Insert(x, s[1..], lt)
  }

  function SortBy<T>(s: seq<T>, lt: (T, T) -> bool): seq<T>
    decreases |s|
  {
    if s == [] then [] else Insert(s[0], SortBy(s[1..], lt), lt)
  }

  lemma {:induction false} InsertPermutes<T>(x: T, s: seq<T>, lt: (T, T) -> bool)
    ensures multiset(Insert(x, s, lt)) == multiset(s) + multiset{x}
    decreases |s|
  {
    if s == [] || !lt(s[0], x) {
    } else {
      InsertPermutes(x, s[1..], lt);
      assert s == [s[0]] + s[1..];
    }
  }

  lemma {:induction false} InsertSorted<T(!new)>(x: T, s: seq<T>, lt: (T, T) -> bool)
    requires IsStrictTotalOrder(lt)
    requires SortedBy(s, lt)
    ensures SortedBy(Insert(x, s, lt), lt)
    decreases |s|
  {
    if s == [] || !lt(s[0], x) {
      var r := [x] + s;
      forall i, j | 0 <= i < j < |r| ensures !lt(r[j], r[i]) {
        if i == 0 && j > 1 {
          // s[j - 1] is not below s[0], which is x or above x
          assert !lt(s[j - 1], s[0]);
        }
      }
    } else {
      InsertSorted(x, s[1..], lt);
      var t := Insert(x, s[1..], lt);
      InsertPermutes(x, s[1..], lt);
      var r := [s[0]] + t;
      forall i, j | 0 <= i < j < |r| ensures !lt(r[j], r[i]) {
        if i == 0 {
          var y := t[j - 1];
          assert y in multiset(t);
          assert y in multiset(s[1..]) || y == x;
          if y != x {
            var k :| 0 <= k < |s[1..]| && s[1..][k] == y;
            assert !lt(s[k + 1], s[0]);
          }
        }
      }
    }
  }

  /** `sorted` returns a permutation of its input in order. */
  lemma {:induction false} SortByCorrect<T(!new)>(s: seq<T>, lt: (T, T) -> bool)
    requires IsStrictTotalOrder(lt)
    ensures multiset(SortBy(s, lt)) == multiset(s)
    ensures SortedBy(SortBy(s, lt), lt)
    decreases |s|
  {
    SortByPermutes(s, lt);
    if s != [] {
      SortByCorrect(s[1..], lt);
      InsertSorted(s[0], SortBy(s[1..], lt), lt);
    }
  }

  /** A sequence that is already in order comes back unchanged. */
  lemma {:induction false} SortByKeepsSorted<T>(s: seq<T>, lt: (T, T) -> bool)
    requires SortedBy(s, lt)
    ensures SortBy(s, lt) == s
    decreases |s|
  {
    if s != [] {
      assert SortedBy(s[1..], lt) by {
        forall i, j | 0 <= i < j < |s[1..]| ensures !lt(s[1..][j], s[1..][i]) {
          assert s[1..][j] == s[j + 1] && s[1..][i] == s[i + 1];
        }
      }
      SortByKeepsSorted(s[1..], lt);
      assert s == [s[0]] + s[1..];
    }
  }

  ghost predicate Distinct<T>(s: seq<T>) {
    forall i, j | 0 <= i < j < |s| :: s[i] != s[j]
  }

  lemma {:induction false} InsertDistinct<T>(x: T, s: seq<T>, lt: (T, T) -> bool)
    requires Distinct(s) && x !in s
    ensures Distinct(Insert(x, s, lt))
    decreases |s|
  {
    if s != [] && lt(s[0], x) {
      assert Distinct(s[1..]) by {
        forall i, j | 0 <= i < j < |s[1..]| ensures s[1..][i] != s[1..][j] {
          assert s[1..][i] == s[i + 1] && s[1..][j] == s[j + 1];
        }
      }
      InsertDistinct(x, s[1..], lt);
      InsertPermutes(x, s[1..], lt);
      var t := Insert(x, s[1..], lt);
      forall j | 0 <= j < |t| ensures t[j] != s[0] {
        assert t[j] in multiset(t);
        if t[j] != x {
          assert t[j] in multiset(s[1..]);
          var k :| 0 <= k < |s[1..]| && s[1..][k] == t[j];
          assert s[k + 1] == t[j];
        }
      }
    }
  }

  /** Sorting a sequence without repetitions gives one without repetitions. */
  lemma {:induction false} SortByDistinct<T>(s: seq<T>, lt: (T, T) -> bool)
    requires Distinct(s)
    ensures Distinct(SortBy(s, lt))
    decreases |s|
  {
    if s != [] {
      assert Distinct(s[1..]) by {
        forall i, j | 0 <= i < j < |s[1..]| ensures s[1..][i] != s[1..][j] {
          assert s[1..][i] == s[i + 1] && s[1..][j] == s[j + 1];
        }
      }
      SortByDistinct(s[1..], lt);
      SortByPermutes(s[1..], lt);
      assert s[0] !in multiset(SortBy(s[1..], lt));
      InsertDistinct(s[0], SortBy(s[1..], lt), lt);
    }
  }

  lemma {:induction false} SortByPermutes<T>(s: seq<T>, lt: (T, T) -> bool)
    ensures multiset(SortBy(s, lt)) == multiset(s)
    decreases |s|
  {
    if s != [] {
      SortByPermutes(s[1..], lt);
      InsertPermutes(s[0], SortBy(s[1..], lt), lt);
      assert s == [s[0]] + s[1..];
    }
  }

  /** The first `f(x)` that is `Some`, in sequence order. */
  function FirstSome<T, U>(xs: seq<T>, f: T -> Option<U>): Option<U>
    decreases |xs|
  {
    if xs == [] then None
    else if f(xs[0]).Some? then f(xs[0])
    else FirstSome(xs[1..], f)
  }

  /** What `FirstSome` finds is `f` of some element, and `f` finds nothing before it;
      it finds nothing exactly when `f` finds nothing anywhere. */
  lemma {:induction false} FirstSomeSpec<T, U>(xs: seq<T>, f: T -> Option<U>)
    ensures FirstSome(xs, f).Some? ==>
      exists k | 0 <= k < |xs| :: f(xs[k]) == FirstSome(xs, f) && forall j | 0 <= j < k :: f(xs[j]).None?
    ensures FirstSome(xs, f).None? <==> forall k | 0 <= k < |xs| :: f(xs[k]).None?
    decreases |xs|
  {
    if xs != [] && f(xs[0]).None? {
      FirstSomeSpec(xs[1..], f);
      if FirstSome(xs, f).Some? {
        var k :| 0 <= k < |xs[1..]| && f(xs[1..][k]) == FirstSome(xs[1..], f)
          && forall j | 0 <= j < k :: f(xs[1..][j]).None?;
        assert f(xs[k + 1]) == FirstSome(xs, f);
        forall j | 0 <= j < k + 1 ensures f(xs[j]).None? {
          if j > 0 { assert f(xs[1..][j - 1]).None?; }
        }
      }
      if forall k | 0 <= k < |xs[1..]| :: f(xs[1..][k]).None? {
        forall k | 0 <= k < |xs| ensures f(xs[k]).None? {
          if k > 0 { assert f(xs[1..][k - 1]).None?; }
        }
      }
    } else if xs != [] {
      assert f(xs[0]) == FirstSome(xs, f);
    }
  }

  /** Once something is found, later items never change it; until then, the next item decides. */
  lemma {:induction false} FirstSomeSnoc<T, U>(xs: seq<T>, x: T, f: T -> Option<U>)
    ensures FirstSome(xs + [x], f) == if FirstSome(xs, f).Some? then FirstSome(xs, f) else f(x)
    decreases |xs|
  {
    if xs == [] {
      assert [x][1..] == [];
    } else {
      assert (xs + [x])[1..] == xs[1..] + [x];
      FirstSomeSnoc(xs[1..], x, f);
    }
  }
}
