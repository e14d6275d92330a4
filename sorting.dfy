/** Python's `sorted(xs, key=..., reverse=True)`: a stable sort into
    non-increasing order. `geq(a, b)` says that `a` ranks at or above `b`. */
module StableSort {

  ghost predicate TotalPreorder<T(!new)>(geq: (T, T) -> bool) {
    (forall a, b :: geq(a, b) || geq(b, a)) &&
    (forall a, b, c :: geq(a, b) && geq(b, c) ==> geq(a, c))
  }

  ghost predicate SortedDesc<T>(s: seq<T>, geq: (T, T) -> bool) {
    forall i, j :: 0 <= i < j < |s| ==> geq(s[i], s[j])
  }

  /** `a` and `b` compare equal: neither ranks strictly above the other. */
  predicate Tied<T>(geq: (T, T) -> bool, a: T, b: T) {
    geq(a, b) && geq(b, a)
  }

  /** The elements of `s` tied with `v`, in their order in `s`. */
  function TiedWith<T>(s: seq<T>, v: T, geq: (T, T) -> bool): (r: seq<T>)
    ensures |r| <= |s|
  {
    if s == [] then []
    else if Tied(geq, s[0], v) then [s[0]] + TiedWith(s[1..], v, geq)
    else TiedWith(s[1..], v, geq)
  }

  /** Places `x` after every element that ranks at or above it. */
  function Insert<T>(x: T, s: seq<T>, geq: (T, T) -> bool): (r: seq<T>)
    ensures multiset(r) == multiset(s) + multiset{x}
  {
    if s == [] then [x]
    else if geq(s[0], x) then
      assert s == [s[0]] + s[1..];
      [s[0]] + Insert(x, s[1..], geq)
    else [x] + s
  }

  function SortDesc<T>(s: seq<T>, geq: (T, T) -> bool): (r: seq<T>)
    ensures multiset(r) == multiset(s)
  {
    if s == [] then []
    else
      assert s == s[..|s| - 1] + [s[|s| - 1]];
      Insert(s[|s| - 1], SortDesc(s[..|s| - 1], geq), geq)
  }

  lemma {:induction false} InsertSorted<T(!new)>(x: T, s: seq<T>, geq: (T, T) -> bool)
    requires TotalPreorder(geq) && SortedDesc(s, geq)
    ensures SortedDesc(Insert(x, s, geq), geq)
  {
    if s != [] && geq(s[0], x) {
      InsertSorted(x, s[1..], geq);
      var r := Insert(x, s[1..], geq);
      assert multiset(r) == multiset(s[1..]) + multiset{x};
      forall j | 0 <= j < |r| ensures geq(s[0], r[j]) {
        assert r[j] in multiset(r);
        if r[j] != x {
          assert r[j] in multiset(s[1..]);
          var k :| 0 <= k < |s[1..]| && s[1..][k] == r[j];
          assert s[k + 1] == r[j];
        }
      }
    }
  }

  /** The result is in non-increasing order (and, by the ensures of
      `SortDesc`, a permutation of the input). */
  lemma {:induction false} SortDescSorted<T(!new)>(s: seq<T>, geq: (T, T) -> bool)
    requires TotalPreorder(geq)
    ensures SortedDesc(SortDesc(s, geq), geq)
  {
    if s != [] {
      SortDescSorted(s[..|s| - 1], geq);
      InsertSorted(s[|s| - 1], SortDesc(s[..|s| - 1], geq), geq);
    }
  }

  lemma {:induction false} TiedWithAppend<T>(a: seq<T>, b: seq<T>, v: T, geq: (T, T) -> bool)
    ensures TiedWith(a + b, v, geq) == TiedWith(a, v, geq) + TiedWith(b, v, geq)
  {
    if a == [] {
      assert a + b == b;
    } else {
      assert (a + b)[1..] == a[1..] + b;
      TiedWithAppend(a[1..], b, v, geq);
    }
  }

  /** A prefix keeps a prefix of the elements tied with `v`. */
  lemma PrefixTiedWith<T>(s: seq<T>, n: nat, v: T, geq: (T, T) -> bool)
    requires n <= |s|
    ensures TiedWith(s[..n], v, geq) <= TiedWith(s, v, geq)
  {
    assert s == s[..n] + s[n..];
    TiedWithAppend(s[..n], s[n..], v, geq);
  }

  /** Inserting `x` puts it after every element it is tied with. */
  lemma {:induction false} InsertTiedWith<T(!new)>(x: T, s: seq<T>, v: T, geq: (T, T) -> bool)
    requires TotalPreorder(geq) && SortedDesc(s, geq)
    ensures TiedWith(Insert(x, s, geq), v, geq) == TiedWith(s + [x], v, geq)
  {
    if s == [] {
    } else if geq(s[0], x) {
      InsertTiedWith(x, s[1..], v, geq);
      assert s + [x] == [s[0]] + (s[1..] + [x]);
    } else {
      if Tied(geq, x, v) {
        // Nothing in `s` ranks at or below `x`, so nothing in `s` is tied with `v`.
        forall k | 0 <= k < |s| ensures !Tied(geq, s[k], v) {
          if k > 0 {
            assert geq(s[0], s[k]);
          }
        }
        NoneTied(s, v, geq);
        TiedWithAppend(s, [x], v, geq);
      } else {
        TiedWithAppend(s, [x], v, geq);
        TiedWithAppend([x], s, v, geq);
      }
    }
  }

  lemma {:induction false} NoneTied<T>(s: seq<T>, v: T, geq: (T, T) -> bool)
    requires forall k :: 0 <= k < |s| ==> !Tied(geq, s[k], v)
    ensures TiedWith(s, v, geq) == []
  {
    if s != [] {
      assert forall k :: 0 <= k < |s[1..]| ==> s[1..][k] == s[k + 1];
      NoneTied(s[1..], v, geq);
    }
  }

  /** Stability: elements that compare equal keep their input order. */
  lemma {:induction false} SortDescStable<T(!new)>(s: seq<T>, v: T, geq: (T, T) -> bool)
    requires TotalPreorder(geq)
    ensures TiedWith(SortDesc(s, geq), v, geq) == TiedWith(s, v, geq)
  {
    if s != [] {
      var init := s[..|s| - 1];
      SortDescStable(init, v, geq);
      SortDescSorted(init, geq);
      InsertTiedWith(s[|s| - 1], SortDesc(init, geq), v, geq);
      TiedWithAppend(SortDesc(init, geq), [s[|s| - 1]], v, geq);
      TiedWithAppend(init, [s[|s| - 1]], v, geq);
      assert init + [s[|s| - 1]] == s;
    }
  }
}
