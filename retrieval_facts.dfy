/** Properties of hybrid retrieval: tokenisation, normalisation, what the
    fused ranking holds and in which order, and `gather`. */
module RetrievalFacts {
  import opened Wrappers
  import opened Text
  import opened StableSort
  import opened Indexing
  import opened Retrieval

  /* ---------- tokenisation ---------- */

  lemma {:induction false} WordsFromText(s: string)
    ensures forall t, c :: t in Words(s) && c in t ==> c in s
    decreases |s|
  {
    if s != [] {
      if IsSpace(s[0]) {
        WordsFromText(s[1..]);
      } else {
        var w := Word(s);
        WordsFromText(s[|w|..]);
        assert forall c :: c in w ==> c in s;
        assert forall c :: c in s[|w|..] ==> c in s;
      }
    }
  }

  /** Every token, of a record's text or of a query, is a non-empty run of
      non-whitespace characters with no upper-case ASCII letter. */
  lemma TokensShape(s: string)
    ensures forall t :: t in Tokens(s) ==> IsWord(t)
    ensures forall t, c :: t in Tokens(s) && c in t ==> !('A' <= c <= 'Z')
  {
    WordsFromText(Lower(s));
    forall c | c in Lower(s) ensures !('A' <= c <= 'Z') {
      var i :| 0 <= i < |Lower(s)| && Lower(s)[i] == c;
    }
    forall t | t in Tokens(s) ensures IsWord(t) {
      var i :| 0 <= i < |Tokens(s)| && Tokens(s)[i] == t;
    }
  }

  /** A query matches a record's tokens regardless of letter case. */
  lemma TokensIgnoreCase(a: string, b: string)
    requires Lower(a) == Lower(b)
    ensures Tokens(a) == Tokens(b)
  {
  }

  /* ---------- normalisation ---------- */

  lemma DivLe(a: real, b: real, d: real)
    requires d > 0.0
    ensures a / d <= b / d <==> a <= b
  {
    assert a == (a / d) * d && b == (b / d) * d;
    if a / d <= b / d {
      assert (a / d) * d <= (b / d) * d;
    }
  }

  lemma CeilingAbove(s: seq<real>)
    requires s != []
    ensures forall i :: 0 <= i < |s| ==> MinOf(s) <= s[i] <= Ceiling(s)
  {
  }

  lemma UnitRange(x: real, lo: real, hi: real)
    requires lo <= x <= hi && hi - lo > 0.0
    ensures 0.0 <= (x - lo) / (hi - lo) <= 1.0
  {
    DivLe(0.0, x - lo, hi - lo);
    DivLe(x - lo, hi - lo, hi - lo);
  }

  /** Rescaled scores lie in [0, 1]. */
  lemma NormalisedRange(s: seq<real>)
    requires s != [] && Rescaled(s)
    ensures forall i :: 0 <= i < |s| ==> 0.0 <= Normalised(s)[i] <= 1.0
  {
    CeilingAbove(s);
    forall i | 0 <= i < |s| ensures 0.0 <= Normalised(s)[i] <= 1.0 {
      UnitRange(s[i], MinOf(s), Ceiling(s));
    }
  }

  /** Normalisation never reorders documents: one score is at most another
      exactly when it is so after normalisation. */
  lemma NormalisedOrder(s: seq<real>, i: nat, j: nat)
    requires s != [] && i < |s| && j < |s|
    ensures s[i] <= s[j] <==> Normalised(s)[i] <= Normalised(s)[j]
  {
    if Rescaled(s) {
      DivLe(s[i] - MinOf(s), s[j] - MinOf(s), Ceiling(s) - MinOf(s));
    }
  }

  /* ---------- the sparse selection ---------- */

  predicate Distinct<T(==)>(s: seq<T>) {
    forall i, j :: 0 <= i < j < |s| ==> s[i] != s[j]
  }

  /** The i-th sparse id is the i-th from the end of the argsort. */
  lemma TopSparseAt(order: seq<nat>, k: nat, i: nat)
    requires i < |TopSparse(order, k)|
    ensures |TopSparse(order, k)| <= |order|
    ensures TopSparse(order, k)[i] == order[|order| - 1 - i]
  {
    var last := LastK(order, k);
    assert TopSparse(order, k)[i] == last[|last| - 1 - i];
  }

  /** The sparse ids come best first, each position at most once, and
      there are k of them, or all when k is 0 or at least the corpus size. */
  lemma TopSparseOrder(order: seq<nat>, s: seq<real>, k: nat)
    requires IsArgsort(order, s)
    ensures Distinct(TopSparse(order, k)) && InRange(TopSparse(order, k), |s|)
    ensures |TopSparse(order, k)| == if k == 0 || k >= |s| then |s| else k
    ensures forall i, j :: 0 <= i < j < |TopSparse(order, k)| ==>
      s[TopSparse(order, k)[i]] >= s[TopSparse(order, k)[j]]
  {
    var top := TopSparse(order, k);
    TopInRange(order, k, |s|);
    forall i, j | 0 <= i < j < |top| ensures s[top[i]] >= s[top[j]] && top[i] != top[j] {
      TopPair(order, s, k, i, j);
    }
  }

  lemma TopPair(order: seq<nat>, s: seq<real>, k: nat, i: nat, j: nat)
    requires IsArgsort(order, s) && i < j < |TopSparse(order, k)|
    ensures TopSparse(order, k)[i] < |s| && TopSparse(order, k)[j] < |s|
    ensures s[TopSparse(order, k)[i]] >= s[TopSparse(order, k)[j]]
    ensures TopSparse(order, k)[i] != TopSparse(order, k)[j]
  {
    TopSparseAt(order, k, i);
    TopSparseAt(order, k, j);
    var a, b := |order| - 1 - j, |order| - 1 - i;
    assert s[order[a]] <= s[order[b]] && order[a] != order[b];
  }

  /* ---------- which ids the mix holds, and in which order ---------- */

  /** The keys of a dict after setting each of `ids` in turn: a key already
      present keeps its place, a new one goes last. */
  function Remember(seen: seq<int>, ids: seq<int>): seq<int>
    decreases |ids|
  {
    if ids == [] then seen
    else Remember(if ids[0] in seen then seen else seen + [ids[0]], ids[1..])
  }

  lemma {:induction false} BumpIds(m: Mix, id: int, delta: real)
    ensures Ids(Bump(m, id, delta)) == if id in Ids(m) then Ids(m) else Ids(m) + [id]
    decreases |m|
  {
    if m != [] {
      BumpIds(m[1..], id, delta);
      assert Ids(m) == [m[0].0] + Ids(m[1..]);
      if m[0].0 != id {
        assert Bump(m, id, delta) == [m[0]] + Bump(m[1..], id, delta);
        assert Ids(Bump(m, id, delta)) == [m[0].0] + Ids(Bump(m[1..], id, delta));
      } else {
        assert Ids(Bump(m, id, delta)) == [id] + Ids(m[1..]);
      }
    }
  }

  lemma {:induction false} AddDenseIds(m: Mix, dense: seq<Hit>)
    ensures Ids(AddDense(m, dense)) == Remember(Ids(m), Ids(dense))
    decreases |dense|
  {
    if dense != [] {
      BumpIds(m, dense[0].0, DenseWeight * dense[0].1);
      AddDenseIds(Bump(m, dense[0].0, DenseWeight * dense[0].1), dense[1..]);
      assert Ids(dense)[1..] == Ids(dense[1..]);
    }
  }

  lemma {:induction false} AddSparseIds(m: Mix, top: seq<nat>, norm: seq<real>)
    requires InRange(top, |norm|)
    ensures Ids(AddSparse(m, top, norm)) == Remember(Ids(m), top)
    decreases |top|
  {
    if top != [] {
      BumpIds(m, top[0], SparseWeight * norm[top[0]]);
      AddSparseIds(Bump(m, top[0], SparseWeight * norm[top[0]]), top[1..], norm);
    }
  }

  lemma {:induction false} RememberFacts(seen: seq<int>, ids: seq<int>)
    requires Distinct(seen)
    ensures Distinct(Remember(seen, ids))
    ensures forall x :: x in Remember(seen, ids) <==> x in seen || x in ids
    ensures seen <= Remember(seen, ids)
    decreases |ids|
  {
    if ids != [] {
      var next := if ids[0] in seen then seen else seen + [ids[0]];
      RememberFacts(next, ids[1..]);
      assert forall x :: x in ids <==> x == ids[0] || x in ids[1..];
      assert seen <= next;
    }
  }

  /** The order of the fused entries before sorting, which decides ties:
      the dense ids in first-seen order, then the sparse ids not among
      them, best first; each id once, and no other. */
  lemma MixedIds(dense: seq<Hit>, scores: seq<real>, order: seq<nat>, k: nat)
    requires scores != [] && InRange(order, |scores|)
    ensures Ids(Mixed(dense, scores, order, k)) == Remember(Remember([], Ids(dense)), TopSparse(order, k))
    ensures Distinct(Ids(Mixed(dense, scores, order, k)))
    ensures forall x :: x in Ids(Mixed(dense, scores, order, k)) <==> x in Ids(dense) || x in TopSparse(order, k)
    ensures Remember([], Ids(dense)) <= Ids(Mixed(dense, scores, order, k))
  {
    TopInRange(order, k, |scores|);
    var top := TopSparse(order, k);
    AddDenseIds([], dense);
    AddSparseIds(AddDense([], dense), top, Normalised(scores));
    RememberFacts([], Ids(dense));
    RememberFacts(Remember([], Ids(dense)), top);
  }

  /* ---------- the fused scores ---------- */

  /** The sum of the dense scores reported for `x`. */
  function DenseSum(dense: seq<Hit>, x: int): real
    decreases |dense|
  {
    if dense == [] then 0.0
    else (if dense[0].0 == x then dense[0].1 else 0.0) + DenseSum(dense[1..], x)
  }

  lemma {:induction false} GetBump(m: Mix, id: int, delta: real, x: int)
    ensures Get(Bump(m, id, delta), x) == Get(m, x) + (if x == id then delta else 0.0)
    decreases |m|
  {
    if m != [] && m[0].0 != id {
      GetBump(m[1..], id, delta, x);
      assert Bump(m, id, delta)[1..] == Bump(m[1..], id, delta);
    }
  }

  lemma {:induction false} AddDenseGet(m: Mix, dense: seq<Hit>, x: int)
    ensures Get(AddDense(m, dense), x) == Get(m, x) + DenseWeight * DenseSum(dense, x)
    decreases |dense|
  {
    if dense != [] {
      GetBump(m, dense[0].0, DenseWeight * dense[0].1, x);
      AddDenseGet(Bump(m, dense[0].0, DenseWeight * dense[0].1), dense[1..], x);
    }
  }

  lemma {:induction false} AddSparseGet(m: Mix, top: seq<nat>, norm: seq<real>, x: int)
    requires InRange(top, |norm|) && Distinct(top)
    ensures Get(AddSparse(m, top, norm), x) ==
      Get(m, x) + (if 0 <= x < |norm| && x in top then SparseWeight * norm[x] else 0.0)
    decreases |top|
  {
    if top != [] {
      GetBump(m, top[0], SparseWeight * norm[top[0]], x);
      assert Distinct(top[1..]);
      assert top[0] !in top[1..];
      assert forall y :: y in top <==> y == top[0] || y in top[1..];
      AddSparseGet(Bump(m, top[0], SparseWeight * norm[top[0]]), top[1..], norm, x);
    }
  }

  /** An entry of a dict holds the value `get` reads for its key. */
  lemma {:induction false} ItemsAreGets(m: Mix)
    requires Distinct(Ids(m))
    ensures forall e :: e in m ==> e.1 == Get(m, e.0)
    decreases |m|
  {
    if m != [] {
      assert Ids(m[1..]) == Ids(m)[1..];
      ItemsAreGets(m[1..]);
      forall e | e in m[1..] ensures e.0 != m[0].0 {
        var i :| 0 <= i < |m[1..]| && m[1..][i] == e;
        assert Ids(m)[i + 1] == e.0;
      }
    }
  }

  /** Every fused id scores 0.6 times its dense scores plus 0.4 times its
      normalised BM25 score when it is among the selected sparse ids; an id
      in both lists gets the sum. */
  lemma MixedScores(dense: seq<Hit>, scores: seq<real>, order: seq<nat>, k: nat)
    requires scores != [] && IsArgsort(order, Normalised(scores))
    ensures forall e :: e in Mixed(dense, scores, order, k) ==>
      e.1 == DenseWeight * DenseSum(dense, e.0) +
             (if 0 <= e.0 < |scores| && e.0 in TopSparse(order, k) then SparseWeight * Normalised(scores)[e.0] else 0.0)
  {
    var norm := Normalised(scores);
    var top := TopSparse(order, k);
    TopSparseOrder(order, norm, k);
    var mix := Mixed(dense, scores, order, k);
    MixedIds(dense, scores, order, k);
    ItemsAreGets(mix);
    forall e | e in mix ensures e.1 == DenseWeight * DenseSum(dense, e.0) +
        (if 0 <= e.0 < |scores| && e.0 in top then SparseWeight * norm[e.0] else 0.0) {
      AddDenseGet([], dense, e.0);
      AddSparseGet(AddDense([], dense), top, norm, e.0);
    }
  }

  /* ---------- the sorted, truncated ranking ---------- */

  lemma ByScoreOrders()
    ensures TotalPreorder(ByScore)
  {
  }

  /** The result holds min(k, entries) of the fused entries, in
      non-increasing order of score. */
  lemma FusedShape(dense: seq<Hit>, scores: seq<real>, order: seq<nat>, k: nat)
    requires scores != [] && InRange(order, |scores|)
    ensures |Fused(dense, scores, order, k)| == Min(k, |Mixed(dense, scores, order, k)|) <= k
    ensures SortedDesc(Fused(dense, scores, order, k), ByScore)
    ensures multiset(Fused(dense, scores, order, k)) <= multiset(Mixed(dense, scores, order, k))
  {
    var sorted := SortDesc(Mixed(dense, scores, order, k), ByScore);
    ByScoreOrders();
    SortDescSorted(Mixed(dense, scores, order, k), ByScore);
    var r := Fused(dense, scores, order, k);
    assert sorted == r + sorted[|r|..];
  }

  /** No entry left out scores above an entry kept. */
  lemma FusedTopK(dense: seq<Hit>, scores: seq<real>, order: seq<nat>, k: nat)
    requires scores != [] && InRange(order, |scores|)
    ensures forall e :: e in Mixed(dense, scores, order, k) ==>
      e in Fused(dense, scores, order, k) || forall x :: x in Fused(dense, scores, order, k) ==> x.1 >= e.1
  {
    var mix := Mixed(dense, scores, order, k);
    var sorted := SortDesc(mix, ByScore);
    var r := Fused(dense, scores, order, k);
    ByScoreOrders();
    SortDescSorted(mix, ByScore);
    forall e | e in mix && e !in r ensures forall x :: x in r ==> x.1 >= e.1 {
      assert e in multiset(sorted);
      var j :| 0 <= j < |sorted| && sorted[j] == e;
      assert j >= |r|;
      forall x | x in r ensures x.1 >= e.1 {
        var i :| 0 <= i < |r| && r[i] == x;
        assert sorted[i] == x;
      }
    }
  }

  /** Entries with equal scores keep the order they have in the mix. */
  lemma FusedTies(dense: seq<Hit>, scores: seq<real>, order: seq<nat>, k: nat, v: Hit)
    requires scores != [] && InRange(order, |scores|)
    ensures TiedWith(Fused(dense, scores, order, k), v, ByScore) <= TiedWith(Mixed(dense, scores, order, k), v, ByScore)
  {
    var mix := Mixed(dense, scores, order, k);
    var sorted := SortDesc(mix, ByScore);
    ByScoreOrders();
    SortDescStable(mix, v, ByScore);
    PrefixTiedWith(sorted, |Fused(dense, scores, order, k)|, v, ByScore);
  }

  /** Every ranked hit carries its fused score. */
  lemma FusedScores(dense: seq<Hit>, scores: seq<real>, order: seq<nat>, k: nat)
    requires scores != [] && IsArgsort(order, Normalised(scores))
    ensures forall e :: e in Fused(dense, scores, order, k) ==>
      e.1 == DenseWeight * DenseSum(dense, e.0) +
             (if 0 <= e.0 < |scores| && e.0 in TopSparse(order, k) then SparseWeight * Normalised(scores)[e.0] else 0.0)
  {
    FusedShape(dense, scores, order, k);
    MixedScores(dense, scores, order, k);
    forall e | e in Fused(dense, scores, order, k) ensures e in Mixed(dense, scores, order, k) {
      assert e in multiset(Fused(dense, scores, order, k));
    }
  }

  lemma ExampleNormalised()
    ensures Normalised([0.0, 5.0, 2.0]) == [0.0, 1.0, 0.4]
  {
    var s := [0.0, 5.0, 2.0];
    assert MinOf(s) == 0.0 && MaxOf(s) == 5.0;
  }

  lemma ExampleDense()
    ensures AddDense([], [(0, 0.9), (1, 0.7)]) == [(0, 0.54), (1, 0.42)]
  {
    var d1 := Bump([], 0, DenseWeight * 0.9);
    assert d1 == [(0, 0.54)];
    var d := Bump(d1, 1, DenseWeight * 0.7);
    assert d1[1..] == [];
    assert d == [d1[0]] + Bump([], 1, DenseWeight * 0.7);
    assert AddDense([], [(0, 0.9), (1, 0.7)]) == AddDense(d1, [(1, 0.7)]) == AddDense(d, []);
  }

  lemma ExampleSparse()
    ensures AddSparse([(0, 0.54), (1, 0.42)], [1, 2, 0], [0.0, 1.0, 0.4]) == [(0, 0.54), (1, 0.82), (2, 0.16)]
  {
    var d: Mix := [(0, 0.54), (1, 0.42)];
    var norm := [0.0, 1.0, 0.4];
    var m1 := Bump(d, 1, SparseWeight * 1.0);
    assert d[1..] == [(1, 0.42)];
    assert m1 == [d[0]] + Bump(d[1..], 1, SparseWeight * 1.0);
    assert m1 == [(0, 0.54), (1, 0.82)];
    var m2 := Bump(m1, 2, SparseWeight * 0.4);
    assert m1[1..] == [(1, 0.82)] && m1[1..][1..] == [];
    assert Bump(m1[1..], 2, SparseWeight * 0.4) == [(1, 0.82), (2, 0.16)];
    assert m2 == [(0, 0.54), (1, 0.82), (2, 0.16)];
    var m3 := Bump(m2, 0, SparseWeight * 0.0);
    assert m3 == m2;
    assert AddSparse(d, [1, 2, 0], norm) == AddSparse(m1, [2, 0], norm) == AddSparse(m2, [0], norm) == AddSparse(m3, [], norm);
  }

  lemma ExampleSortedPair()
    ensures SortDesc([(0, 0.54), (1, 0.82)], ByScore) == [(1, 0.82), (0, 0.54)]
  {
    var m: Mix := [(0, 0.54), (1, 0.82)];
    assert m[..1] == [(0, 0.54)];
    assert SortDesc([(0, 0.54)], ByScore) == [(0, 0.54)];
    assert SortDesc(m, ByScore) == Insert((1, 0.82), [(0, 0.54)], ByScore);
  }

  lemma ExampleSorted()
    ensures SortDesc([(0, 0.54), (1, 0.82), (2, 0.16)], ByScore) == [(1, 0.82), (0, 0.54), (2, 0.16)]
  {
    var m: Mix := [(0, 0.54), (1, 0.82), (2, 0.16)];
    assert m[..2] == [(0, 0.54), (1, 0.82)];
    ExampleSortedPair();
    var x := (2, 0.16);
    assert Insert(x, [(0, 0.54)], ByScore) == [(0, 0.54), x];
    assert Insert(x, [(1, 0.82), (0, 0.54)], ByScore) == [(1, 0.82)] + Insert(x, [(0, 0.54)], ByScore);
  }

  /** Dense hits {A: 0.9, B: 0.7} and BM25 scores (0, 5, 2) for A, B, C,
      which normalise to (0, 1, 0.4): the fused scores are A 0.54, B 0.82
      and C 0.16, ranked B, A, C. */
  lemma WorkedExample()
    ensures Fused([(0, 0.9), (1, 0.7)], [0.0, 5.0, 2.0], [0, 2, 1], 3) == [(1, 0.82), (0, 0.54), (2, 0.16)]
  {
    ExampleNormalised();
    ExampleDense();
    assert TopSparse([0, 2, 1], 3) == [1, 2, 0];
    ExampleSparse();
    ExampleSorted();
  }

  /* ---------- gather and best_score ---------- */

  /** `gather` succeeds exactly when every hit id indexes the records;
      then passage `i` is the record the id selects, ranked `rank + i`,
      with the hit's score. */
  lemma {:induction false} GatheredFacts(metas: seq<ChunkMeta>, hits: seq<Hit>, rank: nat)
    ensures Gathered(metas, hits, rank).Success? <==>
      forall i :: 0 <= i < |hits| ==> Position(hits[i].0, |metas|).Some?
    ensures Gathered(metas, hits, rank).Success? ==>
      var ps := Gathered(metas, hits, rank).value;
      |ps| == |hits| &&
      forall i :: 0 <= i < |hits| ==>
        ps[i] == Passage(metas[Position(hits[i].0, |metas|).value], rank + i, hits[i].1)
    decreases |hits|
  {
    if hits != [] {
      GatheredFacts(metas, hits[1..], rank + 1);
      assert forall i :: 1 <= i < |hits| ==> hits[1..][i - 1] == hits[i];
    }
  }

  /** The best score is the first-ranked score of a fused ranking. */
  lemma BestOfFused(dense: seq<Hit>, scores: seq<real>, order: seq<nat>, k: nat)
    requires scores != [] && InRange(order, |scores|)
    requires Fused(dense, scores, order, k) != []
    ensures BestScore(Fused(dense, scores, order, k)) == Fused(dense, scores, order, k)[0].1
  {
    FusedShape(dense, scores, order, k);
  }
}
