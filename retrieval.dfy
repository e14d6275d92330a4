/** Hybrid retrieval (`Retriever` in src/retrieval.py): the dense hits of
    the vector index are fused with min-max normalised BM25 scores, and the
    fused hits are turned into ranked passages.

    The sentence embedder, the vector index search and the BM25 scorer are
    library code: their answers are parameters (`dense`, `bm25`, and
    `order`, numpy's `argsort` of the normalised scores). Scores are `real`. */
module Retrieval {
  import opened Wrappers
  import opened Text
  import opened StableSort
  import opened Indexing
  import opened Lines

  /** A hit: a vector ordinal and its score. The vector index reports
      ordinal -1 when it holds fewer than k vectors. */
  type Hit = (int, real)

  const DenseWeight: real := 0.6
  const SparseWeight: real := 0.4
  /** Sparse scores are rescaled only when their spread exceeds 1e-9. */
  const Spread: real := 0.000000001

  /** Corpus texts and queries alike: lower-cased, then split on whitespace. */
  function Tokens(s: string): seq<string> {
    Words(Lower(s))
  }

  /** The tokenised corpus built when BM25 is enabled, one entry per
      metadata record. */
  function Corpus(metas: seq<ChunkMeta>): (r: seq<seq<string>>)
    ensures |r| == |metas| && forall i :: 0 <= i < |metas| ==> r[i] == Tokens(metas[i].text)
  {
    seq(|metas|, i requires 0 <= i < |metas| => Tokens(metas[i].text))
  }

  /** `np.min`. */
  function MinOf(s: seq<real>): (r: real)
    requires s != []
    ensures r in s && forall i :: 0 <= i < |s| ==> r <= s[i]
  {
    if |s| == 1 then s[0]
    else
      var m := MinOf(s[1..]);
      if s[0] <= m then s[0] else m
  }

  /** `np.max`. */
  function MaxOf(s: seq<real>): (r: real)
    requires s != []
    ensures r in s && forall i :: 0 <= i < |s| ==> s[i] <= r
  {
    if |s| == 1 then s[0]
    else
      var m := MaxOf(s[1..]);
      if s[0] >= m then s[0] else m
  }

  /** `s_max`: the maximum score, or 1.0 when the maximum is 0. */
  function Ceiling(s: seq<real>): real
    requires s != []
  {
    if MaxOf(s) != 0.0 then MaxOf(s) else 1.0
  }

  /** Whether the sparse scores are rescaled at all. */
  predicate Rescaled(s: seq<real>)
    requires s != []
  {
    Ceiling(s) - MinOf(s) > Spread
  }

  /** The sparse scores after normalisation. */
  function Normalised(s: seq<real>): (r: seq<real>)
    requires s != []
    ensures |r| == |s|
    ensures !Rescaled(s) ==> r == s
  {
    if Rescaled(s) then
      seq(|s|, i requires 0 <= i < |s| => (s[i] - MinOf(s)) / (Ceiling(s) - MinOf(s)))
    else s
  }

  /** `order` is what `np.argsort(s)` may return: every position once, in
      non-decreasing order of score (ties in any order). */
  predicate IsArgsort(order: seq<nat>, s: seq<real>) {
    |order| == |s| &&
    (forall i :: 0 <= i < |order| ==> order[i] < |s|) &&
    (forall i, j :: 0 <= i < j < |order| ==> order[i] != order[j] && s[order[i]] <= s[order[j]])
  }

  function Reverse<T>(s: seq<T>): (r: seq<T>)
    ensures |r| == |s| && forall i :: 0 <= i < |s| ==> r[i] == s[|s| - 1 - i]
  {
    if s == [] then [] else Reverse(s[1..]) + [s[0]]
  }

  /** Python's `s[-k:]`; note that `s[-0:]` is all of `s`. */
  function LastK<T>(s: seq<T>, k: nat): (r: seq<T>)
    ensures |r| <= |s|
  {
    if k == 0 || k >= |s| then s else s[|s| - k..]
  }

  /** `np.argsort(scores)[-k:][::-1]`: the sparse ids to fuse, best first. */
  function TopSparse(order: seq<nat>, k: nat): seq<nat> {
    Reverse(LastK(order, k))
  }

  /** The `mix` dict as its items in insertion order. */
  type Mix = seq<(int, real)>

  function Ids(m: Mix): (r: seq<int>)
    ensures |r| == |m| && forall i :: 0 <= i < |m| ==> r[i] == m[i].0
  {
    seq(|m|, i requires 0 <= i < |m| => m[i].0)
  }

  /** `mix.get(id, 0)`. */
  function Get(m: Mix, id: int): real {
    if m == [] then 0.0
    else if m[0].0 == id then m[0].1
    else Get(m[1..], id)
  }

  /** `mix[id] = mix.get(id, 0) + delta`: a known id keeps its place, a
      new one goes last. */
  function Bump(m: Mix, id: int, delta: real): Mix {
    if m == [] then [(id, 0.0 + delta)]
    else if m[0].0 == id then [(id, m[0].1 + delta)] + m[1..]
    else [m[0]] + Bump(m[1..], id, delta)
  }

  /** The dense loop: every dense hit adds 0.6 times its score. */
  function AddDense(m: Mix, dense: seq<Hit>): Mix
    decreases |dense|
  {
    if dense == [] then m
    else AddDense(Bump(m, dense[0].0, DenseWeight * dense[0].1), dense[1..])
  }

  predicate InRange(ids: seq<nat>, n: nat) {
    forall i :: 0 <= i < |ids| ==> ids[i] < n
  }

  /** The sparse loop: every selected id adds 0.4 times its normalised score. */
  function AddSparse(m: Mix, top: seq<nat>, norm: seq<real>): Mix
    requires InRange(top, |norm|)
    decreases |top|
  {
    if top == [] then m
    else AddSparse(Bump(m, top[0], SparseWeight * norm[top[0]]), top[1..], norm)
  }

  /** `sorted(..., key=score, reverse=True)` compares scores only. */
  predicate ByScore(a: (int, real), b: (int, real)) {
    a.1 >= b.1
  }

  /** The sparse ids are positions of the scores. */
  lemma TopInRange(order: seq<nat>, k: nat, n: nat)
    requires InRange(order, n)
    ensures InRange(TopSparse(order, k), n)
  {
    var top := TopSparse(order, k);
    var last := LastK(order, k);
    forall i | 0 <= i < |top| ensures top[i] < n {
      assert top[i] == last[|last| - 1 - i];
      assert last[|last| - 1 - i] in order;
    }
  }

  /** The `mix` dict that `search` builds. */
  function Mixed(dense: seq<Hit>, scores: seq<real>, order: seq<nat>, k: nat): Mix
    requires scores != [] && InRange(order, |scores|)
  {
    TopInRange(order, k, |scores|);
    AddSparse(AddDense([], dense), TopSparse(order, k), Normalised(scores))
  }

  /** The fused ranking of `search` with BM25 enabled: the mix, stably
      sorted by non-increasing score, cut to k entries. */
  function Fused(dense: seq<Hit>, scores: seq<real>, order: seq<nat>, k: nat): seq<Hit>
    requires scores != [] && InRange(order, |scores|)
  {
    Take(SortDesc(Mixed(dense, scores, order, k), ByScore), k)
  }

  /** A gathered passage: the metadata record with its 1-based rank and score. */
  datatype Passage = Passage(meta: ChunkMeta, rank: nat, score: real)

  /** Python's `s[id]` on a list of length n: the position it reads, or
      `None` for an `IndexError`. */
  function Position(id: int, n: nat): (r: Option<nat>)
    ensures r.Some? <==> -(n as int) <= id < n
    ensures r.Some? ==> r.value < n && r.value % n == id % n
  {
    if 0 <= id < n then Some(id)
    else if -(n as int) <= id < 0 then Some(n + id)
    else None
  }

  /** `gather` from rank `rank` on. */
  function Gathered(metas: seq<ChunkMeta>, hits: seq<Hit>, rank: nat): Result<seq<Passage>>
    decreases |hits|
  {
    if hits == [] then Success([])
    else match Position(hits[0].0, |metas|)
      case None => Failure("list index out of range")
      case Some(p) =>
        match Gathered(metas, hits[1..], rank + 1)
        case Failure(e) => Failure(e)
        case Success(rest) => Success([Passage(metas[p], rank, hits[0].1)] + rest)
  }

  /** `best_score`: the highest hit score, 0.0 when there are no hits. */
  function BestScore(hits: seq<Hit>): (r: real)
    ensures hits == [] ==> r == 0.0
    ensures hits != [] ==> (exists i :: 0 <= i < |hits| && r == hits[i].1)
    ensures forall i :: 0 <= i < |hits| ==> hits[i].1 <= r
  {
    if hits == [] then 0.0
    else if |hits| == 1 then hits[0].1
    else
      var m := BestScore(hits[1..]);
      assert forall i :: 1 <= i < |hits| ==> hits[i] == hits[1..][i - 1];
      if hits[0].1 >= m then hits[0].1 else m
  }

  /** The `mix` dict while `search` builds it: its keys in insertion order
      and its values. */
  ghost predicate Keyed(ids: seq<int>, vals: map<int, real>) {
    (forall i, j :: 0 <= i < j < |ids| ==> ids[i] != ids[j]) &&
    (forall i :: 0 <= i < |ids| ==> ids[i] in vals) &&
    (forall id :: id in vals ==> id in ids)
  }

  function Items(ids: seq<int>, vals: map<int, real>): Mix
    requires forall i :: 0 <= i < |ids| ==> ids[i] in vals
    decreases |ids|
  {
    if ids == [] then [] else [(ids[0], vals[ids[0]])] + Items(ids[1..], vals)
  }

  lemma {:induction false} ItemsFrame(ids: seq<int>, vals: map<int, real>, id: int, v: real)
    requires forall i :: 0 <= i < |ids| ==> ids[i] in vals
    requires id !in ids
    ensures Items(ids, vals[id := v]) == Items(ids, vals)
    decreases |ids|
  {
    if ids != [] {
      ItemsFrame(ids[1..], vals, id, v);
    }
  }

  lemma {:induction false} ItemsAppend(ids: seq<int>, vals: map<int, real>, id: int)
    requires forall i :: 0 <= i < |ids| ==> ids[i] in vals
    requires id in vals
    ensures Items(ids + [id], vals) == Items(ids, vals) + [(id, vals[id])]
    decreases |ids|
  {
    if ids != [] {
      assert (ids + [id])[1..] == ids[1..] + [id];
      ItemsAppend(ids[1..], vals, id);
    }
  }

  /** One assignment `mix[id] = mix.get(id, 0) + delta` on the dict is
      `Bump` on its items. */
  lemma {:induction false} BumpItems(ids: seq<int>, vals: map<int, real>, id: int, delta: real)
    requires Keyed(ids, vals)
    ensures var v := (if id in vals then vals[id] else 0.0) + delta;
      var ids' := if id in vals then ids else ids + [id];
      Keyed(ids', vals[id := v]) &&
      Items(ids', vals[id := v]) == Bump(Items(ids, vals), id, delta)
    decreases |ids|
  {
    var v := (if id in vals then vals[id] else 0.0) + delta;
    if id !in vals {
      ItemsFrame(ids, vals, id, v);
      ItemsAppend(ids, vals[id := v], id);
      BumpAbsent(Items(ids, vals), ids, vals, id, delta);
    } else {
      BumpPresent(ids, vals, id, delta);
    }
  }

  lemma {:induction false} BumpAbsent(m: Mix, ids: seq<int>, vals: map<int, real>, id: int, delta: real)
    requires forall i :: 0 <= i < |ids| ==> ids[i] in vals
    requires m == Items(ids, vals) && id !in ids
    ensures Bump(m, id, delta) == m + [(id, 0.0 + delta)]
    decreases |ids|
  {
    if ids != [] {
      BumpAbsent(Items(ids[1..], vals), ids[1..], vals, id, delta);
    }
  }

  lemma {:induction false} BumpPresent(ids: seq<int>, vals: map<int, real>, id: int, delta: real)
    requires forall i :: 0 <= i < |ids| ==> ids[i] in vals
    requires forall i, j :: 0 <= i < j < |ids| ==> ids[i] != ids[j]
    requires id in ids
    ensures Items(ids, vals[id := vals[id] + delta]) == Bump(Items(ids, vals), id, delta)
    decreases |ids|
  {
    var v := vals[id] + delta;
    if ids[0] == id {
      assert id !in ids[1..];
      ItemsFrame(ids[1..], vals, id, v);
    } else {
      BumpPresent(ids[1..], vals, id, delta);
    }
  }

  class Retriever {
    /** The records of meta.jsonl, in line order. */
    const metas: seq<ChunkMeta>
    /** The tokenised corpus when BM25 is enabled. */
    const corpus: Option<seq<seq<string>>>

    /** `__init__`: read the metadata records; with BM25 enabled, tokenise
        every record's text. The BM25 library cannot be built over an
        empty corpus. */
    constructor (lines: seq<ChunkMeta>, bm25: bool)
      requires bm25 ==> lines != []
      ensures metas == lines
      ensures corpus == (if bm25 then Some(Corpus(lines)) else None)
    {
      var read: seq<ChunkMeta> := [];
      var i := 0;
      while i < |lines|
        invariant i <= |lines| && read == lines[..i]
      {
        read := read + [lines[i]];
        i := i + 1;
      }
      metas := read;
      corpus := if bm25 then Some(Corpus(read)) else None;
    }

    /** `search`: with BM25 disabled the dense hits as they are; otherwise
        the fused ranking. `bm25(tokens)` is the scorer's answer, one score
        per record, and `order` numpy's argsort of the normalised scores. */
    method Search(q: string, k: nat, dense: seq<Hit>, bm25: seq<string> -> seq<real>, order: seq<nat>)
      returns (hits: seq<Hit>)
      requires corpus.Some? ==> |bm25(Tokens(q))| == |corpus.value| > 0
      requires corpus.Some? ==> IsArgsort(order, Normalised(bm25(Tokens(q))))
      ensures corpus.None? ==> hits == dense
      ensures corpus.Some? ==> hits == Fused(dense, bm25(Tokens(q)), order, k)
    {
      hits := dense;
      if corpus.Some? {
        var tok := Tokens(q);
        var raw := bm25(tok);
        var scores := Normalised(raw);
        var ids, vals := MixDense([], map[], dense);
        var top := TopSparse(order, k);
        TopInRange(order, k, |scores|);
        ids, vals := MixSparse(ids, vals, top, scores);
        hits := Take(SortDesc(Items(ids, vals), ByScore), k);
      }
    }

    /** `gather`: one passage per hit, in order, ranked from 1; a hit id
        outside the records raises `IndexError` (negative ids index from
        the end, as in Python). */
    method Gather(hits: seq<Hit>) returns (r: Result<seq<Passage>>)
      ensures r == Gathered(metas, hits, 1)
    {
      var out: seq<Passage> := [];
      var i := 0;
      assert hits[0..] == hits;
      PrefixedEmpty(Gathered(metas, hits, 1));
      while i < |hits|
        invariant i <= |hits|
        invariant Gathered(metas, hits, 1) == Prefixed(out, Gathered(metas, hits[i..], i + 1))
      {
        var p := Position(hits[i].0, |metas|);
        assert hits[i..][0] == hits[i];
        if p.None? {
          return Failure("list index out of range");
        }
        assert hits[i..][1..] == hits[i + 1..];
        PrefixedAppend(out, Passage(metas[p.value], i + 1, hits[i].1), Gathered(metas, hits[i + 1..], i + 2));
        out := out + [Passage(metas[p.value], i + 1, hits[i].1)];
        i := i + 1;
      }
      assert hits[i..] == [];
      assert out + [] == out;
      r := Success(out);
    }
  }

  /** The dense loop of `search` on the `mix` dict. */
  method MixDense(ids0: seq<int>, vals0: map<int, real>, dense: seq<Hit>) returns (ids: seq<int>, vals: map<int, real>)
    requires Keyed(ids0, vals0)
    ensures Keyed(ids, vals) && Items(ids, vals) == AddDense(Items(ids0, vals0), dense)
  {
    ids, vals := ids0, vals0;
    var i := 0;
    while i < |dense|
      invariant i <= |dense| && Keyed(ids, vals)
      invariant AddDense(Items(ids, vals), dense[i..]) == AddDense(Items(ids0, vals0), dense)
    {
      var id := dense[i].0;
      var delta := DenseWeight * dense[i].1;
      BumpItems(ids, vals, id, delta);
      AddDenseStep(Items(ids, vals), dense, i);
      var v := (if id in vals then vals[id] else 0.0) + delta;
      if id !in vals {
        ids := ids + [id];
      }
      vals := vals[id := v];
      i := i + 1;
    }
  }

  /** The sparse loop of `search` on the `mix` dict. */
  method MixSparse(ids0: seq<int>, vals0: map<int, real>, top: seq<nat>, norm: seq<real>) returns (ids: seq<int>, vals: map<int, real>)
    requires Keyed(ids0, vals0) && InRange(top, |norm|)
    ensures Keyed(ids, vals) && Items(ids, vals) == AddSparse(Items(ids0, vals0), top, norm)
  {
    ids, vals := ids0, vals0;
    var j := 0;
    assert top[0..] == top;
    while j < |top|
      invariant j <= |top| && Keyed(ids, vals)
      invariant AddSparse(Items(ids, vals), top[j..], norm) == AddSparse(Items(ids0, vals0), top, norm)
    {
      var id: int := top[j];
      var delta := SparseWeight * norm[top[j]];
      BumpItems(ids, vals, id, delta);
      AddSparseStep(Items(ids, vals), top, j, norm);
      var v := (if id in vals then vals[id] else 0.0) + delta;
      if id !in vals {
        ids := ids + [id];
      }
      vals := vals[id := v];
      j := j + 1;
    }
  }

  lemma AddDenseStep(m: Mix, dense: seq<Hit>, i: nat)
    requires i < |dense|
    ensures AddDense(m, dense[i..]) == AddDense(Bump(m, dense[i].0, DenseWeight * dense[i].1), dense[i + 1..])
  {
    assert dense[i..][1..] == dense[i + 1..];
  }

  lemma AddSparseStep(m: Mix, top: seq<nat>, j: nat, norm: seq<real>)
    requires j < |top| && InRange(top, |norm|)
    ensures InRange(top[j..], |norm|) && InRange(top[j + 1..], |norm|)
    ensures AddSparse(m, top[j..], norm) == AddSparse(Bump(m, top[j], SparseWeight * norm[top[j]]), top[j + 1..], norm)
  {
    assert top[j..][1..] == top[j + 1..];
  }

  /** `out` followed by the passages of `rest`, unless `rest` failed. */
  function Prefixed(out: seq<Passage>, rest: Result<seq<Passage>>): Result<seq<Passage>> {
    match rest
    case Failure(e) => Failure(e)
    case Success(ps) => Success(out + ps)
  }

  lemma PrefixedEmpty(rest: Result<seq<Passage>>)
    ensures Prefixed([], rest) == rest
  {
    if rest.Success? {
      assert [] + rest.value == rest.value;
    }
  }

  lemma PrefixedAppend(out: seq<Passage>, p: Passage, rest: Result<seq<Passage>>)
    ensures Prefixed(out, Prefixed([p], rest)) == Prefixed(out + [p], rest)
  {
    if rest.Success? {
      assert out + ([p] + rest.value) == (out + [p]) + rest.value;
    }
  }
}
