/** What the indexer's state machine guarantees: batching covers the input,
    vectors and metadata lines stay in lockstep, snapshots land on exact
    multiples, the index is created once from the first batch, and an
    unknown index type fails before anything is added. */
module IndexingFacts {
  import opened Wrappers
  import opened Text
  import opened Chunker
  import opened Indexing

  lemma {:induction false} FlattenAppend<T>(a: seq<seq<T>>, b: seq<seq<T>>)
    ensures Flatten(a + b) == Flatten(a) + Flatten(b)
  {
    if a == [] {
      assert a + b == b;
    } else {
      assert (a + b)[1..] == a[1..] + b;
      FlattenAppend(a[1..], b);
    }
  }

  /** The batches cover the input exactly, in order; every batch is
      non-empty and at most `b` long, and only the last may be short. */
  lemma {:induction false} BatchesCover<T>(xs: seq<T>, b: nat)
    requires b > 0
    ensures Flatten(Batches(xs, b)) == xs
    ensures forall i :: 0 <= i < |Batches(xs, b)| ==> 0 < |Batches(xs, b)[i]| <= b
    ensures forall i :: 0 <= i < |Batches(xs, b)| - 1 ==> |Batches(xs, b)[i]| == b
    decreases |xs|
  {
    if xs != [] {
      var m := Min(b, |xs|);
      BatchesCover(xs[m..], b);
      assert xs[..m] + xs[m..] == xs;
    }
  }

  /** One batch off the front of the embedder inputs. */
  lemma PassageBatchesStep(metas: seq<ChunkMeta>, b: nat)
    requires b > 0 && metas != []
    ensures Batches(Passages(metas), b) ==
      [Passages(metas[..Min(b, |metas|)])] + Batches(Passages(metas[Min(b, |metas|)..]), b)
  {
    var m := Min(b, |metas|);
    assert Passages(metas)[..m] == Passages(metas[..m]);
    assert Passages(metas)[m..] == Passages(metas[m..]);
  }

  /** The log grows by `metas`, the total by their number, and the embedder
      sees their passages in consecutive batches. */
  predicate Appended(s: BuildState, t: BuildState, metas: seq<ChunkMeta>, b: nat)
    requires b > 0
  {
    t.metaLog == Some(Lines(s.metaLog) + metas) &&
    t.totalVecs == s.totalVecs + |metas| &&
    t.embedCalls == s.embedCalls + Batches(Passages(metas), b)
  }

  /** `add_texts` fails exactly when it has to create the index and the
      index type is unknown; when it succeeds on some chunk, the index
      exists afterwards. */
  lemma {:induction false} TextsAddedOk(s: BuildState, metas: seq<ChunkMeta>, cfg: Settings)
    requires cfg.batchSize > 0
    ensures TextsAdded(s, metas, cfg).ok <==> s.index.Some? || metas == [] || KnownIndexType(cfg.indexType)
    ensures TextsAdded(s, metas, cfg).ok && (s.index.Some? || metas != []) ==> TextsAdded(s, metas, cfg).state.index.Some?
    decreases |metas|
  {
    if metas != [] {
      var m := Min(cfg.batchSize, |metas|);
      var o := BatchAdded(s, metas[..m], cfg);
      if o.ok {
        TextsAddedOk(o.state, metas[m..], cfg);
      }
    }
  }

  /** A failing `add_texts` has embedded its first batch and changed
      nothing else. */
  lemma TextsAddedFailure(s: BuildState, metas: seq<ChunkMeta>, cfg: Settings)
    requires cfg.batchSize > 0
    ensures !TextsAdded(s, metas, cfg).ok ==>
      TextsAdded(s, metas, cfg).state == s.(embedCalls := s.embedCalls + [Passages(metas[..Min(cfg.batchSize, |metas|)])])
  {
    TextsAddedOk(s, metas, cfg);
    if metas != [] && s.index.None? && !KnownIndexType(cfg.indexType) {
      var m := Min(cfg.batchSize, |metas|);
      assert !BatchAdded(s, metas[..m], cfg).ok;
    }
  }

  /** `add_texts` leaves the build's other outputs alone. */
  lemma {:induction false} TextsAddedOutside(s: BuildState, metas: seq<ChunkMeta>, cfg: Settings)
    requires cfg.batchSize > 0
    ensures SameOutside(s, TextsAdded(s, metas, cfg).state)
    decreases |metas|
  {
    if metas != [] {
      var m := Min(cfg.batchSize, |metas|);
      var o := BatchAdded(s, metas[..m], cfg);
      if o.ok {
        TextsAddedOutside(o.state, metas[m..], cfg);
      }
    }
  }

  /** A successful `add_texts` writes one metadata line per chunk, in
      order, and counts each. */
  lemma {:induction false} TextsAddedLog(s: BuildState, metas: seq<ChunkMeta>, cfg: Settings)
    requires cfg.batchSize > 0 && s.metaLog.Some?
    ensures TextsAdded(s, metas, cfg).ok ==>
      TextsAdded(s, metas, cfg).state.metaLog == Some(Lines(s.metaLog) + metas) &&
      TextsAdded(s, metas, cfg).state.totalVecs == s.totalVecs + |metas|
    decreases |metas|
  {
    if metas != [] {
      var m := Min(cfg.batchSize, |metas|);
      var o := BatchAdded(s, metas[..m], cfg);
      if o.ok {
        TextsAddedLog(o.state, metas[m..], cfg);
        assert Lines(o.state.metaLog) == Lines(s.metaLog) + metas[..m];
        assert metas[..m] + metas[m..] == metas;
        assert Lines(s.metaLog) + metas[..m] + metas[m..] == Lines(s.metaLog) + metas;
      }
    } else {
      assert Lines(s.metaLog) + metas == Lines(s.metaLog);
    }
  }

  /** A successful `add_texts` hands the embedder the passages of the
      chunks in consecutive batches of `batchSize`. */
  lemma {:induction false} TextsAddedCalls(s: BuildState, metas: seq<ChunkMeta>, cfg: Settings)
    requires cfg.batchSize > 0
    ensures TextsAdded(s, metas, cfg).ok ==>
      TextsAdded(s, metas, cfg).state.embedCalls == s.embedCalls + Batches(Passages(metas), cfg.batchSize)
    decreases |metas|
  {
    if metas != [] {
      var m := Min(cfg.batchSize, |metas|);
      var o := BatchAdded(s, metas[..m], cfg);
      if o.ok {
        TextsAddedCalls(o.state, metas[m..], cfg);
        PassageBatchesStep(metas, cfg.batchSize);
      }
    } else {
      assert Batches(Passages(metas), cfg.batchSize) == [];
    }
  }

  lemma TextsAddedAppends(s: BuildState, metas: seq<ChunkMeta>, cfg: Settings)
    requires cfg.batchSize > 0 && s.metaLog.Some?
    ensures TextsAdded(s, metas, cfg).ok ==> Appended(s, TextsAdded(s, metas, cfg).state, metas, cfg.batchSize)
  {
    TextsAddedLog(s, metas, cfg);
    TextsAddedCalls(s, metas, cfg);
  }

  lemma EmbeddingsAppend(embed: string -> Vector, a: seq<ChunkMeta>, b: seq<ChunkMeta>)
    ensures Embeddings(embed, a + b) == Embeddings(embed, a) + Embeddings(embed, b)
  {
  }

  /** One batch keeps vectors and metadata lines in lockstep and the
      snapshot a prefix of the index. */
  lemma BatchAddedConsistent(s: BuildState, batch: seq<ChunkMeta>, cfg: Settings)
    requires batch != [] && Consistent(s, cfg.embed)
    ensures BatchAdded(s, batch, cfg).ok ==> Consistent(BatchAdded(s, batch, cfg).state, cfg.embed)
  {
    var o := BatchAdded(s, batch, cfg);
    if o.ok {
      EmbeddingsAppend(cfg.embed, s.metaLog.value, batch);
      var t := o.state;
      if s.savedIndex.Some? && t.savedIndex == s.savedIndex {
        var k := |s.savedIndex.value|;
        assert t.index.value.vectors[..k] == s.index.value.vectors[..k];
      }
    }
  }

  /** The index is vector-for-vector the embedding of the metadata log
      after every successful `add_texts`: vector ordinal `i` is line `i`. */
  lemma {:induction false} TextsAddedConsistent(s: BuildState, metas: seq<ChunkMeta>, cfg: Settings)
    requires cfg.batchSize > 0 && Consistent(s, cfg.embed)
    ensures TextsAdded(s, metas, cfg).ok ==> Consistent(TextsAdded(s, metas, cfg).state, cfg.embed)
    decreases |metas|
  {
    if metas != [] {
      var m := Min(cfg.batchSize, |metas|);
      BatchAddedConsistent(s, metas[..m], cfg);
      var o := BatchAdded(s, metas[..m], cfg);
      if o.ok {
        TextsAddedConsistent(o.state, metas[m..], cfg);
      }
    }
  }

  /** A snapshot written at `cp` vectors (if any) is the prefix of the final
      index of that length; with none written, `s`'s snapshot is kept. */
  predicate SnapshotAt(s: BuildState, t: BuildState, cp: Option<nat>) {
    (cp.Some? ==> t.index.Some? && cp.value <= |t.index.value.vectors| &&
                  t.savedIndex == Some(t.index.value.vectors[..cp.value])) &&
    (cp.None? ==> t.savedIndex == s.savedIndex)
  }

  /** The last snapshot from `t` on is the last one written after `t`, or
      `cp` when none is. */
  lemma {:induction false} CheckpointShift(cp: Option<nat>, t: nat, count: nat, b: nat)
    requires b > 0
    ensures CheckpointFrom(cp, t, count, b) ==
      (if CheckpointFrom(None, t, count, b).Some? then CheckpointFrom(None, t, count, b) else cp)
    decreases count
  {
    if count > 0 {
      var m := Min(b, count);
      var c := if (t + m) % PersistEvery == 0 then Some(t + m) else cp;
      var c0: Option<nat> := if (t + m) % PersistEvery == 0 then Some(t + m) else None;
      CheckpointShift(c, t + m, count - m, b);
      CheckpointShift(c0, t + m, count - m, b);
    }
  }

  /** One batch adds its vectors to the total, and writes a snapshot of the
      whole index exactly when the new total is a multiple of
      `PersistEvery`. */
  lemma BatchAddedSaved(s: BuildState, batch: seq<ChunkMeta>, cfg: Settings)
    requires batch != []
    ensures var o := BatchAdded(s, batch, cfg);
      o.ok ==> (o.state.totalVecs == s.totalVecs + |batch| && o.state.index.Some? &&
                (o.state.totalVecs % PersistEvery == 0 ==> o.state.savedIndex == Some(o.state.index.value.vectors)) &&
                (o.state.totalVecs % PersistEvery != 0 ==> o.state.savedIndex == s.savedIndex))
  {
  }

  /** The last snapshot of a run of batches is the last one after the
      first batch, or the first batch's own when none follows. */
  lemma CheckpointFirstBatch(t: nat, count: nat, b: nat, m: nat, t1: nat, left: nat)
    requires b > 0 && count > 0 && m == Min(b, count) && t1 == t + m && left == count - m
    ensures CheckpointFrom(None, t1, left, b).Some? ==>
      CheckpointFrom(None, t, count, b) == CheckpointFrom(None, t1, left, b)
    ensures CheckpointFrom(None, t1, left, b).None? && t1 % PersistEvery == 0 ==>
      CheckpointFrom(None, t, count, b) == Some(t1)
    ensures CheckpointFrom(None, t1, left, b).None? && t1 % PersistEvery != 0 ==>
      CheckpointFrom(None, t, count, b) == None
  {
    var c1: Option<nat> := if t1 % PersistEvery == 0 then Some(t1) else None;
    CheckpointShift(c1, t1, left, b);
  }

  /** `add_texts` only appends to an existing index. */
  lemma TextsAddedExtends(s: BuildState, metas: seq<ChunkMeta>, cfg: Settings)
    requires cfg.batchSize > 0 && Consistent(s, cfg.embed) && s.index.Some?
    ensures TextsAdded(s, metas, cfg).ok ==>
      var t := TextsAdded(s, metas, cfg).state;
      t.index.Some? && s.totalVecs <= |t.index.value.vectors| &&
      t.index.value.vectors[..s.totalVecs] == s.index.value.vectors
  {
    var t := TextsAdded(s, metas, cfg).state;
    TextsAddedConsistent(s, metas, cfg);
    TextsAddedLog(s, metas, cfg);
    TextsAddedOk(s, metas, cfg);
    EmbeddingsAppend(cfg.embed, s.metaLog.value, metas);
    if TextsAdded(s, metas, cfg).ok {
      assert t.index.value.vectors[..s.totalVecs] == s.index.value.vectors;
    }
  }

  /** The snapshot after a first batch that brought the total to `t1`
      and a rest whose last snapshot is `r`: `r` if there is one, else the
      first batch's own if it wrote one, else the old one. */
  lemma SnapshotCases(s: BuildState, s1: BuildState, t: BuildState, t1: nat, r: Option<nat>, cp: Option<nat>)
    requires r.Some? ==> cp == r
    requires r.None? && t1 % PersistEvery == 0 ==> cp == Some(t1)
    requires r.None? && t1 % PersistEvery != 0 ==> cp == None
    requires SnapshotAt(s1, t, r) && s1.index.Some? && s1.totalVecs == t1
    requires t1 % PersistEvery == 0 ==> s1.savedIndex == Some(s1.index.value.vectors)
    requires t1 % PersistEvery != 0 ==> s1.savedIndex == s.savedIndex
    requires t.index.Some? && t1 <= |t.index.value.vectors| && t.index.value.vectors[..t1] == s1.index.value.vectors
    ensures SnapshotAt(s, t, cp)
  {
  }

  /** A successful `add_texts` leaves on disk the snapshot taken at the
      last batch whose running total was a multiple of `PersistEvery`. */
  lemma {:induction false} TextsAddedSnapshot(s: BuildState, metas: seq<ChunkMeta>, cfg: Settings)
    requires cfg.batchSize > 0 && Consistent(s, cfg.embed)
    ensures TextsAdded(s, metas, cfg).ok ==>
      SnapshotAt(s, TextsAdded(s, metas, cfg).state, CheckpointFrom(None, s.totalVecs, |metas|, cfg.batchSize))
    decreases |metas|
  {
    if metas != [] {
      var b := cfg.batchSize;
      var m := Min(b, |metas|);
      var o := BatchAdded(s, metas[..m], cfg);
      if o.ok {
        var s1 := o.state;
        var rest := metas[m..];
        var t := TextsAdded(s1, rest, cfg).state;
        assert TextsAdded(s, metas, cfg).state == t;
        BatchAddedConsistent(s, metas[..m], cfg);
        TextsAddedSnapshot(s1, rest, cfg);
        BatchAddedSaved(s, metas[..m], cfg);
        var t1 := s1.totalVecs;
        assert t1 == s.totalVecs + m && |rest| == |metas| - m;
        CheckpointFirstBatch(s.totalVecs, |metas|, b, m, t1, |rest|);
        if TextsAdded(s1, rest, cfg).ok {
          TextsAddedExtends(s1, rest, cfg);
          SnapshotCases(s, s1, t, t1, CheckpointFrom(None, t1, |rest|, b), CheckpointFrom(None, s.totalVecs, |metas|, b));
        }
      }
    }
  }

  /** The index is created once, from the first batch: it has the
      configured kind and the first embedding's dimension, and an IVF index
      is trained on at most `IvfTrainMax` rows of that batch. Later calls
      keep its shape. */
  lemma {:induction false} TextsAddedShape(s: BuildState, metas: seq<ChunkMeta>, cfg: Settings)
    requires cfg.batchSize > 0
    ensures TextsAdded(s, metas, cfg).ok && s.index.Some? ==>
      TextsAdded(s, metas, cfg).state.index.Some? &&
      Shape(TextsAdded(s, metas, cfg).state.index.value) == Shape(s.index.value)
    ensures TextsAdded(s, metas, cfg).ok && s.index.None? && metas != [] ==>
      KnownIndexType(cfg.indexType) && TextsAdded(s, metas, cfg).state.index.Some? &&
      Shape(TextsAdded(s, metas, cfg).state.index.value) == FirstShape(metas[..Min(cfg.batchSize, |metas|)], cfg)
    decreases |metas|
  {
    if metas != [] {
      var m := Min(cfg.batchSize, |metas|);
      var o := BatchAdded(s, metas[..m], cfg);
      if o.ok {
        TextsAddedShape(o.state, metas[m..], cfg);
      }
    }
  }

  predicate NonEmptyGroups(groups: seq<seq<ChunkMeta>>) {
    forall i :: 0 <= i < |groups| ==> groups[i] != []
  }

  lemma NonEmptyTail(groups: seq<seq<ChunkMeta>>)
    requires groups != [] && NonEmptyGroups(groups)
    ensures groups[0] != [] && NonEmptyGroups(groups[1..])
    ensures Flatten(groups) == groups[0] + Flatten(groups[1..])
  {
  }

  /** A row of `add_texts` calls fails exactly when the index has to be
      created from one of its chunks and the index type is unknown. */
  lemma {:induction false} EachAddedOk(s: BuildState, groups: seq<seq<ChunkMeta>>, cfg: Settings)
    requires cfg.batchSize > 0 && NonEmptyGroups(groups)
    ensures EachAdded(s, groups, cfg).ok <==> s.index.Some? || Flatten(groups) == [] || KnownIndexType(cfg.indexType)
    ensures EachAdded(s, groups, cfg).ok && (s.index.Some? || Flatten(groups) != []) ==> EachAdded(s, groups, cfg).state.index.Some?
    decreases |groups|
  {
    if groups != [] {
      NonEmptyTail(groups);
      TextsAddedOk(s, groups[0], cfg);
      var o := TextsAdded(s, groups[0], cfg);
      if o.ok {
        EachAddedOk(o.state, groups[1..], cfg);
      }
    }
  }

  /** After a successful row of `add_texts` calls the log holds all their
      chunks, in order, and the index still matches it line for line; the
      build's other outputs are left alone either way. */
  lemma {:induction false} EachAddedLog(s: BuildState, groups: seq<seq<ChunkMeta>>, cfg: Settings)
    requires cfg.batchSize > 0 && NonEmptyGroups(groups) && Consistent(s, cfg.embed)
    ensures SameOutside(s, EachAdded(s, groups, cfg).state)
    ensures EachAdded(s, groups, cfg).ok ==>
      Consistent(EachAdded(s, groups, cfg).state, cfg.embed) &&
      EachAdded(s, groups, cfg).state.metaLog == Some(s.metaLog.value + Flatten(groups))
    decreases |groups|
  {
    if groups != [] {
      NonEmptyTail(groups);
      TextsAddedOutside(s, groups[0], cfg);
      TextsAddedLog(s, groups[0], cfg);
      TextsAddedConsistent(s, groups[0], cfg);
      var o := TextsAdded(s, groups[0], cfg);
      if o.ok {
        EachAddedLog(o.state, groups[1..], cfg);
        assert s.metaLog.value + groups[0] + Flatten(groups[1..]) == s.metaLog.value + Flatten(groups);
      }
    } else {
      assert s.metaLog.value + [] == s.metaLog.value;
    }
  }

  lemma {:induction false} EachAddedOutside(s: BuildState, groups: seq<seq<ChunkMeta>>, cfg: Settings)
    requires cfg.batchSize > 0
    ensures SameOutside(s, EachAdded(s, groups, cfg).state)
    decreases |groups|
  {
    if groups != [] {
      TextsAddedOutside(s, groups[0], cfg);
      var o := TextsAdded(s, groups[0], cfg);
      if o.ok {
        EachAddedOutside(o.state, groups[1..], cfg);
      }
    }
  }

  /** Indexing a file leaves the counters and index.json alone. */
  lemma FileAddedOutside(s: BuildState, f: SourceFile, cfg: Settings)
    requires cfg.batchSize > 0
    ensures SameOutside(s, FileAdded(s, f, cfg).state)
  {
    EachAddedOutside(s, Batches(FileMetas(f), FlushAt), cfg);
  }

  /** A file's chunks go to `add_texts` in full groups of `FlushAt` and one
      last group of between 1 and `FlushAt`, covering them all in order. */
  lemma FlushGroups(f: SourceFile)
    ensures Flatten(Batches(FileMetas(f), FlushAt)) == FileMetas(f)
    ensures forall i :: 0 <= i < |Batches(FileMetas(f), FlushAt)| ==> 0 < |Batches(FileMetas(f), FlushAt)[i]| <= FlushAt
    ensures forall i :: 0 <= i < |Batches(FileMetas(f), FlushAt)| - 1 ==> |Batches(FileMetas(f), FlushAt)[i]| == FlushAt
  {
    BatchesCover(FileMetas(f), FlushAt);
  }

  /** One file: fails exactly when its chunks would create the index and
      the type is unknown; otherwise its chunks are appended to the log and
      the index still matches it. */
  lemma FileAddedFacts(s: BuildState, f: SourceFile, cfg: Settings)
    requires cfg.batchSize > 0 && Consistent(s, cfg.embed)
    ensures FileAdded(s, f, cfg).ok <==> s.index.Some? || FileMetas(f) == [] || KnownIndexType(cfg.indexType)
    ensures FileAdded(s, f, cfg).ok && (s.index.Some? || FileMetas(f) != []) ==> FileAdded(s, f, cfg).state.index.Some?
    ensures SameOutside(s, FileAdded(s, f, cfg).state)
    ensures FileAdded(s, f, cfg).ok ==>
      Consistent(FileAdded(s, f, cfg).state, cfg.embed) &&
      FileAdded(s, f, cfg).state.metaLog == Some(s.metaLog.value + FileMetas(f))
  {
    var groups := Batches(FileMetas(f), FlushAt);
    BatchesCover(FileMetas(f), FlushAt);
    EachAddedOk(s, groups, cfg);
    EachAddedLog(s, groups, cfg);
  }

  /** The position, from `i` on, of the first file before which
      cancellation is requested (`|files|` when there is none). */
  function StopAt(files: seq<SourceFile>, cancel: nat -> bool, i: nat): (e: nat)
    requires i <= |files|
    ensures i <= e <= |files|
    decreases |files| - i
  {
    if i == |files| || cancel(i + 1) then i else StopAt(files, cancel, i + 1)
  }

  /** The chunks of files `i` to `e - 1`, in file order. */
  function MetasIn(files: seq<SourceFile>, i: nat, e: nat): seq<ChunkMeta>
    requires e <= |files|
    decreases e - i
  {
    if i >= e then [] else FileMetas(files[i]) + MetasIn(files, i + 1, e)
  }

  /** How many of files `i` to `e - 1` the loader could read. */
  function LoadedIn(files: seq<SourceFile>, i: nat, e: nat): (r: nat)
    requires e <= |files|
    ensures r <= e - i || i >= e
    decreases e - i
  {
    if i >= e then 0 else (if files[i].pages.Some? then 1 else 0) + LoadedIn(files, i + 1, e)
  }

  /** The percentages reported after files `from + 1` to `from + count` of
      `total` are done. */
  function Percents(from: nat, count: nat, total: nat): seq<nat>
    decreases count
  {
    if count == 0 || total == 0 then [] else [Percent(from + 1, total)] + Percents(from + 1, count - 1, total)
  }

  lemma AppendAssoc<T>(a: seq<T>, b: seq<T>, c: seq<T>, bc: seq<T>)
    requires bc == b + c
    ensures a + b + c == a + bc
  {
  }

  lemma PercentsStep(before: seq<nat>, from: nat, count: nat, total: nat)
    requires total > 0
    ensures before + [Percent(from + 1, total)] + Percents(from + 1, count, total) ==
      before + Percents(from, count + 1, total)
  {
  }

  /** Counting a file after one whose processing left the counters alone. */
  lemma CountedAfter(s: BuildState, t: BuildState, total: nat)
    requires total > 0 && SameOutside(s, t)
    ensures Counted(t, total).processed == s.processed + 1
    ensures Counted(t, total).progress == s.progress + [Percent(s.processed + 1, total)]
  {
  }

  lemma CountedConsistent(s: BuildState, total: nat, embed: string -> Vector)
    requires total > 0 && Consistent(s, embed)
    ensures Consistent(Counted(s, total), embed)
  {
  }

  /** The file loop fails exactly when a chunk of a file reached before
      cancellation would create the index and the type is unknown. */
  lemma {:induction false} FilesFromOk(s: BuildState, files: seq<SourceFile>, i: nat, cancel: nat -> bool, cfg: Settings)
    requires cfg.batchSize > 0 && Consistent(s, cfg.embed) && i <= |files|
    ensures FilesFrom(s, files, i, cancel, cfg).ok <==>
      s.index.Some? || MetasIn(files, i, StopAt(files, cancel, i)) == [] || KnownIndexType(cfg.indexType)
    ensures FilesFrom(s, files, i, cancel, cfg).ok && (s.index.Some? || MetasIn(files, i, StopAt(files, cancel, i)) != []) ==>
      FilesFrom(s, files, i, cancel, cfg).state.index.Some?
    decreases |files| - i, 1
  {
    if i < |files| && !cancel(i + 1) {
      var e := StopAt(files, cancel, i);
      assert e == StopAt(files, cancel, i + 1);
      assert MetasIn(files, i, e) == FileMetas(files[i]) + MetasIn(files, i + 1, e);
      if files[i].pages.None? {
        FilesFromOkSkipped(s, files, i, cancel, cfg);
      } else {
        FilesFromOkLoaded(s, files, i, cancel, cfg);
      }
    }
  }

  /** `FilesFromOk` when file `i` is reached and could not be read. */
  lemma {:induction false} FilesFromOkSkipped(s: BuildState, files: seq<SourceFile>, i: nat, cancel: nat -> bool, cfg: Settings)
    requires cfg.batchSize > 0 && Consistent(s, cfg.embed) && i < |files| && !cancel(i + 1) && files[i].pages.None?
    ensures FilesFrom(s, files, i, cancel, cfg).ok <==>
      s.index.Some? || FileMetas(files[i]) + MetasIn(files, i + 1, StopAt(files, cancel, i + 1)) == [] || KnownIndexType(cfg.indexType)
    ensures FilesFrom(s, files, i, cancel, cfg).ok && (s.index.Some? || FileMetas(files[i]) + MetasIn(files, i + 1, StopAt(files, cancel, i + 1)) != []) ==>
      FilesFrom(s, files, i, cancel, cfg).state.index.Some?
    decreases |files| - i, 0
  {
    FilesFromOk(s, files, i + 1, cancel, cfg);
    assert FileMetas(files[i]) == [];
  }

  /** `FilesFromOk` when file `i` is reached and was loaded. */
  lemma {:induction false} FilesFromOkLoaded(s: BuildState, files: seq<SourceFile>, i: nat, cancel: nat -> bool, cfg: Settings)
    requires cfg.batchSize > 0 && Consistent(s, cfg.embed) && i < |files| && !cancel(i + 1) && files[i].pages.Some?
    ensures FilesFrom(s, files, i, cancel, cfg).ok <==>
      s.index.Some? || FileMetas(files[i]) + MetasIn(files, i + 1, StopAt(files, cancel, i + 1)) == [] || KnownIndexType(cfg.indexType)
    ensures FilesFrom(s, files, i, cancel, cfg).ok && (s.index.Some? || FileMetas(files[i]) + MetasIn(files, i + 1, StopAt(files, cancel, i + 1)) != []) ==>
      FilesFrom(s, files, i, cancel, cfg).state.index.Some?
    decreases |files| - i, 0
  {
    FileAddedFacts(s, files[i], cfg);
    var o := FileAdded(s, files[i], cfg);
    if o.ok {
      CountedConsistent(o.state, |files|, cfg.embed);
      FilesFromOk(Counted(o.state, |files|), files, i + 1, cancel, cfg);
    }
  }

  /** A successful outcome keeps the index in step with the log and
      leaves index.json as it was in `s`. */
  predicate KeptConsistent(s: BuildState, o: Outcome, embed: string -> Vector) {
    o.ok ==> Consistent(o.state, embed) && o.state.infoSaved == s.infoSaved
  }

  /** After a successful file loop the index still matches the log line
      for line, and index.json has not been touched. */
  lemma {:induction false} FilesFromConsistent(s: BuildState, files: seq<SourceFile>, i: nat, cancel: nat -> bool, cfg: Settings)
    requires cfg.batchSize > 0 && Consistent(s, cfg.embed) && i <= |files|
    ensures KeptConsistent(s, FilesFrom(s, files, i, cancel, cfg), cfg.embed)
    decreases |files| - i, 1
  {
    if i < |files| && !cancel(i + 1) {
      if files[i].pages.None? {
        assert FilesFrom(s, files, i, cancel, cfg) == FilesFrom(s, files, i + 1, cancel, cfg);
        FilesFromConsistent(s, files, i + 1, cancel, cfg);
      } else {
        FilesFromConsistentLoaded(s, files, i, cancel, cfg);
      }
    }
  }

  /** `FilesFromConsistent` when file `i` is reached and was loaded. */
  lemma {:induction false} FilesFromConsistentLoaded(s: BuildState, files: seq<SourceFile>, i: nat, cancel: nat -> bool, cfg: Settings)
    requires cfg.batchSize > 0 && Consistent(s, cfg.embed) && i < |files| && !cancel(i + 1) && files[i].pages.Some?
    ensures KeptConsistent(s, FilesFrom(s, files, i, cancel, cfg), cfg.embed)
    decreases |files| - i, 0
  {
    FileAddedFacts(s, files[i], cfg);
    var o := FileAdded(s, files[i], cfg);
    if o.ok {
      CountedConsistent(o.state, |files|, cfg.embed);
      FilesFromConsistent(Counted(o.state, |files|), files, i + 1, cancel, cfg);
    }
  }

  /** After a successful file loop the log holds the chunks of every file
      reached before cancellation, in order. */
  lemma {:induction false} FilesFromLog(s: BuildState, files: seq<SourceFile>, i: nat, cancel: nat -> bool, cfg: Settings)
    requires cfg.batchSize > 0 && Consistent(s, cfg.embed) && i <= |files|
    ensures FilesFrom(s, files, i, cancel, cfg).ok ==>
      FilesFrom(s, files, i, cancel, cfg).state.metaLog == Some(s.metaLog.value + MetasIn(files, i, StopAt(files, cancel, i)))
    decreases |files| - i, 1
  {
    var e := StopAt(files, cancel, i);
    if i < |files| && !cancel(i + 1) {
      assert e == StopAt(files, cancel, i + 1);
      assert MetasIn(files, i, e) == FileMetas(files[i]) + MetasIn(files, i + 1, e);
      if files[i].pages.None? {
        FilesFromLog(s, files, i + 1, cancel, cfg);
        assert FileMetas(files[i]) == [];
        assert MetasIn(files, i, e) == MetasIn(files, i + 1, e);
      } else {
        FilesFromLogLoaded(s, files, i, cancel, cfg);
      }
    } else {
      assert s.metaLog.value + [] == s.metaLog.value;
    }
  }

  /** `FilesFromLog` when file `i` is reached and was loaded. */
  lemma {:induction false} FilesFromLogLoaded(s: BuildState, files: seq<SourceFile>, i: nat, cancel: nat -> bool, cfg: Settings)
    requires cfg.batchSize > 0 && Consistent(s, cfg.embed) && i < |files| && !cancel(i + 1) && files[i].pages.Some?
    ensures FilesFrom(s, files, i, cancel, cfg).ok ==>
      FilesFrom(s, files, i, cancel, cfg).state.metaLog ==
        Some(s.metaLog.value + (FileMetas(files[i]) + MetasIn(files, i + 1, StopAt(files, cancel, i + 1))))
    decreases |files| - i, 0
  {
    var e := StopAt(files, cancel, i + 1);
    FileAddedFacts(s, files[i], cfg);
    var o := FileAdded(s, files[i], cfg);
    if o.ok {
      CountedConsistent(o.state, |files|, cfg.embed);
      FilesFromLog(Counted(o.state, |files|), files, i + 1, cancel, cfg);
      AppendAssoc(s.metaLog.value, FileMetas(files[i]), MetasIn(files, i + 1, e), FileMetas(files[i]) + MetasIn(files, i + 1, e));
    }
  }

  /** After a successful file loop every readable file reached before
      cancellation is counted, with one percentage reported per counted
      file. */
  lemma {:induction false} FilesFromCount(s: BuildState, files: seq<SourceFile>, i: nat, cancel: nat -> bool, cfg: Settings)
    requires cfg.batchSize > 0 && i <= |files|
    ensures FilesFrom(s, files, i, cancel, cfg).ok ==>
      FilesFrom(s, files, i, cancel, cfg).state.processed == s.processed + LoadedIn(files, i, StopAt(files, cancel, i)) &&
      FilesFrom(s, files, i, cancel, cfg).state.progress ==
        s.progress + Percents(s.processed, LoadedIn(files, i, StopAt(files, cancel, i)), |files|)
    decreases |files| - i, 1
  {
    var e := StopAt(files, cancel, i);
    if i < |files| && !cancel(i + 1) {
      assert e == StopAt(files, cancel, i + 1);
      if files[i].pages.None? {
        FilesFromCount(s, files, i + 1, cancel, cfg);
        assert LoadedIn(files, i, e) == LoadedIn(files, i + 1, e);
      } else {
        assert LoadedIn(files, i, e) == LoadedIn(files, i + 1, e) + 1;
        FilesFromCountLoaded(s, files, i, cancel, cfg);
      }
    } else {
      assert s.progress + [] == s.progress;
    }
  }

  /** `FilesFromCount` when file `i` is reached and was loaded. */
  lemma {:induction false} FilesFromCountLoaded(s: BuildState, files: seq<SourceFile>, i: nat, cancel: nat -> bool, cfg: Settings)
    requires cfg.batchSize > 0 && i < |files| && !cancel(i + 1) && files[i].pages.Some?
    ensures FilesFrom(s, files, i, cancel, cfg).ok ==>
      FilesFrom(s, files, i, cancel, cfg).state.processed == s.processed + 1 + LoadedIn(files, i + 1, StopAt(files, cancel, i + 1)) &&
      FilesFrom(s, files, i, cancel, cfg).state.progress ==
        s.progress + Percents(s.processed, LoadedIn(files, i + 1, StopAt(files, cancel, i + 1)) + 1, |files|)
    decreases |files| - i, 0
  {
    FileAddedOutside(s, files[i], cfg);
    var o := FileAdded(s, files[i], cfg);
    if o.ok {
      var c := Counted(o.state, |files|);
      var n := LoadedIn(files, i + 1, StopAt(files, cancel, i + 1));
      assert FilesFrom(s, files, i, cancel, cfg) == FilesFrom(c, files, i + 1, cancel, cfg);
      CountedAfter(s, o.state, |files|);
      FilesFromCount(c, files, i + 1, cancel, cfg);
      PercentsStep(s.progress, s.processed, n, |files|);
    }
  }

  /** `build` fails exactly when there are files, the index type is
      unknown, and some file reached before cancellation has a chunk. A
      build that produces no chunk at all is not an error. */
  lemma BuildFails(s: BuildState, files: seq<SourceFile>, cancel: nat -> bool, cfg: Settings)
    requires cfg.batchSize > 0
    ensures Built(s, files, cancel, cfg).0.Failure? <==>
      files != [] && !KnownIndexType(cfg.indexType) && MetasIn(files, 0, StopAt(files, cancel, 0)) != []
  {
    if files != [] {
      FilesFromOk(Started(s), files, 0, cancel, cfg);
    }
  }

  /** A successful build over some files returns the number of readable
      files reached before cancellation and the number of vectors; the log
      holds exactly their chunks in order, the index matches it line for
      line, the whole index is on disk if one was created (and no snapshot
      otherwise), index.json is written, and one percentage was reported per
      counted file. */
  lemma BuildOutputs(s: BuildState, files: seq<SourceFile>, cancel: nat -> bool, cfg: Settings)
    requires cfg.batchSize > 0 && files != []
    ensures Built(s, files, cancel, cfg).0.Success? ==>
      var t := Built(s, files, cancel, cfg).1;
      var e := StopAt(files, cancel, 0);
      Built(s, files, cancel, cfg).0.value == (LoadedIn(files, 0, e), |MetasIn(files, 0, e)|) &&
      t.metaLog == Some(MetasIn(files, 0, e)) && Lockstep(t, cfg.embed) && t.infoSaved &&
      (t.index.Some? ==> t.savedIndex == Some(t.index.value.vectors)) &&
      (t.index.None? ==> t.savedIndex == None) &&
      t.progress == s.progress + Percents(0, LoadedIn(files, 0, e), |files|)
  {
    var s0 := Started(s);
    var o := FilesFrom(s0, files, 0, cancel, cfg);
    var e := StopAt(files, cancel, 0);
    assert Consistent(s0, cfg.embed);
    FilesFromConsistent(s0, files, 0, cancel, cfg);
    FilesFromLog(s0, files, 0, cancel, cfg);
    FilesFromCount(s0, files, 0, cancel, cfg);
    if o.ok {
      assert [] + MetasIn(files, 0, e) == MetasIn(files, 0, e);
      BuiltWrites(s, files, cancel, cfg, o.state);
    }
  }

  /** What `build` returns and writes once the file loop ended in `t`. */
  lemma BuiltWrites(s: BuildState, files: seq<SourceFile>, cancel: nat -> bool, cfg: Settings, t: BuildState)
    requires cfg.batchSize > 0 && files != []
    requires FilesFrom(Started(s), files, 0, cancel, cfg) == Outcome(true, t)
    ensures Built(s, files, cancel, cfg) ==
      (Success((t.processed, t.totalVecs)),
       t.(savedIndex := if t.index.Some? then Some(t.index.value.vectors) else t.savedIndex, infoSaved := true))
  {
  }

  /** An empty file list removes the old index and metadata and returns
      `(0, 0)` without writing index.json. */
  lemma BuildEmpty(s: BuildState, cancel: nat -> bool, cfg: Settings)
    requires cfg.batchSize > 0
    ensures Built(s, [], cancel, cfg).0 == Success((0, 0))
    ensures Built(s, [], cancel, cfg).1 == s.(savedIndex := None, metaLog := None)
  {
  }

  /** Cancelling before the first file still writes index.json and returns
      `(0, 0)`, leaving an empty log and no index on disk. */
  lemma CancelledAtOnce(s: BuildState, files: seq<SourceFile>, cancel: nat -> bool, cfg: Settings)
    requires cfg.batchSize > 0 && files != [] && cancel(1)
    ensures Built(s, files, cancel, cfg).0 == Success((0, 0))
    ensures Built(s, files, cancel, cfg).1.metaLog == Some([])
    ensures Built(s, files, cancel, cfg).1.savedIndex == None && Built(s, files, cancel, cfg).1.infoSaved
  {
  }

  /** Multiplying by a natural number preserves order. */
  lemma {:induction false} MulLe(d: nat, x: nat, y: nat)
    requires x <= y
    ensures d * x <= d * y
    decreases y - x
  {
    if x < y {
      MulLe(d, x + 1, y);
      assert d * (x + 1) == d * x + d;
    }
  }

  lemma MulStep(d: nat, q: nat, k: nat)
    requires q < k
    ensures d * q + d <= d * k
  {
    MulLe(d, q + 1, k);
    assert d * (q + 1) == d * q + d;
  }

  lemma DivMono(a: nat, b: nat, d: nat)
    requires d > 0 && a <= b
    ensures a / d <= b / d
  {
    if a / d > b / d {
      MulStep(d, b / d, a / d);
      assert false;
    }
  }

  lemma MulDiv(k: nat, d: nat)
    requires d > 0
    ensures (k * d) / d == k
  {
    assert k * d == d * k;
    if (k * d) / d < k {
      MulStep(d, (k * d) / d, k);
      assert false;
    } else if (k * d) / d > k {
      MulStep(d, k, (k * d) / d);
      assert false;
    }
  }

  /** More files processed never lowers the reported percentage. */
  lemma PercentMono(p: nat, q: nat, total: nat)
    requires total > 0 && p <= q
    ensures Percent(p, total) <= Percent(q, total)
  {
    MulLe(100, p, q);
    assert p * 100 == 100 * p && q * 100 == 100 * q;
    DivMono(p * 100, q * 100, total);
  }

  /** Every file processed reports exactly 100. */
  lemma PercentFull(total: nat)
    requires total > 0
    ensures Percent(total, total) == 100
  {
    assert total * 100 == 100 * total;
    MulDiv(100, total);
  }

  /** The reported percentages never decrease, never exceed 100, and reach
      100 once every file is counted. */
  lemma {:induction false} PercentsBounded(from: nat, count: nat, total: nat)
    requires total > 0 && from + count <= total
    ensures forall i, j :: 0 <= i < j < |Percents(from, count, total)| ==>
      Percents(from, count, total)[i] <= Percents(from, count, total)[j]
    ensures forall i :: 0 <= i < |Percents(from, count, total)| ==> Percents(from, count, total)[i] <= 100
    ensures |Percents(from, count, total)| == count
    ensures count > 0 && from + count == total ==> Percents(from, count, total)[count - 1] == 100
    decreases count
  {
    if count > 0 {
      var ps := Percents(from, count, total);
      var rest := Percents(from + 1, count - 1, total);
      PercentsBounded(from + 1, count - 1, total);
      PercentMono(from + 1, total, total);
      PercentFull(total);
      forall j | 0 <= j < |rest| ensures Percent(from + 1, total) <= rest[j] {
        PercentMono(from + 1, from + 2 + j, total);
        PercentsAt(from + 1, count - 1, total, j);
      }
      if count == 1 && from + count == total {
        assert ps[0] == Percent(total, total);
      }
    }
  }

  lemma {:induction false} PercentsAt(from: nat, count: nat, total: nat, j: nat)
    requires total > 0 && j < count
    ensures |Percents(from, count, total)| == count
    ensures Percents(from, count, total)[j] == Percent(from + 1 + j, total)
    decreases count
  {
    if j > 0 {
      PercentsAt(from + 1, count - 1, total, j - 1);
    } else {
      PercentsLength(from, count, total);
    }
  }

  lemma {:induction false} PercentsLength(from: nat, count: nat, total: nat)
    requires total > 0
    ensures |Percents(from, count, total)| == count
    decreases count
  {
    if count > 0 {
      PercentsLength(from + 1, count - 1, total);
    }
  }
}
