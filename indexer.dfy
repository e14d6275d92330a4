/** The `Indexer` of src/indexer.py: an output directory (the vector index
    snapshot, meta.jsonl and index.json) and the build that fills it. The
    closure `add_texts` and the variables it shares with `build` become
    methods and fields of one object; each method is proved to do what the
    matching function of the `Indexing` module says. The embedder, the file
    loader and the cancellation callback are parameters. */
module Indexer {
  import opened Wrappers
  import opened Text
  import opened Chunker
  import opened Indexing

  class IndexBuilder {
    /** The index type, the embedding batch size and the embedder. */
    const cfg: Settings

    var index: Option<VectorIndex>
    /** index.faiss: the last snapshot written, if any. */
    var savedIndex: Option<seq<Vector>>
    /** meta.jsonl: its lines, or `None` when the file is absent. */
    var metaLog: Option<seq<ChunkMeta>>
    /** Whether index.json holds the index settings. */
    var infoSaved: bool
    var totalVecs: nat
    var processed: nat
    /** The percentages reported to the progress callback. */
    var progress: seq<nat>
    /** The inputs of each call to the embedder. */
    var embedCalls: seq<seq<string>>

    /** An indexer over an output directory holding `savedIndex`, `metaLog`
        and, if `infoSaved`, index.json from earlier runs. */
    constructor(cfg: Settings, savedIndex: Option<seq<Vector>>, metaLog: Option<seq<ChunkMeta>>, infoSaved: bool)
      ensures State() == BuildState(None, savedIndex, metaLog, infoSaved, 0, 0, [], [])
      ensures this.cfg == cfg
    {
      this.cfg := cfg;
      this.savedIndex := savedIndex;
      this.metaLog := metaLog;
      this.infoSaved := infoSaved;
      index := None;
      totalVecs := 0;
      processed := 0;
      progress := [];
      embedCalls := [];
    }

    ghost function State(): BuildState
      reads this
    {
      BuildState(index, savedIndex, metaLog, infoSaved, totalVecs, processed, progress, embedCalls)
    }

    /** The index made from the first batch: `dim`-dimensional, and an IVF
        index trained on at most `IvfTrainMax` of the batch's `rows`. */
    method CreateFirstIndex(dim: nat, rows: nat) returns (made: Result<VectorIndex>)
      ensures made == FirstIndex(dim, rows, cfg.indexType)
    {
      made := CreateIndex(dim, cfg.indexType);
      if made.Success? && made.value.kind.IvfFlat? {
        made := Success(made.value.(trainedOn := Some(Min(IvfTrainMax, rows))));
      }
    }

    /** One turn of the batch loop of `add_texts`. */
    method AddBatch(batch: seq<ChunkMeta>) returns (ok: bool)
      requires batch != []
      modifies this
      ensures Outcome(ok, State()) == BatchAdded(old(State()), batch, cfg)
    {
      var vecs := Embeddings(cfg.embed, batch);
      embedCalls := embedCalls + [Passages(batch)];
      var idx: VectorIndex;
      if index.Some? {
        idx := index.value;
      } else {
        var made := CreateFirstIndex(|vecs[0]|, |vecs|);
        if made.Failure? {
          return false;
        }
        idx := made.value;
      }
      idx := idx.(vectors := idx.vectors + vecs);
      index := Some(idx);
      metaLog := Some(Lines(metaLog) + batch);
      totalVecs := totalVecs + |vecs|;
      if totalVecs % PersistEvery == 0 {
        savedIndex := Some(idx.vectors);
      }
      ok := true;
    }

    /** `add_texts`: the chunks in consecutive batches of `batchSize`;
        `false` when the index type turned out to be unknown. */
    method AddTexts(metas: seq<ChunkMeta>) returns (ok: bool)
      requires cfg.batchSize > 0
      modifies this
      ensures Outcome(ok, State()) == TextsAdded(old(State()), metas, cfg)
    {
      ok := true;
      if metas == [] {
        return;
      }
      ghost var goal := TextsAdded(State(), metas, cfg);
      var start := 0;
      while start < |metas|
        invariant start <= |metas|
        invariant goal == TextsAdded(State(), metas[start..], cfg)
        decreases |metas| - start
      {
        var end := Min(start + cfg.batchSize, |metas|);
        ghost var s0 := State();
        ok := AddBatch(metas[start..end]);
        TextsAddedTurn(s0, metas, start, end, cfg, Outcome(ok, State()));
        if !ok {
          return;
        }
        start := end;
      }
    }

    /** The chunk loop of `build` for one loaded file: window every page,
        keep the stripped non-empty windows as pending chunks, hand them
        to `add_texts` whenever `FlushAt` are pending, and the rest at the
        end of the file. */
    method IndexFile(f: SourceFile) returns (ok: bool)
      requires f.pages.Some? && cfg.batchSize > 0
      modifies this
      ensures Outcome(ok, State()) == FileAdded(old(State()), f, cfg)
    {
      var pages := f.pages.value;
      ghost var goal := FileAdded(old(State()), f, cfg);
      var pending: seq<ChunkMeta> := [];
      assert pending + PagesMetas(f, pages, 0) == FileMetas(f);
      ok := true;
      var pg := 0;
      while pg < |pages|
        invariant pg <= |pages| && |pending| < FlushAt
        invariant goal == EachAdded(State(), Batches(pending + PagesMetas(f, pages, pg), FlushAt), cfg)
        decreases |pages| - pg
      {
        RestStart(f, pages, pg);
        ok, pending := IndexPage(f, pages, pg, pending);
        if !ok {
          return;
        }
        pg := pg + 1;
      }
      LastFlush(pending, PagesMetas(f, pages, pg));
      if pending != [] {
        ghost var s0 := State();
        ok := AddTexts(pending);
        EachAddedStep(s0, pending, [], cfg);
      }
    }

    /** The windows of page `pg`: `left` is what is pending after the
        page, and a failed `add_texts` ends the file. */
    method IndexPage(f: SourceFile, pages: seq<string>, pg: nat, pending: seq<ChunkMeta>) returns (ok: bool, left: seq<ChunkMeta>)
      requires pg < |pages| && |pending| < FlushAt && cfg.batchSize > 0
      modifies this
      ensures ok ==> |left| < FlushAt && EachAdded(old(State()), Batches(pending + RestOfFile(f, pages, pg, 0), FlushAt), cfg)
                       == EachAdded(State(), Batches(left + PagesMetas(f, pages, pg + 1), FlushAt), cfg)
      ensures !ok ==> Outcome(false, State()) == EachAdded(old(State()), Batches(pending + RestOfFile(f, pages, pg, 0), FlushAt), cfg)
    {
      var text := pages[pg];
      var n := |text|;
      var j := 0;
      ghost var goal := EachAdded(State(), Batches(pending + RestOfFile(f, pages, pg, 0), FlushAt), cfg);
      ok := true;
      left := pending;
      while j < n
        invariant j <= n && |left| < FlushAt
        invariant goal == EachAdded(State(), Batches(left + RestOfFile(f, pages, pg, j), FlushAt), cfg)
        decreases n - j
      {
        var k := Min(j + ChunkSize, n);
        var piece := Strip(text[j..k]);
        ghost var next := NextStart(j, k, n, ChunkSize, Overlap);
        RestStep(f, pages, pg, j);
        ghost var before := left;
        if piece != [] {
          left := left + [ChunkMeta(f.resolved, pg, piece, f.docId)];
        }
        ShiftPending(before, left, PageMetas(f, pg, Emit(text, Window(j, k))), RestOfFile(f, pages, pg, next));
        if k >= n {
          j := n;
        } else {
          var back := Min(Overlap, ChunkSize / 2);
          var nextJ := k - back;
          j := if nextJ > j then nextJ else k;
        }
        assert j == next;
        ok, left := FlushIfFull(left, RestOfFile(f, pages, pg, j));
        if !ok {
          return;
        }
      }
      RestEnd(f, pages, pg);
    }

    /** Hand the pending chunks to `add_texts` once `FlushAt` of them are
        pending. */
    method FlushIfFull(pending: seq<ChunkMeta>, ghost rest: seq<ChunkMeta>) returns (ok: bool, left: seq<ChunkMeta>)
      requires |pending| <= FlushAt && cfg.batchSize > 0
      modifies this
      ensures ok ==> |left| < FlushAt && EachAdded(old(State()), Batches(pending + rest, FlushAt), cfg)
                       == EachAdded(State(), Batches(left + rest, FlushAt), cfg)
      ensures !ok ==> Outcome(false, State()) == EachAdded(old(State()), Batches(pending + rest, FlushAt), cfg)
    {
      ok := true;
      left := pending;
      if |pending| >= FlushAt {
        FlushStep(pending, rest);
        ghost var s0 := State();
        ok := AddTexts(pending);
        EachAddedStep(s0, pending, Batches(rest, FlushAt), cfg);
        left := [];
        EmptyPending(rest);
      }
    }

    /** `build`: remove the old index and metadata; with no files return
        `(0, 0)`; otherwise open meta.jsonl afresh and run the file loop
        (stopping when `cancel` answers true before a file, skipping files
        the loader could not read, reporting progress after each loaded
        file), then write the index if one was created and always write
        index.json. An unknown index type fails the build. `cancel(i)` is
        the callback's answer before file `i` (1-based). */
    method Build(files: seq<SourceFile>, cancel: nat -> bool) returns (r: Result<(nat, nat)>)
      requires cfg.batchSize > 0
      modifies this
      ensures (r, State()) == Built(old(State()), files, cancel, cfg)
    {
      savedIndex := None;
      metaLog := None;
      if |files| == 0 {
        return Success((0, 0));
      }
      metaLog := Some([]);
      index := None;
      totalVecs := 0;
      processed := 0;
      var ok := IndexFiles(files, cancel);
      if !ok {
        return Failure("unknown index type");
      }
      if index.Some? {
        savedIndex := Some(index.value.vectors);
      }
      infoSaved := true;
      r := Success((processed, totalVecs));
    }

    /** A loaded file is counted and the new percentage reported. */
    method CountFile(total: nat)
      requires total > 0
      modifies this
      ensures State() == Counted(old(State()), total)
    {
      processed := processed + 1;
      progress := progress + [Percent(processed, total)];
    }

    /** The file loop of `build`: `ok` is false when adding a file's
        chunks failed, and the state is then the one at the failure. */
    method IndexFiles(files: seq<SourceFile>, cancel: nat -> bool) returns (ok: bool)
      requires cfg.batchSize > 0 && files != []
      modifies this
      ensures Outcome(ok, State()) == FilesFrom(old(State()), files, 0, cancel, cfg)
    {
      ghost var goal := FilesFrom(State(), files, 0, cancel, cfg);
      var i := 0;
      while i < |files|
        invariant i <= |files|
        invariant goal == FilesFrom(State(), files, i, cancel, cfg)
        decreases |files| - i
      {
        if cancel(i + 1) {
          break;
        }
        if files[i].pages.None? {
          i := i + 1;
          continue;
        }
        ok := IndexFile(files[i]);
        if !ok {
          return;
        }
        CountFile(|files|);
        i := i + 1;
      }
      ok := true;
    }
  }

  /** The metadata still to come in a file when the chunk loop of page `pg`
      is at `j`: the chunks of the windows from `j` on, then those of the
      later pages. */
  ghost function RestOfFile(f: SourceFile, pages: seq<string>, pg: nat, j: nat): seq<ChunkMeta>
    requires pg < |pages| && j <= |pages[pg]|
  {
    WindowsInText(|pages[pg]|, j, ChunkSize, Overlap);
    PageMetas(f, pg, ChunksOf(pages[pg], WindowsFrom(|pages[pg]|, j, ChunkSize, Overlap))) + PagesMetas(f, pages, pg + 1)
  }

  /** One turn of the batch loop of `add_texts`. */
  lemma TextsAddedTurn(s: BuildState, metas: seq<ChunkMeta>, start: nat, end: nat, cfg: Settings, o: Outcome)
    requires cfg.batchSize > 0 && start < |metas| && end == Min(start + cfg.batchSize, |metas|)
    requires o == BatchAdded(s, metas[start..end], cfg)
    ensures TextsAdded(s, metas[start..], cfg) == if !o.ok then o else TextsAdded(o.state, metas[end..], cfg)
  {
    assert metas[start..][..end - start] == metas[start..end];
    assert metas[start..][end - start..] == metas[end..];
  }

  lemma RestStart(f: SourceFile, pages: seq<string>, pg: nat)
    requires pg < |pages|
    ensures PagesMetas(f, pages, pg) == RestOfFile(f, pages, pg, 0)
  {
  }

  lemma RestEnd(f: SourceFile, pages: seq<string>, pg: nat)
    requires pg < |pages|
    ensures RestOfFile(f, pages, pg, |pages[pg]|) == PagesMetas(f, pages, pg + 1)
  {
    assert WindowsFrom(|pages[pg]|, |pages[pg]|, ChunkSize, Overlap) == [];
    assert PageMetas(f, pg, []) == [];
  }

  /** One window of the chunk loop. */
  lemma RestStep(f: SourceFile, pages: seq<string>, pg: nat, j: nat)
    requires pg < |pages| && j < |pages[pg]|
    ensures var n := |pages[pg]|;
      var k := Min(j + ChunkSize, n);
      RestOfFile(f, pages, pg, j) ==
        PageMetas(f, pg, Emit(pages[pg], Window(j, k))) + RestOfFile(f, pages, pg, NextStart(j, k, n, ChunkSize, Overlap))
  {
    var text := pages[pg];
    var n := |text|;
    var k := Min(j + ChunkSize, n);
    var next := NextStart(j, k, n, ChunkSize, Overlap);
    ChunksStep(text, j, ChunkSize, Overlap);
    PageMetasAppend(f, pg, Emit(text, Window(j, k)), ChunksOf(text, WindowsFrom(n, next, ChunkSize, Overlap)));
  }

  lemma ShiftPending(before: seq<ChunkMeta>, after: seq<ChunkMeta>, emitted: seq<ChunkMeta>, rest: seq<ChunkMeta>)
    requires after == before + emitted
    ensures before + (emitted + rest) == after + rest
  {
  }

  lemma EmptyPending(rest: seq<ChunkMeta>)
    ensures [] + rest == rest
  {
  }

  /** At the end of a file the pending chunks, if any, are one last group. */
  lemma LastFlush(pending: seq<ChunkMeta>, rest: seq<ChunkMeta>)
    requires rest == [] && |pending| < FlushAt
    ensures pending + rest == pending
    ensures pending == [] ==> Batches(pending, FlushAt) == []
    ensures pending != [] ==> Batches(pending, FlushAt) == [pending] + []
  {
    assert pending[|pending|..] == [];
  }

  lemma PageMetasAppend(f: SourceFile, pg: nat, a: seq<Chunk>, b: seq<Chunk>)
    ensures PageMetas(f, pg, a + b) == PageMetas(f, pg, a) + PageMetas(f, pg, b)
  {
  }

  /** A full group of pending chunks is handed over on its own. */
  lemma FlushStep(pending: seq<ChunkMeta>, rest: seq<ChunkMeta>)
    requires |pending| == FlushAt
    ensures Batches(pending + rest, FlushAt) == [pending] + Batches(rest, FlushAt)
  {
    assert (pending + rest)[..FlushAt] == pending;
    assert (pending + rest)[FlushAt..] == rest;
  }

  /** The first call of a row of `add_texts` calls. */
  lemma EachAddedStep(s: BuildState, group: seq<ChunkMeta>, groups: seq<seq<ChunkMeta>>, cfg: Settings)
    requires cfg.batchSize > 0
    ensures EachAdded(s, [group] + groups, cfg) ==
      (var o := TextsAdded(s, group, cfg); if !o.ok then o else EachAdded(o.state, groups, cfg))
  {
    assert ([group] + groups)[1..] == groups;
  }
}
