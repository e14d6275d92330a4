/** The state machine behind the batch indexer of src/indexer.py, stated
    over values: what one embedding batch, one `add_texts` call, one file
    and a whole build do to the vector index, the metadata log and the
    counters. The class in indexer.dfy is proved to follow these functions. */
module Indexing {
  import opened Wrappers
  import opened Text
  import opened Chunker

  /** The index is written to disk whenever the vector total is an exact
      multiple of this. */
  const PersistEvery: nat := 2000
  /** Chunks pending for a file are handed to `add_texts` once there are
      this many. */
  const FlushAt: nat := 64
  /** An IVF index is trained on at most this many vectors. */
  const IvfTrainMax: nat := 50000
  /** The embedding batch size when the environment does not set one. */
  const DefaultBatchSize: nat := 8

  type Vector = seq<real>

  datatype IndexKind =
    | FlatIP
    | HnswFlat(m: nat, efConstruction: nat, efSearch: nat)
    | IvfFlat(nlist: nat)

  /** An in-memory vector index: its kind and dimension, how many vectors it
      was trained on (IVF only) and the vectors in insertion order (the
      position of a vector is its ordinal, and the length is `ntotal`). */
  datatype VectorIndex = VectorIndex(kind: IndexKind, dim: nat, trainedOn: Option<nat>, vectors: seq<Vector>)

  /** One line of meta.jsonl. */
  datatype ChunkMeta = ChunkMeta(file: string, page: nat, text: string, docId: string)

  /** A discovered file: its resolved path, its document id (a hash of the
      path and modification time) and its pages, or `None` when the loader
      raised. */
  datatype SourceFile = SourceFile(resolved: string, docId: string, pages: Option<seq<string>>)

  /** The configured index type, the embedding batch size and the sentence
      embedder (normalised output, one text at a time). */
  datatype Settings = Settings(indexType: string, batchSize: nat, embed: string -> Vector)

  /** Everything a build reads or writes: the index in memory, the snapshot
      in index.faiss, the lines of meta.jsonl (`None` when the file is
      absent), whether index.json holds the settings, the counters, the
      percentages reported to the progress callback and the inputs of every
      call to the embedder. */
  datatype BuildState = BuildState(
    index: Option<VectorIndex>,
    savedIndex: Option<seq<Vector>>,
    metaLog: Option<seq<ChunkMeta>>,
    infoSaved: bool,
    totalVecs: nat,
    processed: nat,
    progress: seq<nat>,
    embedCalls: seq<seq<string>>)

  /** Whether a step ran to the end (`false`: the unknown index type
      raised), and the state it left. */
  datatype Outcome = Outcome(ok: bool, state: BuildState)

  predicate KnownIndexType(t: string) {
    t == "flat" || t == "hnsw" || t == "ivf"
  }

  /** `_create_index`: the configured index type selects the kind; anything
      else is an error. */
  function CreateIndex(dim: nat, indexType: string): (r: Result<VectorIndex>)
    ensures r.Success? <==> KnownIndexType(indexType)
    ensures r.Success? ==> r.value.dim == dim && r.value.vectors == [] && r.value.trainedOn == None
    ensures r.Success? && indexType == "flat" ==> r.value.kind == FlatIP
    ensures r.Success? && indexType == "hnsw" ==> r.value.kind == HnswFlat(32, 80, 64)
    ensures r.Success? && indexType == "ivf" ==> r.value.kind == IvfFlat(1024)
  {
    if indexType == "flat" then Success(VectorIndex(FlatIP, dim, None, []))
    else if indexType == "hnsw" then Success(VectorIndex(HnswFlat(32, 80, 64), dim, None, []))
    else if indexType == "ivf" then Success(VectorIndex(IvfFlat(1024), dim, None, []))
    else Failure("unknown index type")
  }

  /** The index made for the first batch of `rows` vectors of dimension
      `dim`; an IVF index is trained on the first `min(50000, rows)`. */
  function FirstIndex(dim: nat, rows: nat, indexType: string): Result<VectorIndex> {
    var made := CreateIndex(dim, indexType);
    if made.Success? && made.value.kind.IvfFlat? then
      Success(made.value.(trainedOn := Some(Min(IvfTrainMax, rows))))
    else made
  }

  /** The embedder's input for a chunk. */
  function Passage(text: string): string {
    "passage: " + text
  }

  function Passages(ms: seq<ChunkMeta>): (r: seq<string>)
    ensures |r| == |ms| && forall i :: 0 <= i < |ms| ==> r[i] == Passage(ms[i].text)
  {
    seq(|ms|, i requires 0 <= i < |ms| => Passage(ms[i].text))
  }

  function Embeddings(embed: string -> Vector, ms: seq<ChunkMeta>): (r: seq<Vector>)
    ensures |r| == |ms| && forall i :: 0 <= i < |ms| ==> r[i] == embed(Passage(ms[i].text))
  {
    seq(|ms|, i requires 0 <= i < |ms| => embed(Passage(ms[i].text)))
  }

  /** Consecutive slices of `b` elements, the last one possibly shorter. */
  function Batches<T>(xs: seq<T>, b: nat): seq<seq<T>>
    requires b > 0
    decreases |xs|
  {
    if xs == [] then []
    else
      var m := Min(b, |xs|);
      [xs[..m]] + Batches(xs[m..], b)
  }

  function Flatten<T>(xss: seq<seq<T>>): seq<T> {
    if xss == [] then [] else xss[0] + Flatten(xss[1..])
  }

  function Lines(log: Option<seq<ChunkMeta>>): seq<ChunkMeta> {
    if log.Some? then log.value else []
  }

  /** One turn of the batch loop of `add_texts`: embed the batch, create
      the index from the first batch if there is none (raising on an unknown
      index type before anything is added or logged), add the vectors, log
      one line per chunk, and write a snapshot when the total is a multiple
      of `PersistEvery`. */
  function BatchAdded(s: BuildState, batch: seq<ChunkMeta>, cfg: Settings): Outcome
    requires batch != []
  {
    var vecs := Embeddings(cfg.embed, batch);
    var calls := s.embedCalls + [Passages(batch)];
    var made := if s.index.Some? then Success(s.index.value) else FirstIndex(|vecs[0]|, |vecs|, cfg.indexType);
    if made.Failure? then Outcome(false, s.(embedCalls := calls))
    else
      var idx := made.value.(vectors := made.value.vectors + vecs);
      var total := s.totalVecs + |vecs|;
      var saved := if total % PersistEvery == 0 then Some(idx.vectors) else s.savedIndex;
      Outcome(true, BuildState(Some(idx), saved, Some(Lines(s.metaLog) + batch), s.infoSaved, total,
                               s.processed, s.progress, calls))
  }

  /** `add_texts`: the chunks in consecutive batches of `batchSize`, up to
      the first failure. */
  function TextsAdded(s: BuildState, metas: seq<ChunkMeta>, cfg: Settings): Outcome
    requires cfg.batchSize > 0
    decreases |metas|
  {
    if metas == [] then Outcome(true, s)
    else
      var m := Min(cfg.batchSize, |metas|);
      var o := BatchAdded(s, metas[..m], cfg);
      if !o.ok then o else TextsAdded(o.state, metas[m..], cfg)
  }

  /** Several `add_texts` calls in a row, up to the first failure. */
  function EachAdded(s: BuildState, groups: seq<seq<ChunkMeta>>, cfg: Settings): Outcome
    requires cfg.batchSize > 0
    decreases |groups|
  {
    if groups == [] then Outcome(true, s)
    else
      var o := TextsAdded(s, groups[0], cfg);
      if !o.ok then o else EachAdded(o.state, groups[1..], cfg)
  }

  /** The metadata of the chunks of page `pg` of a file. */
  function PageMetas(f: SourceFile, pg: nat, cs: seq<Chunk>): (r: seq<ChunkMeta>)
    ensures |r| == |cs|
    ensures forall i :: 0 <= i < |cs| ==> r[i] == ChunkMeta(f.resolved, pg, cs[i].text, f.docId)
  {
    seq(|cs|, i requires 0 <= i < |cs| => ChunkMeta(f.resolved, pg, cs[i].text, f.docId))
  }

  /** The metadata of the chunks of the pages from `pg` on, in page order. */
  function PagesMetas(f: SourceFile, pages: seq<string>, pg: nat): seq<ChunkMeta>
    decreases |pages| - pg
  {
    if pg >= |pages| then []
    else PageMetas(f, pg, Chunks(pages[pg], ChunkSize, Overlap)) + PagesMetas(f, pages, pg + 1)
  }

  /** The metadata of every chunk of a loaded file. */
  function FileMetas(f: SourceFile): seq<ChunkMeta> {
    if f.pages.None? then [] else PagesMetas(f, f.pages.value, 0)
  }

  /** One loaded file: its chunks go to `add_texts` in groups of `FlushAt`,
      the last group possibly shorter. */
  function FileAdded(s: BuildState, f: SourceFile, cfg: Settings): Outcome
    requires cfg.batchSize > 0
  {
    EachAdded(s, Batches(FileMetas(f), FlushAt), cfg)
  }

  /** The file loop of `build` from file `i` (0-based) on: stop when
      cancellation is requested before a file, skip a file the loader
      could not read, and after each loaded file count it and report
      `processed * 100 / total` percent. */
  function FilesFrom(s: BuildState, files: seq<SourceFile>, i: nat, cancel: nat -> bool, cfg: Settings): Outcome
    requires cfg.batchSize > 0
    decreases |files| - i
  {
    if i >= |files| || cancel(i + 1) then Outcome(true, s)
    else if files[i].pages.None? then FilesFrom(s, files, i + 1, cancel, cfg)
    else
      var o := FileAdded(s, files[i], cfg);
      if !o.ok then o else FilesFrom(Counted(o.state, |files|), files, i + 1, cancel, cfg)
  }

  /** A loaded file is counted and the new percentage reported. */
  function Counted(s: BuildState, total: nat): BuildState
    requires total > 0
  {
    s.(processed := s.processed + 1, progress := s.progress + [Percent(s.processed + 1, total)])
  }

  /** The percentage reported after `done` of `total` files,
      `int(done * 100 / total)`. */
  function Percent(done: nat, total: nat): nat
    requires total > 0
  {
    done * 100 / total
  }

  /** The state a build starts from once old outputs are removed and
      meta.jsonl is opened afresh. */
  function Started(s: BuildState): BuildState {
    s.(index := None, savedIndex := None, metaLog := Some([]), totalVecs := 0, processed := 0)
  }

  /** `build`: an empty file list removes the old outputs and returns
      `(0, 0)`; otherwise the file loop runs, then the index is written if
      one was created and index.json is always written, and the result is
      `(processed, total_vecs)`. An unknown index type raises out of the
      build. `cancel(i)` is the answer of the cancellation callback before
      file `i` (1-based). */
  function Built(s: BuildState, files: seq<SourceFile>, cancel: nat -> bool, cfg: Settings): (Result<(nat, nat)>, BuildState)
    requires cfg.batchSize > 0
  {
    if files == [] then
      (Success((0, 0)), s.(savedIndex := None, metaLog := None))
    else
      var o := FilesFrom(Started(s), files, 0, cancel, cfg);
      if !o.ok then (Failure("unknown index type"), o.state)
      else
        var t := o.state;
        var saved := if t.index.Some? then Some(t.index.value.vectors) else t.savedIndex;
        (Success((t.processed, t.totalVecs)), t.(savedIndex := saved, infoSaved := true))
  }

  /** Starting from a vector total of `t`, with `count` vectors still to add
      in batches of `b`, the size of the last snapshot written to disk
      (`cp` if none is written). A snapshot is written exactly when a batch
      brings the total to a multiple of `PersistEvery`. */
  function CheckpointFrom(cp: Option<nat>, t: nat, count: nat, b: nat): (r: Option<nat>)
    requires b > 0
    ensures r == cp || (r.Some? && r.value % PersistEvery == 0 && t < r.value <= t + count)
    decreases count
  {
    if count == 0 then cp
    else
      var m := Min(b, count);
      CheckpointFrom(if (t + m) % PersistEvery == 0 then Some(t + m) else cp, t + m, count - m, b)
  }

  /** What `add_texts` leaves alone. */
  predicate SameOutside(s: BuildState, t: BuildState) {
    t.infoSaved == s.infoSaved && t.processed == s.processed && t.progress == s.progress
  }

  /** A snapshot on disk is a prefix of the index whose length is a
      non-zero multiple of `PersistEvery`. */
  predicate SnapshotOk(s: BuildState) {
    s.savedIndex.Some? ==>
      s.index.Some? && 0 < |s.savedIndex.value| <= |s.index.value.vectors| &&
      |s.savedIndex.value| % PersistEvery == 0 &&
      s.savedIndex.value == s.index.value.vectors[..|s.savedIndex.value|]
  }

  /** While a build runs: the index and the log are in lockstep and the
      snapshot on disk is a prefix of the index. */
  predicate Consistent(s: BuildState, embed: string -> Vector) {
    Lockstep(s, embed) && SnapshotOk(s)
  }

  /** meta.jsonl is open, vector `i` of the index is the embedding of the
      chunk on line `i`, and the total counts both. */
  predicate Lockstep(s: BuildState, embed: string -> Vector) {
    s.metaLog.Some? && |s.metaLog.value| == s.totalVecs &&
    (s.index.None? ==> s.totalVecs == 0) &&
    (s.index.Some? ==> s.index.value.vectors == Embeddings(embed, s.metaLog.value))
  }

  /** The kind, dimension and training of an index. */
  function Shape(idx: VectorIndex): (IndexKind, nat, Option<nat>) {
    (idx.kind, idx.dim, idx.trainedOn)
  }

  /** The shape of the index a first batch creates: the configured kind,
      the dimension of the first embedding and, for IVF, training on at
      most `IvfTrainMax` rows of that batch. */
  function FirstShape(batch: seq<ChunkMeta>, cfg: Settings): (IndexKind, nat, Option<nat>)
    requires batch != [] && KnownIndexType(cfg.indexType)
  {
    (CreateIndex(0, cfg.indexType).value.kind, |cfg.embed(Passage(batch[0].text))|,
     if cfg.indexType == "ivf" then Some(Min(IvfTrainMax, |batch|)) else None)
  }
}
