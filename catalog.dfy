/** The index catalog (`IndexManager` in src/index_manager.py): a map from
    index name to descriptor, kept in memory and in index_metadata.json,
    over an index directory that holds named sub-directories (new-style
    indexes) and possibly a legacy index written straight into it.

    The file system is abstracted to what the manager looks at: whether
    index.faiss and index.pkl exist and load (with their vector and chunk
    counts), meta.jsonl, index.json, the documents/ folder's .txt files and
    directories moved into another. Clock readings, the order of the
    directory listing, document loading and embedding are parameters. */
module Catalog {
  import opened Wrappers
  import opened Text
  import opened StableSort
  import opened Chunker

  const DefaultName: string := "default_index"
  const DefaultModel: string := "sentence-transformers/all-MiniLM-L6-v2"
  const Unknown: string := "Unknown"
  const InfoFile: string := "index.json"
  const CatalogName: string := "index_metadata.json"

  /** A file as the manager finds it: missing, present but not loadable,
      or loadable with its count (the vectors of index.faiss, the chunks
      of index.pkl). */
  datatype FileState = Absent | Unreadable | Readable(count: nat)

  /** A line of meta.jsonl: blank, not JSON, or a record with or without a
      "file" key. */
  datatype MetaLine = BlankLine | BadLine | Record(file: Option<string>)

  /** A directory holding an index: index.faiss and its modification time
      as `time.ctime` prints it, index.pkl, meta.jsonl, other plain files
      by name, the .txt files of documents/ (`None` without that folder)
      and the directories moved into it. */
  datatype Folder = Folder(faiss: FileState, stamp: string, pkl: FileState, meta: Option<seq<MetaLine>>,
                           files: set<string>, docs: Option<set<string>>, inner: map<string, Folder>)

  const EmptyFolder: Folder := Folder(Absent, "", Absent, None, {}, None, map[])

  /** A catalog entry. A missing `is_old_style` key reads as false. */
  datatype Descriptor = Descriptor(createdAt: string, lastModified: string, documentCount: nat, vectorCount: nat,
                                   embeddingModel: string, chunkSize: nat, chunkOverlap: nat,
                                   documents: seq<string>, sourcePaths: seq<string>, oldStyle: bool)

  /** What the readers get for a missing entry or key: every `.get` in the
      manager falls back to these values. */
  const Blank: Descriptor := Descriptor(Unknown, Unknown, 0, 0, Unknown, 1000, 200, [], [], false)

  /** index_metadata.json: missing, not parseable, or a stored catalog. */
  datatype CatalogFile = NoFile | Garbled | Stored(entries: map<string, Descriptor>)

  /** Everything the manager reads or changes: the index directory's own
      files (the legacy index), its sub-directories, the in-memory catalog
      and the catalog file. */
  datatype Store = Store(root: Folder, dirs: map<string, Folder>, metadata: map<string, Descriptor>, catalog: CatalogFile)

  /** A clock reading as `strftime("%Y-%m-%d %H:%M:%S")` and as
      `time.ctime` print it. */
  datatype Clock = Clock(stamp: string, ctime: string)

  /** `_load_metadata`: the stored catalog, or an empty one when the file
      is missing or does not parse. */
  function Loaded(f: CatalogFile): map<string, Descriptor> {
    if f.Stored? then f.entries else map[]
  }

  /** `_save_metadata`. */
  function Saved(s: Store): Store {
    s.(catalog := Stored(s.metadata))
  }

  /** The file on disk holds the in-memory catalog. */
  predicate Persisted(s: Store) {
    s.catalog == Stored(s.metadata)
  }

  function Lookup(md: map<string, Descriptor>, name: string): Descriptor {
    if name in md then md[name] else Blank
  }

  /** `index_exists`. */
  predicate Exists(s: Store, name: string) {
    (name in s.dirs && !s.dirs[name].faiss.Absent?) || (name == DefaultName && !s.root.faiss.Absent?)
  }

  /** The manager's test for the legacy index: the name is `default_index`
      and index.faiss lies in the index directory itself. */
  predicate Legacy(s: Store, name: string) {
    name == DefaultName && !s.root.faiss.Absent?
  }

  function DocCount(f: Folder): nat {
    if f.docs.Some? then |f.docs.value| else 0
  }

  /** The vector count recorded for an index found on disk: `ntotal`, or 0
      when index.faiss does not load. */
  function Vectors(f: FileState): nat {
    if f.Readable? then f.count else 0
  }

  function StampOf(f: Folder): string {
    if f.faiss.Absent? then Unknown else f.stamp
  }

  /** `_create_metadata_for_existing_index`: defaults for a sub-directory
      without an entry. */
  function ExistingDescriptor(f: Folder): Descriptor {
    Descriptor(StampOf(f), StampOf(f), DocCount(f), Vectors(f.faiss), DefaultModel, ChunkSize, Overlap, [], [], false)
  }

  /** The distinct "file" values of meta.jsonl; `None` when a line is not
      JSON (the count then stays 0). */
  function FilesIn(lines: seq<MetaLine>): Option<set<string>>
    decreases |lines|
  {
    if lines == [] then Some({})
    else
      var rest := FilesIn(lines[1..]);
      match lines[0]
      case BadLine => None
      case BlankLine => rest
      case Record(file) =>
        if rest.None? then None
        else if file.Some? then Some({file.value} + rest.value)
        else rest
  }

  function LegacyDocCount(f: Folder): nat {
    if f.meta.None? then 0
    else
      var fs := FilesIn(f.meta.value);
      if fs.Some? then |fs.value| else 0
  }

  /** `_create_metadata_for_old_style_index`. */
  function LegacyDescriptor(root: Folder): Descriptor {
    Descriptor(StampOf(root), StampOf(root), LegacyDocCount(root), Vectors(root.faiss), DefaultModel, ChunkSize, Overlap, [], [], true)
  }

  /** `IndexInfo`; `location` is the sub-directory, `None` for the index
      directory itself. File sizes are not modelled. */
  datatype IndexInfo = IndexInfo(name: string, location: Option<string>, createdAt: string, lastModified: string,
                                 documentCount: nat, vectorCount: nat, embeddingModel: string,
                                 chunkSize: nat, chunkOverlap: nat, documents: seq<string>)

  /** `_get_index_info`: an entry marked old-style describes the legacy
      index, whatever its key; otherwise the sub-directory must exist, and a
      zero document count is replaced by the .txt files in documents/. */
  function InfoOf(s: Store, name: string): Option<IndexInfo> {
    var d := Lookup(s.metadata, name);
    if d.oldStyle then
      Some(IndexInfo(DefaultName, None, d.createdAt, d.lastModified, d.documentCount, d.vectorCount,
                     d.embeddingModel, d.chunkSize, d.chunkOverlap, d.documents))
    else if name !in s.dirs then None
    else
      var docs := if d.documentCount == 0 then DocCount(s.dirs[name]) else d.documentCount;
      Some(IndexInfo(name, Some(name), d.createdAt, d.lastModified, docs, d.vectorCount,
                     d.embeddingModel, d.chunkSize, d.chunkOverlap, d.documents))
  }

  function AsSeq<T>(o: Option<T>): seq<T> {
    if o.Some? then [o.value] else []
  }

  /** One sub-directory of `list_indexes`: one holding index.faiss gets an
      entry if it has none, and its info is collected. */
  function ListDir(s: Store, name: string): (Store, seq<IndexInfo>) {
    if name in s.dirs && !s.dirs[name].faiss.Absent? then
      var t := if name in s.metadata then s
               else Saved(s.(metadata := s.metadata[name := ExistingDescriptor(s.dirs[name])]));
      (t, AsSeq(InfoOf(t, name)))
    else (s, [])
  }

  function ListDirs(s: Store, names: seq<string>): (Store, seq<IndexInfo>)
    decreases |names|
  {
    if names == [] then (s, [])
    else
      var (t, a) := ListDir(s, names[0]);
      var (u, b) := ListDirs(t, names[1..]);
      (u, a + b)
  }

  /** The legacy part of `list_indexes`. */
  function ListLegacy(s: Store): (Store, seq<IndexInfo>) {
    if s.root.faiss.Absent? then (s, [])
    else
      var t := if DefaultName in s.metadata then s
               else Saved(s.(metadata := s.metadata[DefaultName := LegacyDescriptor(s.root)]));
      if DefaultName in t.metadata then (t, AsSeq(InfoOf(t, DefaultName))) else (t, [])
  }

  /** `sorted(..., key=last_modified, reverse=True)` compares the strings. */
  predicate Newer(a: IndexInfo, b: IndexInfo) {
    LexLeq(b.lastModified, a.lastModified)
  }

  /** `list_indexes`, the sub-directories visited in the order `names`. */
  function Listed(s: Store, names: seq<string>): (Store, seq<IndexInfo>) {
    var (t, a) := ListDirs(s, names);
    var (u, b) := ListLegacy(t);
    (u, SortDesc(a + b, Newer))
  }

  /** The result of `get_index_status`. The dimension and the size are not
      modelled. */
  datatype Status =
    | Missing
    | Failed(error: string)
    | Present(vectors: nat, chunks: nat, documents: nat, model: string,
              createdAt: string, lastModified: string, valid: bool)

  /** The folder whose files `get_index_status` reads for an existing index. */
  function IndexFolder(s: Store, name: string): Folder
    requires Exists(s, name)
  {
    if Legacy(s, name) then s.root else s.dirs[name]
  }

  /** `get_index_status`: a missing or unloadable index.faiss or an
      unloadable index.pkl is an error; a missing index.pkl counts as no
      chunks, and an index with no chunks is valid. */
  function StatusOf(s: Store, name: string): Status {
    if !Exists(s, name) then Missing
    else
      var f := IndexFolder(s, name);
      if !f.faiss.Readable? then Failed("index.faiss could not be read")
      else if f.pkl.Unreadable? then Failed("index.pkl could not be read")
      else
        var chunks := if f.pkl.Readable? then f.pkl.count else 0;
        var d := Lookup(s.metadata, name);
        Present(f.faiss.count, chunks, d.documentCount, d.embeddingModel, d.createdAt, d.lastModified,
                chunks == 0 || chunks == f.faiss.count)
  }

  /** `validate_index`. */
  predicate Valid(s: Store, name: string) {
    var st := StatusOf(s, name);
    st.Present? && st.valid
  }

  /** The legacy files gone: index.faiss, index.pkl, index.json, meta.jsonl
      and index_metadata.json. */
  function LegacyRemoved(s: Store): Store {
    s.(root := s.root.(faiss := Absent, pkl := Absent, meta := None, files := s.root.files - {InfoFile}),
       catalog := NoFile)
  }

  function Forget(s: Store, name: string): Store {
    if name in s.metadata then Saved(s.(metadata := s.metadata - {name})) else s
  }

  /** `delete_index` as written: the legacy branch removes
      index_metadata.json among the legacy files and writes it back only
      when the catalog had an entry for `default_index`. */
  function DeletedAsWritten(s: Store, name: string): (bool, Store) {
    if Legacy(s, name) then (true, Forget(LegacyRemoved(s), name))
    else if name !in s.dirs then (false, s)
    else (true, Forget(s.(dirs := s.dirs - {name}), name))
  }

  /** `delete_index` with the catalog always written back after the legacy
      files are removed. */
  function Deleted(s: Store, name: string): (bool, Store) {
    if Legacy(s, name) then (true, Saved(LegacyRemoved(s).(metadata := s.metadata - {name})))
    else if name !in s.dirs then (false, s)
    else (true, Forget(s.(dirs := s.dirs - {name}), name))
  }

  /** The legacy files copied into folder `base` (`shutil.copy2` keeps the
      modification time). */
  function CopiedLegacy(root: Folder, catalog: CatalogFile, base: Folder): Folder {
    base.(faiss := root.faiss, stamp := root.stamp,
          pkl := if root.pkl.Absent? then base.pkl else root.pkl,
          meta := if root.meta.None? then base.meta else root.meta,
          files := base.files + (root.files * {InfoFile}) + (if catalog.NoFile? then {} else {CatalogName}))
  }

  /** The legacy branch of `rename_index`: copy the legacy files (and
      documents/) into `to`, re-key the entry as a new-style one with fresh
      timestamps, and remove the legacy files. Copying documents/ onto an
      existing to/documents fails after the files were copied. */
  function LegacyRenamed(s: Store, from: string, to: string, now: Clock): (bool, Store) {
    var base := if to in s.dirs then s.dirs[to] else EmptyFolder;
    var copied := CopiedLegacy(s.root, s.catalog, base);
    if s.root.docs.Some? && base.docs.Some? then (false, s.(dirs := s.dirs[to := copied]))
    else
      var folder := copied.(docs := if s.root.docs.Some? then s.root.docs else base.docs);
      var d := Lookup(s.metadata, from).(createdAt := now.stamp, lastModified := now.stamp, oldStyle := false);
      var t := LegacyRemoved(s);
      (true, Saved(t.(root := t.root.(docs := None), dirs := s.dirs[to := folder],
                      metadata := s.metadata[to := d] - {from})))
  }

  /** The new-style branch as written: `shutil.move` into a directory that
      already exists puts the index inside it, as `to/from`. */
  function MovedAsWritten(s: Store, from: string, to: string, now: Clock): (bool, Store)
    requires from in s.dirs && from != to
  {
    var dest := if to in s.dirs then s.dirs[to] else EmptyFolder;
    if to in s.dirs && from in dest.inner then (false, s)
    else
      var moved := if to in s.dirs then dest.(inner := dest.inner[from := s.dirs[from]]) else s.dirs[from];
      var t := s.(dirs := (s.dirs - {from})[to := moved]);
      if from in s.metadata then
        (true, Saved(t.(metadata := s.metadata[to := s.metadata[from].(lastModified := now.stamp)] - {from})))
      else (true, t)
  }

  /** `rename_index` as written. */
  function RenamedAsWritten(s: Store, from: string, to: string, now: Clock): (bool, Store) {
    if !Exists(s, from) || Exists(s, to) then (false, s)
    else if Legacy(s, from) then LegacyRenamed(s, from, to, now)
    else if from !in s.dirs then (false, s)
    else MovedAsWritten(s, from, to, now)
  }

  /** `rename_index` refusing a new name whose directory exists without an
      index, instead of moving the index inside it. */
  function Renamed(s: Store, from: string, to: string, now: Clock): (bool, Store) {
    if !Exists(s, from) || Exists(s, to) then (false, s)
    else if Legacy(s, from) then LegacyRenamed(s, from, to, now)
    else if from !in s.dirs || to in s.dirs then (false, s)
    else MovedAsWritten(s, from, to, now)
  }

  /** A document as `DocumentProcessor.process_document` returns it. */
  datatype Doc = Doc(text: string, filePath: string, hash: string, fileName: string)

  /** The documents `create_index` keeps: those found and processed with a
      non-empty text, in order. `load(p)` is `None` for a missing path or a
      failed processing. */
  function Loads(sources: seq<string>, load: string -> Option<Doc>): (r: seq<Doc>)
    ensures |r| <= |sources|
    ensures forall d :: d in r ==> d.text != []
  {
    if sources == [] then []
    else
      var d := load(sources[0]);
      (if d.Some? && d.value.text != [] then [d.value] else []) + Loads(sources[1..], load)
  }

  /** The chunks `create_index` makes: every document through the same
      window loop as the indexer, in order. */
  function DocChunks(docs: seq<Doc>): seq<Chunk> {
    if docs == [] then [] else Chunks(docs[0].text, ChunkSize, Overlap) + DocChunks(docs[1..])
  }

  function Texts(cs: seq<Chunk>): (r: seq<string>)
    ensures |r| == |cs| && forall i :: 0 <= i < |cs| ==> r[i] == cs[i].text
  {
    seq(|cs|, i requires 0 <= i < |cs| => cs[i].text)
  }

  function Paths(docs: seq<Doc>): (r: seq<string>)
    ensures |r| == |docs| && forall i :: 0 <= i < |docs| ==> r[i] == docs[i].filePath
  {
    seq(|docs|, i requires 0 <= i < |docs| => docs[i].filePath)
  }

  function DocName(i: nat): string {
    "document_" + IntToString(i) + ".txt"
  }

  /** The settings `create_index` records: the embedder's model name and
      the configured chunk size and overlap. */
  datatype Recorded = Recorded(model: string, chunkSize: nat, chunkOverlap: nat)

  /** `create_index`: the directory is made first (and stays when the
      build fails); no loaded document, no chunk or no embedding fails;
      otherwise index.faiss gets one vector per embedding row, index.pkl the
      chunks, documents/ one file per document, and the catalog an entry.
      `embed(texts)` is the number of embedding rows, or `None`. */
  function Created(s: Store, name: string, sources: seq<string>, load: string -> Option<Doc>,
                   embed: seq<string> -> Option<nat>, rec: Recorded, now: Clock): (bool, Store)
  {
    var base := if name in s.dirs then s.dirs[name] else EmptyFolder;
    var made := s.(dirs := s.dirs[name := base]);
    var docs := Loads(sources, load);
    var chunks := DocChunks(docs);
    if docs == [] || chunks == [] then (false, made)
    else
      var rows := embed(Texts(chunks));
      if rows.None? || rows.value == 0 then (false, made)
      else
        var written := set i | 0 <= i < |docs| :: DocName(i);
        var folder := base.(faiss := Readable(rows.value), stamp := now.ctime, pkl := Readable(|chunks|),
                            docs := Some((if base.docs.Some? then base.docs.value else {}) + written));
        var d := Descriptor(now.stamp, now.stamp, |docs|, |chunks|, rec.model, rec.chunkSize, rec.chunkOverlap,
                            sources, Paths(docs), false);
        (true, Saved(made.(dirs := made.dirs[name := folder], metadata := made.metadata[name := d])))
  }

  /** `rebuild_index` as written: delete an existing index with
      `delete_index` as written, then create it. */
  function RebuiltAsWritten(s: Store, name: string, sources: seq<string>, load: string -> Option<Doc>,
                            embed: seq<string> -> Option<nat>, rec: Recorded, now: Clock): (bool, Store)
  {
    var t := if Exists(s, name) then DeletedAsWritten(s, name).1 else s;
    Created(t, name, sources, load, embed, rec, now)
  }

  /** `rebuild_index` over the delete that writes the catalog back. */
  function Rebuilt(s: Store, name: string, sources: seq<string>, load: string -> Option<Doc>,
                   embed: seq<string> -> Option<nat>, rec: Recorded, now: Clock): (bool, Store)
  {
    var t := if Exists(s, name) then Deleted(s, name).1 else s;
    Created(t, name, sources, load, embed, rec, now)
  }

  /** One turn of the loop of `cleanup_orphaned_indexes`: an index that
      does not validate is deleted, and counts when the deletion succeeded. */
  function CleanTurn(s: Store, name: string): (nat, Store) {
    if Valid(s, name) then (0, s)
    else var (ok, t) := Deleted(s, name); (if ok then 1 else 0, t)
  }

  /** The loop of `cleanup_orphaned_indexes`. */
  function CleanFrom(s: Store, infos: seq<IndexInfo>): (nat, Store)
    decreases |infos|
  {
    if infos == [] then (0, s)
    else
      var (n, t) := CleanTurn(s, infos[0].name);
      var (m, u) := CleanFrom(t, infos[1..]);
      (n + m, u)
  }

  /** `cleanup_orphaned_indexes`. */
  function Cleaned(s: Store, names: seq<string>): (nat, Store) {
    var (t, infos) := Listed(s, names);
    CleanFrom(t, infos)
  }

  /** The loop of `delete_all_indexes`: the number of deletions that
      succeeded. */
  function DeleteFrom(s: Store, infos: seq<IndexInfo>): (nat, Store)
    decreases |infos|
  {
    if infos == [] then (0, s)
    else
      var (ok, t) := Deleted(s, infos[0].name);
      var (m, u) := DeleteFrom(t, infos[1..]);
      ((if ok then 1 else 0) + m, u)
  }

  /** `delete_all_indexes`: true with nothing listed, otherwise true when
      every deletion succeeded. */
  function DeletedAll(s: Store, names: seq<string>): (bool, Store) {
    var (t, infos) := Listed(s, names);
    if infos == [] then (true, t)
    else
      var (n, u) := DeleteFrom(t, infos);
      (n == |infos|, u)
  }

  /** One index in `get_index_summary`. */
  datatype Entry = Entry(name: string, vectors: nat, documents: nat, created: string, model: string)

  datatype Summary = Summary(totalIndexes: nat, totalVectors: nat, totalDocuments: nat, indexes: seq<Entry>)

  function SumVectors(infos: seq<IndexInfo>): nat {
    if infos == [] then 0 else infos[0].vectorCount + SumVectors(infos[1..])
  }

  function SumDocuments(infos: seq<IndexInfo>): nat {
    if infos == [] then 0 else infos[0].documentCount + SumDocuments(infos[1..])
  }

  function EntryOf(i: IndexInfo): Entry {
    Entry(i.name, i.vectorCount, i.documentCount, i.createdAt, i.embeddingModel)
  }

  function Entries(infos: seq<IndexInfo>): (r: seq<Entry>)
    ensures |r| == |infos| && forall i :: 0 <= i < |infos| ==> r[i] == EntryOf(infos[i])
  {
    seq(|infos|, i requires 0 <= i < |infos| => EntryOf(infos[i]))
  }

  /** `get_index_summary`; sizes are not modelled. */
  function Summarised(s: Store, names: seq<string>): (Summary, Store) {
    var (t, infos) := Listed(s, names);
    (Summary(|infos|, SumVectors(infos), SumDocuments(infos), Entries(infos)), t)
  }
}
