/** `IndexManager` (src/index_manager.py): the catalog object. Its fields
    are the parts of the store it reads and changes; every method is proved
    to take the store exactly where the matching function of `Catalog`
    says. */
module Manager {
  import opened Wrappers
  import opened Text
  import opened StableSort
  import opened Chunker
  import opened Catalog

  /** The distinct "file" values counted while reading meta.jsonl; 0 when a
      line is not JSON. */
  method CountLegacyDocuments(lines: seq<MetaLine>) returns (count: nat)
    ensures count == (if FilesIn(lines).Some? then |FilesIn(lines).value| else 0)
  {
    var seen: set<string> := {};
    var i := 0;
    assert lines[0..] == lines;
    JoinedEmpty(FilesIn(lines));
    while i < |lines|
      invariant 0 <= i <= |lines|
      invariant FilesIn(lines) == Joined(seen, FilesIn(lines[i..]))
    {
      assert lines[i..][0] == lines[i] && lines[i..][1..] == lines[i + 1..];
      if lines[i].BadLine? {
        return 0;
      }
      JoinedStep(seen, lines[i..]);
      if lines[i].Record? && lines[i].file.Some? {
        seen := seen + {lines[i].file.value};
      }
      i := i + 1;
    }
    assert lines[i..] == [];
    count := |seen|;
  }

  /** The files seen so far joined with those still to be read. */
  ghost function Joined(seen: set<string>, rest: Option<set<string>>): Option<set<string>> {
    if rest.Some? then Some(seen + rest.value) else None
  }

  function Picked(line: MetaLine): set<string> {
    if line.Record? && line.file.Some? then {line.file.value} else {}
  }

  lemma JoinedEmpty(rest: Option<set<string>>)
    ensures Joined({}, rest) == rest
  {
    if rest.Some? {
      assert {} + rest.value == rest.value;
    }
  }

  lemma JoinedStep(seen: set<string>, lines: seq<MetaLine>)
    requires lines != [] && !lines[0].BadLine?
    ensures Joined(seen, FilesIn(lines)) == Joined(seen + Picked(lines[0]), FilesIn(lines[1..]))
  {
    var rest := FilesIn(lines[1..]);
    if rest.Some? {
      if Picked(lines[0]) == {} {
        assert seen + {} == seen;
      } else {
        assert seen + (Picked(lines[0]) + rest.value) == (seen + Picked(lines[0])) + rest.value;
      }
    }
  }

  /** The documents loop of `create_index`. */
  method LoadDocuments(sources: seq<string>, load: string -> Option<Doc>) returns (docs: seq<Doc>)
    ensures docs == Loads(sources, load)
  {
    docs := [];
    var i := 0;
    while i < |sources|
      invariant 0 <= i <= |sources|
      invariant docs + Loads(sources[i..], load) == Loads(sources, load)
    {
      assert sources[i..][1..] == sources[i + 1..];
      var d := load(sources[i]);
      if d.Some? && d.value.text != [] {
        docs := docs + [d.value];
      }
      i := i + 1;
    }
    assert sources[i..] == [];
  }

  /** The chunking loop of `create_index`. */
  method ChunkDocuments(docs: seq<Doc>) returns (chunks: seq<Chunk>)
    ensures chunks == DocChunks(docs)
  {
    chunks := [];
    var i := 0;
    while i < |docs|
      invariant 0 <= i <= |docs|
      invariant chunks + DocChunks(docs[i..]) == DocChunks(docs)
    {
      assert docs[i..][1..] == docs[i + 1..];
      var page := ChunkPage(docs[i].text, ChunkSize, Overlap);
      chunks := chunks + page;
      i := i + 1;
    }
    assert docs[i..] == [];
  }

  /** The names of the files `create_index` writes into documents/. */
  method DocumentNames(n: nat) returns (names: set<string>)
    ensures names == set i | 0 <= i < n :: DocName(i)
  {
    names := {};
    var i := 0;
    while i < n
      invariant 0 <= i <= n
      invariant names == set j | 0 <= j < i :: DocName(j)
    {
      names := names + {DocName(i)};
      i := i + 1;
    }
  }

  class IndexManager {
    var root: Folder
    var dirs: map<string, Folder>
    var metadata: map<string, Descriptor>
    var catalog: CatalogFile
    /** The embedder's model name and the configured chunk settings. */
    const settings: Recorded

    ghost function State(): Store
      reads this
    {
      Store(root, dirs, metadata, catalog)
    }

    /** Opening an index directory reads the catalog file. */
    constructor(root: Folder, dirs: map<string, Folder>, file: CatalogFile, settings: Recorded)
      ensures State() == Store(root, dirs, Loaded(file), file)
      ensures this.settings == settings
    {
      this.root := root;
      this.dirs := dirs;
      this.catalog := file;
      this.settings := settings;
      this.metadata := if file.Stored? then file.entries else map[];
    }

    method SaveMetadata()
      modifies this
      ensures State() == Saved(old(State()))
    {
      catalog := Stored(metadata);
    }

    method IndexExists(name: string) returns (b: bool)
      ensures b == Exists(State(), name)
    {
      if name in dirs && !dirs[name].faiss.Absent? {
        return true;
      }
      if name == DefaultName {
        return !root.faiss.Absent?;
      }
      return false;
    }

    method GetIndexInfo(name: string) returns (info: Option<IndexInfo>)
      ensures info == InfoOf(State(), name)
    {
      var d := if name in metadata then metadata[name] else Blank;
      if d.oldStyle {
        return Some(IndexInfo(DefaultName, None, d.createdAt, d.lastModified, d.documentCount, d.vectorCount,
                              d.embeddingModel, d.chunkSize, d.chunkOverlap, d.documents));
      }
      if name !in dirs {
        return None;
      }
      var count := d.documentCount;
      if count == 0 {
        count := DocCount(dirs[name]);
      }
      return Some(IndexInfo(name, Some(name), d.createdAt, d.lastModified, count, d.vectorCount,
                            d.embeddingModel, d.chunkSize, d.chunkOverlap, d.documents));
    }

    method CreateExistingMetadata(name: string)
      requires name in dirs
      modifies this
      ensures State() == Saved(old(State()).(metadata := old(metadata)[name := ExistingDescriptor(old(dirs)[name])]))
    {
      metadata := metadata[name := ExistingDescriptor(dirs[name])];
      SaveMetadata();
    }

    method CreateLegacyMetadata()
      modifies this
      ensures State() == Saved(old(State()).(metadata := old(metadata)[DefaultName := LegacyDescriptor(old(root))]))
    {
      var count := 0;
      if root.meta.Some? {
        count := CountLegacyDocuments(root.meta.value);
      }
      var vectors := if root.faiss.Readable? then root.faiss.count else 0;
      var stamp := if root.faiss.Absent? then Unknown else root.stamp;
      metadata := metadata[DefaultName := Descriptor(stamp, stamp, count, vectors, DefaultModel, ChunkSize, Overlap, [], [], true)];
      SaveMetadata();
    }

    /** One entry of the directory listing. */
    method ListOne(name: string) returns (found: seq<IndexInfo>)
      modifies this
      ensures (State(), found) == ListDir(old(State()), name)
    {
      found := [];
      if name in dirs && !dirs[name].faiss.Absent? {
        if name !in metadata {
          CreateExistingMetadata(name);
        }
        var info := GetIndexInfo(name);
        if info.Some? {
          found := [info.value];
        }
      }
    }

    method ListSubdirectories(names: seq<string>) returns (found: seq<IndexInfo>)
      modifies this
      ensures (State(), found) == ListDirs(old(State()), names)
    {
      found := [];
      var i := 0;
      ghost var goal := ListDirs(State(), names);
      assert names[0..] == names;
      assert goal.1 == found + goal.1;
      while i < |names|
        invariant 0 <= i <= |names|
        invariant goal.0 == ListDirs(State(), names[i..]).0
        invariant goal.1 == found + ListDirs(State(), names[i..]).1
      {
        assert names[i..][0] == names[i] && names[i..][1..] == names[i + 1..];
        ghost var rest := ListDirs(ListDir(State(), names[i]).0, names[i + 1..]);
        var more := ListOne(names[i]);
        assert goal.1 == found + (more + rest.1);
        assert goal.1 == (found + more) + rest.1;
        found := found + more;
        i := i + 1;
      }
      assert names[i..] == [];
      assert found + [] == found;
    }

    method ListLegacyIndex() returns (found: seq<IndexInfo>)
      modifies this
      ensures (State(), found) == ListLegacy(old(State()))
    {
      found := [];
      if !root.faiss.Absent? {
        if DefaultName !in metadata {
          CreateLegacyMetadata();
        }
        if DefaultName in metadata {
          var info := GetIndexInfo(DefaultName);
          if info.Some? {
            found := [info.value];
          }
        }
      }
    }

    /** `list_indexes`, the sub-directories listed in the order `names`. */
    method ListIndexes(names: seq<string>) returns (infos: seq<IndexInfo>)
      modifies this
      ensures (State(), infos) == Listed(old(State()), names)
    {
      var found := ListSubdirectories(names);
      var legacy := ListLegacyIndex();
      infos := SortDesc(found + legacy, Newer);
    }

    /** `delete_index`, writing the catalog back after removing the legacy
      files. */
    method DeleteIndex(name: string) returns (ok: bool)
      modifies this
      ensures (ok, State()) == Deleted(old(State()), name)
    {
      if name == DefaultName && !root.faiss.Absent? {
        root := root.(faiss := Absent, pkl := Absent, meta := None, files := root.files - {InfoFile});
        catalog := NoFile;
        metadata := metadata - {name};
        SaveMetadata();
        return true;
      }
      if name !in dirs {
        return false;
      }
      dirs := dirs - {name};
      if name in metadata {
        metadata := metadata - {name};
        SaveMetadata();
      }
      return true;
    }

    /** The deletion loop of `delete_all_indexes`. */
    method DeleteEach(infos: seq<IndexInfo>) returns (count: nat)
      modifies this
      ensures (count, State()) == DeleteFrom(old(State()), infos)
    {
      count := 0;
      var i := 0;
      while i < |infos|
        invariant 0 <= i <= |infos|
        invariant var (m, u) := DeleteFrom(State(), infos[i..]); DeleteFrom(old(State()), infos) == (count + m, u)
      {
        assert infos[i..][1..] == infos[i + 1..];
        var ok := DeleteIndex(infos[i].name);
        if ok {
          count := count + 1;
        }
        i := i + 1;
      }
      assert infos[i..] == [];
    }

    method DeleteAllIndexes(names: seq<string>) returns (ok: bool)
      modifies this
      ensures (ok, State()) == DeletedAll(old(State()), names)
    {
      var infos := ListIndexes(names);
      if infos == [] {
        return true;
      }
      var count := DeleteEach(infos);
      ok := count == |infos|;
    }

    method GetIndexStatus(name: string) returns (st: Status)
      ensures st == StatusOf(State(), name)
    {
      var present := IndexExists(name);
      if !present {
        return Missing;
      }
      var f := if name == DefaultName && !root.faiss.Absent? then root else dirs[name];
      if !f.faiss.Readable? {
        return Failed("index.faiss could not be read");
      }
      if f.pkl.Unreadable? {
        return Failed("index.pkl could not be read");
      }
      var chunks := if f.pkl.Readable? then f.pkl.count else 0;
      var d := if name in metadata then metadata[name] else Blank;
      st := Present(f.faiss.count, chunks, d.documentCount, d.embeddingModel, d.createdAt, d.lastModified,
                    if chunks > 0 then chunks == f.faiss.count else true);
    }

    method ValidateIndex(name: string) returns (ok: bool)
      ensures ok == Valid(State(), name)
    {
      var st := GetIndexStatus(name);
      ok := st.Present? && st.valid;
    }

    /** The loop of `cleanup_orphaned_indexes`. */
    method CleanEach(infos: seq<IndexInfo>) returns (count: nat)
      modifies this
      ensures (count, State()) == CleanFrom(old(State()), infos)
    {
      count := 0;
      var i := 0;
      while i < |infos|
        invariant 0 <= i <= |infos|
        invariant var (m, u) := CleanFrom(State(), infos[i..]); CleanFrom(old(State()), infos) == (count + m, u)
      {
        assert infos[i..][1..] == infos[i + 1..];
        var valid := ValidateIndex(infos[i].name);
        if !valid {
          var ok := DeleteIndex(infos[i].name);
          if ok {
            count := count + 1;
          }
        }
        i := i + 1;
      }
      assert infos[i..] == [];
    }

    method CleanupOrphanedIndexes(names: seq<string>) returns (count: nat)
      modifies this
      ensures (count, State()) == Cleaned(old(State()), names)
    {
      var infos := ListIndexes(names);
      count := CleanEach(infos);
    }

    /** `create_index`; `load` stands for the existence test and the
      document processor, `embed` for the embedder, `now` for the clock. */
    method CreateIndex(name: string, sources: seq<string>, load: string -> Option<Doc>,
                       embed: seq<string> -> Option<nat>, now: Clock) returns (ok: bool)
      modifies this
      ensures (ok, State()) == Created(old(State()), name, sources, load, embed, settings, now)
    {
      var base := if name in dirs then dirs[name] else EmptyFolder;
      dirs := dirs[name := base];
      var docs := LoadDocuments(sources, load);
      if docs == [] {
        return false;
      }
      var chunks := ChunkDocuments(docs);
      if chunks == [] {
        return false;
      }
      var rows := embed(Texts(chunks));
      if rows.None? || rows.value == 0 {
        return false;
      }
      var written := DocumentNames(|docs|);
      var kept := if base.docs.Some? then base.docs.value else {};
      dirs := dirs[name := base.(faiss := Readable(rows.value), stamp := now.ctime, pkl := Readable(|chunks|),
                                 docs := Some(kept + written))];
      metadata := metadata[name := Descriptor(now.stamp, now.stamp, |docs|, |chunks|, settings.model,
                                              settings.chunkSize, settings.chunkOverlap, sources, Paths(docs), false)];
      SaveMetadata();
      ok := true;
    }

    method RebuildIndex(name: string, sources: seq<string>, load: string -> Option<Doc>,
                        embed: seq<string> -> Option<nat>, now: Clock) returns (ok: bool)
      modifies this
      ensures (ok, State()) == Rebuilt(old(State()), name, sources, load, embed, settings, now)
    {
      var present := IndexExists(name);
      if present {
        var _ := DeleteIndex(name);
      }
      ok := CreateIndex(name, sources, load, embed, now);
    }

    /** `rename_index`, refusing a new name whose directory already exists. */
    method RenameIndex(from: string, to: string, now: Clock) returns (ok: bool)
      modifies this
      ensures (ok, State()) == Renamed(old(State()), from, to, now)
    {
      var present := IndexExists(from);
      if !present {
        return false;
      }
      var taken := IndexExists(to);
      if taken {
        return false;
      }
      if from == DefaultName && !root.faiss.Absent? {
        var base := if to in dirs then dirs[to] else EmptyFolder;
        var copied := CopiedLegacy(root, catalog, base);
        if root.docs.Some? && base.docs.Some? {
          dirs := dirs[to := copied];
          return false;
        }
        dirs := dirs[to := copied.(docs := if root.docs.Some? then root.docs else base.docs)];
        var d := Lookup(metadata, from).(createdAt := now.stamp, lastModified := now.stamp, oldStyle := false);
        metadata := metadata[to := d] - {from};
        root := root.(faiss := Absent, pkl := Absent, meta := None, files := root.files - {InfoFile}, docs := None);
        catalog := NoFile;
        SaveMetadata();
        return true;
      }
      if from !in dirs || to in dirs {
        return false;
      }
      dirs := (dirs - {from})[to := dirs[from]];
      if from in metadata {
        metadata := metadata[to := metadata[from].(lastModified := now.stamp)] - {from};
        SaveMetadata();
      }
      return true;
    }

    /** `get_index_summary`. */
    method GetIndexSummary(names: seq<string>) returns (summary: Summary)
      modifies this
      ensures (summary, State()) == Summarised(old(State()), names)
    {
      var infos := ListIndexes(names);
      summary := Summary(|infos|, SumVectors(infos), SumDocuments(infos), Entries(infos));
    }
  }
}
