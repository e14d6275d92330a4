/** What the index catalog promises: the file on disk keeps up with the
    in-memory catalog, deletions and renames touch only the named index,
    validity, listing and the counts of the bulk operations. */
module CatalogFacts {
  import opened Wrappers
  import opened Text
  import opened StableSort
  import opened Chunker
  import opened Catalog

  // ---------------------------------------------------------------------
  // Existence and validity

  /** An index is valid exactly when it exists, index.faiss loads,
      index.pkl is missing or loads, and the chunk count is zero or equals
      the vector count. */
  lemma ValidIff(s: Store, name: string)
    ensures Valid(s, name) <==>
      Exists(s, name) &&
      var f := IndexFolder(s, name);
      f.faiss.Readable? && !f.pkl.Unreadable? &&
      (f.pkl.Absent? || f.pkl.count == 0 || f.pkl.count == f.faiss.count)
  {
  }

  /** The status reports a missing index exactly when the index does not
      exist, and reports its vector and chunk counts otherwise. */
  lemma StatusShape(s: Store, name: string)
    ensures StatusOf(s, name).Missing? <==> !Exists(s, name)
    ensures StatusOf(s, name).Present? ==>
      var f := IndexFolder(s, name);
      StatusOf(s, name).vectors == f.faiss.count &&
      StatusOf(s, name).chunks == (if f.pkl.Readable? then f.pkl.count else 0)
  {
  }

  // ---------------------------------------------------------------------
  // Deletion

  /** `delete_index` succeeds exactly for the legacy index or an existing
      sub-directory, and changes nothing when it fails. */
  lemma DeleteOutcome(s: Store, name: string)
    ensures Deleted(s, name).0 <==> Legacy(s, name) || name in s.dirs
    ensures !Deleted(s, name).0 ==> Deleted(s, name).1 == s
  {
  }

  /** Deleting a new-style index removes its directory and its entry and
      nothing else; the index no longer exists. */
  lemma DeleteNewStyle(s: Store, name: string)
    requires !Legacy(s, name) && name in s.dirs
    ensures var t := Deleted(s, name).1;
      t.dirs == s.dirs - {name} && t.metadata == s.metadata - {name} && t.root == s.root &&
      !Exists(t, name) &&
      (name in s.metadata ==> Persisted(t)) && (name !in s.metadata ==> t.catalog == s.catalog)
  {
  }

  /** Deleting the legacy index removes its files (documents/ stays),
      drops its entry, keeps every sub-directory and writes the catalog. */
  lemma DeleteLegacy(s: Store)
    requires Legacy(s, DefaultName)
    ensures var (ok, t) := Deleted(s, DefaultName);
      ok && !Legacy(t, DefaultName) && t.root.pkl.Absent? && t.root.meta.None? && InfoFile !in t.root.files &&
      t.root.docs == s.root.docs && t.dirs == s.dirs &&
      t.metadata == s.metadata - {DefaultName} && Persisted(t)
  {
  }

  /** Deleting keeps the catalog file in step with the catalog. */
  lemma DeletePersists(s: Store, name: string)
    requires Persisted(s)
    ensures Persisted(Deleted(s, name).1)
  {
  }

  /** As written, deleting the legacy index when the catalog has no entry
      for it removes index_metadata.json and never writes it back: the
      entries of every other index are lost once the catalog is reloaded. */
  lemma DeleteAsWrittenDropsCatalog(s: Store)
    requires Legacy(s, DefaultName) && DefaultName !in s.metadata && s.metadata != map[]
    ensures var (ok, t) := DeletedAsWritten(s, DefaultName);
      ok && t.metadata == s.metadata && t.catalog == NoFile && !Persisted(t) && Loaded(t.catalog) == map[]
  {
  }

  /** A concrete store that shows it: a legacy index next to a catalogued
      sub-directory `notes`. */
  lemma DeleteAsWrittenExample()
    ensures var s := Store(Folder(Readable(3), "Mon Jan  1 00:00:00 2024", Readable(3), None, {}, None, map[]),
                           map["notes" := EmptyFolder.(faiss := Readable(2))],
                           map["notes" := Blank], Stored(map["notes" := Blank]));
      Persisted(s) && !Persisted(DeletedAsWritten(s, DefaultName).1) &&
      Persisted(Deleted(s, DefaultName).1) && "notes" in Loaded(Deleted(s, DefaultName).1.catalog)
  {
    var s := Store(Folder(Readable(3), "Mon Jan  1 00:00:00 2024", Readable(3), None, {}, None, map[]),
                   map["notes" := EmptyFolder.(faiss := Readable(2))],
                   map["notes" := Blank], Stored(map["notes" := Blank]));
    assert DefaultName[0] != "notes"[0];
    assert "notes" in s.metadata;
    DeleteAsWrittenDropsCatalog(s);
    assert Deleted(s, DefaultName).1.metadata == map["notes" := Blank];
  }

  // ---------------------------------------------------------------------
  // Renaming

  /** A rename from a missing index or onto an existing one fails and
      changes nothing; in particular renaming an index to its own name. */
  lemma RenameRefused(s: Store, from: string, to: string, now: Clock)
    requires !Exists(s, from) || Exists(s, to) || from == to
    ensures Renamed(s, from, to, now) == (false, s)
  {
  }

  /** A new-style index is never renamed onto an existing directory, even
      one that holds no index: the rename fails and changes nothing. */
  lemma RenameOntoDirectoryRefused(s: Store, from: string, to: string, now: Clock)
    requires !Legacy(s, from) && to in s.dirs
    ensures Renamed(s, from, to, now) == (false, s)
  {
  }

  /** Renaming a new-style index moves its directory and its entry, with
      only `last_modified` changed; the old name no longer exists and every
      other entry is untouched. */
  lemma RenameNewStyle(s: Store, from: string, to: string, now: Clock)
    requires Exists(s, from) && !Exists(s, to) && !Legacy(s, from) && to !in s.dirs
    ensures var (ok, t) := Renamed(s, from, to, now);
      ok && Exists(t, to) && !Exists(t, from) && t.root == s.root &&
      from !in t.dirs && t.dirs[to] == s.dirs[from] &&
      (forall n :: n != from && n != to ==> (n in t.dirs <==> n in s.dirs) && (n in s.dirs ==> t.dirs[n] == s.dirs[n])) &&
      from !in t.metadata &&
      (from in s.metadata ==> to in t.metadata && t.metadata[to] == s.metadata[from].(lastModified := now.stamp)) &&
      (forall n :: n != from && n != to ==> (n in t.metadata <==> n in s.metadata) && (n in s.metadata ==> t.metadata[n] == s.metadata[n]))
  {
  }

  /** Renaming the legacy index turns it into a new-style one: its files
      are in the new directory, the root no longer holds an index, and the
      entry is re-keyed with fresh timestamps and `is_old_style` false. */
  lemma RenameLegacy(s: Store, to: string, now: Clock)
    requires Legacy(s, DefaultName) && !Exists(s, to)
    requires s.root.docs.None? || to !in s.dirs || s.dirs[to].docs.None?
    ensures var (ok, t) := Renamed(s, DefaultName, to, now);
      ok && Exists(t, to) && !Legacy(t, DefaultName) && Persisted(t) &&
      t.dirs[to].faiss == s.root.faiss && t.dirs[to].stamp == s.root.stamp && t.root.docs.None? &&
      DefaultName !in t.metadata &&
      t.metadata[to] == Lookup(s.metadata, DefaultName).(createdAt := now.stamp, lastModified := now.stamp, oldStyle := false) &&
      (forall n :: n != DefaultName && n != to ==> (n in t.metadata <==> n in s.metadata) && (n in s.metadata ==> t.metadata[n] == s.metadata[n]))
  {
  }

  /** Renaming keeps the catalog file in step with the catalog. */
  lemma RenamePersists(s: Store, from: string, to: string, now: Clock)
    requires Persisted(s)
    ensures Persisted(Renamed(s, from, to, now).1)
  {
  }

  /** As written, renaming onto a directory that exists without an index
      (one a failed `create_index` leaves behind) moves the index inside
      it: the rename reports success, yet neither name is an index any
      more. */
  lemma RenameAsWrittenHidesIndex(s: Store, from: string, to: string, now: Clock)
    requires Exists(s, from) && !Legacy(s, from) && to in s.dirs && !Exists(s, to) && from !in s.dirs[to].inner
    ensures var (ok, t) := RenamedAsWritten(s, from, to, now);
      ok && !Exists(t, from) && !Exists(t, to) && t.dirs[to].inner[from] == s.dirs[from]
  {
  }

  /** A concrete store that shows it: `reports` exists without an index. */
  lemma RenameAsWrittenExample(now: Clock)
    ensures var s := Store(EmptyFolder, map["notes" := EmptyFolder.(faiss := Readable(2)), "reports" := EmptyFolder],
                           map[], Stored(map[]));
      RenamedAsWritten(s, "notes", "reports", now).0 &&
      !Exists(RenamedAsWritten(s, "notes", "reports", now).1, "notes") &&
      !Exists(RenamedAsWritten(s, "notes", "reports", now).1, "reports") &&
      Renamed(s, "notes", "reports", now) == (false, s)
  {
    var s := Store(EmptyFolder, map["notes" := EmptyFolder.(faiss := Readable(2)), "reports" := EmptyFolder],
                   map[], Stored(map[]));
    RenameAsWrittenHidesIndex(s, "notes", "reports", now);
  }

  // ---------------------------------------------------------------------
  // Creation

  /** `create_index` fails when no document loads or no chunk is produced;
      the directory it made stays, nothing else changes. */
  lemma CreateFails(s: Store, name: string, sources: seq<string>, load: string -> Option<Doc>,
                    embed: seq<string> -> Option<nat>, rec: Recorded, now: Clock)
    requires Loads(sources, load) == [] || DocChunks(Loads(sources, load)) == []
    ensures var (ok, t) := Created(s, name, sources, load, embed, rec, now);
      !ok && name in t.dirs && t.root == s.root && t.metadata == s.metadata && t.catalog == s.catalog
  {
  }

  /** A successful `create_index` leaves an existing index whose entry
      records one vector per chunk and the number of loaded documents; it
      validates exactly when the embedder gave one row per chunk; every
      other index is untouched. */
  lemma CreateRecords(s: Store, name: string, sources: seq<string>, load: string -> Option<Doc>,
                      embed: seq<string> -> Option<nat>, rec: Recorded, now: Clock)
    requires !Legacy(s, name)
    ensures var (ok, t) := Created(s, name, sources, load, embed, rec, now);
      var docs := Loads(sources, load);
      var chunks := DocChunks(docs);
      ok ==>
        Exists(t, name) && Persisted(t) && name in t.metadata &&
        t.metadata[name].vectorCount == |chunks| && t.metadata[name].documentCount == |docs| <= |sources| &&
        t.metadata[name].documents == sources && !t.metadata[name].oldStyle &&
        t.metadata[name].createdAt == now.stamp && t.metadata[name].lastModified == now.stamp &&
        (Valid(t, name) <==> embed(Texts(chunks)).value == |chunks|) &&
        t.root == s.root &&
        (forall n :: n != name ==> (n in t.metadata <==> n in s.metadata) && (n in s.metadata ==> t.metadata[n] == s.metadata[n])) &&
        (forall n :: n != name ==> (n in t.dirs <==> n in s.dirs) && (n in s.dirs ==> t.dirs[n] == s.dirs[n]))
  {
  }

  /** Creating keeps the catalog file in step with the catalog. */
  lemma CreatePersists(s: Store, name: string, sources: seq<string>, load: string -> Option<Doc>,
                       embed: seq<string> -> Option<nat>, rec: Recorded, now: Clock)
    requires Persisted(s)
    ensures Persisted(Created(s, name, sources, load, embed, rec, now).1)
  {
  }

  /** `rebuild_index` ends, when it succeeds, with a freshly created
      new-style entry and the catalog file in step, whatever the index held
      before: the legacy `default_index` is replaced by a sub-directory. */
  lemma RebuildRecords(s: Store, name: string, sources: seq<string>, load: string -> Option<Doc>,
                       embed: seq<string> -> Option<nat>, rec: Recorded, now: Clock)
    ensures var (ok, t) := Rebuilt(s, name, sources, load, embed, rec, now);
      ok ==> Exists(t, name) && !Legacy(t, name) && name in t.dirs && name in t.metadata &&
             t.metadata[name].createdAt == now.stamp && !t.metadata[name].oldStyle &&
             t.metadata[name].vectorCount == |DocChunks(Loads(sources, load))| &&
             Persisted(t)
  {
    var u := if Exists(s, name) then Deleted(s, name).1 else s;
    assert !Legacy(u, name);
    CreateRecords(u, name, sources, load, embed, rec, now);
  }

  /** Rebuilding keeps the catalog file in step, whether or not the
      creation succeeds. */
  lemma RebuildPersists(s: Store, name: string, sources: seq<string>, load: string -> Option<Doc>,
                        embed: seq<string> -> Option<nat>, rec: Recorded, now: Clock)
    requires Persisted(s)
    ensures Persisted(Rebuilt(s, name, sources, load, embed, rec, now).1)
  {
    var u := if Exists(s, name) then Deleted(s, name).1 else s;
    DeletePersists(s, name);
    CreatePersists(u, name, sources, load, embed, rec, now);
  }

  /** As written, rebuilding an uncatalogued legacy index from documents
      that do not load deletes index_metadata.json and never writes it
      back; over the corrected delete the file keeps every other entry. */
  lemma RebuildAsWrittenDropsCatalog(s: Store, sources: seq<string>, load: string -> Option<Doc>,
                                     embed: seq<string> -> Option<nat>, rec: Recorded, now: Clock)
    requires Legacy(s, DefaultName) && DefaultName !in s.metadata && Loads(sources, load) == []
    ensures var (ok, t) := RebuiltAsWritten(s, DefaultName, sources, load, embed, rec, now);
      !ok && t.catalog == NoFile && t.metadata == s.metadata
    ensures var (ok, t) := Rebuilt(s, DefaultName, sources, load, embed, rec, now);
      !ok && t.catalog == Stored(s.metadata) && t.metadata == s.metadata
  {
  }

  // ---------------------------------------------------------------------
  // Listing

  /** `t` is `s` after the listing added entries: the files are the same,
      every entry of `s` is kept, and the catalog file was written if
      anything changed. */
  ghost predicate Grows(s: Store, t: Store) {
    t.root == s.root && t.dirs == s.dirs &&
    (forall n :: n in s.metadata ==> n in t.metadata && t.metadata[n] == s.metadata[n]) &&
    (t == s || Persisted(t))
  }

  lemma ListDirFacts(s: Store, name: string)
    ensures var (t, found) := ListDir(s, name);
      Grows(s, t) &&
      (name in s.dirs && !s.dirs[name].faiss.Absent? ==> name in t.metadata) &&
      (forall n :: n in t.metadata && n !in s.metadata ==>
         n == name && n in s.dirs && t.metadata[n] == ExistingDescriptor(s.dirs[n])) &&
      (forall i :: i in found ==> i.name == name || i.name == DefaultName)
  {
  }

  lemma {:induction false} ListDirsFacts(s: Store, names: seq<string>)
    ensures var (t, found) := ListDirs(s, names);
      Grows(s, t) &&
      (forall n :: n in names && n in s.dirs && !s.dirs[n].faiss.Absent? ==> n in t.metadata) &&
      (forall n :: n in t.metadata && n !in s.metadata ==>
         n in names && n in s.dirs && t.metadata[n] == ExistingDescriptor(s.dirs[n])) &&
      (forall i :: i in found ==> i.name in names || i.name == DefaultName)
    decreases |names|
  {
    if names != [] {
      var (t1, a) := ListDir(s, names[0]);
      ListDirFacts(s, names[0]);
      ListDirsFacts(t1, names[1..]);
      var (u, b) := ListDirs(t1, names[1..]);
      assert ListDirs(s, names) == (u, a + b);
      forall n | n in names[1..] ensures n in names {
      }
      forall i | i in a + b ensures i.name in names || i.name == DefaultName {
        if i in a {
          assert i.name == names[0] || i.name == DefaultName;
        }
      }
    }
  }

  lemma ListLegacyFacts(s: Store)
    ensures var (t, found) := ListLegacy(s);
      Grows(s, t) &&
      (!s.root.faiss.Absent? ==> DefaultName in t.metadata) &&
      (forall n :: n in t.metadata && n !in s.metadata ==>
         n == DefaultName && t.metadata[n] == LegacyDescriptor(s.root) && t.metadata[n].oldStyle) &&
      (forall i :: i in found ==> i.name == DefaultName)
  {
  }

  /** Later modification stamps (as strings) come first. */
  lemma NewerOrders()
    ensures TotalPreorder(Newer)
  {
    forall a, b ensures Newer(a, b) || Newer(b, a) {
      LexTotal(a.lastModified, b.lastModified);
    }
    forall a, b, c | Newer(a, b) && Newer(b, c) ensures Newer(a, c) {
      LexTrans(c.lastModified, b.lastModified, a.lastModified);
    }
  }

  /** `list_indexes` keeps every file and every entry, synthesizes an
      entry with the default settings for each listed sub-directory that
      holds index.faiss and has none, and one marked old-style for a legacy
      index; it names only listed directories or `default_index`, sorted by
      modification stamp, latest first. */
  lemma ListedFacts(s: Store, names: seq<string>)
    ensures var (u, infos) := Listed(s, names);
      u.root == s.root && u.dirs == s.dirs &&
      (forall n :: n in s.metadata ==> n in u.metadata && u.metadata[n] == s.metadata[n]) &&
      (forall n :: n in names && n in s.dirs && !s.dirs[n].faiss.Absent? ==> n in u.metadata) &&
      (!s.root.faiss.Absent? ==> DefaultName in u.metadata) &&
      (forall n :: n in u.metadata && n !in s.metadata ==>
         (n in names && n in s.dirs && u.metadata[n] == ExistingDescriptor(s.dirs[n]) &&
          u.metadata[n].chunkSize == 800 && u.metadata[n].chunkOverlap == 120) ||
         (n == DefaultName && u.metadata[n] == LegacyDescriptor(s.root) && u.metadata[n].oldStyle)) &&
      (forall i :: i in infos ==> i.name in names || i.name == DefaultName) &&
      SortedDesc(infos, Newer) &&
      (Persisted(s) ==> Persisted(u))
  {
    var (t, a) := ListDirs(s, names);
    ListDirsFacts(s, names);
    var (u, b) := ListLegacy(t);
    ListLegacyFacts(t);
    NewerOrders();
    SortDescSorted(a + b, Newer);
    var infos := SortDesc(a + b, Newer);
    assert Listed(s, names) == (u, infos);
    forall i | i in infos ensures i.name in names || i.name == DefaultName {
      assert i in multiset(a + b);
    }
  }

  /** Whether `list_indexes` looks into the sub-directory `n`: it is there
      and holds index.faiss. */
  predicate Listable(s: Store, n: string) {
    n in s.dirs && !s.dirs[n].faiss.Absent?
  }

  /** The infos `list_indexes` collects from the sub-directories `names`,
      each read from the catalog `u` holds once listing is over. */
  function DirInfos(u: Store, names: seq<string>): seq<IndexInfo>
    decreases |names|
  {
    if names == [] then []
    else (if Listable(u, names[0]) then AsSeq(InfoOf(u, names[0])) else []) + DirInfos(u, names[1..])
  }

  /** The info `list_indexes` collects for a root index.faiss. */
  function LegacyInfos(u: Store): seq<IndexInfo> {
    if !u.root.faiss.Absent? && DefaultName in u.metadata then AsSeq(InfoOf(u, DefaultName)) else []
  }

  /** Adding entries for other names does not change what is read for
      names that already had one. */
  lemma {:induction false} DirInfosGrow(s: Store, t: Store, names: seq<string>)
    requires Grows(s, t)
    requires forall n :: n in names && Listable(s, n) ==> n in s.metadata
    ensures DirInfos(s, names) == DirInfos(t, names)
    decreases |names|
  {
    if names != [] {
      DirInfosGrow(s, t, names[1..]);
    }
  }

  /** The sub-directory loop returns, in order, the info of every listed
      directory holding index.faiss, as the final catalog describes it. */
  lemma {:induction false} ListDirsInfos(s: Store, names: seq<string>)
    ensures ListDirs(s, names).1 == DirInfos(ListDirs(s, names).0, names)
    decreases |names|
  {
    if names != [] {
      var (t1, a) := ListDir(s, names[0]);
      var (u, b) := ListDirs(t1, names[1..]);
      ListDirsInfos(t1, names[1..]);
      ListDirsFacts(t1, names[1..]);
      assert ListDirs(s, names) == (u, a + b);
      if Listable(s, names[0]) {
        assert names[0] in t1.metadata;
        assert InfoOf(t1, names[0]) == InfoOf(u, names[0]);
      }
    }
  }

  /** Every listed directory holding index.faiss contributes its info. */
  lemma {:induction false} DirInfosHas(u: Store, names: seq<string>, n: string)
    requires n in names && Listable(u, n)
    ensures InfoOf(u, n).Some? && InfoOf(u, n).value in DirInfos(u, names)
    decreases |names|
  {
    if names[0] != n {
      DirInfosHas(u, names[1..], n);
    }
  }

  /** What `list_indexes` returns: exactly (as a multiset) the info of each
      listed sub-directory holding index.faiss and, for a root index.faiss,
      the info of `default_index`, all read from the final catalog. */
  lemma ListedInfos(s: Store, names: seq<string>)
    ensures var (u, infos) := Listed(s, names);
      multiset(infos) == multiset(DirInfos(u, names) + LegacyInfos(u))
  {
    var (t, a) := ListDirs(s, names);
    var (u, b) := ListLegacy(t);
    assert Listed(s, names) == (u, SortDesc(a + b, Newer));
    ListDirsFacts(s, names);
    ListDirsInfos(s, names);
    ListLegacyFacts(t);
    DirInfosGrow(t, u, names);
  }

  /** Every listed sub-directory holding index.faiss is in the result of
      `list_indexes`, under its own name or, when its entry is marked
      old-style, as `default_index`. */
  lemma ListedDirs(s: Store, names: seq<string>, n: string)
    requires n in names && Listable(s, n)
    ensures var (u, infos) := Listed(s, names);
      InfoOf(u, n).Some? && InfoOf(u, n).value in infos &&
      (InfoOf(u, n).value.name == n || InfoOf(u, n).value.name == DefaultName)
  {
    var (u, infos) := Listed(s, names);
    ListedInfos(s, names);
    ListedFacts(s, names);
    DirInfosHas(u, names, n);
    assert InfoOf(u, n).value in multiset(DirInfos(u, names) + LegacyInfos(u));
  }

  /** A root index.faiss whose `default_index` entry is missing or marked
      old-style, with no `default_index` sub-directory, is in the result of
      `list_indexes` as `default_index`, located in the index directory
      itself. */
  lemma ListedLegacy(s: Store, names: seq<string>)
    requires !s.root.faiss.Absent? && DefaultName !in s.dirs
    requires DefaultName in s.metadata ==> s.metadata[DefaultName].oldStyle
    ensures var (u, infos) := Listed(s, names);
      exists i :: i in infos && i.name == DefaultName && i.location.None?
  {
    var (t, a) := ListDirs(s, names);
    ListDirsFacts(s, names);
    var (u, infos) := Listed(s, names);
    ListLegacyFacts(t);
    ListedInfos(s, names);
    assert DefaultName in t.metadata ==> t.metadata[DefaultName] == s.metadata[DefaultName];
    assert u.metadata[DefaultName].oldStyle;
    var i := InfoOf(u, DefaultName).value;
    assert i in multiset(DirInfos(u, names) + LegacyInfos(u));
    assert i in infos;
  }

  // ---------------------------------------------------------------------
  // Bulk operations

  /** Each deletion in order succeeded. */
  ghost predicate AllDeleted(s: Store, infos: seq<IndexInfo>)
    decreases |infos|
  {
    infos == [] ||
    (Deleted(s, infos[0].name).0 && AllDeleted(Deleted(s, infos[0].name).1, infos[1..]))
  }

  lemma {:induction false} DeleteFromCount(s: Store, infos: seq<IndexInfo>)
    ensures DeleteFrom(s, infos).0 <= |infos|
    ensures DeleteFrom(s, infos).0 == |infos| <==> AllDeleted(s, infos)
    decreases |infos|
  {
    if infos != [] {
      DeleteFromCount(Deleted(s, infos[0].name).1, infos[1..]);
    }
  }

  /** `delete_all_indexes` reports success exactly when nothing was listed
      or every listed deletion succeeded. */
  lemma DeletedAllIff(s: Store, names: seq<string>)
    ensures DeletedAll(s, names).0 <==>
      var (t, infos) := Listed(s, names);
      infos == [] || AllDeleted(t, infos)
  {
    var (t, infos) := Listed(s, names);
    DeleteFromCount(t, infos);
  }

  lemma {:induction false} DeleteFromPersists(s: Store, infos: seq<IndexInfo>)
    requires Persisted(s)
    ensures Persisted(DeleteFrom(s, infos).1)
    decreases |infos|
  {
    if infos != [] {
      DeletePersists(s, infos[0].name);
      DeleteFromPersists(Deleted(s, infos[0].name).1, infos[1..]);
    }
  }

  /** The store the cleanup loop holds when it reaches each listed index. */
  ghost function Turns(s: Store, infos: seq<IndexInfo>): (r: seq<Store>)
    ensures |r| == |infos|
    decreases |infos|
  {
    if infos == [] then [] else [s] + Turns(CleanTurn(s, infos[0].name).1, infos[1..])
  }

  /** The turn for `name` removes it: it does not validate and the
      deletion succeeds. */
  ghost predicate Removes(s: Store, name: string) {
    !Valid(s, name) && Deleted(s, name).0
  }

  /** The positions of the listed indexes the loop removes. */
  ghost function RemovedAt(s: Store, infos: seq<IndexInfo>): set<nat> {
    var ts := Turns(s, infos);
    set k: nat | k < |infos| && Removes(ts[k], infos[k].name)
  }

  ghost function Shift(xs: set<nat>): set<nat> {
    set k | k in xs :: k + 1
  }

  lemma ShiftSize(xs: set<nat>)
    ensures |Shift(xs)| == |xs|
  {
    if xs != {} {
      var x :| x in xs;
      var ys := xs - {x};
      ShiftSize(ys);
      forall y | y in Shift(xs) ensures y in Shift(ys) + {x + 1} {
        var k :| k in xs && y == k + 1;
        if k != x {
          assert k in ys;
        }
      }
      forall y | y in Shift(ys) + {x + 1} ensures y in Shift(xs) {
        if y != x + 1 {
          var k :| k in ys && y == k + 1;
          assert k in xs;
        }
      }
      assert Shift(xs) == Shift(ys) + {x + 1};
    }
  }

  /** `name` denotes in `u` the same index, with the same catalog entry,
      as in `t`. */
  ghost predicate Same(t: Store, u: Store, name: string) {
    (Exists(t, name) <==> Exists(u, name)) &&
    (Exists(t, name) ==> IndexFolder(t, name) == IndexFolder(u, name)) &&
    (name in t.metadata <==> name in u.metadata) &&
    (name in t.metadata ==> t.metadata[name] == u.metadata[name])
  }

  lemma SameValid(t: Store, u: Store, name: string)
    requires Same(t, u, name)
    ensures Valid(t, name) <==> Valid(u, name)
  {
    assert StatusOf(t, name) == StatusOf(u, name);
  }

  /** A cleanup turn leaves alone every index it is not about, and the
      one it is about when that one validates. */
  lemma TurnKeeps(t: Store, name: string, n: string)
    requires n != name || Valid(t, name)
    ensures Same(t, CleanTurn(t, name).1, n)
  {
  }

  /** Cleanup only removes: sub-directories and entries that are left are
      those of before, and a legacy index once gone stays gone. */
  ghost predicate Shrunk(t: Store, u: Store) {
    (forall n :: n in u.dirs ==> n in t.dirs && u.dirs[n] == t.dirs[n]) &&
    (forall n :: n in u.metadata ==> n in t.metadata) &&
    (t.root.faiss.Absent? ==> u.root.faiss.Absent?)
  }

  lemma {:induction false} CleanFromShrinks(t: Store, infos: seq<IndexInfo>)
    ensures Shrunk(t, CleanFrom(t, infos).1)
    decreases |infos|
  {
    if infos != [] {
      var t1 := CleanTurn(t, infos[0].name).1;
      assert Shrunk(t, t1);
      CleanFromShrinks(t1, infos[1..]);
    }
  }

  /** An index that validates before the cleanup is still there
      afterwards: the same files, still valid, the same catalog entry. So
      is an index the cleanup does not list. */
  lemma {:induction false} CleanFromKeeps(t: Store, infos: seq<IndexInfo>, n: string)
    requires Valid(t, n) || forall i :: i in infos ==> i.name != n
    ensures Same(t, CleanFrom(t, infos).1, n)
    ensures Valid(t, n) ==> Valid(CleanFrom(t, infos).1, n)
    decreases |infos|
  {
    if infos != [] {
      var t1 := CleanTurn(t, infos[0].name).1;
      TurnKeeps(t, infos[0].name, n);
      SameValid(t, t1, n);
      assert forall i :: i in infos[1..] ==> i in infos;
      CleanFromKeeps(t1, infos[1..], n);
      SameValid(t1, CleanFrom(t1, infos[1..]).1, n);
    }
  }

  /** The loop from the turn at position `k` on ends where the whole loop
      does. */
  lemma {:induction false} CleanFromAt(t: Store, infos: seq<IndexInfo>, k: nat)
    requires k < |infos|
    ensures CleanFrom(Turns(t, infos)[k], infos[k..]).1 == CleanFrom(t, infos).1
    decreases k
  {
    if k > 0 {
      var t1 := CleanTurn(t, infos[0].name).1;
      assert Turns(t, infos)[k] == Turns(t1, infos[1..])[k - 1];
      assert infos[1..][k - 1..] == infos[k..];
      CleanFromAt(t1, infos[1..], k - 1);
    }
  }

  /** The positions removed from the first turn on: the first one when
      it removes its index, then those of the later turns, shifted. */
  lemma RemovedAtStep(s: Store, infos: seq<IndexInfo>)
    requires infos != []
    ensures var t := CleanTurn(s, infos[0].name).1;
      RemovedAt(s, infos) == (if Removes(s, infos[0].name) then {0} else {}) + Shift(RemovedAt(t, infos[1..]))
  {
    var t := CleanTurn(s, infos[0].name).1;
    var later := RemovedAt(t, infos[1..]);
    var here: set<nat> := if Removes(s, infos[0].name) then {0} else {};
    var ts := Turns(s, infos);
    assert forall k: nat :: k < |infos| - 1 ==> ts[k + 1] == Turns(t, infos[1..])[k];
    forall j | j in RemovedAt(s, infos) ensures j in here + Shift(later) {
      if j > 0 {
        var k: nat := j - 1;
        assert infos[j] == infos[1..][k];
        assert k in later;
      }
    }
    forall j | j in here + Shift(later) ensures j in RemovedAt(s, infos) {
      if j in Shift(later) {
        var k :| k in later && j == k + 1;
        assert infos[j] == infos[1..][k];
      }
    }
  }

  /** The number the loop reports is the number of listed indexes that did
      not validate when it reached them and whose deletion succeeded. */
  lemma {:induction false} CleanFromCount(s: Store, infos: seq<IndexInfo>)
    ensures CleanFrom(s, infos).0 == |RemovedAt(s, infos)|
    ensures CleanFrom(s, infos).0 <= |infos|
    decreases |infos|
  {
    if infos != [] {
      var t := CleanTurn(s, infos[0].name).1;
      CleanFromCount(t, infos[1..]);
      RemovedAtStep(s, infos);
      ShiftSize(RemovedAt(t, infos[1..]));
    }
  }

  /** Every listed index the loop removes is gone at the end, with its
      catalog entry; an index that validated when the loop reached it is
      still there, unchanged and valid. */
  lemma CleanFromOutcome(s: Store, infos: seq<IndexInfo>)
    ensures var u := CleanFrom(s, infos).1; var ts := Turns(s, infos);
      (forall k :: 0 <= k < |infos| && Removes(ts[k], infos[k].name) ==>
         infos[k].name !in u.metadata && !Legacy(u, infos[k].name) &&
         (!Legacy(ts[k], infos[k].name) ==> !Exists(u, infos[k].name))) &&
      (forall k :: 0 <= k < |infos| && Valid(ts[k], infos[k].name) ==>
         Same(ts[k], u, infos[k].name) && Valid(u, infos[k].name))
  {
    var u := CleanFrom(s, infos).1;
    var ts := Turns(s, infos);
    forall k | 0 <= k < |infos|
      ensures Removes(ts[k], infos[k].name) ==>
        infos[k].name !in u.metadata && !Legacy(u, infos[k].name) &&
        (!Legacy(ts[k], infos[k].name) ==> !Exists(u, infos[k].name))
      ensures Valid(ts[k], infos[k].name) ==> Same(ts[k], u, infos[k].name) && Valid(u, infos[k].name)
    {
      CleanFromAt(s, infos, k);
      var t1 := CleanTurn(ts[k], infos[k].name).1;
      assert infos[k..][1..] == infos[k + 1..];
      assert CleanFrom(ts[k], infos[k..]).1 == CleanFrom(t1, infos[k + 1..]).1;
      CleanFromShrinks(t1, infos[k + 1..]);
      if Valid(ts[k], infos[k].name) {
        CleanFromKeeps(ts[k], infos[k..], infos[k].name);
      }
    }
  }

  lemma {:induction false} CleanFromPersists(s: Store, infos: seq<IndexInfo>)
    requires Persisted(s)
    ensures Persisted(CleanFrom(s, infos).1)
    decreases |infos|
  {
    if infos != [] {
      DeletePersists(s, infos[0].name);
      CleanFromPersists(CleanTurn(s, infos[0].name).1, infos[1..]);
    }
  }

  /** `cleanup_orphaned_indexes` reports the number of listed indexes it
      removed: those that did not validate when reached and whose deletion
      succeeded; each is gone afterwards with its entry, and the catalog
      file stays in step. */
  lemma CleanedFacts(s: Store, names: seq<string>)
    ensures var (t, infos) := Listed(s, names); var (n, u) := Cleaned(s, names); var ts := Turns(t, infos);
      n == |RemovedAt(t, infos)| <= |infos| &&
      (forall k :: 0 <= k < |infos| && Removes(ts[k], infos[k].name) ==>
         infos[k].name !in u.metadata && !Legacy(u, infos[k].name) &&
         (!Legacy(ts[k], infos[k].name) ==> !Exists(u, infos[k].name))) &&
      (Persisted(s) ==> Persisted(u))
  {
    var (t, infos) := Listed(s, names);
    CleanFromCount(t, infos);
    CleanFromOutcome(t, infos);
    if Persisted(s) {
      ListedFacts(s, names);
      CleanFromPersists(t, infos);
    }
  }

  /** An index that validates before `cleanup_orphaned_indexes` is still
      there afterwards: the same files, still valid, the same entry. */
  lemma CleanedKeeps(s: Store, names: seq<string>, m: string)
    requires Valid(s, m)
    ensures var u := Cleaned(s, names).1;
      Valid(u, m) && IndexFolder(u, m) == IndexFolder(s, m) &&
      (m in s.metadata ==> m in u.metadata && u.metadata[m] == s.metadata[m])
  {
    var (t, infos) := Listed(s, names);
    ListedFacts(s, names);
    ValidIff(s, m);
    ValidIff(t, m);
    CleanFromKeeps(t, infos, m);
  }

  lemma DeletedAllPersists(s: Store, names: seq<string>)
    requires Persisted(s)
    ensures Persisted(DeletedAll(s, names).1)
  {
    var (t, infos) := Listed(s, names);
    ListedFacts(s, names);
    DeleteFromPersists(t, infos);
  }

  /** Every index's vectors and documents are included in the summary's
      totals, and the summary has one entry per listed index. */
  lemma {:induction false} SumsBound(infos: seq<IndexInfo>)
    ensures forall i :: 0 <= i < |infos| ==>
      infos[i].vectorCount <= SumVectors(infos) && infos[i].documentCount <= SumDocuments(infos)
  {
    if infos != [] {
      SumsBound(infos[1..]);
      forall i | 0 < i < |infos|
        ensures infos[i].vectorCount <= SumVectors(infos) && infos[i].documentCount <= SumDocuments(infos)
      {
        assert infos[i] == infos[1..][i - 1];
      }
    }
  }

  lemma SummaryTotals(s: Store, names: seq<string>)
    ensures var (sum, t) := Summarised(s, names);
      sum.totalIndexes == |sum.indexes| == |Listed(s, names).1| && t == Listed(s, names).0 &&
      forall i :: 0 <= i < |sum.indexes| ==>
        sum.indexes[i].vectors <= sum.totalVectors && sum.indexes[i].documents <= sum.totalDocuments
  {
    SumsBound(Listed(s, names).1);
  }
}
