# AI-System-DocAI: a verified model of the indexing and retrieval core

This project models, in Dafny, the core of AI-System-DocAI, a desktop
assistant that answers questions about a folder of documents. It covers
the parts of the system that decide what ends up in an index and what a
question gets back:

- **Chunking and index building** (`chunker.dfy`, `indexing.dfy`,
  `indexing_facts.dfy`, `indexer.dfy`). The model covers:
  - the overlapping 800/120 window chunker;
  - the batch indexer's state machine, with groups of 64 chunks, embedding
    batches, periodic checkpoints, cancellation and progress;
  - the invariant that vector `i` of the index and line `i` of `meta.jsonl`
    describe the same chunk.

  `Indexer.IndexBuilder` is the object whose fields `build` updates. Each of
  its methods is proved to follow a function of `Indexing`.
- **Hybrid retrieval** (`retrieval.dfy`, `retrieval_facts.dfy`,
  `sorting.dfy`):
  - min-max normalisation of BM25 scores;
  - the 0.6/0.4 weighted fusion with dense hits;
  - the sparse top-k;
  - the stable descending sort, truncation and 1-based ranking of `gather`;
  - `best_score`.
- **The index catalog** (`catalog.dfy`, `catalog_facts.dfy`,
  `manager.dfy`). `IndexManager` is modelled as a class over a store: the
  catalog map, `index_metadata.json`, and the named index directories
  together with the legacy root index. Every method ensures the new store
  is the matching function of `Catalog` applied to the old one. The facts
  module proves:
  - existence, validity and the listing order;
  - that a delete, rename, create or cleanup changes nothing else.
- **Answer post-processing** (`lines.dfy`, `reasoning.dfy`,
  `reasoning_facts.dfy`, `streaming.dfy`, `streaming_facts.dfy`):
  - question-type and domain classification;
  - the generated reasoning chain;
  - `[n]` citation markers and their fallbacks;
  - the limits on steps, facts and alternatives;
  - the two confidence scores;
  - the de-duplicated, numbered source list;
  - the result protocol of `process_query_stream`, where one mutable result
    object is yielded again and again.
- **Configuration loading** (`config.dfy`, `config_facts.dfy`). The model
  covers the merge of a parsed TOML file into `DEFAULT_CONFIG`, whose
  section dictionaries are shared by reference. The shallow copy's aliasing
  is modelled with a `Section` class. The model also covers the fallback to
  the defaults and the construction of the nine dataclasses.

Shared helpers:

- `text.dfy` models the Python string operations used:
  - `strip`, `lower`/`upper` on ASCII letters, `\d` on ASCII digits;
  - `in`, `startswith`;
  - `split('\n')`, `split()`, `join`;
  - `str(int)`, `os.path.basename` on POSIX paths.
- `wrappers.dfy` holds `Option` and `Result`.

Where the code works step by step, the model is imperative:
- a method with loop invariants;
- proved equal to a specification function;
- whose properties are proved as lemmas.

## Model

| member | source | states |
|---|---|---|
| Chunker.NextStart | src/indexer.py:189-194 | the next window starts strictly after the current start and at most at the end of the text, and at most `min(overlap, size/2)` before the current window's end, so the loop terminates |
| Chunker.ChunksStep | src/indexer.py:177-194 | one loop turn: the chunks from start `j` are the current window's stripped non-empty text followed by the chunks from the next start |
| Chunker.ChunkWindow | src/indexer.py:178-194 | one loop turn appends exactly what the window `[j, min(j+size, n))` emits and moves to the next start |
| Chunker.ChunkPage | src/indexer.py:174-195 | the `while j < n` loop over one page produces exactly the chunks of the window sequence (the same loop is repeated at src/index_manager.py:421-442) |
| Chunker.WindowsSpan | src/indexer.py:175-194 | a page has windows exactly when it is non-empty; the first starts at 0 and the last ends at the end of the page |
| Chunker.WindowsFull | src/indexer.py:178 | every window is `[j, min(j+size, n))` and non-empty |
| Chunker.WindowsAdvance | src/indexer.py:189-194 | successive window starts strictly increase, with no gap and an overlap of at most `min(overlap, size/2)` characters |
| Chunker.ChunksFromWindows | src/indexer.py:179-187 | each chunk is the stripped, non-empty text of one window |
| Chunker.ChunkStartsIncrease | src/indexer.py:189-194 | chunk start offsets strictly increase when window starts do |
| Chunker.PageChunks | src/indexer.py:174-194 | for a whole page, chunk starts strictly increase and every chunk is the stripped non-empty text of a window of at most `size` characters |
| Chunker.BlankYieldsNothing | src/indexer.py:179-180 | a whitespace-only page emits no chunk |
| Chunker.ProductionWindows | src/indexer.py:170-194 | a 2000-character page with CHUNK 800 and OVER 120 is read as the windows starting at 0, 680 and 1360 |
| Indexing.CreateIndex | src/indexer.py:23-36 | "flat", "hnsw" (M 32, efConstruction 80, efSearch 64) and "ivf" (nlist 1024) give an empty untrained index of the given dimension; any other type is an error, and only those three succeed |
| Indexing.Passages | src/indexer.py:136 | each embedder input is the chunk text behind the `passage: ` prefix, one per chunk |
| Indexing.Embeddings | src/indexer.py:140 | one vector per chunk, in order, each the embedding of that chunk's passage |
| Indexing.PageMetas | src/indexer.py:181-186 | one metadata record per chunk of a page, with the resolved file path, the page number, the chunk text and the file's document id |
| Indexing.CheckpointFrom | src/indexer.py:151-154 | the last snapshot a run of batches leaves is the old one or one taken at an exact multiple of 2000 inside the range the run covers |
| Indexer.IndexBuilder.constructor | src/indexer.py:41-57 | a new indexer has no index in memory, zero counters and the earlier outputs of its directory |
| Indexer.IndexBuilder.CreateFirstIndex | src/indexer.py:142-146 | the index is created from the first batch's dimension and an IVF index is trained on `min(50000, rows)` rows |
| Indexer.IndexBuilder.AddBatch | src/indexer.py:137-154 | one batch: embed, create the index if there is none, add the vectors, log one line per chunk, count them, checkpoint on a multiple of 2000 |
| Indexer.IndexBuilder.AddTexts | src/indexer.py:133-155 | `add_texts` follows `TextsAdded`: consecutive batches of `BATCH_SIZE`, up to the first failure |
| Indexer.IndexBuilder.IndexPage | src/indexer.py:174-199 | the window loop of one page, with the periodic flush, leaves fewer than 64 chunks pending and hands the rest to `add_texts` in groups of 64 |
| Indexer.IndexBuilder.FlushIfFull | src/indexer.py:196-199 | 64 pending chunks go to `add_texts` and the pending list is reset; fewer stay pending |
| Indexer.IndexBuilder.IndexFile | src/indexer.py:168-202 | one loaded file follows `FileAdded`: its chunks in groups of 64, then the remainder at the end of the file |
| Indexer.IndexBuilder.CountFile | src/indexer.py:204-206 | a loaded file increments `processed` and reports `processed*100 // total` |
| Indexer.IndexBuilder.IndexFiles | src/indexer.py:157-206 | the file loop follows `FilesFrom`: stop at cancellation, skip unreadable files, count and report each loaded file |
| Indexer.IndexBuilder.Build | src/indexer.py:76-213 | `build` follows `Built`: old outputs removed, `(0, 0)` for no files, otherwise the file loop, the final index write and index.json |
| Indexer.TextsAddedTurn | src/indexer.py:137-154 | the remaining batches of `add_texts` after one turn are the batches of the rest of the chunks |
| Indexer.FlushStep | src/indexer.py:197-199 | a full group of 64 pending chunks is handed over on its own, ahead of the later groups |
| Indexer.LastFlush | src/indexer.py:201-202 | at the end of a file the pending chunks form one last group, or none |
| IndexingFacts.BatchesCover | src/indexer.py:137-139 | the `BATCH_SIZE` slices cover the input exactly and in order; each is non-empty and only the last may be short |
| IndexingFacts.PassageBatchesStep | src/indexer.py:136-139 | the first embedder batch is the passages of the first `BATCH_SIZE` chunks |
| IndexingFacts.TextsAddedOk | src/indexer.py:142-146 | `add_texts` fails exactly when it must create the index and the index type is unknown; on success with any chunk the index exists |
| IndexingFacts.TextsAddedFailure | src/indexer.py:140-143 | a failing `add_texts` has embedded one batch and added and logged nothing |
| IndexingFacts.TextsAddedOutside | src/indexer.py:133-155 | `add_texts` does not touch `processed`, the progress reports or index.json |
| IndexingFacts.TextsAddedLog | src/indexer.py:148-151 | a successful `add_texts` appends one metadata line per chunk, in order, and adds their number to `total_vecs` |
| IndexingFacts.TextsAddedCalls | src/indexer.py:136-140 | the embedder receives the passages in consecutive `BATCH_SIZE` slices |
| IndexingFacts.TextsAddedAppends | src/indexer.py:137-151 | log, total and embedder calls all grow by the given chunks |
| IndexingFacts.BatchAddedConsistent | src/indexer.py:140-151 | one batch keeps vector `i` equal to the embedding of metadata line `i` and the snapshot a prefix of the index |
| IndexingFacts.TextsAddedConsistent | src/indexer.py:137-151 | after `add_texts` vector ordinal `i` is still metadata line `i` and `total_vecs` counts both |
| IndexingFacts.CheckpointShift | src/indexer.py:153-154 | the last snapshot after a run is the last one taken during the run, else the old one |
| IndexingFacts.BatchAddedSaved | src/indexer.py:147-154 | a batch adds its size to the total and writes the whole index exactly when the new total is a multiple of 2000 |
| IndexingFacts.CheckpointFirstBatch | src/indexer.py:151-154 | the last snapshot of a run is determined by the first batch and the rest of the run |
| IndexingFacts.TextsAddedExtends | src/indexer.py:147 | `add_texts` only appends: the old vectors are a prefix of the new index |
| IndexingFacts.TextsAddedSnapshot | src/indexer.py:151-154 | after `add_texts` the file on disk is the index prefix at the last exact multiple of 2000 reached |
| IndexingFacts.TextsAddedShape | src/indexer.py:142-146 | the index is created once from the first batch, with the configured kind, that batch's dimension and IVF training on at most 50000 rows; later calls keep its shape |
| IndexingFacts.EachAddedOk | src/indexer.py:197-202 | a row of flushes fails exactly when one of its chunks must create the index and the type is unknown |
| IndexingFacts.EachAddedLog | src/indexer.py:197-202 | after a row of flushes the log holds all their chunks in order and the index still matches it |
| IndexingFacts.EachAddedOutside | src/indexer.py:197-202 | flushing leaves the counters and index.json alone |
| IndexingFacts.FileAddedOutside | src/indexer.py:168-202 | indexing one file leaves the counters and index.json alone |
| IndexingFacts.FlushGroups | src/indexer.py:197-202 | a file's chunks go out in full groups of 64 and one last group of 1 to 64, covering all of them in order |
| IndexingFacts.FileAddedFacts | src/indexer.py:168-202 | one file fails exactly when its chunks must create the index and the type is unknown; otherwise its chunks are appended to the log in lockstep with the index |
| IndexingFacts.StopAt | src/indexer.py:157-159 | the file loop stops at the first file before which cancellation is requested, or after the last file |
| IndexingFacts.LoadedIn | src/indexer.py:162-166 | the number of readable files in a range is at most the size of the range |
| IndexingFacts.CountedAfter | src/indexer.py:204-206 | counting a file increments `processed` and reports its new percentage |
| IndexingFacts.CountedConsistent | src/indexer.py:204-206 | counting a file keeps the index and log in lockstep |
| IndexingFacts.FilesFromOk | src/indexer.py:157-206 | the file loop fails exactly when a chunk of a file reached before cancellation must create the index and the type is unknown |
| IndexingFacts.FilesFromOkSkipped | src/indexer.py:162-166 | an unreadable file adds no chunk, so the failure condition is that of the later files |
| IndexingFacts.FilesFromOkLoaded | src/indexer.py:168-206 | the failure condition when the current file is loaded |
| IndexingFacts.FilesFromConsistent | src/indexer.py:157-206 | after a successful file loop the index matches the log line for line and index.json is untouched |
| IndexingFacts.FilesFromConsistentLoaded | src/indexer.py:168-206 | the same when the current file is loaded |
| IndexingFacts.FilesFromLog | src/indexer.py:157-206 | after a successful file loop the log holds the chunks of every file reached before cancellation, in file order |
| IndexingFacts.FilesFromLogLoaded | src/indexer.py:168-206 | the same when the current file is loaded |
| IndexingFacts.FilesFromCount | src/indexer.py:157-206 | after a successful file loop `processed` counts the readable files reached before cancellation and one percentage is reported per counted file |
| IndexingFacts.FilesFromCountLoaded | src/indexer.py:162-206 | the same when the current file is loaded |
| IndexingFacts.BuildFails | src/indexer.py:122-213 | `build` fails exactly when there are files, the index type is unknown and a file reached before cancellation has a chunk; a build with no chunks succeeds |
| IndexingFacts.BuildOutputs | src/indexer.py:157-213 | a successful build returns (readable files reached, vectors); the log holds exactly their chunks, vector `i` is line `i`, the whole index is on disk if one was created and index.json is written |
| IndexingFacts.BuiltWrites | src/indexer.py:208-213 | after the file loop the index is written only if one exists, index.json always, and `(processed, total_vecs)` is returned |
| IndexingFacts.BuildEmpty | src/indexer.py:76-126 | an empty file list deletes the old index and metadata and returns `(0, 0)` without writing index.json |
| IndexingFacts.CancelledAtOnce | src/indexer.py:157-213 | cancelling before the first file still writes index.json and returns `(0, 0)` with an empty log and no index on disk |
| IndexingFacts.PercentMono | src/indexer.py:205 | more files processed never lowers the percentage |
| IndexingFacts.PercentFull | src/indexer.py:205 | all files processed report exactly 100 |
| IndexingFacts.PercentsBounded | src/indexer.py:204-206 | the reported percentages are non-decreasing, at most 100, one per counted file, and end at 100 when every file is counted |
| IndexingFacts.PercentsAt | src/indexer.py:204-206 | report `j` is the percentage after `j+1` more files |
| Text.Words | src/retrieval.py:61-62 | `str.split()` yields only non-empty runs of non-whitespace characters |
| Text.StripIsTrimmedSlice | src/indexer.py:179 | `strip()` keeps one contiguous slice with only whitespace around it, is empty exactly for an all-whitespace text, and keeps no whitespace at either end |
| Text.LStripFacts | src/indexer.py:179 | `lstrip` removes exactly the leading whitespace |
| Text.RStripFacts | src/indexer.py:179 | `rstrip` removes exactly the trailing whitespace |
| Text.JoinSplit | src/streaming_reasoning.py:194 | `split` on a character loses nothing: joining the pieces with that character gives the text back |
| Text.LexTotal | src/index_manager.py:121 | Python's string order is total |
| Text.LexTrans | src/index_manager.py:121 | Python's string order is transitive |
| StableSort.SortDescSorted | src/retrieval.py:94 | `sorted(..., reverse=True)` returns a permutation of its input in non-increasing order |
| StableSort.SortDescStable | src/retrieval.py:94 | elements that compare equal keep their input order |
| StableSort.InsertSorted | src/retrieval.py:94 | inserting into a sorted list keeps it sorted |
| Retrieval.Corpus | src/retrieval.py:60-61 | one token list per metadata record, each the record's text lower-cased and split on whitespace |
| Retrieval.MinOf | src/retrieval.py:84 | `np.min` is an element of the scores and at most every score |
| Retrieval.MaxOf | src/retrieval.py:85 | `np.max` is an element of the scores and at least every score |
| Retrieval.Normalised | src/retrieval.py:84-87 | normalisation keeps one score per document and leaves the scores raw when their spread is at most 1e-9 |
| Retrieval.BestScore | src/retrieval.py:132-134 | `best_score` is the largest hit score, one of the hits' scores, or 0.0 when there are no hits |
| Retrieval.Position | src/retrieval.py:109 | Python list indexing succeeds exactly for ids in `[-n, n)`, selecting the position congruent to the id |
| Retrieval.TopInRange | src/retrieval.py:91 | the selected sparse ids are document positions |
| Retrieval.BumpItems | src/retrieval.py:90 | one dict update `mix[id] = mix.get(id, 0) + delta` keeps a known key in place and appends a new one |
| Retrieval.Retriever.constructor | src/retrieval.py:45-62 | the retriever holds the metadata records in line order and, with BM25 enabled, the tokenised corpus |
| Retrieval.Retriever.Search | src/retrieval.py:64-95 | with BM25 disabled `search` returns the dense hits unchanged; otherwise the fused ranking `Fused` |
| Retrieval.Retriever.Gather | src/retrieval.py:97-112 | `gather` equals `Gathered`: one ranked passage per hit, or the `IndexError` of an id outside the records |
| Retrieval.MixDense | src/retrieval.py:89-90 | the dense loop on the dict adds 0.6 times each dense score (`AddDense`) |
| Retrieval.MixSparse | src/retrieval.py:92-93 | the sparse loop on the dict adds 0.4 times each selected normalised score (`AddSparse`) |
| RetrievalFacts.TokensShape | src/retrieval.py:61 | every token is a non-empty run of non-whitespace characters with no upper-case ASCII letter |
| RetrievalFacts.TokensIgnoreCase | src/retrieval.py:61-82 | a query and a text that differ only in letter case are tokenised identically |
| RetrievalFacts.WordsFromText | src/retrieval.py:61 | every token character occurs in the text |
| RetrievalFacts.CeilingAbove | src/retrieval.py:84-85 | every score lies between `s_min` and `s_max` |
| RetrievalFacts.NormalisedRange | src/retrieval.py:86-87 | rescaled scores lie in [0, 1] |
| RetrievalFacts.NormalisedOrder | src/retrieval.py:84-87 | normalisation never reorders documents |
| RetrievalFacts.TopSparseAt | src/retrieval.py:91 | the i-th selected sparse id is the i-th from the end of the argsort |
| RetrievalFacts.TopSparseOrder | src/retrieval.py:91 | the sparse ids are distinct positions, best first, `k` of them, or all when `k` is 0 (Python's `[-0:]`) or at least the corpus size |
| RetrievalFacts.TopPair | src/retrieval.py:91 | any two selected sparse ids are distinct and in non-increasing score order |
| RetrievalFacts.BumpIds | src/retrieval.py:90-93 | a dict update keeps a present key's place and appends a new key |
| RetrievalFacts.AddDenseIds | src/retrieval.py:89-90 | the dense loop adds the dense ids in first-seen order |
| RetrievalFacts.AddSparseIds | src/retrieval.py:92-93 | the sparse loop adds the selected ids in order |
| RetrievalFacts.RememberFacts | src/retrieval.py:88-93 | dict keys stay distinct and are exactly the keys set |
| RetrievalFacts.MixedIds | src/retrieval.py:88-93 | the mix holds each dense or selected sparse id once, dense ids first in first-seen order, then the new sparse ids best first |
| RetrievalFacts.GetBump | src/retrieval.py:90 | an update changes only the updated key's value, by `delta` |
| RetrievalFacts.AddDenseGet | src/retrieval.py:89-90 | after the dense loop each id holds 0.6 times the sum of its dense scores |
| RetrievalFacts.AddSparseGet | src/retrieval.py:92-93 | the sparse loop adds 0.4 times the normalised score of each selected id |
| RetrievalFacts.ItemsAreGets | src/retrieval.py:94 | each dict item carries the value `get` reads for its key |
| RetrievalFacts.MixedScores | src/retrieval.py:88-93 | every fused id scores 0.6 times its dense score plus 0.4 times its normalised BM25 score when selected, the sum when in both |
| RetrievalFacts.ByScoreOrders | src/retrieval.py:94 | comparing by score is a total preorder |
| RetrievalFacts.FusedShape | src/retrieval.py:94 | the result holds `min(k, entries)` entries of the mix in non-increasing score order |
| RetrievalFacts.FusedTopK | src/retrieval.py:94 | no entry left out scores above an entry kept |
| RetrievalFacts.FusedTies | src/retrieval.py:94 | entries with equal scores keep their order in the mix |
| RetrievalFacts.FusedScores | src/retrieval.py:88-94 | every ranked hit carries its fused score |
| RetrievalFacts.ExampleNormalised | src/retrieval.py:84-87 | BM25 scores (0, 5, 2) normalise to (0, 1, 0.4) |
| RetrievalFacts.ExampleDense | src/retrieval.py:89-90 | dense hits A 0.9, B 0.7 give A 0.54, B 0.42 |
| RetrievalFacts.ExampleSparse | src/retrieval.py:92-93 | adding sparse B 1.0, C 0.4 gives A 0.54, B 0.82, C 0.16 |
| RetrievalFacts.ExampleSorted | src/retrieval.py:94 | those entries rank B, A, C |
| RetrievalFacts.WorkedExample | src/retrieval.py:76-95 | the whole fusion on that input yields B 0.82, A 0.54, C 0.16 |
| RetrievalFacts.GatheredFacts | src/retrieval.py:107-112 | `gather` succeeds exactly when every hit id indexes the records; then passage `i` is that record with rank `i+1` and the hit's score |
| RetrievalFacts.BestOfFused | src/retrieval.py:132-134 | the best score of a fused ranking is its first entry's score |
| Catalog.Loads | src/index_manager.py:397-409 | the documents kept are those found and processed with a non-empty text, at most one per source path |
| Catalog.Texts | src/index_manager.py:449 | the embedder receives the text of every chunk, in order |
| Catalog.Paths | src/index_manager.py:495 | `source_paths` lists the file path of every loaded document, in order |
| Catalog.Entries | src/index_manager.py:643-653 | the summary has one entry per listed index, each its name, vectors, documents, creation stamp and model |
| Manager.CountLegacyDocuments | src/index_manager.py:189-206 | the legacy document count is the number of distinct "file" values in meta.jsonl, or 0 when a line does not parse |
| Manager.LoadDocuments | src/index_manager.py:398-405 | the documents loop of `create_index` keeps exactly `Loads` |
| Manager.ChunkDocuments | src/index_manager.py:416-442 | the chunking loop of `create_index` produces exactly the window chunks of every document in order |
| Manager.DocumentNames | src/index_manager.py:479-482 | documents/ receives `document_0.txt` to `document_{n-1}.txt` |
| Manager.IndexManager.constructor | src/index_manager.py:47-71 | a new manager holds the stored catalog, or an empty one when the catalog file is missing or does not parse |
| Manager.IndexManager.SaveMetadata | src/index_manager.py:73-79 | saving writes the in-memory catalog to index_metadata.json |
| Manager.IndexManager.IndexExists | src/index_manager.py:506-518 | an index exists exactly when its sub-directory holds index.faiss, or it is `default_index` and index.faiss lies in the index directory |
| Manager.IndexManager.GetIndexInfo | src/index_manager.py:229-302 | an entry marked old-style describes the legacy index; otherwise the sub-directory must exist, with the `.get` defaults and a zero document count replaced by the .txt files in documents/ |
| Manager.IndexManager.CreateExistingMetadata | src/index_manager.py:123-168 | an unknown sub-directory gets an entry with its index.faiss stamp, `ntotal`, the .txt count, the default model and 800/120, and the catalog is saved |
| Manager.IndexManager.CreateLegacyMetadata | src/index_manager.py:170-227 | the legacy index gets an old-style `default_index` entry with the distinct files of meta.jsonl as its document count, and the catalog is saved |
| Manager.IndexManager.ListOne | src/index_manager.py:89-100 | one sub-directory of the listing: an entry is synthesized if it holds index.faiss and has none, then its info is collected |
| Manager.IndexManager.ListSubdirectories | src/index_manager.py:88-100 | the sub-directory loop of `list_indexes` |
| Manager.IndexManager.ListLegacyIndex | src/index_manager.py:102-119 | the legacy part of `list_indexes` |
| Manager.IndexManager.ListIndexes | src/index_manager.py:81-121 | `list_indexes` follows `Listed`, whose result holds every listed index (`CatalogFacts.ListedInfos`) sorted by `last_modified` string, latest first |
| Manager.IndexManager.DeleteIndex | src/index_manager.py:304-350 | `delete_index` follows `Deleted`, which also writes the catalog back after removing the legacy files |
| Manager.IndexManager.DeleteEach | src/index_manager.py:360-363 | the deletion loop counts the deletions that succeeded |
| Manager.IndexManager.DeleteAllIndexes | src/index_manager.py:352-370 | `delete_all_indexes` follows `DeletedAll` |
| Manager.IndexManager.GetIndexStatus | src/index_manager.py:520-577 | `get_index_status` follows `StatusOf` |
| Manager.IndexManager.ValidateIndex | src/index_manager.py:603-627 | `validate_index` answers `Valid` |
| Manager.IndexManager.CleanEach | src/index_manager.py:662-666 | the cleanup loop deletes each listed index that does not validate and counts the deletions that succeeded |
| Manager.IndexManager.CleanupOrphanedIndexes | src/index_manager.py:656-673 | `cleanup_orphaned_indexes` follows `Cleaned`, whose count and effects `CatalogFacts.CleanedFacts` and `CatalogFacts.CleanedKeeps` state |
| Manager.IndexManager.CreateIndex | src/index_manager.py:388-504 | `create_index` follows `Created` |
| Manager.IndexManager.RebuildIndex | src/index_manager.py:372-386 | `rebuild_index` follows `Rebuilt`: it deletes an existing index with the corrected delete of `Deleted`, which writes the catalog back (see "## Findings"), then creates it |
| Manager.IndexManager.RenameIndex | src/index_manager.py:675-764 | `rename_index` follows `Renamed`, which refuses a new name whose directory exists |
| Manager.IndexManager.GetIndexSummary | src/index_manager.py:629-654 | `get_index_summary` follows `Summarised` |
| Manager.JoinedStep | src/index_manager.py:198-203 | reading one more line of meta.jsonl adds its "file" value to those seen |
| CatalogFacts.ValidIff | src/index_manager.py:603-617 | an index is valid exactly when it exists, index.faiss loads, index.pkl is missing or loads, and the chunk count is 0 or equals `ntotal` |
| CatalogFacts.StatusShape | src/index_manager.py:520-570 | the status is "missing" exactly when the index does not exist, and otherwise reports `ntotal` and the chunk count (0 without index.pkl) |
| CatalogFacts.DeleteOutcome | src/index_manager.py:304-350 | deleting succeeds exactly for the legacy index or an existing sub-directory, and a failed delete changes nothing |
| CatalogFacts.DeleteNewStyle | src/index_manager.py:330-346 | deleting a new-style index removes exactly its directory and its entry; the index no longer exists |
| CatalogFacts.DeleteLegacy | src/index_manager.py:307-325 | deleting the legacy index removes its files, drops its entry, keeps every sub-directory and writes the catalog |
| CatalogFacts.DeletePersists | src/index_manager.py:304-350 | deleting keeps index_metadata.json in step with the catalog |
| CatalogFacts.DeleteAsWrittenDropsCatalog | src/index_manager.py:307-325 | as written, deleting the legacy index with no `default_index` entry removes index_metadata.json for good, so every other entry is lost on reload |
| CatalogFacts.DeleteAsWrittenExample | src/index_manager.py:307-325 | a concrete store: the code as written loses the entry of `notes`, the corrected delete keeps it |
| CatalogFacts.RenameRefused | src/index_manager.py:678-684 | renaming from a missing index, onto an existing one or to the same name fails and changes nothing |
| CatalogFacts.RenameOntoDirectoryRefused | src/index_manager.py:739-760 | a new-style index is never moved onto an existing directory, even one without an index: the rename fails and changes nothing |
| CatalogFacts.RenameNewStyle | src/index_manager.py:738-760 | a new-style rename moves the directory and the entry with only `last_modified` changed; the old name is gone and every other entry is untouched |
| CatalogFacts.RenameLegacy | src/index_manager.py:686-736 | renaming the legacy index copies its files to the new directory, removes them from the root and re-keys the entry with fresh timestamps and `is_old_style` false |
| CatalogFacts.RenamePersists | src/index_manager.py:675-764 | renaming keeps index_metadata.json in step with the catalog |
| CatalogFacts.RenameAsWrittenHidesIndex | src/index_manager.py:739-760 | as written, renaming onto a directory that exists without an index reports success but nests the index inside it, so neither name exists |
| CatalogFacts.RenameAsWrittenExample | src/index_manager.py:739-760 | a concrete store: `notes` renamed onto an empty `reports` directory disappears; the corrected rename refuses |
| CatalogFacts.CreateFails | src/index_manager.py:393-446 | `create_index` fails when no document loads or no chunk is produced; the directory it made stays and nothing else changes |
| CatalogFacts.CreateRecords | src/index_manager.py:484-500 | a successful create leaves an existing index whose entry records `len(all_chunks)` vectors and `len(documents)` documents; it validates exactly when the embedder gave one row per chunk; other indexes are untouched |
| CatalogFacts.CreatePersists | src/index_manager.py:484-497 | creating keeps index_metadata.json in step with the catalog |
| CatalogFacts.RebuildRecords | src/index_manager.py:372-386 | a successful rebuild of any name, the legacy `default_index` included, ends with a new-style index under that name, a fresh entry counting one vector per chunk, and index_metadata.json in step |
| CatalogFacts.RebuildPersists | src/index_manager.py:372-386 | rebuilding keeps index_metadata.json in step whether or not the creation succeeds |
| CatalogFacts.RebuildAsWrittenDropsCatalog | src/index_manager.py:372-386 | as written, a failed rebuild of an uncatalogued legacy index leaves no index_metadata.json; over the corrected delete the file holds every other entry |
| CatalogFacts.ListDirFacts | src/index_manager.py:89-100 | listing one sub-directory keeps every entry and synthesizes only that directory's, with the defaults |
| CatalogFacts.ListDirsFacts | src/index_manager.py:88-100 | the sub-directory loop synthesizes an entry for each listed directory holding index.faiss and no other |
| CatalogFacts.ListLegacyFacts | src/index_manager.py:102-119 | a root index.faiss gets an old-style `default_index` entry |
| CatalogFacts.NewerOrders | src/index_manager.py:121 | ordering by `last_modified` string is a total preorder |
| CatalogFacts.ListedFacts | src/index_manager.py:81-161 | `list_indexes` keeps every file and entry, synthesizes entries with 800/120 for unknown sub-directories and an old-style one for the legacy index, names only listed directories or `default_index`, and returns its result sorted by `last_modified` string, latest first |
| CatalogFacts.DirInfosGrow | src/index_manager.py:88-100 | entries added for other names do not change the info read for a directory that already has one |
| CatalogFacts.ListDirsInfos | src/index_manager.py:88-100 | the sub-directory loop returns, in listing order, the `_get_index_info` of every directory holding index.faiss, read from the final catalog |
| CatalogFacts.DirInfosHas | src/index_manager.py:88-100 | every listed directory holding index.faiss has an info among those collected |
| CatalogFacts.ListedInfos | src/index_manager.py:81-121 | the result is a permutation of the infos of the listed directories holding index.faiss plus, for a root index.faiss, that of `default_index` |
| CatalogFacts.ListedDirs | src/index_manager.py:88-100 | every listed directory holding index.faiss is in the result, under its own name or, with an old-style entry, as `default_index` |
| CatalogFacts.ListedLegacy | src/index_manager.py:102-119 | a root index.faiss whose entry is missing or old-style, with no `default_index` directory, is in the result as `default_index` located in the index directory |
| CatalogFacts.DeleteFromCount | src/index_manager.py:360-366 | the count of successful deletions is at most the number listed and equals it exactly when every deletion succeeded |
| CatalogFacts.DeletedAllIff | src/index_manager.py:352-366 | `delete_all_indexes` is true exactly when nothing was listed or every listed delete succeeded |
| CatalogFacts.DeletedAllPersists | src/index_manager.py:352-366 | deleting all keeps index_metadata.json in step |
| CatalogFacts.DeleteFromPersists | src/index_manager.py:360-363 | the deletion loop keeps index_metadata.json in step |
| CatalogFacts.CleanFromCount | src/index_manager.py:662-666 | the count the cleanup loop returns is the number of listed indexes that did not validate when reached and whose deletion succeeded, at most the number listed |
| CatalogFacts.TurnKeeps | src/index_manager.py:663-666 | one cleanup turn leaves every other index, and a valid one, with the same files and entry |
| CatalogFacts.CleanFromKeeps | src/index_manager.py:662-666 | an index that validates, or is not listed, keeps its files and entry through the loop, and stays valid |
| CatalogFacts.CleanFromOutcome | src/index_manager.py:662-666 | every index the loop removes is gone at the end with its entry; one that validated when reached is still there, unchanged and valid |
| CatalogFacts.CleanFromPersists | src/index_manager.py:662-666 | the cleanup loop keeps index_metadata.json in step |
| CatalogFacts.CleanedFacts | src/index_manager.py:656-673 | `cleanup_orphaned_indexes` returns the number of listed indexes it removed (invalid when reached, deletion succeeded), each of which is gone afterwards with its entry, and keeps index_metadata.json in step |
| CatalogFacts.CleanedKeeps | src/index_manager.py:656-673 | an index valid before the cleanup is still there afterwards, with the same files and entry, and still valid |
| CatalogFacts.SumsBound | src/index_manager.py:633-635 | every index's vectors and documents are within the summary totals |
| CatalogFacts.SummaryTotals | src/index_manager.py:629-654 | the summary counts one entry per listed index, each within the totals |
| Lines.StrippedLines | src/reasoning.py:525-528 | one stripped line per piece of `response.split('\n')` |
| Lines.FilterMembers | src/reasoning.py:527-532 | the filtering loop keeps exactly the lines the test accepts |
| Lines.FilterAppend | src/reasoning.py:527-532 | filtering distributes over concatenation |
| Lines.Take | src/reasoning.py:534 | `xs[:n]` is the prefix of length `min(n, len(xs))` |
| Lines.FirstIndex | src/reasoning.py:542-547 | the position of the first accepted line, with none accepted before it |
| Lines.LastIndex | src/streaming_reasoning.py:290-296 | the position of the last accepted line, with none accepted after it |
| Reasoning.FirstMatch | src/reasoning.py:117-121 | the first keyword list, in order, one of whose keywords occurs in the text, with no earlier list matching |
| Reasoning.QuestionType | src/reasoning.py:113-121 | the first category, in the order factual, analytical, comparative, numerical, temporal, with a keyword in the lower-cased query; "general" exactly when none has |
| Reasoning.DetectDomain | src/reasoning.py:934-963 | the first domain, in the order education, technology, customer_support, business, legal, medical, with a keyword in the lower-cased text; "general" exactly when none has |
| Reasoning.BaseChain | src/reasoning.py:155-161 | the generated chain starts with five steps |
| Reasoning.ReasoningChain | src/reasoning.py:153-170 | the generated chain has five or six steps |
| Reasoning.DigitRun | src/reasoning.py:477 | `\d+` matches the longest run of digits at the start; the model's digits are the ASCII ones |
| Reasoning.InRange | src/reasoning.py:480-483 | only markers `n` with `1 <= n <= len(context)` are kept |
| Reasoning.Snippet | src/reasoning.py:488 | citation text is the full text up to 200 characters, otherwise its first 200 characters followed by "..." |
| Reasoning.Cited | src/reasoning.py:480-491 | one citation per in-range marker |
| Reasoning.CiteMarkers | src/reasoning.py:480-493 | the marker loop skips out-of-range markers and cites the others in order |
| Reasoning.FallbackRelevance | src/reasoning.py:508-510 | the fallback relevance is capped at 1.0 |
| Reasoning.ContextCitations | src/reasoning.py:501-520 | the fallback cites the first `min(3, len(context))` items |
| Reasoning.CreateContextCitations | src/reasoning.py:501-520 | the fallback loop produces exactly `ContextCitations` |
| Reasoning.ExtractCitations | src/reasoning.py:472-499 | `_extract_citations` produces exactly `Citations` |
| Reasoning.KeepLines | src/reasoning.py:525-532 | the strip-and-append loop yields the stripped lines the test accepts, in order |
| Reasoning.ExtractSupportingFacts | src/reasoning.py:522-534 | supporting facts are the first three stripped lines that qualify |
| Reasoning.AlternativesInUnfold | src/reasoning.py:541-550 | the alternatives are the non-empty, non-signalling lines after the first signalling line |
| Reasoning.AlternativesStep | src/reasoning.py:549-550 | scanning one more line adds it when it is collected |
| Reasoning.ScanAlternative | src/reasoning.py:543-550 | one pass of the loop: a signalling line opens the section and is skipped, a non-empty line inside it is collected |
| Reasoning.ExtractAlternatives | src/reasoning.py:536-552 | `_extract_alternatives` returns the first two alternatives |
| Reasoning.ExtractReasoningChain | src/reasoning.py:399-442 | `_extract_reasoning_chain` returns the first five steps of the reply, or of the explicit fallback when it has none |
| Reasoning.SumSimilarities | src/reasoning.py:583 | the similarity sum with 0.5 for a missing score |
| Reasoning.CalculateConfidence | src/reasoning.py:554-594 | confidence is the sum of the factors, capped at 1.0 |
| Reasoning.IndexOfFile | src/reasoning.py:726 | the position of a file among the kept sources, with no earlier entry for it |
| Reasoning.SourceLines | src/reasoning.py:735-755 | one source line per kept source |
| Reasoning.FormatAnswerWithCitations | src/reasoning.py:707-760 | `_format_answer_with_citations` returns exactly `Formatted` |
| Reasoning.FallbackResult | src/reasoning.py:965-984 | the error fallback has three chain steps and no citations, facts or alternatives |
| ReasoningFacts.HowManyIsNeverNumerical | src/reasoning.py:41-47 | a query with "how many" is classified factual or analytical, never numerical, because categories are tried in order |
| ReasoningFacts.CompareIsNeverComparative | src/reasoning.py:41-47 | a query with "compare" is never comparative, since "compare" is also analytical |
| ReasoningFacts.WhenIsFactual | src/reasoning.py:41-47 | a query with "when" is factual, never temporal |
| ReasoningFacts.ReasoningChainShape | src/reasoning.py:153-170 | the chain has six steps exactly for analytical, comparative and numerical questions, with the extra step at index 3 and the five base steps around it |
| ReasoningFacts.DigitStringDigits | src/reasoning.py:482 | `int(str(n)) == n` |
| ReasoningFacts.DigitRunStops | src/reasoning.py:477 | a digit run ends at the first non-digit |
| ReasoningFacts.MarkersRoundTrip | src/reasoning.py:477-482 | scanning the text "[n1][n2]..." gives back the numbers written |
| ReasoningFacts.InRangeMembers | src/reasoning.py:480-483 | a marker is kept exactly when it names a context item |
| ReasoningFacts.CitationsFacts | src/reasoning.py:472-520 | citations follow the in-range markers one for one, each quoting the item named; with none, the first three items are cited with relevance at most 1.0 and "Document i" for a missing file |
| ReasoningFacts.SupportingFactsFacts | src/reasoning.py:522-534 | at most three facts, each a qualifying stripped line, the first such lines in order |
| ReasoningFacts.AlternativesFacts | src/reasoning.py:536-552 | at most two alternatives, each a non-empty non-signalling line after the first signalling line; none without one |
| ReasoningFacts.HeaderExtends | src/reasoning.py:413 | a step header stays one whatever follows it |
| ReasoningFacts.StepsAreHeaded | src/reasoning.py:407-436 | every step read from the reply starts with its `STEP n` header |
| ReasoningFacts.ReasoningChainFacts | src/reasoning.py:399-470 | the extracted chain has one to five steps, all headed by `STEP n` lines, or else it is the four-step explicit fallback |
| ReasoningFacts.SimilaritySumNonNegative | src/reasoning.py:583 | non-negative similarity scores have a non-negative sum |
| ReasoningFacts.ConfidenceBounds | src/reasoning.py:557-594 | confidence is at most 1.0, and at least 0.5 when the similarity scores are non-negative |
| ReasoningFacts.FallbackRanksLast | src/reasoning.py:965-984 | the error fallback's 0.1 is below every computed confidence, and it reports its error |
| ReasoningFacts.FirstCitation | src/reasoning.py:714-731 | the position of the first citation of a file |
| ReasoningFacts.FirstBestKept | src/reasoning.py:726 | an entry stays when the new citation is for another file or is not strictly more relevant |
| ReasoningFacts.FirstBestNew | src/reasoning.py:726-731 | a citation strictly more relevant than every earlier one of its file becomes the entry |
| ReasoningFacts.UpsertNew | src/reasoning.py:726-731 | a citation of a new file is added at the end |
| ReasoningFacts.UpsertNewDistinct | src/reasoning.py:726-731 | adding a new file keeps the files distinct |
| ReasoningFacts.UpsertNewOrder | src/reasoning.py:726-731 | adding a new file keeps the order of first citation |
| ReasoningFacts.UpsertNewBest | src/reasoning.py:726-731 | adding a new file keeps each entry at the most relevant citation of its file |
| ReasoningFacts.KnownFiles | src/reasoning.py:726-731 | updating a known file keeps the files and their order |
| ReasoningFacts.UpsertReplace | src/reasoning.py:726-731 | a strictly more relevant citation of a known file replaces its entry in place |
| ReasoningFacts.UpsertKeep | src/reasoning.py:726 | a citation of a known file that is not more relevant changes nothing |
| ReasoningFacts.UniqueSourcesFacts | src/reasoning.py:713-731 | one entry per cited file, in the order files are first cited, each with the page and relevance of the first most relevant citation of its file |
| ReasoningFacts.DistinctCount | src/reasoning.py:713-731 | distinct entries are as many as their files |
| ReasoningFacts.SourceLineNumbered | src/reasoning.py:754 | the source line for number `n` starts with `[n] ` |
| ReasoningFacts.SourceCount | src/reasoning.py:713-735 | one source line per distinct cited file |
| ReasoningFacts.SourceLinesNumbered | src/reasoning.py:735-755 | the `i`-th source line is numbered `[i]`, from 1 |
| ReasoningFacts.FormattedFacts | src/reasoning.py:707-760 | no citations leave the answer unchanged; otherwise the answer is followed by the header and one numbered line per distinct cited file |
| Streaming.StepLine | src/streaming_reasoning.py:197-203 | a final-answer line stops the scan with "FINAL ANSWER"; otherwise a step header becomes the current step and any other line leaves it |
| Streaming.ExtractCurrentStep | src/streaming_reasoning.py:192-205 | `_extract_current_step` returns exactly `CurrentStep` of the stripped lines |
| Streaming.ColonAt | src/streaming_reasoning.py:278 | the position of the first ':', with none before it |
| Streaming.CollectLine | src/streaming_reasoning.py:274-284 | one pass of the collecting loop: the section opens at the first final-answer line and the pieces are those of the lines from it on |
| Streaming.CollectAnswerLines | src/streaming_reasoning.py:270-284 | the collecting loop gathers the answer lines from the first final-answer line on |
| Streaming.LastSubstantial | src/streaming_reasoning.py:289-298 | the reverse scan returns the fallback answer |
| Streaming.ExtractFinalAnswer | src/streaming_reasoning.py:265-298 | `_extract_final_answer` returns exactly `FinalAnswer` of the stripped lines |
| Streaming.SharedKeywords | src/streaming_reasoning.py:441-442 | the number of shared keywords is at most the number of keywords |
| Streaming.StreamContextCitations | src/streaming_reasoning.py:427-460 | the fallback cites the first `min(3, len(context))` items |
| Streaming.CreateContextCitationsStreaming | src/streaming_reasoning.py:427-460 | the fallback loop produces exactly `StreamContextCitations` |
| Streaming.ExtractCitationsStreaming | src/streaming_reasoning.py:399-425 | `_extract_citations_streaming` produces exactly `StreamCitations` |
| Streaming.ExtractSupportingFactsStreaming | src/streaming_reasoning.py:755-769 | `_extract_supporting_facts_streaming` produces exactly `StreamFacts` |
| Streaming.ExtractAlternativesStreaming | src/streaming_reasoning.py:771-794 | the alternatives loop, with the intended indicators, produces exactly `StreamAlternatives` |
| Streaming.StreamingResult.constructor | src/streaming_reasoning.py:18-29 | a new result object holds exactly the given field values |
| Streaming.CalculateConfidenceScore | src/streaming_reasoning.py:865-894 | `_calculate_confidence_score` adds the factors and caps the sum at 1.0 |
| Streaming.Streamed | src/streaming_reasoning.py:84-103 | one result is seen per chunk |
| Streaming.TakeChunk | src/streaming_reasoning.py:85-103 | one chunk sets the current step and chain from the reply so far, replaces the answer only by a non-empty different partial answer, and changes no other field |
| Streaming.ExtractAll | src/streaming_reasoning.py:107-111 | the extractions on the whole reply give exactly `Extracted` |
| Streaming.FinishReply | src/streaming_reasoning.py:106-116 | the final processing gives exactly `Finished` |
| Streaming.Finish | src/streaming_reasoning.py:106-116 | the final processing updates the result object to `Finished` of its old state |
| Streaming.StreamStep | src/streaming_reasoning.py:84-103 | one more chunk extends the reply by it, advances the state once and adds one seen result |
| Streaming.StreamChunks | src/streaming_reasoning.py:84-103 | after `n` chunks the reply is their concatenation, the object holds the state after them, and the results seen are those of each chunk |
| Streaming.StreamCompleted | src/streaming_reasoning.py:69-119 | a completed stream shows one result per chunk and then the finished result, all on one fresh object |
| Streaming.StreamFailed | src/streaming_reasoning.py:69-145 | a failed stream shows the results of the chunks before the failure and then the error result, on a second, distinct object |
| Streaming.ProcessQueryStream | src/streaming_reasoning.py:44-145 | `process_query_stream` yields exactly `Yields`, whose final alternatives use the intended indicators (see "## Findings"); every yield of a completed stream is the same object, while an error result is a different object from the ones yielded before it |
| StreamingFacts.FinalStepStays | src/streaming_reasoning.py:197-203 | once a final-answer line has been seen the reported step is "FINAL ANSWER" whatever follows |
| StreamingFacts.StepBeforeFinal | src/streaming_reasoning.py:197-205 | before any final-answer line the reported step is the last step header, or "" without one |
| StreamingFacts.PiecesPlain | src/streaming_reasoning.py:283-284 | inside the answer section every non-empty line is collected as it is, in order |
| StreamingFacts.CollectedAfterMarker | src/streaming_reasoning.py:273-284 | with one final-answer line, the answer is the stripped text after its first ':' followed by every later non-empty line |
| StreamingFacts.AnswerWithoutMarker | src/streaming_reasoning.py:286-298 | without a final-answer line the answer is the last substantial line, or the fixed message when there is none |
| StreamingFacts.MarkerPiece | src/streaming_reasoning.py:278-280 | a final-answer line with a ':' contributes the stripped text after its first ':' |
| StreamingFacts.EmptyAfterMarker | src/streaming_reasoning.py:275-287 | a final-answer line with nothing after its ':' gives an empty answer, and the fallback is not consulted |
| StreamingFacts.StreamRelevanceRange | src/streaming_reasoning.py:437-450 | a fallback relevance lies between 0.5 and 0.9, and is at most 0.8 for a text of at most 100 characters, so the clamp never applies |
| StreamingFacts.MarkerCitationsFacts | src/streaming_reasoning.py:404-419 | marker citations follow the in-range markers one for one, each quoting its item at relevance 0.8 |
| StreamingFacts.FallbackCitationsFacts | src/streaming_reasoning.py:421-460 | without an in-range marker, the first three items are cited, each named "Document i" when it has no file, at a relevance in [0.5, 0.9] |
| StreamingFacts.StreamRelevancesAtLeastHalf | src/streaming_reasoning.py:399-460 | every citation the stream makes has a relevance of at least 0.5 |
| StreamingFacts.StreamFactsFacts | src/streaming_reasoning.py:755-769 | at most five facts, each a qualifying stripped line, the first such lines in order |
| StreamingFacts.StreamAlternativesFacts | src/streaming_reasoning.py:771-794 | at most two alternatives: the first lines mentioning an alternative, or the domain defaults when none does |
| StreamingFacts.IntendedCoversWritten | src/streaming_reasoning.py:776-787 | the intended indicators accept every line the written ones accept |
| StreamingFacts.AsWrittenMissesAlternatively | src/streaming_reasoning.py:776-792 | the line "Alternatively, a mode." is missed by the written indicators, so the stream reports the domain defaults instead of that line |
| StreamingFacts.RelevanceSumNonNegative | src/streaming_reasoning.py:871 | non-negative relevances have a non-negative sum |
| StreamingFacts.ScoreRange | src/streaming_reasoning.py:865-894 | the score is at most 1.0, and at least the base 0.3 when relevances are non-negative |
| StreamingFacts.StateAfterFacts | src/streaming_reasoning.py:84-103 | while chunks arrive the result stays incomplete, unscored, with no citations, facts, alternatives or error, and its step and chain are those of the reply so far |
| StreamingFacts.StreamedAt | src/streaming_reasoning.py:84-103 | the `k`-th result seen is the state after `k + 1` chunks |
| StreamingFacts.StreamedIncomplete | src/streaming_reasoning.py:84-103 | every result seen while chunks arrive is incomplete and has no error |
| StreamingFacts.YieldsShape | src/streaming_reasoning.py:44-145 | one result per chunk received, then exactly one complete result; an empty context yields only that one |
| StreamingFacts.FailureYieldsError | src/streaming_reasoning.py:121-145 | a failure ends the stream with one error result carrying the failure's text, a message chosen by it and no confidence |
| StreamingFacts.CompletedYieldsFinal | src/streaming_reasoning.py:105-119 | a completed stream ends with the whole reply's citations, facts, alternatives (by the intended indicators) and chain, no error, and a score between 0.3 and 1.0 |
| Config.Section.constructor | src/config.py:27-94 | a section dictionary holds exactly the given entries |
| Config.Section.Update | src/config.py:220 | `dict.update`: the given keys take the given values and the other keys keep theirs |
| Config.Section.Put | src/config.py:234 | one key takes the given value and the others keep theirs |
| Config.SlotsOf | src/config.py:215 | the top-level copy holds every default section by reference, under its own name |
| Config.CreateConfigFromDict | src/config.py:230-246 | the result is the dataclasses built from the dictionary with a None `config_dir` set to the file's directory, and that setting is written into the shared paths dictionary itself |
| Config.PathsSet | src/config.py:233-234 | setting `config_dir` in place changes the merged view in the paths section alone |
| Config.CreateFromSlots | src/config.py:230-246 | building from slots taken from the defaults changes, of the defaults, only the shared paths section |
| Config.UpdateSection | src/config.py:220 | updating one default section changes that section alone |
| Config.MergeConfig | src/config.py:213-224 | `_merge_config` returns `Merged(...).result` and leaves the defaults as `Merged(...).defaults`: the file's tables have been written into them |
| Config.MergeSection | src/config.py:218-222 | one pass of the merge loop: a table for a default section updates that section in place, any other value replaces the slot |
| Config.SlotsStep | src/config.py:219-222 | merging one more section moves the slots as the loop does |
| Config.DefaultsStep | src/config.py:219-220 | merging one more section changes only a default section that the file gives as a table |
| Config.MergedSlotsShared | src/config.py:215-222 | after the loop no two slots share a dictionary, and paths is shared exactly when the file gives it as a table or not at all |
| Config.MergedSlotsView | src/config.py:215-222 | after the loop the merged dictionary reads as `MergedView` |
| Config.CreateDefaultConfig | src/config.py:226-228 | `_create_default_config` builds from DEFAULT_CONFIG itself and may set its `config_dir` |
| Config.LoadConfig | src/config.py:202-211 | `_load_config` returns `Loaded(...).result` and leaves the defaults as `Loaded(...).defaults` |
| Config.DeepCopy | src/config.py:215 | a deep copy has the same contents in fresh, distinct dictionaries |
| Config.LoadConfigIsolated | src/config.py:202-228 | the load with deep copies returns `LoadedIsolated` and changes none of the dictionaries it is given |
| Config.MergeCopy | src/config.py:213-224 | the merge on a deep copy gives the result of the merge as written |
| Config.CreateDefaultCopy | src/config.py:226-228 | the fallback on a deep copy gives the result of the fallback as written |
| ConfigFacts.BuiltSections | src/config.py:236-246 | a built configuration has every section with exactly its dataclass's fields: the given values, and the default for an optional field left out |
| ConfigFacts.ConfigDirDefaulted | src/config.py:233-234 | `config_dir` is the file's parent directory when the dictionary held None, and the dictionary's value otherwise |
| ConfigFacts.CreatedFromStore | src/config.py:236-246 | building from a store with every section fails exactly when some section does not fit its dataclass |
| ConfigFacts.FitsKeys | src/config.py:237-245 | whether a section fits depends on its keys alone |
| ConfigFacts.MergeOverrides | src/config.py:217-222 | a table overrides a default section key by key, any other value replaces its section, and an unnamed section keeps its defaults |
| ConfigFacts.MergeChangesDefaults | src/config.py:215-220 | the merge as written leaves every key of a file table in the default section itself |
| ConfigFacts.MergedSectionFits | src/config.py:219-220 | a default section after the merge fits its dataclass exactly when the file gave it no unknown key |
| ConfigFacts.MergedOkKnown | src/config.py:213-246 | a merge that succeeds had no unknown key |
| ConfigFacts.MergedOkNot | src/config.py:213-246 | a merge with an unknown key fails |
| ConfigFacts.MergedDefaultsKeys | src/config.py:215-234 | after a merge the defaults still have every section, with the merged keys, and `config_dir` in paths |
| ConfigFacts.FallbackSucceeds | src/config.py:226-246 | with fitting defaults the fallback succeeds |
| ConfigFacts.LoadFailsIffUnknownKey | src/config.py:202-246 | as written, loading a parsed file fails exactly when some section of the file has a key its dataclass lacks |
| ConfigFacts.LoadWithoutFile | src/config.py:202-211 | without a readable file the load is the fallback on the untouched defaults, and succeeds |
| ConfigFacts.IsolatedNeverFails | src/config.py:202-246 | with deep copies the load never fails, and agrees with the load as written whenever the merge succeeds |
| ConfigFacts.DataclassesHavePaths | src/config.py:96-181 | the dataclasses include a paths section that requires `config_dir` |
| ConfigFacts.DefaultConfigFits | src/config.py:27-181 | DEFAULT_CONFIG has the nine sections, each fitting its dataclass |
| ConfigFacts.DefaultConfigDirUnset | src/config.py:27-94 | DEFAULT_CONFIG leaves `config_dir` as None |
| ConfigFacts.UnknownKeyExample | src/config.py:202-246 | a file whose `[app]` table has an extra key `x` makes the load as written fail, while the load with deep copies gives the defaults |
| ConfigFacts.DefaultBatchSizes | src/config.py:293-299 | with the defaults, the batch size is 8 for embeddings and unknown model types and 128 for the LLM |
| ConfigFacts.BuiltDefault | src/config.py:236-246 | a field of a section other than paths keeps its default value in the configuration built from the defaults |

## Left out

- The sentence embedder, the FAISS index internals (search quality,
  `train`, `read_index`/`write_index`) and the BM25 scorer are parameters:
  - an embedding function;
  - the dense hits;
  - the per-document BM25 scores;
  - the order numpy's `argsort` gives the normalised scores.
- The document loader, the cancellation callback and the progress callback
  are parameters. The SHA-1 `doc_id` is an input.
- The file system is reduced to what the code observes:
  - which index files exist and load, with their counts;
  - meta.jsonl and index.json;
  - the documents folder;
  - moved directories.

  File sizes, `size_mb` and its rounding are not modelled. The JSON, pickle
  and TOML encodings are not modelled either: a parsed TOML file is the
  `ConfigFile` input.
- The following are parameters: clock readings (`time.ctime`, `strftime`),
  the order of a directory listing, and `os.path.exists` races.
  Floating-point rounding is replaced by exact `real` arithmetic.
- The LLM backends (src/llm.py) are inputs. Their reply arrives as a
  sequence of chunks, and a failure is its position and message. The same
  goes for:
  - the regex-heavy prose formatting (`_format_answer_structure`,
    `_extract_partial_answer`, `_extract_reasoning_chain_streaming`,
    `_generate_organized_answer_from_json`);
  - the QUrl "Open" link.

  These become the functions `partialOf`, `chainOf`, `organise` and `link`.
- Entity extraction and the `query_time_ms`, `llm_backend` and
  `device_used` metadata are not modelled. `_calculate_confidence` takes
  the number of entity kinds as an input.
- `save_config`, `_ensure_directories` and the per-OS default
  configuration path are not modelled. Field types of the configuration
  dataclasses are not checked, only their field names. The TOML datetime
  value type is not modelled.
- Config.LlmDevice: `get_llm_device` is the constant "CPU", modelled as such
  with nothing to prove about it.
- Reasoning.DefaultAlternatives: the stock perspectives of each domain
  are modelled word for word, but the model proves only that they are chosen
  through `DetectDomain`. That the domains' texts differ from each other is
  not proved.
- Manager.IndexManager.RebuildIndex: deletes with the corrected `Deleted`
  rather than `delete_index` as written. A failed rebuild of a legacy
  index without a catalog entry therefore keeps index_metadata.json, where
  the code as written loses it (`RebuiltAsWritten`, shown by
  `CatalogFacts.RebuildAsWrittenDropsCatalog`).
- Streaming.ProcessQueryStream: the final result's alternatives come from
  `StreamAlternatives`, the corrected indicators, so a reply line starting
  "Alternatively" is reported where the code as written falls back to the
  domain's stock alternatives. `StreamingFacts.CompletedYieldsFinal` states
  the final result with the same correction.
- Text.Basename, Reasoning.FileName: POSIX paths only. On Windows,
  `ntpath.basename` also splits at `\` and after a drive colon, so
  `C:\docs\a.pdf` is shown as `a.pdf`; the model shows the whole path in
  the source list (src/reasoning.py:738, src/streaming_reasoning.py:487).
- Indexing.TextsAdded, Indexer.IndexBuilder.AddTexts, Indexer.IndexBuilder.Build
  and every other member taking `Settings` require a positive `batchSize`.
  `RAG_EMB_BATCH` (src/indexer.py:18) may be 0, and then `range(0, n, 0)`
  raises ValueError (src/indexer.py:137); it may be negative, and then
  `add_texts` adds nothing while `build` still counts the files and writes
  index.json. Neither path is modelled.
- Retrieval.Retriever.constructor requires a non-empty meta.jsonl when BM25
  is on: `BM25Okapi` over an empty corpus raises (src/retrieval.py:58-62),
  and that error is not modelled.
- Catalog.Store, Catalog.Deleted, Catalog.Renamed, Catalog.Created and the
  other catalog operations treat an index name as an opaque key. The code
  builds `index_dir / name` (for example src/index_manager.py:739-760), so a
  name containing `/` or `..` reaches a nested directory or one outside the
  index directory; the model does not capture that.
- Text.LowerChar, Text.UpperChar, Text.IsDigit, Reasoning.DigitRun: only
  ASCII case mapping and ASCII digits are modelled. Python's `str.lower`,
  `str.upper` and `re`'s `\d` also map non-ASCII letters (`ﬁ` upper-cases
  to `FI`) and match every Unicode decimal digit (`[٣]` is a citation
  marker). This affects the retrieval tokens, `QuestionType`,
  `DetectDomain`, the step and final-answer header tests and `Markers`.
- The Qt user interface, the logging setup, `src/embeddings.py`,
  `src/ingest.py` and `src/streaming_reasoning_updated.py` are not part of
  this model.

## Findings

| source | as written | input that shows it | evidently intended | confidence | as-written member | corrected member |
|---|---|---|---|---|---|---|
| src/index_manager.py:307-325 | deleting the legacy index removes index_metadata.json and writes it back only when it held a `default_index` entry, so every other catalog entry is lost | a legacy index plus a catalogued `notes` index, with no `default_index` entry in the catalog | only the legacy entry leaves the catalog; the others stay, in memory and on disk | not executed | CatalogFacts.DeleteAsWrittenDropsCatalog | CatalogFacts.DeletePersists |
| src/index_manager.py:739-760 | `shutil.move` onto an existing directory that holds no index moves the index inside it, as `reports/notes`, where it can no longer be found | renaming `notes` to `reports` when an empty `reports` directory exists | the rename is refused and nothing changes | not executed | CatalogFacts.RenameAsWrittenHidesIndex | CatalogFacts.RenameOntoDirectoryRefused |
| src/streaming_reasoning.py:776-787 | the first alternative indicator is regular-expression syntax, `alternative(?:ly)?`, but it is looked up as a plain substring with `in`, so it never matches | a reply consisting of the line "Alternatively, a mode." | a line mentioning "alternative" or "alternatively" is reported as an alternative | not executed | StreamingFacts.AsWrittenMissesAlternatively | StreamingFacts.IntendedCoversWritten |
| src/config.py:202-224 | `DEFAULT_CONFIG.copy()` is shallow, so a file table's keys are written into DEFAULT_CONFIG's own section. An unknown key therefore makes the fallback `_create_default_config` raise as well, outside the `try` | a configuration file with an `[app]` table holding a key `x` | the load falls back to the untouched defaults | not executed | ConfigFacts.LoadFailsIffUnknownKey | ConfigFacts.IsolatedNeverFails |
