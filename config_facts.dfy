/** What the configuration loader guarantees, and the one place where the
    shared default sections make it fail: a key the dataclass does not
    know, in a section of the file, stays in DEFAULT_CONFIG and breaks the
    fallback too. The general facts hold for any set of dataclasses with a
    paths section that requires `config_dir`. */
module ConfigFacts {
  import opened Wrappers
  import opened Config

  /** The paths section exists and requires `config_dir`. */
  predicate HasPaths(schema: Schema) {
    "paths" in schema.required && "config_dir" in schema.required["paths"]
  }

  /** The defaults have every section, each fitting its dataclass. */
  ghost predicate DefaultsFit(schema: Schema, d: Store) {
    forall s :: s in schema.required ==> s in d && Fits(schema, s, d[s])
  }

  /** Section `s` of the file is a table with a key its dataclass lacks. */
  predicate UnknownIn(schema: Schema, data: map<string, Value>, s: string)
    requires s in schema.required
  {
    s in data && data[s].Table? && !(data[s].fields.Keys <= Allowed(schema, s))
  }

  /** Some section of the file has a key its dataclass lacks. */
  ghost predicate UnknownKey(schema: Schema, data: map<string, Value>) {
    exists s :: s in schema.required && UnknownIn(schema, data, s)
  }

  // ---------------------------------------------------------------------
  // Building the dataclasses
  // ---------------------------------------------------------------------

  /** A built configuration has every section, each with exactly the fields
      of its dataclass: the given values, and the default for an optional
      field that was left out. */
  lemma BuiltSections(schema: Schema, view: map<string, Value>)
    requires Build(schema, view).Success?
    ensures AllFit(schema, view)
    ensures forall s :: s in schema.required ==>
      s in Build(schema, view).value.sections && Build(schema, view).value.sections[s].Keys == Allowed(schema, s)
    ensures forall s, k :: s in schema.required && k in view[s].fields ==>
      Build(schema, view).value.sections[s][k] == view[s].fields[k]
    ensures forall s, k :: s in schema.required && k in OptionalDefaults(schema, s) && k !in view[s].fields ==>
      Build(schema, view).value.sections[s][k] == OptionalDefaults(schema, s)[k]
  {
  }

  /** The built paths section's `config_dir` is the configuration file's
      parent directory when the dictionary held None, and the dictionary's
      value otherwise. */
  lemma ConfigDirDefaulted(schema: Schema, view: map<string, Value>, dir: string)
    requires HasPaths(schema) && Created(schema, view, dir).Success?
    ensures "paths" in view && view["paths"].Table? && "config_dir" in view["paths"].fields
    ensures Created(schema, view, dir).value.sections["paths"]["config_dir"] ==
      if view["paths"].fields["config_dir"] == Null then Str(dir) else view["paths"].fields["config_dir"]
  {
    var p := WithConfigDir(view["paths"].fields, dir);
    var v := view["paths" := Table(p)];
    BuiltSections(schema, v);
    assert "config_dir" in v["paths"].fields;
  }

  /** Creating the configuration from a store that has every section,
      and `config_dir` in `paths`, fails exactly when a section does not
      fit its dataclass. */
  lemma CreatedFromStore(schema: Schema, e: Store, dir: string)
    requires forall s :: s in schema.required ==> s in e
    requires "paths" in e && "config_dir" in e["paths"]
    ensures CreatedDefault(schema, e, dir).result.Success? <==>
      forall s :: s in schema.required ==> Fits(schema, s, e[s])
  {
    var p := WithConfigDir(e["paths"], dir);
    WithConfigDirKeys(e["paths"], dir);
    var v := Tables(e)["paths" := Table(p)];
    assert "paths" in Tables(e);
    assert CreatedDefault(schema, e, dir).result == Build(schema, v);
    forall s | s in schema.required
      ensures s in v && v[s].Table? && (Fits(schema, s, v[s].fields) <==> Fits(schema, s, e[s]))
    {
      FitsKeys(schema, s, v[s].fields, e[s]);
    }
  }

  /** Whether a section fits depends on its keys alone. */
  lemma FitsKeys(schema: Schema, s: string, a: map<string, Value>, b: map<string, Value>)
    requires s in schema.required && a.Keys == b.Keys
    ensures Fits(schema, s, a) == Fits(schema, s, b)
  {
  }

  lemma WithConfigDirKeys(paths: map<string, Value>, dir: string)
    ensures WithConfigDir(paths, dir).Keys == paths.Keys
  {
  }

  // ---------------------------------------------------------------------
  // The merge
  // ---------------------------------------------------------------------

  /** A table of the file for a default section overrides that section key
      by key; any other value of the file replaces its section wholesale;
      a section the file does not name keeps its defaults. */
  lemma MergeOverrides(d: Store, data: map<string, Value>, s: string)
    requires s in d || s in data
    ensures s in MergedView(d, data)
    ensures s in d && s in data && data[s].Table? ==>
      MergedView(d, data)[s].Table? &&
      MergedView(d, data)[s].fields.Keys == d[s].Keys + data[s].fields.Keys &&
      (forall k :: k in data[s].fields ==> MergedView(d, data)[s].fields[k] == data[s].fields[k]) &&
      (forall k :: k in d[s] && k !in data[s].fields ==> MergedView(d, data)[s].fields[k] == d[s][k])
    ensures s in data && (s !in d || !data[s].Table?) ==> MergedView(d, data)[s] == data[s]
    ensures s !in data ==> MergedView(d, data)[s] == Table(d[s])
  {
  }

  /** The merge as written changes DEFAULT_CONFIG: every key a table of the
      file gives for a default section stays in that section. */
  lemma MergeChangesDefaults(schema: Schema, d: Store, data: map<string, Value>, dir: string, s: string, k: string)
    requires s in d && s in data && data[s].Table? && k in data[s].fields
    requires s != "paths" || k != "config_dir" || data[s].fields[k] != Null
    ensures s in Merged(schema, d, data, dir).defaults && k in Merged(schema, d, data, dir).defaults[s]
    ensures Merged(schema, d, data, dir).defaults[s][k] == data[s].fields[k]
  {
  }

  /** With fitting defaults, a default section after the merge fits its
      dataclass exactly when the file gave it no unknown key. */
  lemma MergedSectionFits(schema: Schema, d: Store, data: map<string, Value>, s: string)
    requires DefaultsFit(schema, d) && s in schema.required
    ensures s in MergedDefaults(d, data)
    ensures Fits(schema, s, MergedDefaults(d, data)[s]) <==> !UnknownIn(schema, data, s)
  {
    assert s in d;
  }

  /** A merge that succeeds had no unknown key. */
  lemma MergedOkKnown(schema: Schema, d: Store, data: map<string, Value>, dir: string)
    requires HasPaths(schema) && DefaultsFit(schema, d) && Merged(schema, d, data, dir).result.Success?
    ensures !UnknownKey(schema, data)
  {
    var view := MergedView(d, data);
    var v := view["paths" := Table(WithConfigDir(view["paths"].fields, dir))];
    assert Build(schema, v).Success?;
    assert AllFit(schema, v);
    forall s | s in schema.required
      ensures !UnknownIn(schema, data, s)
    {
      assert s in d && s in v;
      if s in data && data[s].Table? {
        WithConfigDirKeys(view["paths"].fields, dir);
        assert v[s].fields.Keys == MergedDefaults(d, data)[s].Keys;
        FitsKeys(schema, s, v[s].fields, MergedDefaults(d, data)[s]);
        MergedSectionFits(schema, d, data, s);
      }
    }
  }

  /** The defaults after a merge have every section, with the keys of
      `MergedDefaults`, and `config_dir` still in `paths`. */
  lemma MergedDefaultsKeys(schema: Schema, d: Store, data: map<string, Value>, dir: string)
    requires HasPaths(schema) && DefaultsFit(schema, d)
    ensures forall s :: s in schema.required ==>
      s in Merged(schema, d, data, dir).defaults && s in MergedDefaults(d, data) &&
      Merged(schema, d, data, dir).defaults[s].Keys == MergedDefaults(d, data)[s].Keys
    ensures "paths" in Merged(schema, d, data, dir).defaults
    ensures "config_dir" in Merged(schema, d, data, dir).defaults["paths"]
  {
    forall s | s in schema.required
      ensures s in Merged(schema, d, data, dir).defaults && s in MergedDefaults(d, data)
      ensures Merged(schema, d, data, dir).defaults[s].Keys == MergedDefaults(d, data)[s].Keys
    {
      assert s in d;
      MergedKeysAt(d, data, dir, s);
    }
    assert "paths" in d;
    MergedKeysAt(d, data, dir, "paths");
  }

  /** One section of the defaults after a merge keeps the keys of
      `MergedDefaults`. */
  lemma MergedKeysAt(d: Store, data: map<string, Value>, dir: string, s: string)
    requires s in d && "paths" in d
    ensures s in MergedStore(d, data, dir) && s in MergedDefaults(d, data)
    ensures MergedStore(d, data, dir)[s].Keys == MergedDefaults(d, data)[s].Keys
  {
    WithConfigDirKeys(MergedDefaults(d, data)["paths"], dir);
  }

  // ---------------------------------------------------------------------
  // The load as written, and with isolated defaults
  // ---------------------------------------------------------------------

  /** With fitting defaults, the fallback succeeds. */
  lemma FallbackSucceeds(schema: Schema, d: Store, dir: string)
    requires HasPaths(schema) && DefaultsFit(schema, d)
    ensures CreatedDefault(schema, d, dir).result.Success?
  {
    assert "paths" in d;
    CreatedFromStore(schema, d, dir);
  }

  /** As written, loading a parsed file fails exactly when a section of the
      file has a key its dataclass lacks: the merge raises, and the same key,
      now in DEFAULT_CONFIG, makes the fallback raise outside the `try`. */
  lemma LoadFailsIffUnknownKey(schema: Schema, d: Store, dir: string, data: map<string, Value>)
    requires HasPaths(schema) && DefaultsFit(schema, d)
    ensures Loaded(schema, d, dir, Parsed(data)).result.Failure? <==> UnknownKey(schema, data)
  {
    var m := Merged(schema, d, data, dir);
    if m.result.Success? {
      MergedOkKnown(schema, d, data, dir);
    } else {
      var e := m.defaults;
      MergedDefaultsKeys(schema, d, data, dir);
      CreatedFromStore(schema, e, dir);
      forall s | s in schema.required
        ensures Fits(schema, s, e[s]) <==> !UnknownIn(schema, data, s)
      {
        MergedSectionFits(schema, d, data, s);
        FitsKeys(schema, s, e[s], MergedDefaults(d, data)[s]);
      }
    }
  }

  /** Without a readable file the load is the fallback on the untouched
      defaults, and it succeeds. */
  lemma LoadWithoutFile(schema: Schema, d: Store, dir: string, file: ConfigFile)
    requires HasPaths(schema) && DefaultsFit(schema, d) && !file.Parsed?
    ensures Loaded(schema, d, dir, file) == CreatedDefault(schema, d, dir)
    ensures Loaded(schema, d, dir, file).result.Success?
  {
    FallbackSucceeds(schema, d, dir);
  }

  /** With deep copies, the load never fails, and a merge that succeeds
      gives the same configuration as the load as written. */
  lemma IsolatedNeverFails(schema: Schema, d: Store, dir: string, file: ConfigFile)
    requires HasPaths(schema) && DefaultsFit(schema, d)
    ensures LoadedIsolated(schema, d, dir, file).Success?
    ensures file.Parsed? && Merged(schema, d, file.data, dir).result.Success? ==>
      LoadedIsolated(schema, d, dir, file) == Loaded(schema, d, dir, file).result
  {
    FallbackSucceeds(schema, d, dir);
  }

  // ---------------------------------------------------------------------
  // DEFAULT_CONFIG and the dataclasses of src/config.py
  // ---------------------------------------------------------------------

  lemma DataclassesHavePaths()
    ensures HasPaths(Dataclasses())
  {
  }

  /** DEFAULT_CONFIG has the nine sections, each fitting its dataclass. */
  lemma DefaultConfigFits()
    ensures DefaultsFit(Dataclasses(), DefaultConfig())
  {
    forall s | s in Dataclasses().required
      ensures s in DefaultConfig() && Fits(Dataclasses(), s, DefaultConfig()[s])
    {
      SectionCases(s);
      if s == "app" { AppFits(); }
      else if s == "paths" { PathsFits(); }
      else if s == "llm" { LlmFits(); }
      else if s == "embeddings" { EmbeddingsFits(); }
      else if s == "indexing" { IndexingFits(); }
      else if s == "retrieval" { RetrievalFits(); }
      else if s == "reasoning" { ReasoningFits(); }
      else if s == "security" { SecurityFits(); }
      else { EnterpriseFits(); }
    }
  }

  lemma SectionCases(s: string)
    requires s in Dataclasses().required
    ensures s == "app" || s == "paths" || s == "llm" || s == "embeddings" || s == "indexing" ||
            s == "retrieval" || s == "reasoning" || s == "security" || s == "enterprise"
  {
  }

  /** DEFAULT_CONFIG leaves `config_dir` to be set. */
  lemma DefaultConfigDirUnset()
    ensures "paths" in DefaultConfig() && "config_dir" in DefaultConfig()["paths"]
    ensures DefaultConfig()["paths"]["config_dir"] == Null
  {
    assert DefaultConfig()["paths"] == DefaultPaths();
  }

  lemma AppFits()
    ensures "app" in Dataclasses().required && "app" in DefaultConfig()
    ensures Fits(Dataclasses(), "app", DefaultConfig()["app"])
  {
    assert DefaultConfig()["app"] == DefaultApp();
  }

  lemma PathsFits()
    ensures "paths" in Dataclasses().required && "paths" in DefaultConfig()
    ensures Fits(Dataclasses(), "paths", DefaultConfig()["paths"])
  {
    assert DefaultConfig()["paths"] == DefaultPaths();
  }

  lemma LlmFits()
    ensures "llm" in Dataclasses().required && "llm" in DefaultConfig()
    ensures Fits(Dataclasses(), "llm", DefaultConfig()["llm"])
  {
    assert DefaultConfig()["llm"] == DefaultLlm();
  }

  lemma EmbeddingsFits()
    ensures "embeddings" in Dataclasses().required && "embeddings" in DefaultConfig()
    ensures Fits(Dataclasses(), "embeddings", DefaultConfig()["embeddings"])
  {
    assert DefaultConfig()["embeddings"] == DefaultEmbeddings();
  }

  lemma IndexingFits()
    ensures "indexing" in Dataclasses().required && "indexing" in DefaultConfig()
    ensures Fits(Dataclasses(), "indexing", DefaultConfig()["indexing"])
  {
    assert DefaultConfig()["indexing"] == DefaultIndexing();
  }

  lemma RetrievalFits()
    ensures "retrieval" in Dataclasses().required && "retrieval" in DefaultConfig()
    ensures Fits(Dataclasses(), "retrieval", DefaultConfig()["retrieval"])
  {
    assert DefaultConfig()["retrieval"] == DefaultRetrieval();
  }

  lemma ReasoningFits()
    ensures "reasoning" in Dataclasses().required && "reasoning" in DefaultConfig()
    ensures Fits(Dataclasses(), "reasoning", DefaultConfig()["reasoning"])
  {
    assert DefaultConfig()["reasoning"] == DefaultReasoning();
  }

  lemma SecurityFits()
    ensures "security" in Dataclasses().required && "security" in DefaultConfig()
    ensures Fits(Dataclasses(), "security", DefaultConfig()["security"])
  {
    assert DefaultConfig()["security"] == DefaultSecurity();
  }

  lemma EnterpriseFits()
    ensures "enterprise" in Dataclasses().required && "enterprise" in DefaultConfig()
    ensures Fits(Dataclasses(), "enterprise", DefaultConfig()["enterprise"])
  {
    assert DefaultConfig()["enterprise"] == DefaultEnterprise();
  }

  /** The file of the finding: `[app]` with one key `x`. */
  function UnknownAppKey(): map<string, Value> {
    map["app" := Table(map["x" := Int(1)])]
  }

  /** As written, a configuration file whose `[app]` table has a key `x`
      makes the load fail; with deep copies it gives the defaults. */
  lemma UnknownKeyExample(dir: string)
    ensures Loaded(Dataclasses(), DefaultConfig(), dir, Parsed(UnknownAppKey())).result.Failure?
    ensures LoadedIsolated(Dataclasses(), DefaultConfig(), dir, Parsed(UnknownAppKey())) ==
      CreatedDefault(Dataclasses(), DefaultConfig(), dir).result
    ensures LoadedIsolated(Dataclasses(), DefaultConfig(), dir, Parsed(UnknownAppKey())).Success?
  {
    DefaultConfigFits();
    DataclassesHavePaths();
    AppKeyUnknown();
    LoadFailsIffUnknownKey(Dataclasses(), DefaultConfig(), dir, UnknownAppKey());
    MergedOkNot(Dataclasses(), DefaultConfig(), UnknownAppKey(), dir);
    IsolatedNeverFails(Dataclasses(), DefaultConfig(), dir, Parsed(UnknownAppKey()));
  }

  lemma AppKeyUnknown()
    ensures UnknownKey(Dataclasses(), UnknownAppKey())
  {
    assert "app" in Dataclasses().required;
    assert "x" !in Allowed(Dataclasses(), "app");
    assert UnknownIn(Dataclasses(), UnknownAppKey(), "app");
  }

  /** A merge with an unknown key fails. */
  lemma MergedOkNot(schema: Schema, d: Store, data: map<string, Value>, dir: string)
    requires HasPaths(schema) && DefaultsFit(schema, d) && UnknownKey(schema, data)
    ensures Merged(schema, d, data, dir).result.Failure?
  {
    if Merged(schema, d, data, dir).result.Success? {
      MergedOkKnown(schema, d, data, dir);
    }
  }

  /** With DEFAULT_CONFIG, `get_optimal_batch_size` gives 8 for the
      embeddings and for unknown model types, and 128 for the LLM. */
  lemma DefaultBatchSizes(dir: string, modelType: string)
    ensures CreatedDefault(Dataclasses(), DefaultConfig(), dir).result.Success?
    ensures var cfg := CreatedDefault(Dataclasses(), DefaultConfig(), dir).result.value;
      "embeddings" in cfg.sections && "batch_size" in cfg.sections["embeddings"] &&
      OptimalBatchSize(cfg, modelType) == (if modelType == "llm" then Int(128) else Int(8))
  {
    DefaultConfigFits();
    DataclassesHavePaths();
    FallbackSucceeds(Dataclasses(), DefaultConfig(), dir);
    DefaultEmbeddingsBatch();
    BuiltDefault(Dataclasses(), DefaultConfig(), dir, "embeddings", "batch_size");
  }

  lemma DefaultEmbeddingsBatch()
    ensures "embeddings" in Dataclasses().required && "embeddings" in DefaultConfig()
    ensures "batch_size" in DefaultConfig()["embeddings"] && DefaultConfig()["embeddings"]["batch_size"] == Int(8)
  {
    assert DefaultConfig()["embeddings"] == DefaultEmbeddings();
  }

  /** A field of a section other than paths keeps its default value in the
      configuration built from the defaults. */
  lemma BuiltDefault(schema: Schema, d: Store, dir: string, s: string, k: string)
    requires CreatedDefault(schema, d, dir).result.Success?
    requires s in schema.required && s != "paths" && s in d && k in d[s]
    ensures s in CreatedDefault(schema, d, dir).result.value.sections
    ensures k in CreatedDefault(schema, d, dir).result.value.sections[s]
    ensures CreatedDefault(schema, d, dir).result.value.sections[s][k] == d[s][k]
  {
    var v := Tables(d)["paths" := Table(WithConfigDir(d["paths"], dir))];
    assert CreatedDefault(schema, d, dir).result == Build(schema, v);
    BuiltSections(schema, v);
    assert v[s] == Table(d[s]);
  }
}
