/** The configuration loader (src/config.py): the built-in defaults, whose
    sections are dictionaries shared by reference, the merge of a parsed
    TOML file into them, and the construction of the typed configuration
    from the nine dataclasses. */
module Config {
  import opened Wrappers

  /** A TOML value, or Python's None, which only the defaults hold. */
  datatype Value =
    | Null
    | Bool(b: bool)
    | Int(i: int)
    | Real(r: real)
    | Str(s: string)
    | List(items: seq<Value>)
    | Table(fields: map<string, Value>)

  /** Section name to the section's keys and values. */
  type Store = map<string, map<string, Value>>

  /** What reading the configuration path gives: no file, a file that
      `toml.load` rejects, or the parsed top-level table. */
  datatype ConfigFile = Missing | Unreadable | Parsed(data: map<string, Value>)

  /** The typed `Config`: each of the nine sections with the fields of its
      dataclass; an optional field that was not given holds its default. */
  datatype Configuration = Configuration(sections: Store)

  /** The result of a load and the built-in defaults as they are after it. */
  datatype Effect = Effect(result: Result<Configuration>, defaults: Store)

  // ---------------------------------------------------------------------
  // The dataclasses
  // ---------------------------------------------------------------------

  /** The sections of `Config` with the fields each section's dataclass
      requires, and the fields that have a default value. */
  datatype Schema = Schema(required: map<string, set<string>>, optional: map<string, map<string, Value>>)

  /** The nine dataclasses of src/config.py; only `LLMConfig.threads` has a
      default, None. */
  function Dataclasses(): Schema {
    Schema(
      map["app" := {"name", "version", "publisher", "debug", "log_level"},
          "paths" := {"index_dir", "logs_dir", "cache_dir", "config_dir"},
          "llm" := {"backend", "model_path", "model_type", "context_length", "temperature", "max_tokens"},
          "embeddings" := {"model", "device", "batch_size", "max_seq_length"},
          "indexing" := {"chunk_size", "chunk_overlap", "index_type", "persist_every"},
          "retrieval" := {"top_k", "min_similarity", "use_bm25", "dense_weight", "sparse_weight",
                          "context_window", "rerank", "chunk_size", "chunk_overlap"},
          "reasoning" := {"max_tokens", "temperature", "use_streaming", "show_steps", "confidence_threshold"},
          "security" := {"internal_lan_mode", "allowed_ips", "require_auth", "audit_logging",
                         "rate_limit_per_ip", "encrypt_index"},
          "enterprise" := {"multi_user", "audit_logging", "backup_enabled", "auto_update"}],
      map["llm" := map["threads" := Null]])
  }

  /** The defaults of a section's optional fields. */
  function OptionalDefaults(schema: Schema, section: string): map<string, Value> {
    if section in schema.optional then schema.optional[section] else map[]
  }

  /** The keyword arguments a section's dataclass accepts. */
  function Allowed(schema: Schema, section: string): set<string>
    requires section in schema.required
  {
    schema.required[section] + OptionalDefaults(schema, section).Keys
  }

  /** `XConfig(**fields)` does not raise: no required field is missing and
      no keyword is unexpected. Field types are not checked. */
  predicate Fits(schema: Schema, section: string, fields: map<string, Value>)
    requires section in schema.required
  {
    schema.required[section] <= fields.Keys && fields.Keys <= Allowed(schema, section)
  }

  /** Every section is present, is a dictionary and fits its dataclass. */
  predicate AllFit(schema: Schema, view: map<string, Value>) {
    forall s :: s in schema.required ==> s in view && view[s].Table? && Fits(schema, s, view[s].fields)
  }

  /** `Config(app=AppConfig(**d["app"]), ...)` on a dictionary whose value
      is `view`; any section that is missing, is not a dictionary or does
      not fit raises. */
  function Build(schema: Schema, view: map<string, Value>): Result<Configuration> {
    if AllFit(schema, view) then
      Success(Configuration(map s | s in schema.required :: OptionalDefaults(schema, s) + view[s].fields))
    else Failure("section does not match its dataclass")
  }

  /** The paths section after `config_dir` is set to `dir` when it is None. */
  function WithConfigDir(paths: map<string, Value>, dir: string): map<string, Value> {
    if "config_dir" in paths && paths["config_dir"] == Null then paths["config_dir" := Str(dir)] else paths
  }

  /** `_create_config_from_dict` on a dictionary whose value is `view`, with
      `dir` the configuration file's parent directory. */
  function Created(schema: Schema, view: map<string, Value>, dir: string): Result<Configuration> {
    if "paths" !in view then Failure("KeyError: 'paths'")
    else if !view["paths"].Table? then Failure("TypeError: paths is not a table")
    else if "config_dir" !in view["paths"].fields then Failure("KeyError: 'config_dir'")
    else Build(schema, view["paths" := Table(WithConfigDir(view["paths"].fields, dir))])
  }

  // ---------------------------------------------------------------------
  // The merge and the load, on values
  // ---------------------------------------------------------------------

  /** The default sections as dictionaries. */
  function Tables(d: Store): map<string, Value> {
    map s | s in d :: Table(d[s])
  }

  /** The defaults after `merged[section].update(values)` for every section
      of the file that the defaults have and that is a table: the top-level
      copy shares the default sections. */
  function MergedDefaults(d: Store, data: map<string, Value>): Store {
    map s | s in d :: if s in data && data[s].Table? then d[s] + data[s].fields else d[s]
  }

  /** The merged top-level dictionary: a default section is the shared,
      updated one unless the file gives a value that is not a table; a
      section the defaults lack is the file's value. */
  function MergedView(d: Store, data: map<string, Value>): map<string, Value> {
    map s | s in d.Keys + data.Keys ::
      if s in d && (s !in data || data[s].Table?) then Table(MergedDefaults(d, data)[s]) else data[s]
  }

  /** Whether the merged paths section is the default one. */
  predicate PathsShared(d: Store, data: map<string, Value>) {
    "paths" in d && ("paths" !in data || data["paths"].Table?)
  }

  /** The defaults after `_merge_config`: updated, and with `config_dir`
      set in the shared paths section. */
  function MergedStore(d: Store, data: map<string, Value>, dir: string): Store {
    var d1 := MergedDefaults(d, data);
    if PathsShared(d, data) then d1["paths" := WithConfigDir(d1["paths"], dir)] else d1
  }

  /** `_merge_config`: the result, and the defaults after it. */
  function Merged(schema: Schema, d: Store, data: map<string, Value>, dir: string): Effect {
    Effect(Created(schema, MergedView(d, data), dir), MergedStore(d, data, dir))
  }

  /** `_create_default_config`: built from the defaults themselves. */
  function CreatedDefault(schema: Schema, d: Store, dir: string): Effect {
    Effect(Created(schema, Tables(d), dir), if "paths" in d then d["paths" := WithConfigDir(d["paths"], dir)] else d)
  }

  /** `_load_config` as written: a missing or unreadable file, or a merge
      that raises, falls back to the defaults as the merge left them; the
      fallback is outside the `try`, so its failure is the load's. */
  function Loaded(schema: Schema, d: Store, dir: string, file: ConfigFile): Effect {
    if file.Parsed? then
      var m := Merged(schema, d, file.data, dir);
      if m.result.Success? then m else CreatedDefault(schema, m.defaults, dir)
    else CreatedDefault(schema, d, dir)
  }

  /** `_load_config` with the defaults copied deeply before the merge and
      before the fallback: the defaults never change. */
  function LoadedIsolated(schema: Schema, d: Store, dir: string, file: ConfigFile): Result<Configuration> {
    if file.Parsed? && Merged(schema, d, file.data, dir).result.Success? then Merged(schema, d, file.data, dir).result
    else CreatedDefault(schema, d, dir).result
  }

  // ---------------------------------------------------------------------
  // DEFAULT_CONFIG and the getters
  // ---------------------------------------------------------------------

  function DefaultConfig(): Store {
    map["app" := DefaultApp(), "paths" := DefaultPaths(), "llm" := DefaultLlm(),
        "embeddings" := DefaultEmbeddings(), "indexing" := DefaultIndexing(),
        "retrieval" := DefaultRetrieval(), "reasoning" := DefaultReasoning(),
        "security" := DefaultSecurity(), "enterprise" := DefaultEnterprise()]
  }

  function DefaultApp(): map<string, Value> {
    map["name" := Str("AI-System-DocAI"), "version" := Str("5I.2025"),
        "publisher" := Str("AI-System-Solutions"), "debug" := Bool(false), "log_level" := Str("INFO")]
  }

  function DefaultPaths(): map<string, Value> {
    map["index_dir" := Str("faiss_index"), "logs_dir" := Str("logs"), "cache_dir" := Str("cache"),
        "config_dir" := Null]
  }

  function DefaultLlm(): map<string, Value> {
    map["backend" := Str("openai"), "model_path" := Str(""), "model_type" := Str("gpt-4o-mini"),
        "context_length" := Int(4096), "temperature" := Real(0.7), "max_tokens" := Int(600),
        "threads" := Null]
  }

  function DefaultEmbeddings(): map<string, Value> {
    map["model" := Str("sentence-transformers/all-MiniLM-L6-v2"), "device" := Str("cpu"),
        "batch_size" := Int(8), "max_seq_length" := Int(512)]
  }

  function DefaultIndexing(): map<string, Value> {
    map["chunk_size" := Int(800), "chunk_overlap" := Int(120), "index_type" := Str("hnsw"),
        "persist_every" := Int(2000)]
  }

  function DefaultRetrieval(): map<string, Value> {
    map["top_k" := Int(12), "min_similarity" := Real(0.25), "use_bm25" := Bool(true),
        "dense_weight" := Real(0.6), "sparse_weight" := Real(0.4), "context_window" := Int(3),
        "rerank" := Bool(false), "chunk_size" := Int(800), "chunk_overlap" := Int(120)]
  }

  function DefaultReasoning(): map<string, Value> {
    map["max_tokens" := Int(600), "temperature" := Real(0.7), "use_streaming" := Bool(true),
        "show_steps" := Bool(true), "confidence_threshold" := Real(0.5)]
  }

  function DefaultSecurity(): map<string, Value> {
    map["internal_lan_mode" := Bool(true), "allowed_ips" := List([]), "require_auth" := Bool(false),
        "audit_logging" := Bool(true), "rate_limit_per_ip" := Int(100), "encrypt_index" := Bool(false)]
  }

  function DefaultEnterprise(): map<string, Value> {
    map["multi_user" := Bool(false), "audit_logging" := Bool(true), "backup_enabled" := Bool(true),
        "auto_update" := Bool(false)]
  }

  /** `get_optimal_batch_size`: the embeddings batch size, 128 for the LLM,
      8 for anything else. */
  function OptimalBatchSize(cfg: Configuration, modelType: string): Value
    requires "embeddings" in cfg.sections && "batch_size" in cfg.sections["embeddings"]
  {
    if modelType == "embeddings" then cfg.sections["embeddings"]["batch_size"]
    else if modelType == "llm" then Int(128)
    else Int(8)
  }

  /** `get_llm_device`: the models always run on the CPU. */
  function LlmDevice(): string {
    "CPU"
  }

  // ---------------------------------------------------------------------
  // The shared dictionaries
  // ---------------------------------------------------------------------

  /** A section dictionary of DEFAULT_CONFIG, updated in place. */
  class Section {
    var entries: map<string, Value>

    constructor (entries: map<string, Value>)
      ensures this.entries == entries
    {
      this.entries := entries;
    }

    /** `dict.update`: the given keys take the given values. */
    method Update(values: map<string, Value>)
      modifies this
      ensures entries == old(entries) + values
    {
      entries := entries + values;
    }

    /** `d[key] = value`. */
    method Put(key: string, value: Value)
      modifies this
      ensures entries == old(entries)[key := value]
    {
      entries := entries[key := value];
    }
  }

  /** A value of the merged top-level dictionary: a default section shared
      by reference, or a value taken from the file. */
  datatype Slot = Shared(section: Section) | Plain(value: Value)

  /** No two sections are the same dictionary. */
  ghost predicate Distinct(d: map<string, Section>) {
    forall a, b :: a in d && b in d && a != b ==> d[a] != d[b]
  }

  /** The sections' contents. */
  function Snapshot(d: map<string, Section>): Store
    reads d.Values
  {
    map s | s in d :: d[s].entries
  }

  function SharedSections(merged: map<string, Slot>): set<Section> {
    set s | s in merged && merged[s].Shared? :: merged[s].section
  }

  /** No two slots share one dictionary. */
  ghost predicate DistinctSlots(merged: map<string, Slot>) {
    forall a, b :: a in merged && b in merged && a != b && merged[a].Shared? && merged[b].Shared? ==>
      merged[a].section != merged[b].section
  }

  /** The merged dictionary as a value. */
  function ViewOf(merged: map<string, Slot>): map<string, Value>
    reads SharedSections(merged)
  {
    map s | s in merged :: if merged[s].Shared? then Table(merged[s].section.entries) else merged[s].value
  }

  /** The slots of `DEFAULT_CONFIG` itself, or of its top-level copy. */
  function SlotsOf(d: map<string, Section>): (m: map<string, Slot>)
    ensures m.Keys == d.Keys && forall s :: s in m ==> m[s] == Shared(d[s])
  {
    map s | s in d :: Shared(d[s])
  }

  // ---------------------------------------------------------------------
  // The loader
  // ---------------------------------------------------------------------

  /** `_create_config_from_dict`: a None `config_dir` in the paths
      dictionary is set to `dir` in place, then the dataclasses are built. */
  method CreateConfigFromDict(merged: map<string, Slot>, dir: string) returns (r: Result<Configuration>)
    requires DistinctSlots(merged)
    modifies if "paths" in merged && merged["paths"].Shared? then {merged["paths"].section} else {}
    ensures r == Created(Dataclasses(), old(ViewOf(merged)), dir)
    ensures "paths" in merged && merged["paths"].Shared? ==>
      merged["paths"].section.entries == WithConfigDir(old(merged["paths"].section.entries), dir)
  {
    var view := ViewOf(merged);
    if "paths" !in merged {
      return Failure("KeyError: 'paths'");
    }
    match merged["paths"]
    case Plain(v) =>
      r := Created(Dataclasses(), view, dir);
    case Shared(paths) =>
      if "config_dir" !in paths.entries {
        return Failure("KeyError: 'config_dir'");
      }
      if paths.entries["config_dir"] == Null {
        paths.Put("config_dir", Str(dir));
      }
      PathsSet(merged, view, dir);
      r := Build(Dataclasses(), ViewOf(merged));
  }

  /** After the paths dictionary is set, the merged view differs from
      `view` in that section alone. */
  lemma PathsSet(merged: map<string, Slot>, view: map<string, Value>, dir: string)
    requires "paths" in merged && merged["paths"].Shared? && "paths" in view
    requires view.Keys == merged.Keys && view["paths"].Table?
    requires merged["paths"].section.entries == WithConfigDir(view["paths"].fields, dir)
    requires forall s :: s in merged && s != "paths" ==>
      view[s] == (if merged[s].Shared? then Table(merged[s].section.entries) else merged[s].value)
    ensures ViewOf(merged) == view["paths" := Table(WithConfigDir(view["paths"].fields, dir))]
  {
  }

  /** Every shared slot holds the default section of its own name. */
  ghost predicate SlotsFrom(defaults: map<string, Section>, merged: map<string, Slot>) {
    forall s :: s in merged && merged[s].Shared? ==> s in defaults && merged[s].section == defaults[s]
  }

  /** `_create_config_from_dict` on slots taken from the defaults: of the
      defaults, only the shared paths section changes. */
  method CreateFromSlots(defaults: map<string, Section>, merged: map<string, Slot>, dir: string)
    returns (r: Result<Configuration>)
    requires Distinct(defaults) && SlotsFrom(defaults, merged)
    modifies defaults.Values
    ensures r == Created(Dataclasses(), old(ViewOf(merged)), dir)
    ensures Snapshot(defaults) ==
      (if "paths" in merged && merged["paths"].Shared? then old(Snapshot(defaults))["paths" := WithConfigDir(old(Snapshot(defaults))["paths"], dir)]
       else old(Snapshot(defaults)))
  {
    ghost var before := Snapshot(defaults);
    r := CreateConfigFromDict(merged, dir);
    if "paths" in merged && merged["paths"].Shared? {
      assert Snapshot(defaults) == before["paths" := WithConfigDir(before["paths"], dir)];
    } else {
      assert Snapshot(defaults) == before;
    }
  }

  /** The slots of the top-level copy once the sections in `done` are merged. */
  function SlotsMerged(defaults: map<string, Section>, done: map<string, Value>): map<string, Slot> {
    map s | s in defaults.Keys + done.Keys ::
      if s in defaults && (s !in done || done[s].Table?) then Shared(defaults[s]) else Plain(done[s])
  }

  /** `merged[section].update(values)` on a default section. */
  method UpdateSection(defaults: map<string, Section>, s: string, values: map<string, Value>)
    requires Distinct(defaults) && s in defaults
    modifies defaults[s]
    ensures Snapshot(defaults) == old(Snapshot(defaults))[s := old(Snapshot(defaults))[s] + values]
  {
    defaults[s].Update(values);
  }

  /** `_merge_config`: `DEFAULT_CONFIG.copy()` copies the top level only,
      so a table of the file for a default section updates that default
      section itself. */
  method MergeConfig(defaults: map<string, Section>, data: map<string, Value>, dir: string)
    returns (r: Result<Configuration>)
    requires Distinct(defaults)
    modifies defaults.Values
    ensures r == Merged(Dataclasses(), old(Snapshot(defaults)), data, dir).result
    ensures Snapshot(defaults) == Merged(Dataclasses(), old(Snapshot(defaults)), data, dir).defaults
  {
    ghost var d := Snapshot(defaults);
    var merged := SlotsOf(defaults);
    ghost var done: map<string, Value> := map[];
    assert merged == SlotsMerged(defaults, done);
    assert MergedDefaults(d, done) == d;
    var rest := data.Keys;
    while rest != {}
      invariant rest <= data.Keys
      invariant forall s :: s in data ==> (s in done <==> s !in rest)
      invariant forall s :: s in done ==> s in data && done[s] == data[s]
      invariant merged == SlotsMerged(defaults, done)
      invariant Snapshot(defaults) == MergedDefaults(d, done)
      decreases rest
    {
      var s :| s in rest;
      merged := MergeSection(defaults, d, done, merged, s, data[s]);
      done := done[s := data[s]];
      rest := rest - {s};
    }
    assert done == data;
    MergedSlotsShared(defaults, data);
    MergedSlotsView(defaults, d, data);
    r := CreateFromSlots(defaults, merged, dir);
  }

  /** One iteration of the merge loop: `merged[section].update(values)` for
      a default section and a table, `merged[section] = values` otherwise. */
  method MergeSection(defaults: map<string, Section>, ghost d: Store, ghost done: map<string, Value>,
                      merged: map<string, Slot>, s: string, values: Value)
    returns (merged': map<string, Slot>)
    requires Distinct(defaults) && d.Keys == defaults.Keys && s !in done
    requires merged == SlotsMerged(defaults, done) && Snapshot(defaults) == MergedDefaults(d, done)
    modifies defaults.Values
    ensures merged' == SlotsMerged(defaults, done[s := values])
    ensures Snapshot(defaults) == MergedDefaults(d, done[s := values])
  {
    SlotsStep(defaults, done, s, values);
    DefaultsStep(d, done, s, values);
    if s in merged && values.Table? {
      UpdateSection(defaults, s, values.fields);
      merged' := merged;
    } else {
      merged' := merged[s := Plain(values)];
    }
  }

  /** One section of the file merged: the slots move as `SlotsMerged` says. */
  lemma SlotsStep(defaults: map<string, Section>, done: map<string, Value>, s: string, v: Value)
    requires s !in done
    ensures (s in SlotsMerged(defaults, done) && v.Table?) == (s in defaults && v.Table?)
    ensures SlotsMerged(defaults, done[s := v]) ==
      if s in defaults && v.Table? then SlotsMerged(defaults, done) else SlotsMerged(defaults, done)[s := Plain(v)]
  {
  }

  /** One section of the file merged: the defaults move as
      `MergedDefaults` says. */
  lemma DefaultsStep(d: Store, done: map<string, Value>, s: string, v: Value)
    requires s !in done
    ensures MergedDefaults(d, done[s := v]) ==
      if s in d && v.Table? then MergedDefaults(d, done)[s := d[s] + v.fields] else MergedDefaults(d, done)
  {
  }

  /** The slots after the loop share no dictionary, and the paths slot
      is shared exactly when `PathsShared` says. */
  lemma MergedSlotsShared(defaults: map<string, Section>, data: map<string, Value>)
    requires Distinct(defaults)
    ensures DistinctSlots(SlotsMerged(defaults, data)) && SlotsFrom(defaults, SlotsMerged(defaults, data))
    ensures ("paths" in SlotsMerged(defaults, data) && SlotsMerged(defaults, data)["paths"].Shared?) ==
      ("paths" in defaults && ("paths" !in data || data["paths"].Table?))
  {
  }

  /** The slots after the loop are `MergedView`. */
  lemma MergedSlotsView(defaults: map<string, Section>, d: Store, data: map<string, Value>)
    requires d.Keys == defaults.Keys
    requires Snapshot(defaults) == MergedDefaults(d, data)
    ensures ViewOf(SlotsMerged(defaults, data)) == MergedView(d, data)
  {
    var merged := SlotsMerged(defaults, data);
    forall s | s in merged
      ensures ViewOf(merged)[s] == MergedView(d, data)[s]
    {
      if merged[s].Shared? {
        assert merged[s].section.entries == Snapshot(defaults)[s];
      }
    }
  }

  /** `_create_default_config`: built from DEFAULT_CONFIG itself. */
  method CreateDefaultConfig(defaults: map<string, Section>, dir: string) returns (r: Result<Configuration>)
    requires Distinct(defaults)
    modifies defaults.Values
    ensures r == CreatedDefault(Dataclasses(), old(Snapshot(defaults)), dir).result
    ensures Snapshot(defaults) == CreatedDefault(Dataclasses(), old(Snapshot(defaults)), dir).defaults
  {
    ghost var d := Snapshot(defaults);
    var merged := SlotsOf(defaults);
    assert ViewOf(merged) == Tables(d);
    assert DistinctSlots(merged) && SlotsFrom(defaults, merged);
    r := CreateFromSlots(defaults, merged, dir);
  }

  /** `_load_config`: the merge of a parsed file, and the defaults when
      there is no file, it cannot be parsed, or the merge raises. */
  method LoadConfig(defaults: map<string, Section>, dir: string, file: ConfigFile) returns (r: Result<Configuration>)
    requires Distinct(defaults)
    modifies defaults.Values
    ensures r == Loaded(Dataclasses(), old(Snapshot(defaults)), dir, file).result
    ensures Snapshot(defaults) == Loaded(Dataclasses(), old(Snapshot(defaults)), dir, file).defaults
  {
    if file.Parsed? {
      r := MergeConfig(defaults, file.data, dir);
      if r.Success? {
        return;
      }
    }
    r := CreateDefaultConfig(defaults, dir);
  }

  /** A fresh copy of every section dictionary: `copy.deepcopy`. */
  method DeepCopy(d: map<string, Section>) returns (c: map<string, Section>)
    ensures Snapshot(c) == Snapshot(d) && Distinct(c) && fresh(c.Values)
  {
    c := map[];
    var rest := d.Keys;
    while rest != {}
      invariant rest <= d.Keys && c.Keys == d.Keys - rest
      invariant forall s :: s in c ==> c[s].entries == d[s].entries
      invariant Distinct(c) && fresh(c.Values)
      decreases rest
    {
      var s :| s in rest;
      var copy := new Section(d[s].entries);
      assert copy !in c.Values;
      ValuesAdded(c, s, copy);
      c := c[s := copy];
      rest := rest - {s};
    }
  }

  lemma ValuesAdded(c: map<string, Section>, s: string, v: Section)
    ensures c[s := v].Values <= c.Values + {v}
  {
    forall x | x in c[s := v].Values
      ensures x in c.Values + {v}
    {
      var k :| k in c[s := v] && c[s := v][k] == x;
      if k != s {
        assert c[k] == x;
      }
    }
  }

  /** `_load_config` with every use of DEFAULT_CONFIG on a deep copy. */
  method LoadConfigIsolated(defaults: map<string, Section>, dir: string, file: ConfigFile)
    returns (r: Result<Configuration>)
    ensures r == LoadedIsolated(Dataclasses(), Snapshot(defaults), dir, file)
  {
    if file.Parsed? {
      r := MergeCopy(defaults, file.data, dir);
      if r.Success? {
        return;
      }
    }
    r := CreateDefaultCopy(defaults, dir);
  }

  /** `_merge_config` on a deep copy of the defaults. */
  method MergeCopy(defaults: map<string, Section>, data: map<string, Value>, dir: string)
    returns (r: Result<Configuration>)
    ensures r == Merged(Dataclasses(), Snapshot(defaults), data, dir).result
  {
    ghost var before := Snapshot(defaults);
    var copy := DeepCopy(defaults);
    assert Snapshot(copy) == before;
    r := MergeConfig(copy, data, dir);
    assert Snapshot(defaults) == before;
  }

  /** `_create_default_config` on a deep copy of the defaults. */
  method CreateDefaultCopy(defaults: map<string, Section>, dir: string) returns (r: Result<Configuration>)
    ensures r == CreatedDefault(Dataclasses(), Snapshot(defaults), dir).result
  {
    ghost var before := Snapshot(defaults);
    var copy := DeepCopy(defaults);
    assert Snapshot(copy) == before;
    r := CreateDefaultConfig(copy, dir);
    assert Snapshot(defaults) == before;
  }
}
