/**
 * The module-level state of src/loader.ts (the snapshot table `files` and the
 * lazily created `languageService`) and the operations that act on it:
 * `loadFiles`, the language-service host accessors, the program provider,
 * `processResource` and `loader`.
 */
module TsLoader {
  import opened Wrappers
  import opened Snapshots
  import opened LanguageService
  import opened Options
  import opened Output

  /** What the bundler tells the loader about the file being processed. */
  datatype LoaderContext = LoaderContext(resourcePath: string, context: string)

  /**
   * The foreign code one invocation calls: the configuration functions,
   * `path.normalize` (uninterpreted: not even assumed idempotent),
   * `validateOptions` (passes or throws), and the documentation parser's
   * `parseWithProgramProvider`, whose result is any list of component docs
   * depending on the configured parser, the file and the program it is given.
   */
  datatype Toolchain = Toolchain(
    config: ConfigHost,
    normalize: string -> string,
    validate: LoaderOptions -> bool,
    extract: (Parser, string, Program) -> seq<ComponentDoc>)

  /** Both module-level variables, as a value. */
  datatype ModuleState = ModuleState(files: Table, languageService: Option<Service>)

  /** What one `processResource` call leaves behind: the state, the outcome and the mutated options object. */
  datatype Processed = Processed(state: ModuleState, result: Result<ModuleValue, LoaderError>, options: LoaderOptions)

  /**
   * One `processResource` call as a function of the state before it.
   * Validation runs first and a failure touches nothing; then the options are
   * defaulted, the configuration resolved and its files loaded; the program
   * provider is reached only when all of that succeeded, and the program it
   * hands out is built by asking the host for the snapshot of each name in
   * `requested` (the files the compiler wants, which it decides itself).
   */
  function Process(s: ModuleState, context: LoaderContext, rawOptions: Option<LoaderOptions>,
                   tc: Toolchain, requested: seq<string>, disk: map<string, string>): (p: Processed)
    requires Consistent(s.files)
    ensures Consistent(p.state.files) && s.files.order <= p.state.files.order
    ensures s.languageService.Some? ==> p.state.languageService == s.languageService
    ensures p.result.Failure? ==> p.state.languageService == s.languageService
    ensures p.result.Success? ==> p.state.languageService.Some?
  {
    var given := if rawOptions.Some? then rawOptions.value else NO_OPTIONS;
    if !tc.validate(given) then Processed(s, Failure(InvalidOptions), given)
    else
      var options := WithDefaults(given);
      match Resolve(options, context.context, tc.config)
      case Failure(e) => Processed(s, Failure(e), options)
      case Success(res) =>
        LoadAllInvariant(s.files, res.filesToLoad, tc.normalize, disk);
        var loaded := LoadAll(s.files, res.filesToLoad, tc.normalize, disk);
        if loaded.failed.Some? then
          Processed(ModuleState(loaded.table, s.languageService), Failure(ReadFileError(loaded.failed.value)), options)
        else
          var provision := Provide(s.languageService, res.compilerOptions);
          var files := LookupAll(loaded.table, requested, disk);
          var parser := Parser(res.mode, ParserOptions(PropFilterFor(options)));
          var docs := tc.extract(parser, context.resourcePath, Program(provision.service));
          Processed(ModuleState(files, provision.slot), Success(ShapeOutput(docs)), options)
  }

  /** The table after loading `paths` and then answering the program's snapshot requests. */
  function LoadThenServe(t: Table, paths: seq<string>, normalize: string -> string,
                         requested: seq<string>, disk: map<string, string>): Table
    requires Consistent(t)
  {
    LoadAllInvariant(t, paths, normalize, disk);
    LookupAll(LoadAll(t, paths, normalize, disk).table, requested, disk)
  }

  /** Options that fail validation raise before any file is read or any service built. */
  lemma InvalidOptionsChangeNothing(s: ModuleState, context: LoaderContext, rawOptions: Option<LoaderOptions>,
                                    tc: Toolchain, requested: seq<string>, disk: map<string, string>)
    requires Consistent(s.files)
    requires !tc.validate(if rawOptions.Some? then rawOptions.value else NO_OPTIONS)
    ensures Process(s, context, rawOptions, tc, requested, disk).state == s
    ensures Process(s, context, rawOptions, tc, requested, disk).result == Failure(InvalidOptions)
  {
  }

  /**
   * The first successful call builds the language service with its own
   * resolved compiler options, and a second call reuses that service even
   * when it resolves different options.
   */
  lemma FirstCallBuildsTheService(s: ModuleState, c1: LoaderContext, o1: Option<LoaderOptions>,
                                  c2: LoaderContext, o2: Option<LoaderOptions>,
                                  tc: Toolchain, r1: seq<string>, r2: seq<string>, disk: map<string, string>)
    requires Consistent(s.files) && s.languageService.None?
    ensures var p1 := Process(s, c1, o1, tc, r1, disk);
      var p2 := Process(p1.state, c2, o2, tc, r2, disk);
      p1.result.Success? ==>
        var options := WithDefaults(if o1.Some? then o1.value else NO_OPTIONS);
        p1.state.languageService == Some(Service(Resolve(options, c1.context, tc.config).value.compilerOptions)) &&
        p2.state.languageService == p1.state.languageService
  {
  }

  /**
   * With a falsy `tsconfigPath`, default discovery runs and its files are
   * loaded, whether or not inline `compilerOptions` are given. If a
   * discovered file cannot be read the call fails with the table as loading
   * left it; otherwise it succeeds, the program requests come on top of the
   * loaded table, and every discovered project file stays registered with
   * the disk's text.
   */
  lemma DiscoveryPreloadsWithoutTsconfig(s: ModuleState, context: LoaderContext, options: LoaderOptions,
                                         tc: Toolchain, requested: seq<string>, disk: map<string, string>)
    requires Consistent(s.files)
    requires tc.validate(options) && !Truthy(options.tsconfigPath)
    ensures var discovered := DefaultTSConfigFile(tc.config.dirname(context.context), tc.config).fileNames;
      var loaded := LoadAll(s.files, discovered, tc.normalize, disk);
      var p := Process(s, context, Some(options), tc, requested, disk);
      (loaded.failed.Some? ==> p.state.files == loaded.table && p.result == Failure(ReadFileError(loaded.failed.value))) &&
      (loaded.failed.None? ==> p.result.Success? && p.state.files == LoadThenServe(s.files, discovered, tc.normalize, requested, disk))
    ensures var p := Process(s, context, Some(options), tc, requested, disk);
      var discovered := DefaultTSConfigFile(tc.config.dirname(context.context), tc.config).fileNames;
      p.result.Success? ==>
        forall i :: 0 <= i < |discovered| ==>
          tc.normalize(discovered[i]) in disk && tc.normalize(discovered[i]) in p.state.files.entries &&
          p.state.files.entries[tc.normalize(discovered[i])] == FreshEntry(disk[tc.normalize(discovered[i])])
  {
    var p := Process(s, context, Some(options), tc, requested, disk);
    var discovered := DefaultTSConfigFile(tc.config.dirname(context.context), tc.config).fileNames;
    LoadAllInvariant(s.files, discovered, tc.normalize, disk);
    var loaded := LoadAll(s.files, discovered, tc.normalize, disk);
    LoadAllFailure(s.files, discovered, tc.normalize, disk);
    if p.result.Success? {
      LoadAllStores(s.files, discovered, tc.normalize, disk);
      forall i | 0 <= i < |discovered|
        ensures tc.normalize(discovered[i]) in p.state.files.entries
        ensures p.state.files.entries[tc.normalize(discovered[i])] == loaded.table.entries[tc.normalize(discovered[i])]
      {
        LookupAllKeeps(loaded.table, requested, disk, tc.normalize(discovered[i]));
      }
    }
  }

  /**
   * With a truthy `tsconfigPath`, the files loaded are those of the parsed
   * file and default discovery plays no part in the outcome; a file that
   * does not parse fails the call before anything changes.
   */
  lemma TsconfigSkipsDiscovery(s: ModuleState, context: LoaderContext, options: LoaderOptions,
                               tc: Toolchain, requested: seq<string>, disk: map<string, string>,
                               discover: string -> ParsedConfig)
    requires Consistent(s.files)
    requires tc.validate(options) && Truthy(options.tsconfigPath)
    ensures var other := tc.(config := tc.config.(parseDefaultConfig := discover));
      Process(s, context, Some(options), other, requested, disk) == Process(s, context, Some(options), tc, requested, disk)
    ensures var parsed := GetTSConfigFile(options.tsconfigPath.value, tc.config);
      var p := Process(s, context, Some(options), tc, requested, disk);
      parsed.Failure? ==> p.state == s && p.result == Failure(ConfigParseError(parsed.error))
    ensures var parsed := GetTSConfigFile(options.tsconfigPath.value, tc.config);
      var p := Process(s, context, Some(options), tc, requested, disk);
      parsed.Success? ==>
        var loaded := LoadAll(s.files, parsed.value.fileNames, tc.normalize, disk);
        (loaded.failed.Some? ==> p.state.files == loaded.table && p.result == Failure(ReadFileError(loaded.failed.value))) &&
        (loaded.failed.None? ==>
          p.result.Success? && p.state.files == LoadThenServe(s.files, parsed.value.fileNames, tc.normalize, requested, disk))
  {
    var other := tc.(config := tc.config.(parseDefaultConfig := discover));
    DiscoveryOnlyWithoutTsconfig(WithDefaults(options), context.context, tc.config, discover);
    assert other.config == tc.config.(parseDefaultConfig := discover);
  }

  /** An invocation for a file without documentation yields the module source `module.exports = {}`. */
  lemma NoDocsEmptyModule(s: ModuleState, context: LoaderContext, rawOptions: Option<LoaderOptions>,
                          tc: Toolchain, requested: seq<string>, disk: map<string, string>,
                          docsJson: seq<ComponentDoc> -> string)
    requires Consistent(s.files)
    requires forall parser, program :: tc.extract(parser, context.resourcePath, program) == []
    ensures var p := Process(s, context, rawOptions, tc, requested, disk);
      p.result.Success? ==> Complete(true, p.result, docsJson) == CalledBack(None, Some("module.exports = {}"))
  {
  }

  /** Setting a key the way `Map.prototype.set` does is `Put`. */
  lemma SetIsPut(t: Table, key: string, v: TSFile, order: seq<string>, entries: map<string, TSFile>)
    requires order == (if key in t.entries then t.order else t.order + [key])
    requires entries == t.entries[key := v]
    ensures Table(order, entries) == Put(t, key, v)
  {
  }

  /**
   * Step `i` of `loadFiles`: a file missing from disk ends the batch with
   * the table as it is; otherwise the file is stored and the rest loaded.
   */
  lemma LoadStep(t: Table, paths: seq<string>, i: nat, normalize: string -> string, disk: map<string, string>)
    requires Consistent(t) && i < |paths|
    ensures var key := normalize(paths[i]);
      key !in disk ==> LoadAll(t, paths[i..], normalize, disk) == LoadResult(t, Some(key))
    ensures var key := normalize(paths[i]);
      key in disk ==>
        var next := Put(t, key, FreshEntry(disk[key]));
        Consistent(next) && LoadAll(t, paths[i..], normalize, disk) == LoadAll(next, paths[i + 1..], normalize, disk)
  {
    assert paths[i..][0] == paths[i] && paths[i..][1..] == paths[i + 1..];
  }

  /** The module-level variables of src/loader.ts. */
  class LoaderState {
    /** The keys of `files`, in insertion order. */
    var fileNames: seq<string>
    var files: map<string, TSFile>
    var languageService: Option<Service>

    function Files(): Table
      reads this
    {
      Table(fileNames, files)
    }

    function State(): ModuleState
      reads this
    {
      ModuleState(Files(), languageService)
    }

    ghost predicate Valid()
      reads this
    {
      Consistent(Files())
    }

    /** Module initialisation: an empty table and no language service. */
    constructor ()
      ensures Valid() && Files() == EMPTY_TABLE && languageService == None
    {
      fileNames, files := [], map[];
      languageService := None;
    }

    /** `loadFiles`: the `forEach` over the batch, stopping where `readFileSync` throws. */
    method LoadFiles(filesToLoad: seq<string>, normalize: string -> string, disk: map<string, string>)
      returns (failed: Option<string>)
      requires Valid()
      modifies this
      ensures Valid() && languageService == old(languageService)
      ensures LoadResult(Files(), failed) == LoadAll(old(Files()), filesToLoad, normalize, disk)
    {
      var i := 0;
      while i < |filesToLoad|
        invariant 0 <= i <= |filesToLoad|
        invariant Valid() && languageService == old(languageService)
        invariant LoadAll(Files(), filesToLoad[i..], normalize, disk) == LoadAll(old(Files()), filesToLoad, normalize, disk)
      {
        var normalizedFilePath := normalize(filesToLoad[i]);
        LoadStep(Files(), filesToLoad, i, normalize, disk);
        if normalizedFilePath !in disk {
          return Some(normalizedFilePath);
        }
        var file := FreshEntry(disk[normalizedFilePath]);
        ghost var before := Files();
        fileNames, files := (if normalizedFilePath in files then fileNames else fileNames + [normalizedFilePath]),
          files[normalizedFilePath := file];
        SetIsPut(before, normalizedFilePath, file, fileNames, files);
        i := i + 1;
      }
      return None;
    }

    /** `getScriptFileNames`: every tracked file, once each, in the order they were first stored. */
    function GetScriptFileNames(): (names: seq<string>)
      reads this
      requires Valid()
      ensures forall k :: k in names <==> k in files
      ensures Distinct(names)
    {
      fileNames
    }

    /**
     * `getScriptVersion`: the version's decimal string for a tracked file and
     * `""` for an untracked one; since versions never change, a tracked file
     * always reports `"0"`.
     */
    function GetScriptVersion(fileName: string): (v: string)
      reads this
      ensures v == "" <==> fileName !in files
      ensures fileName in files ==> IsDigits(v) && DigitsValue(v) == files[fileName].version
      ensures Valid() && fileName in files ==> v == "0"
    {
      if fileName in files then
        NatToStringRoundTrip(files[fileName].version);
        NatToString(files[fileName].version)
      else ""
    }

    /** `getScriptSnapshot`: soft-missing for files not on disk, first read wins for the rest. */
    method GetScriptSnapshot(fileName: string, disk: map<string, string>) returns (snapshot: Option<string>)
      requires Valid()
      modifies this
      ensures Valid() && languageService == old(languageService)
      ensures LookupResult(Files(), snapshot) == Lookup(old(Files()), fileName, disk)
    {
      if fileName !in disk {
        return None;
      }
      var file: TSFile;
      if fileName !in files {
        var text := disk[fileName];
        file := TSFile(Some(text), 0);
        fileNames := fileNames + [fileName];
        files := files[fileName := file];
      } else {
        file := files[fileName];
      }
      snapshot := file.text;
    }

    /**
     * What `getProgram` does through the host: it asks for the snapshot of
     * each file the compiler wants, in the order it wants them.
     */
    method RequestSnapshots(requested: seq<string>, disk: map<string, string>)
      requires Valid()
      modifies this
      ensures Valid() && languageService == old(languageService)
      ensures Files() == LookupAll(old(Files()), requested, disk)
    {
      var i := 0;
      while i < |requested|
        invariant 0 <= i <= |requested|
        invariant Valid() && languageService == old(languageService)
        invariant LookupAll(Files(), requested[i..], disk) == LookupAll(old(Files()), requested, disk)
      {
        assert requested[i..][0] == requested[i] && requested[i..][1..] == requested[i + 1..];
        var snapshot := GetScriptSnapshot(requested[i], disk);
        i := i + 1;
      }
    }

    /**
     * The program provider passed to the documentation parser: reuse the
     * language service if there is one, otherwise create it over this table
     * with the given compiler options; then hand out its program, which the
     * service builds by requesting snapshots from the host.
     */
    method ProvideProgram(compilerOptions: CompilerOptions, requested: seq<string>, disk: map<string, string>)
      returns (program: Program)
      requires Valid()
      modifies this
      ensures Valid()
      ensures var p := Provide(old(languageService), compilerOptions);
        languageService == p.slot && program == Program(p.service) &&
        Files() == LookupAll(old(Files()), requested, disk)
    {
      if languageService.Some? {
        program := Program(languageService.value);
      } else {
        var service := Service(compilerOptions);
        languageService := Some(service);
        program := Program(service);
      }
      RequestSnapshots(requested, disk);
    }

    /**
     * `processResource`: validates and defaults the options object in place,
     * picks the parser and compiler options by precedence, preloads the
     * project files, and runs the parser with the program provider.
     */
    method ProcessResource(context: LoaderContext, rawOptions: Option<LoaderOptions>,
                           tc: Toolchain, requested: seq<string>, disk: map<string, string>)
      returns (result: Result<ModuleValue, LoaderError>, options: LoaderOptions)
      requires Valid()
      modifies this
      ensures Valid()
      ensures Processed(State(), result, options) == Process(old(State()), context, rawOptions, tc, requested, disk)
    {
      options := if rawOptions.Some? then rawOptions.value else NO_OPTIONS;
      if !tc.validate(options) {
        return Failure(InvalidOptions), options;
      }
      options := options.(docgenCollectionName :=
        if Truthy(options.docgenCollectionName) then options.docgenCollectionName else Some(DEFAULT_COLLECTION_NAME));
      if options.setDisplayName.None? {
        options := options.(setDisplayName := Some(true));
      }
      var parserOptions := ParserOptions(PropFilterFor(options));
      var parser := Parser(DefaultConfig, parserOptions);
      var compilerOptions := DEFAULT_COMPILER_OPTIONS;
      var tsConfigFile: Option<ParsedConfig> := None;
      if Truthy(options.tsconfigPath) {
        var tsconfigPath := options.tsconfigPath.value;
        parser := Parser(CustomConfig(tsconfigPath), parserOptions);
        var parsed := GetTSConfigFile(tsconfigPath, tc.config);
        if parsed.Failure? {
          return Failure(ConfigParseError(parsed.error)), options;
        }
        tsConfigFile := Some(parsed.value);
        compilerOptions := parsed.value.options;
        var failed := LoadFiles(parsed.value.fileNames, tc.normalize, disk);
        if failed.Some? {
          return Failure(ReadFileError(failed.value)), options;
        }
      } else if options.compilerOptions.Some? {
        parser := Parser(WithCompilerOptions(options.compilerOptions.value), parserOptions);
        compilerOptions := options.compilerOptions.value;
      }
      if tsConfigFile.None? {
        var basePath := tc.config.dirname(context.context);
        tsConfigFile := Some(DefaultTSConfigFile(basePath, tc.config));
        var failed := LoadFiles(tsConfigFile.value.fileNames, tc.normalize, disk);
        if failed.Some? {
          return Failure(ReadFileError(failed.value)), options;
        }
      }
      var program := ProvideProgram(compilerOptions, requested, disk);
      var componentDocs := tc.extract(parser, context.resourcePath, program);
      result := Success(ShapeOutput(componentDocs));
    }

    /**
     * `loader`: runs `processResource` and reports its outcome the bundler's
     * way for the mode it was called in (`callback` says whether `this.async()`
     * returned a callback).
     */
    method Loader(callback: bool, context: LoaderContext, rawOptions: Option<LoaderOptions>,
                  tc: Toolchain, requested: seq<string>, disk: map<string, string>,
                  docsJson: seq<ComponentDoc> -> string)
      returns (completion: Completion)
      requires Valid()
      modifies this
      ensures Valid()
      ensures var p := Process(old(State()), context, rawOptions, tc, requested, disk);
        State() == p.state && completion == Complete(callback, p.result, docsJson)
    {
      var result, _ := ProcessResource(context, rawOptions, tc, requested, disk);
      completion := Complete(callback, result, docsJson);
    }
  }
}
