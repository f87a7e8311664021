/**
 * The loader's options and what `processResource` in src/loader.ts derives
 * from them: the defaulted option fields, the prop filter handed to the
 * documentation parser, and the configuration precedence that picks the
 * parser mode, the compiler options and the project files to preload.
 */
module Options {
  import opened Wrappers
  import opened LanguageService

  /** `skipPropsWithName`: one prop name or a list of them. */
  datatype SkipNames = OneName(name: string) | NameList(names: seq<string>)

  /**
   * A prop filter for the documentation parser: the static form built from
   * the skip options, or a user-supplied filter function (opaque).
   */
  datatype PropFilter =
    | StaticFilter(skipPropsWithName: Option<SkipNames>, skipPropsWithoutDoc: Option<bool>)
    | FilterFunction(id: nat)

  /**
   * The options object the loader receives. `None` is an absent field;
   * `setDisplayName` is `None` also when the value is not a boolean.
   */
  datatype LoaderOptions = LoaderOptions(
    docgenCollectionName: Option<string>,
    setDisplayName: Option<bool>,
    skipPropsWithName: Option<SkipNames>,
    skipPropsWithoutDoc: Option<bool>,
    propFilter: Option<PropFilter>,
    compilerOptions: Option<CompilerOptions>,
    tsconfigPath: Option<string>)

  /** `{}`, used when the loader is given no options at all. */
  const NO_OPTIONS := LoaderOptions(None, None, None, None, None, None, None)

  const DEFAULT_COLLECTION_NAME := "STORYBOOK_REACT_CLASSES"

  /** JavaScript truthiness of an optional string: present and not empty. */
  predicate Truthy(s: Option<string>)
  {
    s.Some? && s.value != ""
  }

  /** Truthiness of `skipPropsWithName`: an empty string is falsy, any array is truthy. */
  predicate NamesTruthy(n: Option<SkipNames>)
  {
    n.Some? && (n.value.OneName? ==> n.value.name != "")
  }

  /** Truthiness of `skipPropsWithoutDoc`. */
  predicate FlagTruthy(b: Option<bool>)
  {
    b == Some(true)
  }

  /**
   * The options after the in-place defaulting: a falsy collection name
   * becomes "STORYBOOK_REACT_CLASSES", a `setDisplayName` that is not a
   * boolean becomes `true`, and every other field is left alone.
   */
  function WithDefaults(o: LoaderOptions): (r: LoaderOptions)
    ensures Truthy(r.docgenCollectionName)
    ensures Truthy(o.docgenCollectionName) ==> r.docgenCollectionName == o.docgenCollectionName
    ensures !Truthy(o.docgenCollectionName) ==> r.docgenCollectionName == Some(DEFAULT_COLLECTION_NAME)
    ensures r.setDisplayName.Some?
    ensures o.setDisplayName.Some? ==> r.setDisplayName == o.setDisplayName
    ensures o.setDisplayName.None? ==> r.setDisplayName == Some(true)
    ensures r.(docgenCollectionName := o.docgenCollectionName, setDisplayName := o.setDisplayName) == o
  {
    o.(docgenCollectionName := if Truthy(o.docgenCollectionName) then o.docgenCollectionName else Some(DEFAULT_COLLECTION_NAME),
       setDisplayName := if o.setDisplayName.Some? then o.setDisplayName else Some(true))
  }

  /** Defaulting twice is defaulting once. */
  lemma WithDefaultsIdempotent(o: LoaderOptions)
    ensures WithDefaults(WithDefaults(o)) == WithDefaults(o)
  {
  }

  /**
   * The `propFilter` handed to the parser: when either skip option is truthy,
   * a static filter holding exactly the truthy ones (a falsy one becomes
   * `undefined`), and the user's own `propFilter` is ignored; otherwise the
   * user's `propFilter`, as given.
   */
  function PropFilterFor(o: LoaderOptions): (r: Option<PropFilter>)
    ensures NamesTruthy(o.skipPropsWithName) || FlagTruthy(o.skipPropsWithoutDoc) ==>
      r.Some? && r.value.StaticFilter? &&
      (r.value.skipPropsWithName.Some? <==> NamesTruthy(o.skipPropsWithName)) &&
      (r.value.skipPropsWithName.Some? ==> r.value.skipPropsWithName == o.skipPropsWithName) &&
      (r.value.skipPropsWithoutDoc.Some? <==> FlagTruthy(o.skipPropsWithoutDoc)) &&
      (r.value.skipPropsWithoutDoc.Some? ==> r.value.skipPropsWithoutDoc == Some(true))
    ensures !(NamesTruthy(o.skipPropsWithName) || FlagTruthy(o.skipPropsWithoutDoc)) ==> r == o.propFilter
  {
    if NamesTruthy(o.skipPropsWithName) || FlagTruthy(o.skipPropsWithoutDoc) then
      Some(StaticFilter(
        if NamesTruthy(o.skipPropsWithName) then o.skipPropsWithName else None,
        if FlagTruthy(o.skipPropsWithoutDoc) then Some(true) else None))
    else o.propFilter
  }

  /** A static filter built from the skip options never carries a falsy value. */
  predicate NoFalsySkips(f: PropFilter)
  {
    f.StaticFilter? ==>
      (f.skipPropsWithName.Some? ==> NamesTruthy(f.skipPropsWithName)) &&
      (f.skipPropsWithoutDoc.Some? ==> FlagTruthy(f.skipPropsWithoutDoc))
  }

  /**
   * The user's `propFilter` matters only when both skip options are falsy,
   * and a filter the loader builds itself is never holding falsy skips.
   */
  lemma PropFilterPrecedence(o: LoaderOptions, userFilter: Option<PropFilter>)
    ensures NamesTruthy(o.skipPropsWithName) || FlagTruthy(o.skipPropsWithoutDoc) ==>
      PropFilterFor(o.(propFilter := userFilter)) == PropFilterFor(o) && NoFalsySkips(PropFilterFor(o).value)
  {
  }

  /** How the documentation parser is configured (`withDefaultConfig`, `withCustomConfig`, `withCompilerOptions`). */
  datatype ParserMode =
    | DefaultConfig
    | CustomConfig(tsconfigPath: string)
    | WithCompilerOptions(compilerOptions: CompilerOptions)

  datatype ParserOptions = ParserOptions(propFilter: Option<PropFilter>)

  /** A configured documentation parser. */
  datatype Parser = Parser(mode: ParserMode, options: ParserOptions)

  /** The errors `processResource` lets through to the bundler. */
  datatype LoaderError =
    | InvalidOptions
    | ConfigParseError(message: string)
    | ReadFileError(path: string)

  /**
   * The foreign functions configuration resolution relies on: `path.dirname`,
   * reading and parsing a tsconfig file relative to a base directory (which
   * may fail), and `ts.parseJsonConfigFileContent({}, ts.sys, basePath, {})`.
   */
  datatype ConfigHost = ConfigHost(
    dirname: string -> string,
    parseConfigFile: (string, string) -> Result<ParsedConfig, string>,
    parseDefaultConfig: string -> ParsedConfig)

  /** `getTSConfigFile`: the file is parsed relative to its own directory. */
  function GetTSConfigFile(tsconfigPath: string, host: ConfigHost): Result<ParsedConfig, string>
  {
    host.parseConfigFile(tsconfigPath, host.dirname(tsconfigPath))
  }

  /** `getDefaultTSConfigFile`: an empty configuration discovered at the base directory. */
  function DefaultTSConfigFile(basePath: string, host: ConfigHost): ParsedConfig
  {
    host.parseDefaultConfig(basePath)
  }

  /** The configuration one invocation runs with. */
  datatype Resolution = Resolution(mode: ParserMode, compilerOptions: CompilerOptions, filesToLoad: seq<string>)

  /**
   * Configuration precedence. A truthy `tsconfigPath` wins: custom-config
   * mode, the parsed file's options and file list, and a parse failure is the
   * only way resolution fails. Otherwise the project files come from default
   * discovery at the directory of `contextPath`, and the options are the
   * inline `compilerOptions` when given, else the built-in defaults;
   * discovery never contributes options.
   */
  function Resolve(o: LoaderOptions, contextPath: string, host: ConfigHost): (r: Result<Resolution, LoaderError>)
    ensures Truthy(o.tsconfigPath) ==>
      var parsed := GetTSConfigFile(o.tsconfigPath.value, host);
      (r.Success? <==> parsed.Success?) &&
      (r.Failure? ==> r.error == ConfigParseError(parsed.error)) &&
      (r.Success? ==> r.value == Resolution(CustomConfig(o.tsconfigPath.value), parsed.value.options, parsed.value.fileNames))
    ensures !Truthy(o.tsconfigPath) ==>
      r.Success? && r.value.filesToLoad == DefaultTSConfigFile(host.dirname(contextPath), host).fileNames
    ensures !Truthy(o.tsconfigPath) && o.compilerOptions.Some? ==>
      r.Success? && r.value.mode == WithCompilerOptions(o.compilerOptions.value) &&
      r.value.compilerOptions == o.compilerOptions.value
    ensures !Truthy(o.tsconfigPath) && o.compilerOptions.None? ==>
      r.Success? && r.value.mode == DefaultConfig && r.value.compilerOptions == DEFAULT_COMPILER_OPTIONS
  {
    if Truthy(o.tsconfigPath) then
      match GetTSConfigFile(o.tsconfigPath.value, host)
      case Failure(e) => Failure(ConfigParseError(e))
      case Success(cfg) => Success(Resolution(CustomConfig(o.tsconfigPath.value), cfg.options, cfg.fileNames))
    else
      var discovered := DefaultTSConfigFile(host.dirname(contextPath), host);
      match o.compilerOptions
      case Some(co) => Success(Resolution(WithCompilerOptions(co), co, discovered.fileNames))
      case None => Success(Resolution(DefaultConfig, DEFAULT_COMPILER_OPTIONS, discovered.fileNames))
  }

  /**
   * The parser and the language service agree: whatever mode resolution
   * picks, the compiler options handed to the service are the ones that mode
   * stands for.
   */
  lemma ModeMatchesCompilerOptions(o: LoaderOptions, contextPath: string, host: ConfigHost)
    ensures var r := Resolve(o, contextPath, host);
      r.Success? ==>
        match r.value.mode
        case DefaultConfig => r.value.compilerOptions == DEFAULT_COMPILER_OPTIONS
        case WithCompilerOptions(co) => r.value.compilerOptions == co && o.compilerOptions == Some(co)
        case CustomConfig(p) =>
          o.tsconfigPath == Some(p) && GetTSConfigFile(p, host).Success? &&
          r.value.compilerOptions == GetTSConfigFile(p, host).value.options
  {
  }

  /**
   * Default discovery runs if and only if `tsconfigPath` is falsy: with it,
   * resolution does not depend on discovery at all; without it, the files
   * to load are exactly the discovered ones.
   */
  lemma DiscoveryOnlyWithoutTsconfig(o: LoaderOptions, contextPath: string, host: ConfigHost, discover: string -> ParsedConfig)
    ensures Truthy(o.tsconfigPath) ==>
      Resolve(o, contextPath, host.(parseDefaultConfig := discover)) == Resolve(o, contextPath, host)
    ensures !Truthy(o.tsconfigPath) ==>
      Resolve(o, contextPath, host.(parseDefaultConfig := discover)).value.filesToLoad ==
      discover(host.dirname(contextPath)).fileNames
  {
  }
}
