# component-metadata-ts-loader — a Dafny model of the loader core

The loader is a webpack loader that extracts component documentation from
TypeScript sources with react-docgen-typescript and exports it as a module.
This project models what `src/loader.ts` itself decides, on top of the foreign
code it calls:

- the process-wide **snapshot table** `files` (a JavaScript `Map` from file
  path to `{text, version}`; the path is passed through `path.normalize` when
  `loadFiles` stores it, and taken as the compiler names it when
  `getScriptSnapshot` does), filled eagerly by `loadFiles` and
  lazily by the language-service host's `getScriptSnapshot`, and read by
  `getScriptFileNames` and `getScriptVersion`;
- the process-wide **language service**, created once by the program
  provider with the compiler options of the first call that needs it, and
  reused forever after;
- **option and configuration resolution** in `processResource`: defaulting
  of `docgenCollectionName` and `setDisplayName`, the `propFilter` handed to
  the parser, and the precedence `tsconfigPath` > `compilerOptions` > built-in
  defaults, with default discovery and preloading whenever `tsconfigPath` is
  falsy;
- **output and error shaping**: `{componentDocs}` or `{}`, returned in
  synchronous mode or passed to the callback as `module.exports = …` in
  asynchronous mode, with errors thrown or passed to the callback.

Layout, one module per file:

- `wrappers.dfy` — `Option` and `Result`.
- `snapshots.dfy` — `TSFile`, the table as a value (`Table`: keys in insertion
  order plus entries, so `[...files.keys()]` keeps its order), `Put`
  (`Map.set`), `LoadAll` (the specification of `loadFiles`), `Lookup` (that of
  `getScriptSnapshot`), `LookupAll` (a series of such lookups, as the
  compiler makes while building a program), and the version's decimal string.
- `language_service.dfy` — compiler options, parsed configurations, the
  language service as an opaque token recording its options, and the
  provider's create-once rule (`Provide`, `ProvideAll`).
- `options.dfy` — the loader options, defaulting, the prop filter, and
  configuration precedence (`Resolve`).
- `output.dfy` — the exported value, its module source, and `Complete`, the
  synchronous/asynchronous reporting of `loader`.
- `loader.dfy` — `Process`, one `processResource` call as a function of the
  module state, lemmas about it, and the class `LoaderState` holding the
  module-level variables, whose methods are the imperative code proved
  against those functions.

Foreign code enters as parameters. The disk is a `map<string, string>`:
membership stands for `fs.existsSync`, lookup for `fs.readFileSync`.
`path.normalize` and `path.dirname` are arbitrary functions (normalization is
not assumed idempotent). The tsconfig reader/parser, default discovery
(`ts.parseJsonConfigFileContent({}, …)`), `validateOptions` and the
documentation parser are fields of a `Toolchain` record. `JSON.stringify` of
the documentation array is a `docsJson` parameter. The file names the
compiler asks the host for while it builds a program are a `requested`
parameter of each call: the model answers them, in order, through
`getScriptSnapshot`. The functions `LoadAll`,
`ProvideAll`, `GetTSConfigFile`, `DefaultTSConfigFile`, `LoadThenServe` and
`DocsOf` have no contract of their own. `LoadThenServe` is the table after a
batch is loaded and the program's requests are answered; the lemmas
`DiscoveryPreloadsWithoutTsconfig` and `TsconfigSkipsDiscovery` use it.
`LoadAll` (src/loader.ts:164-173) is described by the `LoadAll…` lemmas in the table below. `ProvideAll` is described by
`ProvideAllSingleton`. `GetTSConfigFile` (src/loader.ts:148-158) and
`DefaultTSConfigFile` (src/loader.ts:160-162) only hand their arguments to
the foreign configuration parsers. They are described through
`Resolve`.

Three facts about the code shape the model:

- With inline `compilerOptions` and no `tsconfigPath`, the discovered project
  files are still preloaded. src/loader.ts:107-113 runs default discovery and
  `loadFiles` whenever `tsconfigPath` is falsy.
  `DiscoveryPreloadsWithoutTsconfig` states it.
- Snapshot versions are always 0. Both places that create an entry store
  version 0 (src/loader.ts:170, 197), and nothing increments a version.
  `Consistent` is kept by every operation.
- Without `tsconfigPath`, only the discovered file list is used
  (src/loader.ts:109-112). The compiler options are the inline ones or the
  built-in defaults, never the discovered ones.

## Model

| member | source | states |
|---|---|---|
| Snapshots.Put | src/loader.ts:168-171 | `Map.set`: the key maps to the new entry, other keys and entries are unchanged, existing keys keep their iteration position, and an existing key adds no second entry |
| Snapshots.LoadAllInvariant | src/loader.ts:164-173 | loading keeps the table well formed and every entry loaded with version 0, and never reorders existing keys |
| Snapshots.LoadAllFailure | src/loader.ts:164-173 | a batch fails exactly when some normalized path is not on disk. It then names the first such path, and leaves exactly the table that loading the paths before it gives |
| Snapshots.LoadAllFirstMissing | src/loader.ts:166-171 | a batch fails exactly when some normalized path is not on disk, and then it names the first such path |
| Snapshots.LoadAllStopsAt | src/loader.ts:166-171 | a batch whose first missing path is at position `i` reports that path and keeps what the paths before `i` stored |
| Snapshots.LoadAllFrame | src/loader.ts:164-173 | a key no path of the batch normalizes to keeps its presence and its entry, whether or not the batch fails |
| Snapshots.LoadAllKeepsFresh | src/loader.ts:168-171 | an entry already holding the disk's text with version 0 is left as it is by further loading |
| Snapshots.LoadAllStores | src/loader.ts:166-172 | after a successful batch every `normalize(p)` maps to `{text: disk[normalize(p)], version: 0}` |
| Snapshots.LoadAllKeys | src/loader.ts:164-173 | after a successful batch the key set is the old keys plus the batch's normalized paths: re-loading overwrites, never duplicates |
| Snapshots.LoadAllUnchanged | src/loader.ts:164-173 | a batch whose entries are all already stored with the disk's text leaves the table as it is |
| Snapshots.LoadAllIdempotent | src/loader.ts:164-173 | loading the same batch twice from the same disk equals loading it once, whether the batch succeeds or stops at a missing file |
| Snapshots.Lookup | src/loader.ts:187-202 | a snapshot is returned exactly when the file is on disk; a missing file leaves the table unchanged; a tracked file returns its stored text without re-reading; an untracked file is registered with version 0 and its disk text is returned |
| Snapshots.LookupStable | src/loader.ts:192-201 | first read wins: a repeated lookup returns the same text and changes nothing even if the disk changed, and returns absent only if the file is gone |
| Snapshots.LookupAll | src/loader.ts:187-202 | a series of snapshot requests keeps the table consistent and never reorders the keys already tracked |
| Snapshots.LookupAllKeeps | src/loader.ts:192-201 | a snapshot request never changes or drops an entry that is already stored, so files preloaded by `loadFiles` keep their text through `getProgram` |
| Snapshots.LookupAllFills | src/loader.ts:194-198 | a requested file that was untracked and exists on disk ends up stored with its disk text and version 0 |
| Snapshots.LookupAllTracks | src/loader.ts:188-199 | after a series of requests the table tracks exactly the files it tracked before plus every requested file that exists on disk |
| Snapshots.DigitChar | src/loader.ts:185 | the character of a decimal digit denotes that digit |
| Snapshots.NatToString | src/loader.ts:185 | `version.toString()`: a non-empty digit string with no leading zero |
| Snapshots.NatToStringRoundTrip | src/loader.ts:185 | the version string denotes the version |
| LanguageService.Provide | src/loader.ts:117-130 | the existing service answers whatever options are given; only an empty slot builds one, with the caller's options, which then stays |
| LanguageService.ProvideAllSingleton | src/loader.ts:117-130 | over any series of requests a service is built at most once, with the first request's options if the slot started empty, and every request is answered by that service |
| Options.WithDefaults | src/loader.ts:64-68 | a falsy collection name becomes "STORYBOOK_REACT_CLASSES", a truthy one is kept, a non-boolean `setDisplayName` becomes `true`, a boolean one is kept, and every other field is unchanged |
| Options.WithDefaultsIdempotent | src/loader.ts:64-68 | defaulting twice is defaulting once |
| Options.PropFilterFor | src/loader.ts:73-81 | if either skip option is truthy, a static filter holding exactly the truthy skip options; otherwise the user's `propFilter` |
| Options.PropFilterPrecedence | src/loader.ts:74-80 | when either skip option is truthy the user's `propFilter` is ignored, and the built filter carries no falsy skip |
| Options.Resolve | src/loader.ts:85-113 | a truthy `tsconfigPath` gives custom-config mode with the parsed file's options and files, and is the only way to fail; otherwise inline `compilerOptions`, else the defaults, with the discovered file list |
| Options.ModeMatchesCompilerOptions | src/loader.ts:85-105 | the parser mode and the compiler options given to the service always come from the same source |
| Options.DiscoveryOnlyWithoutTsconfig | src/loader.ts:107-113 | default discovery affects resolution if and only if `tsconfigPath` is falsy |
| Output.ShapeOutput | src/loader.ts:133-145 | the result is `{componentDocs}` exactly when docs were found, and it carries them unchanged |
| Output.ModuleSource | src/loader.ts:42 | the source starts with `module.exports = `, and is `module.exports = {}` when no docs were found |
| Output.Serialize | src/loader.ts:42 | the serialised value is a JSON object literal, and it is `{}` exactly when no docs were found |
| Output.ModuleSourceInjective | src/loader.ts:42 | the generated source determines the exported value |
| Output.Complete | src/loader.ts:35-50 | async mode reports through the callback, `(null, source)` on success and `(error)` on failure; sync mode returns the value or re-throws the error |
| TsLoader.Process | src/loader.ts:53-146 | one `processResource` call keeps the table consistent and its key order; an existing service is kept; a failure leaves the service as it was; a success leaves a service in place |
| TsLoader.InvalidOptionsChangeNothing | src/loader.ts:61-62 | options that fail validation raise before any file is read and leave the state unchanged |
| TsLoader.FirstCallBuildsTheService | src/loader.ts:117-130 | the first successful call builds the service with its own resolved options, and the next call reuses it whatever its options |
| TsLoader.DiscoveryPreloadsWithoutTsconfig | src/loader.ts:102-130 | with a falsy `tsconfigPath`, with or without inline `compilerOptions`: if a discovered file is missing from disk the call fails with that path and the table loading left; otherwise it succeeds with the discovered list loaded and then the program's snapshot requests answered, and every discovered file stays registered with its disk text |
| TsLoader.TsconfigSkipsDiscovery | src/loader.ts:94-130 | with `tsconfigPath`, discovery plays no part; a file that does not parse fails the call with its error and leaves the state unchanged; otherwise a missing listed file fails the call with the table loading left, and a complete load succeeds with the parsed list loaded and then the program's snapshot requests answered |
| TsLoader.NoDocsEmptyModule | src/loader.ts:42 | a file without documentation yields `module.exports = {}` in async mode |
| TsLoader.LoaderState.constructor | src/loader.ts:24-25 | the module starts with an empty table and no service |
| TsLoader.LoaderState.LoadFiles | src/loader.ts:164-173 | the `forEach` loop leaves exactly the table and failure that `LoadAll` gives, and leaves the service alone |
| TsLoader.LoaderState.GetScriptFileNames | src/loader.ts:180-182 | exactly the tracked keys, each once |
| TsLoader.LoaderState.GetScriptVersion | src/loader.ts:183-186 | `""` exactly for untracked files; for a tracked file the decimal string of its version, which is always `"0"` |
| TsLoader.LoaderState.GetScriptSnapshot | src/loader.ts:187-202 | the new table and the snapshot are those of `Lookup` |
| TsLoader.LoaderState.RequestSnapshots | src/loader.ts:187-202 | the snapshot requests `getProgram` makes, one `getScriptSnapshot` call each, leave exactly the table `LookupAll` gives, and the service alone |
| TsLoader.LoaderState.ProvideProgram | src/loader.ts:117-130 | the service slot and the program are those of `Provide`, and the table is the one the program's snapshot requests leave |
| TsLoader.LoaderState.ProcessResource | src/loader.ts:53-146 | the new state, the result and the mutated options object are those of `Process` |
| TsLoader.LoaderState.Loader | src/loader.ts:27-51 | the new state is that of `Process`, and the bundler sees `Complete` of its result |

## Left out

- Webpack integration is not modelled: `context.cacheable(true)`, `getOptions` from loader-utils (modelled as an optional options object, `{}` when absent) and `this.async()` (a `callback` flag).
- An error thrown by the asynchronous callback itself would be caught and reported to the callback a second time. This is not modelled, because the callback is bundler code.
- The TypeScript compiler is opaque. `ts.createLanguageService`, `getProgram`, `ScriptSnapshot` and `getDefaultLibFilePath` are not modelled. The host members `getCurrentDirectory`, `getDefaultLibFileName`, `fileExists`, `readFile` and `readDirectory` pass straight through to foreign code. Which files the compiler asks the host for during `getProgram` is its own decision. The model takes that list as the `requested` input of each call and answers it after the provider, in order.
- react-docgen-typescript is opaque. Its parse result is an arbitrary function of the configured parser, the file and the program. `withCustomConfig` reads the tsconfig on its own as well, and that read's failure is not modelled separately. Only `getTSConfigFile`'s failure is.
- The parser calls the program provider lazily, exactly once per parse. The model calls the provider once, just before extraction.
- `validateOptions` is an arbitrary predicate, because its schema is not part of this model. A non-boolean `setDisplayName` is modelled as absent.
- `JSON.stringify` of the documentation array is a parameter. Only the enclosing object's shape (`{}` or `{"componentDocs":…}`) is modelled.
- `path.normalize` is uninterpreted. So the property "normalizing an already normalized path gives the same key" is not modelled. The model proves instead that loading the same path twice leaves one entry.
- Snapshot versions are `nat`, not JavaScript numbers, because only 0 is ever stored. A tracked entry whose text is `undefined` cannot arise, and the `Consistent` invariant excludes it.
- TsLoader.Process: a throw from the documentation parser or from `getProgram` is not modelled, because both the parse result and the program are total here. In the source, such a throw reaches the catch at src/loader.ts:44 after the provider has already stored the language service (src/loader.ts:124). The clause "a failure leaves the service as it was" covers only the loader's own failures: validation, tsconfig parsing and `readFileSync`.
- Options.WithDefaults: loader-utils' `getOptions` returns the options object itself, not a copy. So the in-place defaulting at src/loader.ts:64-68 can carry over into later calls that get the same object. The model gives each call fresh options and drops the mutated object. `WithDefaultsIdempotent` is why this is harmless as long as validation accepts the defaulted fields.
- Concurrency is not modelled. The module-level state assumes one call at a time, and the model is sequential.
