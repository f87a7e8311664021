/**
 * The TypeScript side of the loader: compiler options, parsed configuration
 * files, and the process-wide language service that src/loader.ts creates
 * lazily and then keeps for the rest of the process.
 */
module LanguageService {
  import opened Wrappers

  /** `ts.CompilerOptions`, kept opaque: each setting's name and its value as JSON text. */
  datatype CompilerOptions = CompilerOptions(settings: map<string, string>)

  /** The options used when neither a tsconfig path nor inline compiler options are given. */
  const DEFAULT_COMPILER_OPTIONS := CompilerOptions(map[
    "allowJs" := "true",
    "esModuleInterop" := "true",
    "allowSyntheticDefaultImports" := "true"
  ])

  /** `ts.ParsedCommandLine`: the options and the file list a configuration resolves to. */
  datatype ParsedConfig = ParsedConfig(options: CompilerOptions, fileNames: seq<string>)

  /**
   * A language service, as an opaque token: it records the compiler options
   * its host was created with (`getCompilationSettings`).
   */
  datatype Service = Service(settings: CompilerOptions)

  /** The program view `getProgram()` returns, identified by the service that holds it. */
  datatype Program = Program(service: Service)

  /** The slot after a request, the service that answered it, and whether it was built now. */
  datatype Provision = Provision(slot: Option<Service>, service: Service, built: bool)

  /**
   * The program provider: the existing service answers whatever options the
   * caller brings; only an empty slot makes a new service, built with the
   * caller's options, which then stays in the slot.
   */
  function Provide(slot: Option<Service>, compilerOptions: CompilerOptions): (p: Provision)
    ensures p.slot == Some(p.service)
    ensures p.built <==> slot.None?
    ensures slot.Some? ==> p.service == slot.value
    ensures slot.None? ==> p.service.settings == compilerOptions
  {
    match slot
    case Some(s) => Provision(slot, s, false)
    case None => Provision(Some(Service(compilerOptions)), Service(compilerOptions), true)
  }

  /** The slot after a series of requests, the services that answered them, and the number built. */
  datatype Provisions = Provisions(slot: Option<Service>, served: seq<Service>, builds: nat)

  /** A series of provider calls, one per request, in order. */
  function ProvideAll(slot: Option<Service>, requests: seq<CompilerOptions>): Provisions
    decreases |requests|
  {
    if requests == [] then Provisions(slot, [], 0)
    else
      var p := Provide(slot, requests[0]);
      var rest := ProvideAll(p.slot, requests[1..]);
      Provisions(rest.slot, [p.service] + rest.served, rest.builds + (if p.built then 1 else 0))
  }

  /**
   * However many requests come, and with whatever options, a service is
   * built at most once: with the options of the first request when the slot
   * starts empty, never when it is full; and every request is answered by
   * that one service.
   */
  lemma {:induction false} ProvideAllSingleton(slot: Option<Service>, requests: seq<CompilerOptions>)
    requires |requests| > 0
    ensures var r := ProvideAll(slot, requests);
      var first := if slot.Some? then slot.value else Service(requests[0]);
      r.builds == (if slot.None? then 1 else 0) &&
      r.slot == Some(first) &&
      |r.served| == |requests| &&
      forall i :: 0 <= i < |r.served| ==> r.served[i] == first
    decreases |requests|
  {
    var p := Provide(slot, requests[0]);
    if |requests| > 1 {
      ProvideAllSingleton(p.slot, requests[1..]);
    }
  }
}
