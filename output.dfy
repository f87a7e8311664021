/**
 * What the loader hands back to the bundler: the exported module value, its
 * serialised module source, and how success and failure reach the bundler
 * in synchronous and asynchronous mode.
 */
module Output {
  import opened Wrappers
  import opened Options

  /** A component's documentation as the parser reports it (opaque here). */
  datatype ComponentDoc = ComponentDoc(displayName: string, description: string, props: map<string, string>)

  /** The exported object: `{ componentDocs }` or `{}`. */
  datatype ModuleValue = WithDocs(componentDocs: seq<ComponentDoc>) | NoDocs

  /** The documentation a module value carries. */
  function DocsOf(v: ModuleValue): seq<ComponentDoc>
  {
    match v
    case WithDocs(d) => d
    case NoDocs => []
  }

  /**
   * The object `processResource` returns: `{ componentDocs }` exactly when
   * documentation was found, and the documentation is carried unchanged.
   */
  function ShapeOutput(componentDocs: seq<ComponentDoc>): (v: ModuleValue)
    ensures v.WithDocs? <==> |componentDocs| > 0
    ensures DocsOf(v) == componentDocs
  {
    if |componentDocs| > 0 then WithDocs(componentDocs) else NoDocs
  }

  const EXPORT_PREFIX := "module.exports = "

  /**
   * `JSON.stringify` of the module value, given the serialisation of the
   * documentation array: `{}` or `{"componentDocs":...}`.
   */
  function Serialize(v: ModuleValue, docsJson: seq<ComponentDoc> -> string): (s: string)
    ensures |s| >= 2 && s[0] == '{' && s[|s| - 1] == '}'
    ensures s == "{}" <==> v.NoDocs?
  {
    match v
    case NoDocs => "{}"
    case WithDocs(d) => "{\"componentDocs\":" + docsJson(d) + "}"
  }

  /** The generated module source: the serialised value assigned to `module.exports`. */
  function ModuleSource(v: ModuleValue, docsJson: seq<ComponentDoc> -> string): (s: string)
    ensures |s| > |EXPORT_PREFIX| && s[..|EXPORT_PREFIX|] == EXPORT_PREFIX
    ensures v.NoDocs? ==> s == "module.exports = {}"
  {
    EXPORT_PREFIX + Serialize(v, docsJson)
  }

  /**
   * The source determines the module value, as long as distinct
   * documentation arrays serialise differently.
   */
  lemma ModuleSourceInjective(v: ModuleValue, w: ModuleValue, docsJson: seq<ComponentDoc> -> string)
    requires forall a, b :: docsJson(a) == docsJson(b) ==> a == b
    requires ModuleSource(v, docsJson) == ModuleSource(w, docsJson)
    ensures v == w
  {
    var n := |EXPORT_PREFIX|;
    var sv, sw := Serialize(v, docsJson), Serialize(w, docsJson);
    assert ModuleSource(v, docsJson)[n..] == sv && ModuleSource(w, docsJson)[n..] == sw;
    var open := "{\"componentDocs\":";
    if v.WithDocs? && w.WithDocs? {
      var jv, jw := docsJson(v.componentDocs), docsJson(w.componentDocs);
      assert sv == open + jv + "}" && sw == open + jw + "}";
      assert |jv| == |jw|;
      assert jv == sv[|open|..|sv| - 1];
      assert jw == sw[|open|..|sw| - 1];
    }
  }

  /** How one loader call ends, as the bundler sees it. */
  datatype Completion =
    | Returned(value: ModuleValue)
    | Threw(error: LoaderError)
    | CalledBack(err: Option<LoaderError>, source: Option<string>)

  /**
   * `loader`: with a callback (asynchronous mode) success is reported as
   * `callback(null, source)` and failure as `callback(error)`; without one the
   * value is returned and the error re-thrown. Either way exactly one of
   * value and error reaches the bundler, and it is the one processing produced.
   */
  function Complete(callback: bool, outcome: Result<ModuleValue, LoaderError>, docsJson: seq<ComponentDoc> -> string): (c: Completion)
    ensures callback <==> c.CalledBack?
    ensures !callback ==> (c.Returned? <==> outcome.Success?)
    ensures !callback && outcome.Success? ==> c.value == outcome.value
    ensures !callback && outcome.Failure? ==> c == Threw(outcome.error)
    ensures callback ==> (c.err.None? <==> c.source.Some?) && (c.err.None? <==> outcome.Success?)
    ensures callback && outcome.Failure? ==> c.err == Some(outcome.error)
    ensures callback && outcome.Success? ==> c.source == Some(ModuleSource(outcome.value, docsJson))
  {
    match outcome
    case Success(v) => if callback then CalledBack(None, Some(ModuleSource(v, docsJson))) else Returned(v)
    case Failure(e) => if callback then CalledBack(Some(e), None) else Threw(e)
  }
}
