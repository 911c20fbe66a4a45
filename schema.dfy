/**
 * The records exchanged with the compiler-exploration service (src/lib.rs:154-302),
 * reduced to the parts the client's own logic touches.
 */
module Schema {

  import opened Wrappers

  /** An abstract JSON value, standing for what serde_json hands to a deserializer. */
  datatype Json =
    | Null
    | Bool(b: bool)
    | Number(n: int)
    | Str(s: string)
    | Array(items: seq<Json>)
    | Object(members: map<string, Json>)

  /** A JSON object: its members by key. */
  type JsonObject = map<string, Json>

  /**
   * The extended attributes of a compiler (`AdditionalFields`, src/lib.rs:247-302).
   * `demangler`, `exe` and `nvdisasm` always hold a string; every other attribute is an
   * `Option` in the source and is kept here in `optional`, keyed by its wire name and
   * present exactly when the service sent a non-null value for it.
   */
  datatype AdditionalFields = AdditionalFields(
    demangler: string,
    exe: string,
    nvdisasm: string,
    optional: map<string, Json>)

  /** One compiler offered by the service (`Compiler`, src/lib.rs:234-245). */
  datatype Compiler = Compiler(
    compilerType: string,
    id: string,
    instructionSet: string,
    lang: string,
    name: string,
    semver: string,
    additionalFields: Option<AdditionalFields>)

  /** The compiler record without its extended attributes: the part the base schema decodes. */
  function Base(c: Compiler): Compiler
  {
    c.(additionalFields := None)
  }

  /** Which decode of a response body failed. */
  datatype Shape = CompilerList | AdditionalFieldsList

  /** The single failure value every operation reports (`Box<dyn Error>` in the source). */
  datatype Error = TransportError | DecodeError(shape: Shape)

  /** The nine output toggles of a compilation (`Filters`, src/lib.rs:188-200). */
  datatype Toggle = Binary | CommentOnly | Demangle | Directives | Execute | Intel | Labels | LibraryCode | Trim

  datatype Filters = Filters(
    binary: bool,
    commentOnly: bool,
    demangle: bool,
    directives: bool,
    execute: bool,
    intel: bool,
    labels: bool,
    libraryCode: bool,
    trim: bool)
  {
    /** Whether toggle `t` is switched on. */
    function Enabled(t: Toggle): bool
    {
      match t
      case Binary => binary
      case CommentOnly => commentOnly
      case Demangle => demangle
      case Directives => directives
      case Execute => execute
      case Intel => intel
      case Labels => labels
      case LibraryCode => libraryCode
      case Trim => trim
    }
  }

  /** Compiler arguments chosen by the caller, with the filters (`Options`, src/lib.rs:181-186). */
  datatype Options = Options(userArguments: string, filters: Filters)

  /** The body of a compile request (`Source`, src/lib.rs:175-179). */
  datatype Source = Source(source: string, options: Options)

  /** The toggles the default profile switches on; the other four are off. */
  const DefaultOn: set<Toggle> := {CommentOnly, Demangle, Directives, Intel, Labels}

  /** `Filters::default()` (src/lib.rs:202-206). */
  function DefaultFilters(): (f: Filters)
    ensures forall t: Toggle :: f.Enabled(t) <==> t in DefaultOn
  {
    Filters(binary := false, commentOnly := true, demangle := true, directives := true,
            execute := false, intel := true, labels := true, libraryCode := false, trim := false)
  }

  /** The user arguments `send_request` compiles with (src/lib.rs:125). */
  const DefaultUserArguments: string := "-O"

  /** The options `send_request` builds (src/lib.rs:124-125). */
  function DefaultOptions(): (o: Options)
    ensures o.userArguments == "-O"
    ensures forall t: Toggle :: o.filters.Enabled(t) <==> t in DefaultOn
  {
    Options(DefaultUserArguments, DefaultFilters())
  }
}
