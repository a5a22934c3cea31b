/**
 * Values shared by every stage of the grunt-ts Visual Studio options
 * resolver: optional values, the JavaScript values an options object holds,
 * compilation tasks, and the host services (Node's path module and the
 * task's utility helpers) that the resolver calls but does not define.
 */
module Common {

  datatype Option<T> = None | Some(value: T) {
    /** The value, or `default` when there is none. */
    function GetOr(default: T): T {
      if Some? then value else default
    }
  }

  /** A JavaScript value held under an option key or read from a project's settings. */
  datatype JsValue = Undefined | Null | Bool(b: bool) | Num(n: int) | Str(s: string)

  /** A possibly undefined string, as a JavaScript value. */
  function FromOptional(o: Option<string>): JsValue {
    if o.Some? then Str(o.value) else Undefined
  }

  /** JavaScript truthiness of a possibly undefined string: defined and not empty. */
  predicate Truthy(o: Option<string>) {
    o.Some? && o.value != ""
  }

  /** One compilation task of a target: its source list and its optional output file and directory. */
  datatype CompilationTask = CompilationTask(src: seq<string>, out: Option<string>, outDir: Option<string>)

  /** The task `{src: []}` created for a target that has none. */
  const EmptyTask := CompilationTask([], None, None)

  /**
   * The services the resolver calls without defining them. The first six
   * stand for Node's path module: `cwd` is `path.resolve('.')`, `resolve`,
   * `join`, `normalize` and `relative` are the functions of that name, and
   * `toSlashes` replaces every `path.sep` by '/'. `hasValue` and `escape`
   * stand for the helpers `utils.hasValue` and `utils.escapePathIfRequired`.
   */
  datatype Host = Host(
    cwd: string,
    resolve: (string, string) -> string,
    join: (string, string) -> string,
    normalize: string -> string,
    relative: (string, string) -> string,
    toSlashes: string -> string,
    hasValue: JsValue -> bool,
    escape: string -> string)
  {
    /** `utils.hasValue` says no to `undefined` and `null`, whatever else it decides. */
    predicate Sound() {
      !hasValue(Undefined) && !hasValue(Null)
    }

    /** `path.resolve(projectFileName, '..')`: the absolute folder that holds the project file. */
    function ProjectFolder(projectFileName: string): string {
      resolve(projectFileName, "..")
    }
  }
}
