/**
 * applyVSSettings: the project's settings become compiler options. Eleven
 * settings and the module kind only fill option keys that are absent; the
 * project's output directory and output file overwrite every compilation
 * task's `outDir` and `out`, whatever those held.
 */
module SettingsMapper {
  import opened Common

  /**
   * What the project-file parser reports about a project. OutDir and OutFile
   * are the fields `outDir` and `outFile`; `values` holds every other setting,
   * and the resolver never reads "OutDir" or "OutFile" from it.
   */
  datatype VsSettings = VsSettings(
    files: seq<string>,
    projectFileName: string,
    values: map<string, JsValue>,
    outDir: Option<string>,
    outFile: Option<string>)

  /** `vsSettings[key]`: undefined when the parser reported no such setting. */
  function Setting(s: VsSettings, key: string): JsValue {
    if key in s.values then s.values[key] else Undefined
  }

  /** A project setting name and the compiler option key it feeds. */
  type Mapping = (string, string)

  const SimpleMappings: seq<Mapping> := [
    ("GeneratesDeclarations", "declaration"),
    ("NoEmitOnError", "noEmitOnError"),
    ("MapRoot", "mapRoot"),
    ("NoImplicitAny", "noImplicitAny"),
    ("NoResolve", "noResolve"),
    ("PreserveConstEnums", "preserveConstEnums"),
    ("RemoveComments", "removeComments"),
    ("SourceMap", "sourceMap"),
    ("SourceRoot", "sourceRoot"),
    ("SuppressImplicitAnyIndexErrors", "suppressImplicitAnyIndexErrors"),
    ("Target", "target")
  ]

  const ModuleKindSetting := "ModuleKind"
  const ModuleKey := "module"

  /** Some entry of `table` writes `key`. */
  predicate Writes(table: seq<Mapping>, key: string) {
    exists i :: 0 <= i < |table| && table[i].1 == key
  }

  /** No two entries of the table write the same option key. */
  predicate DistinctKeys(table: seq<Mapping>) {
    forall i, j :: 0 <= i < j < |table| ==> table[i].1 != table[j].1
  }

  /** One turn of the `for..in` loop over the table. */
  function FillOne(options: map<string, JsValue>, s: VsSettings, hasValue: JsValue -> bool, m: Mapping): map<string, JsValue> {
    if m.1 !in options && hasValue(Setting(s, m.0)) then options[m.1 := Setting(s, m.0)] else options
  }

  /** The `for..in` loop over the entries of `table`, in order. */
  function FillSimple(options: map<string, JsValue>, s: VsSettings, hasValue: JsValue -> bool, table: seq<Mapping>): map<string, JsValue>
    decreases |table|
  {
    if table == [] then options
    else FillOne(FillSimple(options, s, hasValue, table[..|table| - 1]), s, hasValue, table[|table| - 1])
  }

  /**
   * What the loop does to one key: a present key keeps its value; an absent
   * key that the table does not write stays absent; an absent key that the
   * table writes is added, with the project's value, exactly when that value
   * passes `hasValue`.
   */
  lemma {:induction false} FillSimpleAt(options: map<string, JsValue>, s: VsSettings, hasValue: JsValue -> bool, table: seq<Mapping>, key: string)
    requires DistinctKeys(table)
    ensures key in options ==>
              key in FillSimple(options, s, hasValue, table) && FillSimple(options, s, hasValue, table)[key] == options[key]
    ensures key !in options && !Writes(table, key) ==> key !in FillSimple(options, s, hasValue, table)
    ensures forall i :: 0 <= i < |table| && table[i].1 == key && key !in options ==>
              && (key in FillSimple(options, s, hasValue, table) <==> hasValue(Setting(s, table[i].0)))
              && (key in FillSimple(options, s, hasValue, table) ==> FillSimple(options, s, hasValue, table)[key] == Setting(s, table[i].0))
  {
    if table != [] {
      var n := |table| - 1;
      var init := table[..n];
      assert DistinctKeys(init);
      FillSimpleAt(options, s, hasValue, init, key);
      var m := FillSimple(options, s, hasValue, init);
      assert FillSimple(options, s, hasValue, table) == FillOne(m, s, hasValue, table[n]);
      forall i | 0 <= i < |table| && table[i].1 == key && key !in options
        ensures && (key in FillSimple(options, s, hasValue, table) <==> hasValue(Setting(s, table[i].0)))
                && (key in FillSimple(options, s, hasValue, table) ==> FillSimple(options, s, hasValue, table)[key] == Setting(s, table[i].0))
      {
        if i == n {
          assert forall k :: 0 <= k < n ==> init[k].1 != key;
        } else {
          assert init[i] == table[i];
        }
      }
    }
  }

  /** The facts of FillSimpleAt for every key and every entry of the fixed table. */
  lemma FillSimpleTable(options: map<string, JsValue>, s: VsSettings, hasValue: JsValue -> bool)
    ensures forall key :: key in options ==>
              key in FillSimple(options, s, hasValue, SimpleMappings) && FillSimple(options, s, hasValue, SimpleMappings)[key] == options[key]
    ensures forall key :: key !in options && !Writes(SimpleMappings, key) ==> key !in FillSimple(options, s, hasValue, SimpleMappings)
    ensures forall i :: 0 <= i < |SimpleMappings| && SimpleMappings[i].1 !in options ==>
              && (SimpleMappings[i].1 in FillSimple(options, s, hasValue, SimpleMappings) <==> hasValue(Setting(s, SimpleMappings[i].0)))
              && (SimpleMappings[i].1 in FillSimple(options, s, hasValue, SimpleMappings) ==>
                    FillSimple(options, s, hasValue, SimpleMappings)[SimpleMappings[i].1] == Setting(s, SimpleMappings[i].0))
  {
    assert DistinctKeys(SimpleMappings);
    forall key | key in options
      ensures key in FillSimple(options, s, hasValue, SimpleMappings)
      ensures FillSimple(options, s, hasValue, SimpleMappings)[key] == options[key]
    {
      FillSimpleAt(options, s, hasValue, SimpleMappings, key);
    }
    forall key | key !in options && !Writes(SimpleMappings, key)
      ensures key !in FillSimple(options, s, hasValue, SimpleMappings)
    {
      FillSimpleAt(options, s, hasValue, SimpleMappings, key);
    }
    forall i | 0 <= i < |SimpleMappings| && SimpleMappings[i].1 !in options {
      FillSimpleAt(options, s, hasValue, SimpleMappings, SimpleMappings[i].1);
    }
  }

  /** The module kind: set when `module` is absent and the project's value passes `hasValue`; "none" leaves it undefined. */
  function FillModule(options: map<string, JsValue>, s: VsSettings, hasValue: JsValue -> bool): map<string, JsValue> {
    if ModuleKey !in options && hasValue(Setting(s, ModuleKindSetting)) then
      var kind := Setting(s, ModuleKindSetting);
      options[ModuleKey := if kind == Str("none") then Undefined else kind]
    else
      options
  }

  /**
   * The option keys after the eleven settings and the module kind are
   * applied: a key the user set keeps its value; no key outside the table and
   * `module` appears; a table key the user left unset takes the project's
   * value exactly when that value passes `hasValue`; `module` likewise, except
   * that a module kind "none" leaves `module` present but undefined.
   */
  function FillSettings(options: map<string, JsValue>, s: VsSettings, hasValue: JsValue -> bool): (r: map<string, JsValue>)
    ensures forall key :: key in options ==> key in r && r[key] == options[key]
    ensures forall key :: key !in options && !Writes(SimpleMappings, key) && key != ModuleKey ==> key !in r
    ensures forall i :: 0 <= i < |SimpleMappings| && SimpleMappings[i].1 !in options ==>
              && (SimpleMappings[i].1 in r <==> hasValue(Setting(s, SimpleMappings[i].0)))
              && (SimpleMappings[i].1 in r ==> r[SimpleMappings[i].1] == Setting(s, SimpleMappings[i].0))
    ensures ModuleKey !in options ==>
              && (ModuleKey in r <==> hasValue(Setting(s, ModuleKindSetting)))
              && (ModuleKey in r && Setting(s, ModuleKindSetting) == Str("none") ==> r[ModuleKey] == Undefined)
              && (ModuleKey in r && Setting(s, ModuleKindSetting) != Str("none") ==> r[ModuleKey] == Setting(s, ModuleKindSetting))
  {
    FillSimpleTable(options, s, hasValue);
    assert !Writes(SimpleMappings, ModuleKey);
    FillModule(FillSimple(options, s, hasValue, SimpleMappings), s, hasValue)
  }

  /** The guard of the OutDir loop: a value that passes `hasValue` and is not ''. */
  predicate OutDirGiven(s: VsSettings, host: Host) {
    host.hasValue(FromOptional(s.outDir)) && s.outDir != Some("")
  }

  /** The guard of the OutFile loop. */
  predicate OutFileGiven(s: VsSettings, host: Host) {
    host.hasValue(FromOptional(s.outFile)) && s.outFile != Some("")
  }

  /** A path given relative to the project's folder, as seen from the build root, with '/' separators, escaped. */
  function OutputPath(s: VsSettings, host: Host, p: string): string {
    host.escape(host.toSlashes(host.relative(host.cwd, host.resolve(host.ProjectFolder(s.projectFileName), p))))
  }

  /**
   * One compilation task after the OutDir and OutFile loops: when given, the
   * project's output directory and file replace the task's, whatever it held
   * before; the source list never changes.
   */
  function ApplyProjectOutputs(t: CompilationTask, s: VsSettings, host: Host): (r: CompilationTask)
    requires host.Sound()
    ensures r.src == t.src
    ensures OutDirGiven(s, host) ==> r.outDir.Some? && r.outDir.value == OutputPath(s, host, s.outDir.value)
    ensures !OutDirGiven(s, host) ==> r.outDir == t.outDir
    ensures OutFileGiven(s, host) ==> r.out.Some? && r.out.value == OutputPath(s, host, s.outFile.value)
    ensures !OutFileGiven(s, host) ==> r.out == t.out
  {
    var withDir := if OutDirGiven(s, host) then t.(outDir := Some(OutputPath(s, host, s.outDir.value))) else t;
    if OutFileGiven(s, host) then withDir.(out := Some(OutputPath(s, host, s.outFile.value))) else withDir
  }

  /** Every compilation task after the OutDir and OutFile loops. */
  function WithProjectOutputs(tasks: seq<CompilationTask>, s: VsSettings, host: Host): (r: seq<CompilationTask>)
    requires host.Sound()
    ensures |r| == |tasks|
    ensures forall i :: 0 <= i < |r| ==> r[i] == ApplyProjectOutputs(tasks[i], s, host)
  {
    seq(|tasks|, i requires 0 <= i < |tasks| => ApplyProjectOutputs(tasks[i], s, host))
  }

  /**
   * The overwrite ignores what a task held: two tasks with the same source
   * list are alike afterwards when the project gives both an output
   * directory and an output file.
   */
  lemma OutputsIgnorePriorValues(t1: CompilationTask, t2: CompilationTask, s: VsSettings, host: Host)
    requires host.Sound() && t1.src == t2.src
    requires OutDirGiven(s, host) && OutFileGiven(s, host)
    ensures ApplyProjectOutputs(t1, s, host) == ApplyProjectOutputs(t2, s, host)
  {
  }
}
