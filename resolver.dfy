/**
 * resolveVSOptionsAsync on the options object of one grunt-ts target: the
 * merged descriptor is stored in the object, the project-file parser is
 * asked for the project's settings, and on success the files, the settings
 * and then the explicit `out`/`outDir` are applied to the object in place;
 * on failure one target-scoped message is recorded and the call rejects.
 */
module VisualStudioOptionsResolver {
  import opened Common
  import opened Descriptors
  import opened SettingsMapper
  import opened SourceFiles
  import opened OutputOverrides

  /** The error the project-file parser fails with. `text` is its string form. */
  datatype ProviderError = ProviderError(errno: int, path: string, text: string)

  /** What the parser's promise settles to; it is an input of the model. */
  datatype ProviderOutcome = Loaded(settings: VsSettings) | Failed(error: ProviderError)

  /** The arguments the parser is called with. */
  datatype ProviderRequest = ProviderRequest(projectFileName: Option<string>, activeConfiguration: Option<string>)

  /** The messages pushed onto `errors`, by the facts they carry rather than their wording. */
  datatype ErrorMessage =
    | ProjectNotFound(target: string, path: string)
    | ProviderFailure(target: string, errno: int, detail: string)

  /** How the promise returned by resolveVSOptionsAsync settles. */
  datatype Settlement = Resolved | Rejected(error: ProviderError)

  /** The errno the parser reports for a missing project file. */
  const NotFoundErrno := 34

  /**
   * The message for a failed parse: it always names the target; errno 34
   * gives the not-found message with the error's path, any other errno the
   * generic message with that errno and the error's text.
   */
  function ErrorFor(targetName: string, e: ProviderError): (m: ErrorMessage)
    ensures m.target == targetName
    ensures m.ProjectNotFound? <==> e.errno == NotFoundErrno
    ensures m.ProjectNotFound? ==> m.path == e.path
    ensures m.ProviderFailure? ==> m.errno == e.errno && m.detail == e.text
  {
    if e.errno == NotFoundErrno then ProjectNotFound(targetName, e.path)
    else ProviderFailure(targetName, e.errno, e.text)
  }

  /**
   * The request for the stored descriptor: its project, and its
   * configuration only when that is truthy. A string stored in `vs` has
   * neither property, so both arguments are undefined.
   */
  function RequestFor(vs: VsValue): (r: ProviderRequest)
    ensures vs.VsObject? ==> r.projectFileName == vs.fields.project
    ensures !vs.VsObject? ==> r.projectFileName.None?
    ensures r.activeConfiguration.Some? <==> vs.VsObject? && Truthy(vs.fields.config)
    ensures r.activeConfiguration.Some? ==> r.activeConfiguration == vs.fields.config
  {
    match vs
    case VsObject(f) => ProviderRequest(f.project, if Truthy(f.config) then f.config else None)
    case _ => ProviderRequest(None, None)
  }

  /** `ignoreFiles` as applyVSOptions reads it: only an object can switch file reconciliation off. */
  predicate IgnoresFiles(vs: VsValue) {
    vs.VsObject? && vs.fields.ignoreFiles == Some(true)
  }

  /** `ignoreSettings` as applyVSOptions reads it. */
  predicate IgnoresSettings(vs: VsValue) {
    vs.VsObject? && vs.fields.ignoreSettings == Some(true)
  }

  /** The compilation tasks after applyVSOptions: files unless ignored, then project outputs unless ignored. */
  function AfterProjectSettings(tasks: seq<CompilationTask>, vs: VsValue, s: VsSettings, host: Host): seq<CompilationTask>
    requires host.Sound()
  {
    var reconciled := if IgnoresFiles(vs) then tasks else ReconcileTasks(tasks, s.files, host, s.projectFileName);
    if IgnoresSettings(vs) then reconciled else WithProjectOutputs(reconciled, s, host)
  }

  /**
   * A precedence example: a project that gives the output directory
   * "vsout/" sets it on every task, but a task-level `out` of "a.js" and a
   * target-level `outDir` of "build/" end as every task's `out` and `outDir`.
   */
  lemma ExplicitTargetOutDirWins(tasks: seq<CompilationTask>, vs: VsValue, s: VsSettings, host: Host)
    requires host.Sound() && !IgnoresSettings(vs)
    requires s.outDir == Some("vsout/") && host.hasValue(Str("vsout/"))
    ensures var projected := AfterProjectSettings(tasks, vs, s, host);
            && (forall k :: 0 <= k < |projected| ==> projected[k].outDir == Some(OutputPath(s, host, "vsout/")))
            && var final := OverrideAll(projected, Some(OptionSet(NoVs, Some("a.js"), None)),
                                        Some(OptionSet(NoVs, None, Some("build/"))));
               && |final| == |projected|
               && forall k :: 0 <= k < |final| ==> final[k].out == Some("a.js") && final[k].outDir == Some("build/")
  {
    assert OutDirGiven(s, host);
  }

  /**
   * The options object of one target (`applyTo`). `options` holds its
   * compiler option keys; the other keys the resolver uses are fields.
   */
  class ResolvedOptions {
    var vs: VsValue
    var options: map<string, JsValue>
    var compilationTasks: seq<CompilationTask>
    var errors: seq<ErrorMessage>
    var targetName: string

    constructor (vs: VsValue, options: map<string, JsValue>, compilationTasks: seq<CompilationTask>,
                 errors: seq<ErrorMessage>, targetName: string)
      ensures this.vs == vs && this.options == options && this.compilationTasks == compilationTasks
      ensures this.errors == errors && this.targetName == targetName
    {
      this.vs := vs;
      this.options := options;
      this.compilationTasks := compilationTasks;
      this.errors := errors;
      this.targetName := targetName;
    }

    /**
     * applyVSSettings: the eleven settings and the module kind fill only
     * the option keys that are absent, while a given OutDir or OutFile
     * overwrites `outDir` or `out` on every compilation task.
     */
    method ApplyVSSettings(s: VsSettings, host: Host)
      requires host.Sound()
      modifies this
      ensures vs == old(vs) && errors == old(errors) && targetName == old(targetName)
      ensures options == FillSettings(old(options), s, host.hasValue)
      ensures compilationTasks == WithProjectOutputs(old(compilationTasks), s, host)
    {
      FillSimpleOptions(s, host.hasValue);
      if ModuleKey !in options && host.hasValue(Setting(s, ModuleKindSetting)) {
        options := options[ModuleKey := Setting(s, ModuleKindSetting)];
        if options[ModuleKey] == Str("none") {
          options := options[ModuleKey := Undefined];
        }
      }
      assert options == FillModule(FillSimple(old(options), s, host.hasValue, SimpleMappings), s, host.hasValue);
      assert options == FillSettings(old(options), s, host.hasValue);
      var gruntfileToProject := host.ProjectFolder(s.projectFileName);
      if OutDirGiven(s, host) {
        OverwriteOutDirs(s.outDir.value, s, host, gruntfileToProject);
      }
      if OutFileGiven(s, host) {
        OverwriteOuts(s.outFile.value, s, host, gruntfileToProject);
      }
    }

    /** The `for..in` loop of applyVSSettings over the eleven-entry table. */
    method FillSimpleOptions(s: VsSettings, hasValue: JsValue -> bool)
      modifies this
      ensures vs == old(vs) && errors == old(errors) && targetName == old(targetName)
      ensures compilationTasks == old(compilationTasks)
      ensures options == FillSimple(old(options), s, hasValue, SimpleMappings)
    {
      for k := 0 to |SimpleMappings|
        invariant options == FillSimple(old(options), s, hasValue, SimpleMappings[..k])
        invariant compilationTasks == old(compilationTasks)
        invariant vs == old(vs) && errors == old(errors) && targetName == old(targetName)
      {
        var (setting, key) := SimpleMappings[k];
        if key !in options && hasValue(Setting(s, setting)) {
          options := options[key := Setting(s, setting)];
        }
        assert SimpleMappings[..k + 1][..k] == SimpleMappings[..k];
      }
      assert SimpleMappings[..|SimpleMappings|] == SimpleMappings;
    }

    /** The OutDir `forEach`: every task's `outDir` becomes the project's output directory. */
    method OverwriteOutDirs(dir: string, s: VsSettings, host: Host, gruntfileToProject: string)
      requires gruntfileToProject == host.ProjectFolder(s.projectFileName)
      modifies this
      ensures vs == old(vs) && options == old(options) && errors == old(errors) && targetName == old(targetName)
      ensures |compilationTasks| == |old(compilationTasks)|
      ensures forall k :: 0 <= k < |compilationTasks| ==>
                compilationTasks[k] == old(compilationTasks)[k].(outDir := Some(OutputPath(s, host, dir)))
    {
      var i := 0;
      while i < |compilationTasks|
        invariant 0 <= i <= |compilationTasks| == |old(compilationTasks)|
        invariant forall k :: 0 <= k < i ==>
                    compilationTasks[k] == old(compilationTasks)[k].(outDir := Some(OutputPath(s, host, dir)))
        invariant forall k :: i <= k < |compilationTasks| ==> compilationTasks[k] == old(compilationTasks)[k]
        invariant vs == old(vs) && options == old(options) && errors == old(errors) && targetName == old(targetName)
      {
        var absolutePath := host.resolve(gruntfileToProject, dir);
        var outDir := host.escape(host.toSlashes(host.relative(host.cwd, absolutePath)));
        compilationTasks := compilationTasks[i := compilationTasks[i].(outDir := Some(outDir))];
        i := i + 1;
      }
    }

    /** The OutFile `forEach`: every task's `out` becomes the project's output file. */
    method OverwriteOuts(file: string, s: VsSettings, host: Host, gruntfileToProject: string)
      requires gruntfileToProject == host.ProjectFolder(s.projectFileName)
      modifies this
      ensures vs == old(vs) && options == old(options) && errors == old(errors) && targetName == old(targetName)
      ensures |compilationTasks| == |old(compilationTasks)|
      ensures forall k :: 0 <= k < |compilationTasks| ==>
                compilationTasks[k] == old(compilationTasks)[k].(out := Some(OutputPath(s, host, file)))
    {
      var i := 0;
      while i < |compilationTasks|
        invariant 0 <= i <= |compilationTasks| == |old(compilationTasks)|
        invariant forall k :: 0 <= k < i ==>
                    compilationTasks[k] == old(compilationTasks)[k].(out := Some(OutputPath(s, host, file)))
        invariant forall k :: i <= k < |compilationTasks| ==> compilationTasks[k] == old(compilationTasks)[k]
        invariant vs == old(vs) && options == old(options) && errors == old(errors) && targetName == old(targetName)
      {
        var absolutePath := host.resolve(gruntfileToProject, file);
        var out := host.escape(host.toSlashes(host.relative(host.cwd, absolutePath)));
        compilationTasks := compilationTasks[i := compilationTasks[i].(out := Some(out))];
        i := i + 1;
      }
    }

    /**
     * applyVSOptions: unless `ignoreFiles`, makes sure there is a task and
     * adds the project's files to the first one; then, unless
     * `ignoreSettings`, applies the project's settings.
     */
    method ApplyVSOptions(s: VsSettings, host: Host)
      requires !vs.NoVs? && host.Sound()
      modifies this
      ensures vs == old(vs) && errors == old(errors) && targetName == old(targetName)
      ensures options == if IgnoresSettings(vs) then old(options) else FillSettings(old(options), s, host.hasValue)
      ensures compilationTasks == AfterProjectSettings(old(compilationTasks), vs, s, host)
    {
      var ignoreFiles, ignoreSettings := false, false;
      if !vs.VsString? {
        var vsOptions := vs.fields;
        ignoreFiles := vsOptions.ignoreFiles == Some(true);
        ignoreSettings := vsOptions.ignoreSettings == Some(true);
      }
      if !ignoreFiles {
        if |compilationTasks| == 0 {
          compilationTasks := compilationTasks + [EmptyTask];
        }
        AddProjectFiles(Uniq(s.files), host, host.ProjectFolder(s.projectFileName));
      }
      if !ignoreSettings {
        ApplyVSSettings(s, host);
      }
    }

    /** The loop of applyVSOptions over the deduplicated files: each is reconciled with the first task's `src`. */
    method AddProjectFiles(files: seq<string>, host: Host, folder: string)
      requires |compilationTasks| > 0
      modifies this
      ensures vs == old(vs) && options == old(options) && errors == old(errors) && targetName == old(targetName)
      ensures compilationTasks == old(compilationTasks)[0 := old(compilationTasks)[0].(src := Reconcile(old(compilationTasks)[0].src, files, host, folder))]
    {
      var gruntfileFolder := host.cwd;
      for k := 0 to |files|
        invariant compilationTasks == old(compilationTasks)[0 := old(compilationTasks)[0].(src := Reconcile(old(compilationTasks)[0].src, files[..k], host, folder))]
        invariant vs == old(vs) && options == old(options) && errors == old(errors) && targetName == old(targetName)
      {
        var file := files[k];
        var absolutePathToFile := host.normalize(host.join(folder, file));
        var relativePathToFile := host.toSlashes(host.relative(gruntfileFolder, absolutePathToFile));
        var src := compilationTasks[0].src;
        if absolutePathToFile !in src && relativePathToFile !in src {
          compilationTasks := compilationTasks[0 := compilationTasks[0].(src := src + [relativePathToFile])];
        }
        assert files[..k + 1][..k] == files[..k];
      }
      assert files[..|files|] == files;
    }

    /**
     * resolve_out_and_outDir: every compilation task takes the truthy
     * `out` and `outDir` of the task-level and then the target-level options.
     */
    method ResolveOutAndOutDir(taskOptions: Option<OptionSet>, targetOptions: Option<OptionSet>)
      modifies this
      ensures vs == old(vs) && options == old(options) && errors == old(errors) && targetName == old(targetName)
      ensures compilationTasks == OverrideAll(old(compilationTasks), taskOptions, targetOptions)
    {
      if |compilationTasks| > 0 {
        var i := 0;
        while i < |compilationTasks|
          invariant 0 <= i <= |compilationTasks| == |old(compilationTasks)|
          invariant forall k :: 0 <= k < i ==> compilationTasks[k] == Override(old(compilationTasks)[k], taskOptions, targetOptions)
          invariant forall k :: i <= k < |compilationTasks| ==> compilationTasks[k] == old(compilationTasks)[k]
          invariant vs == old(vs) && options == old(options) && errors == old(errors) && targetName == old(targetName)
        {
          ghost var before := compilationTasks;
          var optionSets := [taskOptions, targetOptions];
          for j := 0 to |optionSets|
            invariant compilationTasks == before[i := ApplyOptionSets(before[i], optionSets[..j])]
            invariant vs == old(vs) && options == old(options) && errors == old(errors) && targetName == old(targetName)
          {
            var optionSet := optionSets[j];
            if optionSet.Some? && Truthy(optionSet.value.out) {
              compilationTasks := compilationTasks[i := compilationTasks[i].(out := optionSet.value.out)];
            }
            if optionSet.Some? && Truthy(optionSet.value.outDir) {
              compilationTasks := compilationTasks[i := compilationTasks[i].(outDir := optionSet.value.outDir)];
            }
            assert optionSets[..j + 1][..j] == optionSets[..j];
          }
          assert optionSets[..2] == optionSets;
          i := i + 1;
        }
      }
    }

    /**
     * resolveVSOptionsAsync with the parser's outcome given. Without a
     * descriptor on either level and without a truthy `vs` already stored,
     * nothing changes and the parser is never called. Otherwise the parser is
     * asked for the stored descriptor's project; a failure adds exactly one
     * message and rejects with the parser's own error, leaving the options
     * and tasks as they were; a success applies the project's files and
     * settings and then the explicit `out`/`outDir`.
     */
    method ResolveVSOptions(taskOptions: Option<OptionSet>, targetOptions: Option<OptionSet>,
                            outcome: ProviderOutcome, host: Host)
      returns (settled: Settlement, request: Option<ProviderRequest>)
      requires host.Sound()
      modifies this
      ensures targetName == old(targetName)
      ensures var merged := Combine(GetVSSettings(taskOptions), GetVSSettings(targetOptions));
              vs == if merged.Some? then AsVsValue(merged.value) else old(vs)
      ensures !vs.IsTruthy() ==> request.None? && settled == Resolved && unchanged(this)
      ensures vs.IsTruthy() ==> request == Some(RequestFor(vs))
      ensures vs.IsTruthy() && outcome.Failed? ==>
                && settled == Rejected(outcome.error)
                && errors == old(errors) + [ErrorFor(targetName, outcome.error)]
                && options == old(options)
                && compilationTasks == old(compilationTasks)
      ensures vs.IsTruthy() && outcome.Loaded? ==>
                && settled == Resolved
                && errors == old(errors)
                && options == (if IgnoresSettings(vs) then old(options)
                               else FillSettings(old(options), outcome.settings, host.hasValue))
                && compilationTasks == OverrideAll(AfterProjectSettings(old(compilationTasks), vs, outcome.settings, host),
                                                   taskOptions, targetOptions)
    {
      var merged := MergeDescriptors(taskOptions, targetOptions);
      if merged.Some? {
        vs := AsVsValue(merged.value);
      }
      if vs.IsTruthy() {
        request := Some(RequestFor(vs));
        match outcome {
          case Loaded(s) =>
            ApplyVSOptions(s, host);
            ResolveOutAndOutDir(taskOptions, targetOptions);
            settled := Resolved;
          case Failed(error) =>
            if error.errno == NotFoundErrno {
              errors := errors + [ProjectNotFound(targetName, error.path)];
            } else {
              errors := errors + [ProviderFailure(targetName, error.errno, error.text)];
            }
            settled := Rejected(error);
        }
      } else {
        request := None;
        settled := Resolved;
      }
    }
  }
}
