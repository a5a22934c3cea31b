/**
 * The `vs` descriptor of a grunt-ts target: its raw, loosely typed forms,
 * its canonical form (getVSSettings), and the combination of the task-level
 * and the target-level descriptor at the start of resolveVSOptionsAsync.
 */
module Descriptors {
  import opened Common

  /** An object written as a `vs` option; each of its fields may be missing. */
  datatype RawDescriptor = RawDescriptor(
    project: Option<string>,
    config: Option<string>,
    ignoreFiles: Option<bool>,
    ignoreSettings: Option<bool>)

  /** The `vs` field of an options object: missing, a path to a project file, or an object. */
  datatype VsValue = NoVs | VsString(path: string) | VsObject(fields: RawDescriptor) {
    /** JavaScript truthiness: the empty string is falsy and every object is truthy. */
    predicate IsTruthy() {
      match this
      case NoVs => false
      case VsString(p) => p != ""
      case VsObject(_) => true
    }
  }

  /** What the resolver reads of the task-level or target-level options. */
  datatype OptionSet = OptionSet(vs: VsValue, out: Option<string>, outDir: Option<string>)

  /** The canonical descriptor. */
  datatype Descriptor = Descriptor(project: string, config: string, ignoreFiles: bool, ignoreSettings: bool)

  /** A descriptor as it is stored in `applyTo.vs`. */
  function AsVsValue(d: Descriptor): VsValue {
    VsObject(RawDescriptor(Some(d.project), Some(d.config), Some(d.ignoreFiles), Some(d.ignoreSettings)))
  }

  /**
   * getVSSettings: no descriptor for missing options or a falsy `vs`; a
   * string is the project path with every other field at its default; an
   * object keeps the fields it has and defaults the others to '' or false.
   */
  function GetVSSettings(rawOptions: Option<OptionSet>): (d: Option<Descriptor>)
    ensures d.Some? <==> rawOptions.Some? && rawOptions.value.vs.IsTruthy()
    ensures d.Some? && rawOptions.value.vs.VsString? ==>
              d.value == Descriptor(rawOptions.value.vs.path, "", false, false)
    ensures d.Some? && rawOptions.value.vs.VsObject? ==>
              var f := rawOptions.value.vs.fields;
              && d.value.project == (if f.project.Some? then f.project.value else "")
              && d.value.config == (if f.config.Some? then f.config.value else "")
              && d.value.ignoreFiles == (f.ignoreFiles == Some(true))
              && d.value.ignoreSettings == (f.ignoreSettings == Some(true))
  {
    if rawOptions.Some? && rawOptions.value.vs.IsTruthy() then
      match rawOptions.value.vs
      case VsString(p) => Some(Descriptor(p, "", false, false))
      case VsObject(f) =>
        Some(Descriptor(f.project.GetOr(""), f.config.GetOr(""), f.ignoreFiles.GetOr(false), f.ignoreSettings.GetOr(false)))
    else
      None
  }

  /** Writes every truthy field of the target-level descriptor over `base`. */
  function Overlay(base: Descriptor, target: Descriptor): Descriptor {
    Descriptor(
      if target.project != "" then target.project else base.project,
      if target.config != "" then target.config else base.config,
      if target.ignoreFiles then true else base.ignoreFiles,
      if target.ignoreSettings then true else base.ignoreSettings)
  }

  /**
   * The combined descriptor: there is one exactly when either level has one;
   * a truthy target-level project or configuration wins over the task-level
   * one, and the two ignore flags can be switched on by the target level
   * but never switched off, so they end up as the disjunction of both levels.
   */
  function Combine(task: Option<Descriptor>, target: Option<Descriptor>): (vs: Option<Descriptor>)
    ensures vs.Some? <==> task.Some? || target.Some?
    ensures target.None? ==> vs == task
    ensures task.None? ==> vs == target
    ensures task.Some? && target.Some? ==>
              && vs.value.project == (if target.value.project != "" then target.value.project else task.value.project)
              && vs.value.config == (if target.value.config != "" then target.value.config else task.value.config)
              && vs.value.ignoreFiles == (task.value.ignoreFiles || target.value.ignoreFiles)
              && vs.value.ignoreSettings == (task.value.ignoreSettings || target.value.ignoreSettings)
  {
    if target.None? then task
    else Some(Overlay(task.GetOr(target.value), target.value))
  }

  /** The merge block of resolveVSOptionsAsync, field by field as it is written. */
  method MergeDescriptors(taskOptions: Option<OptionSet>, targetOptions: Option<OptionSet>)
    returns (vs: Option<Descriptor>)
    ensures vs == Combine(GetVSSettings(taskOptions), GetVSSettings(targetOptions))
  {
    var vsTask, vsTarget := GetVSSettings(taskOptions), GetVSSettings(targetOptions);
    vs := None;
    if vsTask.Some? {
      vs := vsTask;
    }
    if vsTarget.Some? {
      if vs.None? {
        vs := vsTarget;
      }
      var target := vsTarget.value;
      if target.project != "" {
        vs := Some(vs.value.(project := target.project));
      }
      if target.config != "" {
        vs := Some(vs.value.(config := target.config));
      }
      if target.ignoreFiles {
        vs := Some(vs.value.(ignoreFiles := target.ignoreFiles));
      }
      if target.ignoreSettings {
        vs := Some(vs.value.(ignoreSettings := target.ignoreSettings));
      }
    }
  }
}
