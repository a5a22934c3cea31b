/**
 * resolve_out_and_outDir: after the project's settings are applied, the
 * `out` and `outDir` given explicitly in the task-level and then the
 * target-level options are written over every compilation task again.
 */
module OutputOverrides {
  import opened Common
  import opened Descriptors

  /** The truthy `out` of an option set, if it has one. */
  function ExplicitOut(o: Option<OptionSet>): Option<string> {
    if o.Some? && Truthy(o.value.out) then o.value.out else None
  }

  /** The truthy `outDir` of an option set, if it has one. */
  function ExplicitOutDir(o: Option<OptionSet>): Option<string> {
    if o.Some? && Truthy(o.value.outDir) then o.value.outDir else None
  }

  /** One turn of the inner loop: a missing option set changes nothing, a truthy field overwrites the task's. */
  function ApplyOptionSet(t: CompilationTask, o: Option<OptionSet>): CompilationTask {
    var withOut := if ExplicitOut(o).Some? then t.(out := ExplicitOut(o)) else t;
    if ExplicitOutDir(o).Some? then withOut.(outDir := ExplicitOutDir(o)) else withOut
  }

  /** The inner loop over the option sets, in order. */
  function ApplyOptionSets(t: CompilationTask, sets: seq<Option<OptionSet>>): CompilationTask
    decreases |sets|
  {
    if sets == [] then t else ApplyOptionSet(ApplyOptionSets(t, sets[..|sets| - 1]), sets[|sets| - 1])
  }

  /**
   * One task after both option sets: its `out` is the target level's truthy
   * value if there is one, else the task level's, else what it held before
   * (possibly a value derived from the project); `outDir` likewise; the
   * source list is untouched.
   */
  function Override(t: CompilationTask, taskOptions: Option<OptionSet>, targetOptions: Option<OptionSet>): (r: CompilationTask)
    ensures r.src == t.src
    ensures r.out == (if ExplicitOut(targetOptions).Some? then ExplicitOut(targetOptions)
                      else if ExplicitOut(taskOptions).Some? then ExplicitOut(taskOptions)
                      else t.out)
    ensures r.outDir == (if ExplicitOutDir(targetOptions).Some? then ExplicitOutDir(targetOptions)
                         else if ExplicitOutDir(taskOptions).Some? then ExplicitOutDir(taskOptions)
                         else t.outDir)
  {
    var sets := [taskOptions, targetOptions];
    assert sets[..1] == [taskOptions] && sets[..1][..0] == [];
    assert ApplyOptionSets(t, sets[..1]) == ApplyOptionSet(t, taskOptions);
    assert ApplyOptionSets(t, sets) == ApplyOptionSet(ApplyOptionSet(t, taskOptions), targetOptions);
    ApplyOptionSets(t, sets)
  }

  /** Every task after the nested loops: each is overridden on its own and the list keeps its length. */
  function OverrideAll(tasks: seq<CompilationTask>, taskOptions: Option<OptionSet>, targetOptions: Option<OptionSet>): (r: seq<CompilationTask>)
    ensures |r| == |tasks|
    ensures forall i :: 0 <= i < |r| ==> r[i] == Override(tasks[i], taskOptions, targetOptions)
  {
    seq(|tasks|, i requires 0 <= i < |tasks| => Override(tasks[i], taskOptions, targetOptions))
  }
}
