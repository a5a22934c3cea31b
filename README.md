# Visual Studio options resolver of grunt-ts, in Dafny

grunt-ts compiles TypeScript for Grunt builds. A build target may point at a
Visual Studio project (`.csproj`) through its `vs` option, at task level,
at target level or both. `resolveVSOptionsAsync` then works out the target's
effective compiler options in five steps:

1. It normalises each level's `vs` value (absent, a project path, or an object)
   into a descriptor `{project, config, ignoreFiles, ignoreSettings}`.
2. It merges the two descriptors: a truthy target-level field wins.
3. It asks the project-file parser for the project's settings.
4. On success, unless the descriptor's `ignoreFiles` is set, it adds the
   project's files to the first compilation task. Then, unless its
   `ignoreSettings` is set, it fills the compiler options the user left unset
   from a fixed table of eleven settings plus the module kind. When the
   project gives an output directory or file (`hasValue` accepts it and it is
   not ''), that value overwrites every task's `outDir` or `out`.
5. Finally it applies the explicit `out`/`outDir` of the task-level options
   and then the target-level options to every task again.

On a parser failure it records one message naming the target and rejects
with the parser's error.

The model follows the program's structure:

- `common.dfy` (module `Common`): optional values, JavaScript values,
  compilation tasks, and `Host`. `Host` holds the services the resolver calls
  but does not define: Node's `path` functions, the working directory,
  `utils.hasValue` and `utils.escapePathIfRequired`. They are opaque
  function-valued parameters, so every result holds for any implementation
  of them.
- `descriptors.dfy` (module `Descriptors`): `getVSSettings` as a function.
  The merge block as a method that updates the descriptor field by field, as
  the code does, proved equal to the specification function `Combine`.
- `settings_mapper.dfy` (module `SettingsMapper`): the mapping table, the
  fill-only-if-absent loop as a fold with per-key lemmas, the module kind,
  and the unconditional OutDir/OutFile overwrite.
- `source_files.dfy` (module `SourceFiles`): lodash's `_.uniq` and the
  reconciliation of the project's files with the first task's `src`.
- `output_overrides.dfy` (module `OutputOverrides`): `resolve_out_and_outDir`
  as functions on one task and on the task list.
- `resolver.dfy` (module `VisualStudioOptionsResolver`): the options object
  `applyTo` as the class `ResolvedOptions`. Its methods `ApplyVSSettings`,
  `ApplyVSOptions`, `ResolveOutAndOutDir` and `ResolveVSOptions` update its
  fields in place. The code's loops are methods of their own:
  `FillSimpleOptions` (the table loop), `OverwriteOutDirs` and
  `OverwriteOuts` (the two `forEach` loops), `AddProjectFiles` (the loop
  over the project's files) and the nested loops of `ResolveOutAndOutDir`.
  Each method is proved against the specification functions above.

The compiler options are a `map` from key to value because the code tests
whether a key is present (`key in options`), not what its value is. A key
set to `undefined` (the module kind "none") stays present. The parser is not
called: its outcome is a parameter, and `ResolveVSOptions` returns the
request it would make, or `None` when it makes none.

## Model

| member | source | states |
|---|---|---|
| `Descriptors.GetVSSettings` | tasks/modules/visualStudioOptionsResolver.js:148-170 | A descriptor exists exactly when the options exist and their `vs` is truthy. A string is the project path with `config` '' and both ignore flags false. An object keeps its fields and defaults the missing ones to '' or false. |
| `Descriptors.Combine` | tasks/modules/visualStudioOptionsResolver.js:10-31 | A combined descriptor exists exactly when either level has one. With only one level present, it is that level's descriptor. With both, a truthy target `project`/`config` wins over the task's, and each ignore flag is the OR of both levels: the target can switch it on but never off. |
| `Descriptors.MergeDescriptors` | tasks/modules/visualStudioOptionsResolver.js:10-31 | The field-by-field merge as written yields exactly `Combine` of the two normalised descriptors. |
| `SettingsMapper.FillSimpleAt` | tasks/modules/visualStudioOptionsResolver.js:122-126 | For any table whose option keys are distinct, the fill loop keeps a present key's value and never adds a key the table does not write. It adds an absent table key, with the project's value, exactly when `hasValue` accepts that value. |
| `SettingsMapper.FillSimpleTable` | tasks/modules/visualStudioOptionsResolver.js:109-126 | The same three facts for every key and every entry of the fixed eleven-entry table. |
| `SettingsMapper.FillSettings` | tasks/modules/visualStudioOptionsResolver.js:109-132 | After the table and the module kind: every key the user set keeps its value, and no key outside the table and `module` appears. An unset table key takes the project's value exactly when `hasValue` accepts it. An unset `module` is added exactly when `hasValue` accepts the module kind, and is left undefined when the kind is "none". |
| `SettingsMapper.ApplyProjectOutputs` | tasks/modules/visualStudioOptionsResolver.js:133-145 | When the project gives an OutDir (`hasValue` and not ''), the task's `outDir` becomes that path made relative to the build root, whatever it held before. Otherwise `outDir` is unchanged. `out` works the same way with OutFile. `src` never changes. |
| `SettingsMapper.WithProjectOutputs` | tasks/modules/visualStudioOptionsResolver.js:134-145 | The overwrite applies to every compilation task and keeps the number of tasks. |
| `SettingsMapper.OutputsIgnorePriorValues` | tasks/modules/visualStudioOptionsResolver.js:134-145 | When both outputs are given, two tasks with the same sources end up identical, whatever `out`/`outDir` they held before. |
| `SourceFiles.Uniq` | tasks/modules/visualStudioOptionsResolver.js:90 | `_.uniq` keeps exactly the same entries, has no duplicates, and lists them in the order of their first occurrences in the input. That order is the order in which the files are appended to `src`. |
| `SourceFiles.Reconcile` | tasks/modules/visualStudioOptionsResolver.js:90-97 | The old source list is a prefix of the new one. |
| `SourceFiles.ReconcileAppendsFresh` | tasks/modules/visualStudioOptionsResolver.js:90-97 | Every appended entry is the relative form of a reported file. When it was appended, neither that form nor the file's absolute form was in the list, so no entry is appended twice. |
| `SourceFiles.ReconcileCovers` | tasks/modules/visualStudioOptionsResolver.js:90-97 | Afterwards every reported file is in the list, in its absolute or its relative form. |
| `SourceFiles.ReconcileTasks` | tasks/modules/visualStudioOptionsResolver.js:84-97 | An empty task list first gains `{src: []}`, so at least one task remains. Only the first task's `src` changes, and it becomes the reconciliation of its old list with the deduplicated files. |
| `OutputOverrides.Override` | tasks/modules/visualStudioOptionsResolver.js:63-71 | A task's final `out` is the target-level truthy `out` if any, else the task-level one, else its prior (possibly project-derived) value. `outDir` works the same way, and `src` is untouched. |
| `OutputOverrides.OverrideAll` | tasks/modules/visualStudioOptionsResolver.js:61-75 | Every task is overridden on its own. An empty task list stays empty. |
| `VisualStudioOptionsResolver.ErrorFor` | tasks/modules/visualStudioOptionsResolver.js:46-51 | The message always names the target. Errno 34 gives the not-found message carrying the error's path. Any other errno gives the generic message carrying that errno and the error's text. |
| `VisualStudioOptionsResolver.RequestFor` | tasks/modules/visualStudioOptionsResolver.js:37-39 | The parser is asked for the stored object's `project`, and for its `config` only when that is truthy. A string stored in `vs` yields neither. |
| `VisualStudioOptionsResolver.ExplicitTargetOutDirWins` | tasks/modules/visualStudioOptionsResolver.js:61-75 | When the project gives the output directory "vsout/", applying the project's settings sets every task's `outDir` to it. The explicit overrides then leave every task with `out` "a.js" (task level) and `outDir` "build/" (target level). |
| `VisualStudioOptionsResolver.ResolvedOptions.ApplyVSSettings` | tasks/modules/visualStudioOptionsResolver.js:107-147 | The options become `FillSettings` of the old options, and the tasks become `WithProjectOutputs` of the old tasks. `vs`, `errors` and `targetName` are unchanged. |
| `VisualStudioOptionsResolver.ResolvedOptions.ApplyVSOptions` | tasks/modules/visualStudioOptionsResolver.js:76-103 | Files are reconciled unless the stored object's `ignoreFiles` is true. Settings are applied unless its `ignoreSettings` is true. A string stored in `vs` ignores neither. |
| `VisualStudioOptionsResolver.ResolvedOptions.FillSimpleOptions` | tasks/modules/visualStudioOptionsResolver.js:122-126 | `options` becomes `FillSimple` of the old options over the eleven-entry table, and no other field changes. The facts proved of `FillSimple` (`FillSimpleAt`, `FillSimpleTable`) therefore hold of the loop. |
| `VisualStudioOptionsResolver.ResolvedOptions.OverwriteOutDirs` | tasks/modules/visualStudioOptionsResolver.js:135-138 | Every task's `outDir` becomes the project's output directory made relative to the build root and escaped. The task count, every other task field and every other object field are unchanged. |
| `VisualStudioOptionsResolver.ResolvedOptions.OverwriteOuts` | tasks/modules/visualStudioOptionsResolver.js:141-144 | Every task's `out` becomes the project's output file made relative to the build root and escaped. The task count, every other task field and every other object field are unchanged. |
| `VisualStudioOptionsResolver.ResolvedOptions.AddProjectFiles` | tasks/modules/visualStudioOptionsResolver.js:90-97 | Only the first task's `src` changes, and it becomes `Reconcile` of its old list with the files in order. `ReconcileAppendsFresh` and `ReconcileCovers` therefore hold of the loop. |
| `VisualStudioOptionsResolver.ResolvedOptions.ResolveOutAndOutDir` | tasks/modules/visualStudioOptionsResolver.js:61-75 | The tasks become `OverrideAll` of the old tasks, and nothing else changes. |
| `VisualStudioOptionsResolver.ResolvedOptions.ResolveVSOptions` | tasks/modules/visualStudioOptionsResolver.js:7-59 | The merged descriptor is stored when there is one. If neither level has a descriptor and no truthy `vs` was already stored, nothing changes, the parser is not called, and the call resolves. Otherwise the parser is asked for the stored descriptor. A failure appends exactly one `ErrorFor` message, leaves the options and tasks unchanged, and rejects with the same error. A success applies files, settings and then the explicit overrides, and leaves `errors` unchanged. |

## Left out

- The promise machinery is not modelled. The parser's outcome is an input to `ResolveVSOptions`, and its result says whether the promise resolves or rejects.
- The catch at line 45 also catches exceptions thrown inside the success callback: a missing `CompilationTasks` array, a non-string OutDir, or a failing path function. These are not modelled. `CompilationTasks` is always a sequence, and OutDir/OutFile are strings or undefined.
- The project-file parser (`csproj2ts.getTypeScriptSettings`) is not part of this model. Its result is the `VsSettings` record.
- Node's `path.resolve`, `join`, `normalize`, `relative`, `path.resolve('.')` and the `path.sep` replacement are opaque `Host` functions. The model states no path algebra.
- `utils.hasValue` and `utils.escapePathIfRequired` are not part of this model. They are opaque `Host` functions. Only one thing is assumed: `hasValue` rejects `undefined` and `null` (`Host.Sound`). That is what keeps the OutDir and OutFile branches from reading an undefined path.
- The wording of the two error messages and `error.toString()` are not modelled. A message is a datatype carrying the target name and either the path or the errno and the error's text.
- Option values are typed. `project`, `config`, `out` and `outDir` are strings, and the ignore flags are booleans. A truthy non-boolean ignore flag, or a non-string `out`, is not modelled. Nor is a truthy `vs` that is neither a string nor an object, such as `vs: true` (line 161): `VsValue` has no case for it.
- Object identity and aliasing are not modelled. These are the merged descriptor being the task's own object, and `src` being an alias of the first task's array. Both are values in the model, which does not change what can be observed.
- `relativePathToVSProjectFolderFromGruntfile` (lines 104-106) is `Host.ProjectFolder`.

## Behaviour worth noting

- The parser is also called when neither level has a descriptor but `applyTo.vs` was already truthy before the call (line 36). That stored value may be a string. The parser then gets an undefined project (line 38), and neither ignore flag applies (line 78).
- A module kind "none" does not leave `module` unset. The code adds the key with the value `undefined` (lines 128-131), so a later `'module' in options` sees it as present.
- An explicit `out`/`outDir` overrides only when it is truthy (lines 65 and 68). An empty string does not override.
