/**
 * The source-file half of applyVSOptions: the files a project reports are
 * added to the first compilation task, each in its path relative to the
 * build root, unless that task already lists the file in its absolute or
 * its relative form.
 */
module SourceFiles {
  import opened Common

  /** No entry of `s` occurs twice. */
  predicate Distinct(s: seq<string>) {
    forall i, j :: 0 <= i < j < |s| ==> s[i] != s[j]
  }

  /** The position of the first occurrence of `x` in `s`. */
  function FirstIndex(s: seq<string>, x: string): (i: nat)
    requires x in s
    ensures i < |s| && s[i] == x && x !in s[..i]
  {
    if s[0] == x then 0
    else
      var i := 1 + FirstIndex(s[1..], x);
      assert s[..i] == [s[0]] + s[1..][..i - 1];
      i
  }

  /** An entry of a prefix of `s` occurs first at the same position in `s`. */
  lemma FirstIndexInPrefix(s: seq<string>, n: nat, x: string)
    requires n <= |s| && x in s[..n]
    ensures FirstIndex(s, x) == FirstIndex(s[..n], x)
  {
    var i, k := FirstIndex(s, x), FirstIndex(s[..n], x);
    assert s[..n][..k] == s[..k];
  }

  /**
   * lodash's `_.uniq`: every entry of `s` once, in the order of their first
   * occurrences in `s`.
   */
  function Uniq(s: seq<string>): (u: seq<string>)
    ensures forall x :: x in u <==> x in s
    ensures Distinct(u)
    ensures forall i, j :: 0 <= i < j < |u| ==> FirstIndex(s, u[i]) < FirstIndex(s, u[j])
    ensures |u| <= |s|
    decreases |s|
  {
    if s == [] then []
    else
      var n := |s| - 1;
      var u := Uniq(s[..n]);
      assert s == s[..n] + [s[n]];
      forall x | x in u
        ensures FirstIndex(s, x) == FirstIndex(s[..n], x) < n
      {
        FirstIndexInPrefix(s, n, x);
      }
      if s[n] in u then u
      else
        assert FirstIndex(s, s[n]) == n;
        u + [s[n]]
  }

  /** The absolute form of a reported file: joined to the project's folder and normalised. */
  function AbsolutePath(host: Host, folder: string, file: string): string {
    host.normalize(host.join(folder, file))
  }

  /** The form that is added: the absolute form relative to the build root, with '/' separators. */
  function RelativePath(host: Host, folder: string, file: string): string {
    host.toSlashes(host.relative(host.cwd, AbsolutePath(host, folder, file)))
  }

  /**
   * The loop over `files` in order, starting from the source list `src`: a
   * file is appended in its relative form when neither form is listed yet.
   * The old list stays a prefix of the result.
   */
  function Reconcile(src: seq<string>, files: seq<string>, host: Host, folder: string): (r: seq<string>)
    ensures |src| <= |r| && r[..|src|] == src
    decreases |files|
  {
    if files == [] then src
    else
      var s := Reconcile(src, files[..|files| - 1], host, folder);
      var file := files[|files| - 1];
      if AbsolutePath(host, folder, file) !in s && RelativePath(host, folder, file) !in s
      then s + [RelativePath(host, folder, file)]
      else s
  }

  /**
   * Every entry of `r` past the old list `src` is the relative form of one
   * of `files`, and neither that form nor the file's absolute form occurs
   * before it.
   */
  ghost predicate AppendedFresh(src: seq<string>, r: seq<string>, files: seq<string>, host: Host, folder: string)
    requires |src| <= |r|
  {
    forall j :: |src| <= j < |r| ==>
      && r[j] !in r[..j]
      && exists file :: file in files && r[j] == RelativePath(host, folder, file) && AbsolutePath(host, folder, file) !in r[..j]
  }

  /**
   * Each entry the loop appends was absent in both forms when it was
   * appended, so no entry is appended twice.
   */
  lemma {:induction false} ReconcileAppendsFresh(src: seq<string>, files: seq<string>, host: Host, folder: string)
    ensures AppendedFresh(src, Reconcile(src, files, host, folder), files, host, folder)
    decreases |files|
  {
    if files != [] {
      var init := files[..|files| - 1];
      var file := files[|files| - 1];
      var s := Reconcile(src, init, host, folder);
      var r := Reconcile(src, files, host, folder);
      var appended := AbsolutePath(host, folder, file) !in s && RelativePath(host, folder, file) !in s;
      assert r == if appended then s + [RelativePath(host, folder, file)] else s;
      ReconcileAppendsFresh(src, init, host, folder);
      forall j | |src| <= j < |r|
        ensures r[j] !in r[..j]
        ensures exists f :: f in files && r[j] == RelativePath(host, folder, f) && AbsolutePath(host, folder, f) !in r[..j]
      {
        if j < |s| {
          assert r[..j] == s[..j] && r[j] == s[j];
          var f :| f in init && s[j] == RelativePath(host, folder, f) && AbsolutePath(host, folder, f) !in s[..j];
          assert f in files;
        } else {
          assert r[..j] == s;
          assert file in files;
        }
      }
    }
  }

  /** Afterwards every reported file is listed, in its absolute or its relative form. */
  lemma {:induction false} ReconcileCovers(src: seq<string>, files: seq<string>, host: Host, folder: string)
    ensures var r := Reconcile(src, files, host, folder);
            forall file :: file in files ==> AbsolutePath(host, folder, file) in r || RelativePath(host, folder, file) in r
    decreases |files|
  {
    if files != [] {
      var init := files[..|files| - 1];
      var s := Reconcile(src, init, host, folder);
      var r := Reconcile(src, files, host, folder);
      ReconcileCovers(src, init, host, folder);
      assert r[..|s|] == s by {
        assert r == s || r == s + [r[|r| - 1]];
      }
      forall file | file in files
        ensures AbsolutePath(host, folder, file) in r || RelativePath(host, folder, file) in r
      {
        assert file in init || file == files[|files| - 1] by {
          assert files == init + [files[|files| - 1]];
        }
        if file in init {
          assert forall x :: x in s ==> x in r;
        }
      }
    }
  }

  /** The source list of the first task once an empty task has been added to an empty list. */
  function FirstSource(tasks: seq<CompilationTask>): seq<string> {
    if tasks == [] then [] else tasks[0].src
  }

  /**
   * Lines 84-97 on the compilation tasks: an empty list first gains the task
   * `{src: []}`; then only the first task's source list changes, and it
   * becomes the reconciliation of its old list with the project's files,
   * each file taken once.
   */
  function ReconcileTasks(tasks: seq<CompilationTask>, files: seq<string>, host: Host, projectFileName: string): (r: seq<CompilationTask>)
    ensures |r| == if tasks == [] then 1 else |tasks|
    ensures tasks == [] ==> r[0].out.None? && r[0].outDir.None?
    ensures tasks != [] ==> r[0].out == tasks[0].out && r[0].outDir == tasks[0].outDir
    ensures forall i :: 1 <= i < |r| ==> r[i] == tasks[i]
    ensures r[0].src == Reconcile(FirstSource(tasks), Uniq(files), host, host.ProjectFolder(projectFileName))
  {
    var base := if tasks == [] then [EmptyTask] else tasks;
    base[0 := base[0].(src := Reconcile(base[0].src, Uniq(files), host, host.ProjectFolder(projectFileName)))]
  }
}
