/** The batch driver of `experiment_script.py`: which content folders and
    style images it finds, the content-major task list it builds, how one
    task is named and invoked, and the loop that runs the tasks in order,
    swallowing the failure of each, until a failure cannot be reported.

    Directory listings are given as sequences of entries, each with its
    name, the path `resolve()` gives it and whether it is a directory. The
    child process is given by what it does on each task: it exits with a
    code, or some step before or while starting it raises. Whether the
    `except` handler itself raises on a task is given too. A missing test or
    reference directory, on which `iterdir()` raises before any task exists,
    is not modelled. */
module Experiment {
  import opened Wrappers
  import opened PathText
  import opened Keeping

  /** Suffixes of style images, compared lower-cased (the source tests
      membership in a three-element list). */
  const StyleSuffixes: set<string> := {".jpg", ".jpeg", ".png"}

  /** A directory entry as `Path.iterdir()` or `Path.glob("*")` yields it. */
  datatype Entry = Entry(name: string, resolved: string, isDir: bool)

  /** An entry of the reference directory with what `glob("*")` lists in it
      (only read when the entry is a directory). */
  datatype RefDir = RefDir(dir: Entry, children: seq<Entry>)

  /** A `(style_dir, img, test_mode)` tuple of `style_groups`. */
  datatype StyleGroup = StyleGroup(dir: Entry, image: Entry, mode: string)

  /** A `(content_path, style_img, test_mode)` tuple of `tasks`. */
  datatype Task = Task(content: Entry, style: Entry, mode: string)

  /** What happens when a task runs: the child exits with `code`, or
      creating the output directory, opening the log or starting the child
      raises an exception with `message`. */
  datatype ChildOutcome = Exited(code: int, stdout: string, stderr: string) | Raised(message: string)

  /** What `run_single_test` raises: `CalledProcessError` for a non-zero
      exit (because of `check=True`), or the exception of an earlier step. */
  datatype TaskError = CalledProcessError(returncode: int, cmd: seq<string>) | OtherError(message: string)

  // ---------------------------------------------------------------------
  // Task enumeration

  predicate IsDirectory(e: Entry) {
    e.isDir
  }

  /** `test_folders`: the directory entries of the test directory, in order. */
  function ContentRoots(entries: seq<Entry>): seq<Entry> {
    Keep(entries, IsDirectory, (e: Entry) => e)
  }

  /** The content roots are exactly the directories among the entries. */
  lemma ContentRootsMembers(entries: seq<Entry>, e: Entry)
    ensures e in ContentRoots(entries) <==> e in entries && e.isDir
  {
    KeepMembers(entries, IsDirectory, (e: Entry) => e, e);
  }

  /** True when the lower-cased `pathlib` suffix is a style-image one. The
      suffix is taken of the lower-cased name, which `SuffixOfLower` shows to
      be the same string. */
  predicate IsStyleImage(e: Entry) {
    Suffix(Lower(e.name)) in StyleSuffixes
  }

  /** The test `img.suffix.lower() in [".jpg", ".jpeg", ".png"]` of `main`,
      in the order the source writes it. */
  lemma IsStyleImageBySuffix(e: Entry)
    ensures IsStyleImage(e) <==> Lower(Suffix(e.name)) in StyleSuffixes
  {
    SuffixOfLower(e.name);
  }

  /** The group an image of `dir` becomes, labelled with the directory's name. */
  function GroupOf(dir: Entry): Entry -> StyleGroup {
    img => StyleGroup(dir, img, dir.name)
  }

  /** The groups one style directory contributes: its style images, in
      listing order. */
  function DirGroups(dir: Entry, children: seq<Entry>): seq<StyleGroup> {
    Keep(children, IsStyleImage, GroupOf(dir))
  }

  /** The groups an entry of the reference directory contributes; an entry
      that is not a directory contributes none. */
  function RefGroups(r: RefDir): seq<StyleGroup> {
    if r.dir.isDir then DirGroups(r.dir, r.children) else []
  }

  /** `style_groups`: the groups of every entry of the reference directory,
      in listing order. */
  function StyleGroups(refs: seq<RefDir>): seq<StyleGroup> {
    ConcatMap(refs, RefGroups)
  }

  /** A directory contributes exactly its listed style images, each as a
      group labelled with the directory's name. */
  lemma DirGroupsMembers(dir: Entry, children: seq<Entry>, g: StyleGroup)
    ensures g in DirGroups(dir, children) <==>
      g.dir == dir && g.mode == dir.name && g.image in children && IsStyleImage(g.image)
  {
    KeepMembers(children, IsStyleImage, GroupOf(dir), g);
    if g.dir == dir && g.mode == dir.name && g.image in children && IsStyleImage(g.image) {
      var j :| 0 <= j < |children| && children[j] == g.image;
      assert g == GroupOf(dir)(children[j]);
    }
  }

  /** A group is collected exactly when some directory entry of the
      reference directory contributes it; entries that are not directories
      contribute nothing. */
  lemma StyleGroupsMembers(refs: seq<RefDir>, g: StyleGroup)
    ensures g in StyleGroups(refs) <==>
      exists i :: 0 <= i < |refs| && refs[i].dir.isDir && g in DirGroups(refs[i].dir, refs[i].children)
  {
    ConcatMapMembers(refs, RefGroups, g);
  }

  /** Every collected group comes from a directory, is labelled with that
      directory's name and holds one of its style images. */
  lemma StyleGroupsLabelled(refs: seq<RefDir>, g: StyleGroup)
    requires g in StyleGroups(refs)
    ensures g.dir.isDir && g.mode == g.dir.name && IsStyleImage(g.image)
    ensures exists i :: 0 <= i < |refs| && refs[i].dir == g.dir && g.image in refs[i].children
  {
    StyleGroupsMembers(refs, g);
    var i :| 0 <= i < |refs| && refs[i].dir.isDir && g in DirGroups(refs[i].dir, refs[i].children);
    DirGroupsMembers(refs[i].dir, refs[i].children, g);
  }

  /** The loop of `main` over `Path(reference_dir).iterdir()` and, for each
      directory, `style_dir.glob("*")`, that fills `style_groups`. */
  method CollectStyleGroups(refs: seq<RefDir>) returns (groups: seq<StyleGroup>)
    ensures groups == StyleGroups(refs)
  {
    groups := [];
    for i := 0 to |refs|
      invariant groups == StyleGroups(refs[..i])
    {
      var styleDir := refs[i].dir;
      if !styleDir.isDir {
        ConcatMapSnoc(refs, i, RefGroups);
        continue;
      }
      var children := refs[i].children;
      ghost var before := groups;
      for j := 0 to |children|
        invariant groups == before + DirGroups(styleDir, children[..j])
      {
        KeepSnoc(children, j, IsStyleImage, GroupOf(styleDir));
        var img := children[j];
        if IsStyleImage(img) {
          groups := groups + [StyleGroup(styleDir, img, styleDir.name)];
        }
      }
      assert children[..|children|] == children;
      ConcatMapSnoc(refs, i, RefGroups);
    }
    assert refs[..|refs|] == refs;
  }

  /** The tasks of one content folder, one per style group, in group order. */
  function Row(content: Entry, groups: seq<StyleGroup>): seq<Task> {
    seq(|groups|, j requires 0 <= j < |groups| => Task(content, groups[j].image, groups[j].mode))
  }

  /** The task list: every content folder with every style group,
      content-major. */
  function CrossProduct(folders: seq<Entry>, groups: seq<StyleGroup>): seq<Task>
  {
    if folders == [] then []
    else CrossProduct(folders[..|folders| - 1], groups) + Row(folders[|folders| - 1], groups)
  }

  /** The tasks of `a + b` are those of `a` followed by those of `b`: every
      task of one folder comes before every task of the next. */
  lemma {:induction false} CrossProductAppend(a: seq<Entry>, b: seq<Entry>, groups: seq<StyleGroup>)
    ensures CrossProduct(a + b, groups) == CrossProduct(a, groups) + CrossProduct(b, groups)
  {
    if b == [] {
      assert a + b == a;
    } else {
      var init := b[..|b| - 1];
      assert (a + b)[..|a + b| - 1] == a + init;
      CrossProductAppend(a, init, groups);
    }
  }

  /** The tasks of folder `i` sit between those of the folders before it
      and those of the folders after it. */
  lemma CrossProductSplit(folders: seq<Entry>, groups: seq<StyleGroup>, i: nat)
    requires i < |folders|
    ensures CrossProduct(folders, groups) ==
      CrossProduct(folders[..i], groups) + Row(folders[i], groups) + CrossProduct(folders[i + 1..], groups)
  {
    var upto := folders[..i + 1];
    assert upto[..i] == folders[..i];
    assert folders == upto + folders[i + 1..];
    CrossProductAppend(upto, folders[i + 1..], groups);
  }

  /** Group `j` of folder `i` comes right after the `j` tasks before it in
      that folder's row, which follows the tasks of the earlier folders. */
  lemma CrossProductAtOffset(folders: seq<Entry>, groups: seq<StyleGroup>, i: nat, j: nat)
    requires i < |folders| && j < |groups|
    ensures |CrossProduct(folders[..i], groups)| + j < |CrossProduct(folders, groups)|
    ensures CrossProduct(folders, groups)[|CrossProduct(folders[..i], groups)| + j]
      == Task(folders[i], groups[j].image, groups[j].mode)
  {
    CrossProductSplit(folders, groups, i);
    var front, row := CrossProduct(folders[..i], groups), Row(folders[i], groups);
    assert (front + row + CrossProduct(folders[i + 1..], groups))[|front| + j] == row[j];
  }

  /** Task `i * |groups| + j` pairs folder `i` with group `j`. */
  lemma CrossProductAt(folders: seq<Entry>, groups: seq<StyleGroup>, i: nat, j: nat)
    requires i < |folders| && j < |groups|
    ensures i * |groups| + j < |CrossProduct(folders, groups)|
    ensures CrossProduct(folders, groups)[i * |groups| + j] == Task(folders[i], groups[j].image, groups[j].mode)
  {
    CrossProductAtOffset(folders, groups, i, j);
    CrossProductLength(folders[..i], groups);
    assert |folders[..i]| == i;
  }

  /** There are `|folders| * |groups|` tasks. */
  lemma {:induction false} CrossProductLength(folders: seq<Entry>, groups: seq<StyleGroup>)
    ensures |CrossProduct(folders, groups)| == |folders| * |groups|
  {
    if folders != [] {
      var n, m := |folders|, |groups|;
      CrossProductLength(folders[..n - 1], groups);
      assert (n - 1) * m + m == n * m;
    }
  }

  /** The loop of `main` over `test_folders` and, for each folder,
      `style_groups`, that fills `tasks`. */
  method BuildTasks(folders: seq<Entry>, groups: seq<StyleGroup>) returns (tasks: seq<Task>)
    ensures tasks == CrossProduct(folders, groups)
  {
    tasks := [];
    for i := 0 to |folders|
      invariant tasks == CrossProduct(folders[..i], groups)
    {
      assert folders[..i + 1][..i] == folders[..i];
      var contentPath := folders[i];
      for j := 0 to |groups|
        invariant tasks == CrossProduct(folders[..i], groups) + Row(contentPath, groups[..j])
      {
        assert Row(contentPath, groups[..j + 1])
          == Row(contentPath, groups[..j]) + [Task(contentPath, groups[j].image, groups[j].mode)];
        tasks := tasks + [Task(contentPath, groups[j].image, groups[j].mode)];
      }
      assert groups[..|groups|] == groups;
    }
    assert folders[..|folders|] == folders;
  }

  // ---------------------------------------------------------------------
  // One task

  /** `experiment_name`: content folder name, mode and style stem, joined
      by underscores. */
  function ExperimentName(task: Task): string {
    task.content.name + "_" + task.mode + "_" + Stem(task.style.name)
  }

  /** `output_dir`: the experiment name under the results root. */
  function OutputDir(resultsRoot: string, task: Task): string {
    Join(resultsRoot, ExperimentName(task))
  }

  /** `cmd_str`: the argument list of the child, every item as a string;
      `outputDir` is the resolved output directory. */
  function Command(task: Task, outputDir: string): seq<string> {
    [ "python", "test.py",
      "--name", "mmis_sunny2diffweathers",
      "--task", "MMIS",
      "--gpu_ids", "0",
      "--checkpoints_dir", "./checkpoints",
      "--batchSize", "1",
      "--dataset_mode", "sunny2diffweathers",
      "--croot", "./datasets/bdd100k",
      "--sroot", "./datasets/bdd100k",
      "--nThreads", "4",
      "--no_pairing_check",
      "--no_instance",
      "--num_upsampling_layers", "more",
      "--alpha", "1.0",
      "--results_dir", outputDir,
      "--which_epoch", "latest",
      "--show_input",
      "--test_mode", task.mode,
      "--s_image", task.style.resolved,
      "--c_path", task.content.resolved ]
  }

  /** A name without underscores ends at the first underscore, so the text
      before and after that underscore is recovered from the joined string. */
  lemma SplitAtUnderscore(a: string, x: string, b: string, y: string)
    requires '_' !in a && '_' !in b
    requires a + "_" + x == b + "_" + y
    ensures a == b && x == y
  {
    var s := a + "_" + x;
    assert s[|a|] == '_';
    assert (b + "_" + y)[|b|] == '_';
    if |a| < |b| {
      assert false;
    } else if |b| < |a| {
      assert false;
    }
    assert a == s[..|a|] == b;
    assert x == s[|a| + 1..] == y;
  }

  /** When content folder names and modes contain no underscore, the
      experiment name determines the folder name, the mode and the style
      stem. */
  lemma ExperimentNameInjective(t1: Task, t2: Task)
    requires '_' !in t1.content.name && '_' !in t2.content.name
    requires '_' !in t1.mode && '_' !in t2.mode
    requires ExperimentName(t1) == ExperimentName(t2)
    ensures t1.content.name == t2.content.name
    ensures t1.mode == t2.mode
    ensures Stem(t1.style.name) == Stem(t2.style.name)
  {
    var s1, s2 := Stem(t1.style.name), Stem(t2.style.name);
    assert ExperimentName(t1) == t1.content.name + "_" + (t1.mode + "_" + s1);
    assert ExperimentName(t2) == t2.content.name + "_" + (t2.mode + "_" + s2);
    SplitAtUnderscore(t1.content.name, t1.mode + "_" + s1, t2.content.name, t2.mode + "_" + s2);
    SplitAtUnderscore(t1.mode, s1, t2.mode, s2);
  }

  /** Two style images that differ only in their suffix (`base.x1` and
      `base.x2`, such as `a.jpg` and `a.png`) give, for one content folder
      and mode, two different tasks with the same output directory: the
      second run writes where the first did. */
  lemma OutputDirShared(resultsRoot: string, content: Entry, mode: string, base: string,
                        x1: string, resolved1: string, isDir1: bool,
                        x2: string, resolved2: string, isDir2: bool)
    requires base != "" && x1 != "" && x2 != "" && '.' !in x1 && '.' !in x2
    ensures x1 != x2 ==>
      Task(content, Entry(base + "." + x1, resolved1, isDir1), mode)
        != Task(content, Entry(base + "." + x2, resolved2, isDir2), mode)
    ensures OutputDir(resultsRoot, Task(content, Entry(base + "." + x1, resolved1, isDir1), mode))
         == OutputDir(resultsRoot, Task(content, Entry(base + "." + x2, resolved2, isDir2), mode))
  {
    StemSuffixOfDotted(base, x1);
    StemSuffixOfDotted(base, x2);
    if x1 != x2 {
      assert ("." + x1)[1..] == x1 && ("." + x2)[1..] == x2;
    }
  }

  /** The value argparse assigns to option `flag`: the argument after its
      last occurrence (a repeated option keeps its last value). */
  function OptionValue(args: seq<string>, flag: string): Option<string> {
    if |args| < 2 then None
    else if args[|args| - 2] == flag then Some(args[|args| - 1])
    else OptionValue(args[..|args| - 1], flag)
  }

  /** The argument at `from` follows `flag`, and neither it nor any later
      argument but the last equals `flag`: that argument is the flag's value. */
  lemma {:induction false} OptionValueAt(args: seq<string>, flag: string, from: nat)
    requires 0 < from < |args| && args[from - 1] == flag
    requires forall k :: from <= k < |args| - 1 ==> args[k] != flag
    ensures OptionValue(args, flag) == Some(args[from])
  {
    if from < |args| - 1 {
      var init := args[..|args| - 1];
      assert args[|args| - 2] != flag;
      OptionValueAt(init, flag, from);
    }
  }

  /** An argument argparse would read as an option rather than a value. */
  predicate LooksLikeOption(arg: string) {
    |arg| > 0 && arg[0] == '-'
  }

  /** Parsing the command line gives back the output directory and the task:
      the option values are the ones passed, provided the mode does not read
      as an option and the paths are absolute (as `resolve` makes them). */
  lemma CommandOptions(task: Task, outputDir: string)
    requires !LooksLikeOption(task.mode)
    requires IsAbs(outputDir) && IsAbs(task.style.resolved) && IsAbs(task.content.resolved)
    ensures OptionValue(Command(task, outputDir), "--results_dir") == Some(outputDir)
    ensures OptionValue(Command(task, outputDir), "--test_mode") == Some(task.mode)
    ensures OptionValue(Command(task, outputDir), "--s_image") == Some(task.style.resolved)
    ensures OptionValue(Command(task, outputDir), "--c_path") == Some(task.content.resolved)
  {
    var cmd := Command(task, outputDir);
    OptionValueAt(cmd, "--c_path", 36);
    OptionValueAt(cmd, "--s_image", 34);
    OptionValueAt(cmd, "--test_mode", 32);
    OptionValueAt(cmd, "--results_dir", 27);
  }

  /** `run_single_test`: the experiment name when the child exits with 0;
      otherwise the exception it raises. With `check=True` a non-zero exit
      raises, so the call never returns normally for a failed child. */
  function RunSingleTest(task: Task, resolvedRoot: string, outcome: ChildOutcome): (r: Result<string, TaskError>)
    ensures r.Success? <==> outcome.Exited? && outcome.code == 0
    ensures r.Success? ==> r.value == ExperimentName(task)
    ensures outcome.Exited? && outcome.code != 0 ==>
      r == Failure(CalledProcessError(outcome.code, Command(task, OutputDir(resolvedRoot, task))))
    ensures outcome.Raised? ==> r == Failure(OtherError(outcome.message))
  {
    match outcome
    case Raised(message) => Failure(OtherError(message))
    case Exited(code, _, _) =>
      if code != 0 then Failure(CalledProcessError(code, Command(task, OutputDir(resolvedRoot, task))))
      else Success(ExperimentName(task))
  }

  // ---------------------------------------------------------------------
  // Progress and the batch loop

  /** The part of the `tqdm` bar the loop drives: its total, its counter and
      the `current` postfix. */
  class ProgressBar {
    const total: nat
    var n: nat
    var current: Option<string>

    constructor (total: nat)
      ensures this.total == total && n == 0 && current == None
    {
      this.total := total;
      n := 0;
      current := None;
    }

    /** `pbar.update(k)`. */
    method Update(k: nat)
      modifies this
      ensures n == old(n) + k && current == old(current)
    {
      n := n + k;
    }

    /** `pbar.set_postfix(current=name)`. */
    method SetCurrent(name: string)
      modifies this
      ensures current == Some(name) && n == old(n)
    {
      current := Some(name);
    }
  }

  /** The name shown last: that of the last task that returned normally. */
  function LastSuccess(reports: seq<Result<string, TaskError>>): Option<string> {
    if reports == [] then None
    else if reports[|reports| - 1].Success? then Some(reports[|reports| - 1].value)
    else LastSuccess(reports[..|reports| - 1])
  }

  /** The shown name is some task's experiment name exactly when some task
      succeeded, and then it is the last successful one. */
  lemma {:induction false} LastSuccessIsLast(reports: seq<Result<string, TaskError>>)
    ensures LastSuccess(reports).None? <==> forall i :: 0 <= i < |reports| ==> reports[i].Failure?
    ensures LastSuccess(reports).Some? ==>
      exists i :: 0 <= i < |reports| && reports[i] == Success(LastSuccess(reports).value)
        && forall k :: i < k < |reports| ==> reports[k].Failure?
  {
    if reports != [] {
      var n := |reports|;
      var init := reports[..n - 1];
      LastSuccessIsLast(init);
      if reports[n - 1].Failure? {
        assert LastSuccess(reports) == LastSuccess(init);
        if LastSuccess(init).Some? {
          var i :| 0 <= i < |init| && init[i] == Success(LastSuccess(init).value)
            && forall k :: i < k < |init| ==> init[k].Failure?;
          assert reports[i] == init[i];
          forall k | i < k < n
            ensures reports[k].Failure?
          {
            if k < n - 1 {
              assert reports[k] == init[k];
            }
          }
        } else {
          forall k | 0 <= k < n
            ensures reports[k].Failure?
          {
            if k < n - 1 {
              assert reports[k] == init[k];
            }
          }
        }
      }
    }
  }

  /** What running each task produces: for every task, in order, the result
      of `run_single_test`; `outcome(i)` is what the child does on task `i`. */
  function BatchReports(tasks: seq<Task>, resolvedRoot: string, outcome: nat -> ChildOutcome)
    : seq<Result<string, TaskError>>
  {
    seq(|tasks|, i requires 0 <= i < |tasks| => RunSingleTest(tasks[i], resolvedRoot, outcome(i)))
  }

  /** The index of the first report whose failure message cannot be written:
      the task fails and `handlerRaises` says the `except` handler (building
      or writing the message) raises on it. */
  function Halt(reports: seq<Result<string, TaskError>>, handlerRaises: nat -> bool): (h: Option<nat>)
    ensures h.Some? ==> h.value < |reports|
  {
    if reports == [] then None
    else if Halt(reports[..|reports| - 1], handlerRaises).Some? then Halt(reports[..|reports| - 1], handlerRaises)
    else if reports[|reports| - 1].Failure? && handlerRaises(|reports| - 1) then Some(|reports| - 1)
    else None
  }

  /** No report halts the batch exactly when no failed task has a handler
      that raises; otherwise the batch halts at the first such task. */
  lemma {:induction false} HaltIsFirst(reports: seq<Result<string, TaskError>>, handlerRaises: nat -> bool)
    ensures Halt(reports, handlerRaises).None? <==>
      forall k :: 0 <= k < |reports| ==> !(reports[k].Failure? && handlerRaises(k))
    ensures Halt(reports, handlerRaises).Some? ==>
      var h := Halt(reports, handlerRaises).value;
      h < |reports| && reports[h].Failure? && handlerRaises(h)
      && forall k :: 0 <= k < h ==> !(reports[k].Failure? && handlerRaises(k))
  {
    if reports != [] {
      var n := |reports|;
      var init := reports[..n - 1];
      HaltIsFirst(init, handlerRaises);
      assert forall k :: 0 <= k < n - 1 ==> reports[k] == init[k];
    }
  }

  /** Once a prefix halts, every longer list halts at the same task. */
  lemma {:induction false} HaltPrefix(reports: seq<Result<string, TaskError>>, handlerRaises: nat -> bool, j: nat)
    requires j <= |reports| && Halt(reports[..j], handlerRaises).Some?
    ensures Halt(reports, handlerRaises) == Halt(reports[..j], handlerRaises)
  {
    if j < |reports| {
      var n := |reports|;
      assert reports[..n - 1][..j] == reports[..j];
      HaltPrefix(reports[..n - 1], handlerRaises, j);
    } else {
      assert reports[..j] == reports;
    }
  }

  /** The `for task_args in tasks` loop of `main`, inside `with tqdm`: run
      every task; a normal return updates the shown name, an exception is
      reported and swallowed, and the counter advances in `finally` either
      way. Only an exception raised by the handler itself ends the loop,
      after that task's counter step; `halted` says it happened. */
  method RunBatch(tasks: seq<Task>, resolvedRoot: string, outcome: nat -> ChildOutcome, handlerRaises: nat -> bool)
    returns (reports: seq<Result<string, TaskError>>, completed: nat, current: Option<string>, halted: bool)
    ensures var all := BatchReports(tasks, resolvedRoot, outcome);
      var h := Halt(all, handlerRaises);
      && (halted <==> h.Some?)
      && completed == (if h.Some? then h.value + 1 else |tasks|)
      && reports == all[..completed]
    ensures current == LastSuccess(reports)
  {
    ghost var all := BatchReports(tasks, resolvedRoot, outcome);
    var bar := new ProgressBar(|tasks|);
    reports := [];
    for i := 0 to |tasks|
      invariant bar.n == i
      invariant reports == all[..i]
      invariant Halt(reports, handlerRaises).None?
      invariant bar.current == LastSuccess(reports)
    {
      var result := RunSingleTest(tasks[i], resolvedRoot, outcome(i));
      if result.Success? {
        bar.SetCurrent(result.value);
      }
      bar.Update(1);
      assert all[..i + 1] == reports + [result];
      assert (reports + [result])[..i] == reports;
      reports := reports + [result];
      if result.Failure? && handlerRaises(i) {
        HaltPrefix(all, handlerRaises, i + 1);
        return reports, bar.n, bar.current, true;
      }
    }
    assert all[..|tasks|] == all;
    completed, current, halted := bar.n, bar.current, false;
  }

  /** Number of failed reports. */
  function Failed(reports: seq<Result<string, TaskError>>): nat {
    if reports == [] then 0
    else Failed(reports[..|reports| - 1]) + (if reports[|reports| - 1].Failure? then 1 else 0)
  }

  /** Number of tasks among the first `n` whose child does not exit with 0. */
  function BadOutcomes(outcome: nat -> ChildOutcome, n: nat): nat {
    if n == 0 then 0
    else BadOutcomes(outcome, n - 1) + (if outcome(n - 1).Exited? && outcome(n - 1).code == 0 then 0 else 1)
  }

  /** A batch reports one failure per task whose child raised or exited
      non-zero, and a success for every other task. */
  lemma {:induction false} FailedCount(tasks: seq<Task>, resolvedRoot: string, outcome: nat -> ChildOutcome)
    ensures Failed(BatchReports(tasks, resolvedRoot, outcome)) == BadOutcomes(outcome, |tasks|)
  {
    if tasks != [] {
      var n := |tasks|;
      var reports := BatchReports(tasks, resolvedRoot, outcome);
      assert reports[..n - 1] == BatchReports(tasks[..n - 1], resolvedRoot, outcome);
      FailedCount(tasks[..n - 1], resolvedRoot, outcome);
    }
  }

  /** `main`: content roots, style groups, the task list, then the batch. */
  method RunExperiments(testEntries: seq<Entry>, refs: seq<RefDir>, resolvedRoot: string,
                        outcome: nat -> ChildOutcome, handlerRaises: nat -> bool)
    returns (tasks: seq<Task>, reports: seq<Result<string, TaskError>>, completed: nat, current: Option<string>,
             halted: bool)
    ensures tasks == CrossProduct(ContentRoots(testEntries), StyleGroups(refs))
    ensures |tasks| == |ContentRoots(testEntries)| * |StyleGroups(refs)|
    ensures var all := BatchReports(tasks, resolvedRoot, outcome);
      var h := Halt(all, handlerRaises);
      && (halted <==> h.Some?)
      && completed == (if h.Some? then h.value + 1 else |tasks|)
      && reports == all[..completed]
    ensures current == LastSuccess(reports)
  {
    var testFolders := ContentRoots(testEntries);
    var styleGroups := CollectStyleGroups(refs);
    tasks := BuildTasks(testFolders, styleGroups);
    CrossProductLength(testFolders, styleGroups);
    reports, completed, current, halted := RunBatch(tasks, resolvedRoot, outcome, handlerRaises);
  }
}
