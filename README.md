# Sunny-to-diverse-weather path pairing and batch experiment driver

This project models two pieces of the TSIT-based multi-modal image synthesis
code.

- The `sunny2diffweathers` dataset's path pairing
  (`data/sunny2diffweathers_dataset.py`) decides the content images and the
  style images that form the training or test pairs:
  - which weather modes are active;
  - how manifest files and a recursive directory scan become path lists;
  - how the style list is concatenated over modes and then doubled until it
    covers the content list;
  - how both lists are cut to a common length.
- The batch experiment driver (`experiment_script.py`):
  - finds the content folders and the style images grouped by weather mode;
  - builds the content-major cross product of tasks;
  - names each task, and builds the `test.py` command line for it;
  - runs the tasks in order. The failure of a task is reported and
    swallowed, unless reporting it raises in turn, which ends the batch.

Files are not read and no process is started. The filesystem and the child
process are inputs to the model:

- A manifest is given by its lines, keyed by the path it is opened at.
- `os.walk` of a directory is given as its (directory, file names) steps.
- `Path.iterdir()` and `Path.glob("*")` are given as entry lists. Each entry
  has its name, its `resolve()`d path and whether it is a directory.
- The child process is given as a function from task index to outcome. The
  child either exits with a code, or some step of the task raises.
- Whether the `except` handler raises on a task is given as a function from
  task index to a flag. `str(e)` or `tqdm.write` can raise, for instance on
  a stream that cannot encode the message.

Modules:

- `Wrappers`: `Option` and `Result`.
- `PathText`: the POSIX `os.path` and `pathlib` string helpers used by the
  core: `join`, `abspath`, `splitext`, `suffix`, `stem`, `lower`.
- `Keeping`: filter-map (`[f(x) for x in xs if keep(x)]`) and flattening,
  with their membership, snoc and append lemmas.
- `Sunny2DiffWeathers`: `get_paths`, `get_image_paths_recursive`,
  `paths_match`.
- `Experiment`: `run_single_test` and `main`. The `tqdm` counter is a small
  class whose fields the loop updates.

The loops of the source are methods with loop invariants. Each is proved
equal to a specification function, and the properties are lemmas about
those functions.

Where the code and the documented design of the system differ, the model
follows the code:

- An unknown `--test_mode` is not an error. Its manifest is opened like any
  other, and the run fails only if that file is missing (`SingleModeStyles`).
- A non-zero exit of the child is not recorded as a failed result.
  `subprocess.run(..., check=True)` raises `CalledProcessError`, so the
  "failed" branch of the log (experiment_script.py:70-72) is never reached.
  `RunSingleTest` returns the name only on exit code 0.
- Task output directories are not task-exclusive. The name uses the style
  image's stem, so `a.jpg` and `a.png` in one mode directory share an output
  directory (`OutputDirShared`). The name does determine the content folder,
  the mode and the stem when folder names and modes contain no underscore
  (`ExperimentNameInjective`).
- Paths are joined as strings. `abspath` does not normalise them (see
  "Left out").
- Listing order is whatever the listing gives. It is not sorted.

## Model

| member | source | states |
|---|---|---|
| PathText.JoinShape | data/sunny2diffweathers_dataset.py:32 | `os.path.join`: an absolute component replaces the base; a relative one follows the base after at most one inserted `/` |
| PathText.SplitExtShape | data/sunny2diffweathers_dataset.py:30 | `os.path.splitext`: root and extension rebuild the path; a non-empty extension is one dot with no further dot or `/`, preceded by a real name character |
| PathText.StemSuffix | experiment_script.py:14 | `stem + suffix` is the name; a non-empty suffix is a dot and at least one more character, with no further dot, and never the whole name |
| PathText.SuffixOfLower | experiment_script.py:91 | the suffix of the lower-cased name is the lower-cased suffix |
| Sunny2DiffWeathers.ModeList | data/sunny2diffweathers_dataset.py:49-52 | train phase or `all` gives the four modes in fixed order; otherwise exactly `[test_mode]`; a single mode exactly in the second case |
| Sunny2DiffWeathers.SingleModeStyles | data/sunny2diffweathers_dataset.py:49-61 | an arbitrary mode string is accepted: the style list is that mode's manifest, and the run fails only when that manifest is missing |
| Sunny2DiffWeathers.ManifestPathsMembers | data/sunny2diffweathers_dataset.py:45-47 | a manifest yields a path exactly when some non-empty line joined to the root gives it; whitespace lines count as non-empty |
| Sunny2DiffWeathers.ManifestPathsLength | data/sunny2diffweathers_dataset.py:46-47 | one path per line, less the lines equal to `''` |
| Sunny2DiffWeathers.ManifestPathsAppend | data/sunny2diffweathers_dataset.py:47 | the paths of a split manifest are the paths of its parts, in file order |
| Sunny2DiffWeathers.StepImagesMembers | data/sunny2diffweathers_dataset.py:29-33 | a walk step yields a path exactly when one of its files has a lower-cased extension in the seven-element set and that file's absolute path is the path |
| Sunny2DiffWeathers.ScanPathsMembers | data/sunny2diffweathers_dataset.py:28-33 | the scan yields a path exactly when some walk step yields it |
| Sunny2DiffWeathers.ScanPathsAppend | data/sunny2diffweathers_dataset.py:28-34 | the scan keeps traversal order: walking `a` then `b` yields `a`'s paths then `b`'s |
| Sunny2DiffWeathers.GetImagePathsRecursive | data/sunny2diffweathers_dataset.py:24-34 | the nested append loops return exactly the scan's path list |
| Sunny2DiffWeathers.StyleConcatAppend | data/sunny2diffweathers_dataset.py:56-61 | the style list of modes `a + b` is `a`'s list followed by `b`'s, with no interleaving, and succeeds exactly when both do |
| Sunny2DiffWeathers.StyleConcatStopsAtFailure | data/sunny2diffweathers_dataset.py:57-58 | once a mode's manifest is missing, later modes change nothing |
| Sunny2DiffWeathers.StyleConcatFailure | data/sunny2diffweathers_dataset.py:57-61 | the style list is built exactly when every mode's manifest exists; otherwise the error names the first missing manifest |
| Sunny2DiffWeathers.CollectStyles | data/sunny2diffweathers_dataset.py:57-61 | the `for mode` loop with `extend` returns the concatenated style list, or the first missing manifest |
| Sunny2DiffWeathers.RepeatLength | data/sunny2diffweathers_dataset.py:64 | `n` copies of a list have `n` times its length |
| Sunny2DiffWeathers.RepeatAdd | data/sunny2diffweathers_dataset.py:64 | `a + b` copies are `a` copies followed by `b` copies, so self-concatenation doubles the copy count |
| Sunny2DiffWeathers.RepeatAt | data/sunny2diffweathers_dataset.py:63-64 | entry `i` of the repeated list is entry `i mod |s|` of the original |
| Sunny2DiffWeathers.Replicate | data/sunny2diffweathers_dataset.py:63-64 | the doubling loop ends, on non-empty input or zero target, with `2^k` copies, at least the target length, unchanged if long enough, under twice the target otherwise, and periodic in the original |
| Sunny2DiffWeathers.Align | data/sunny2diffweathers_dataset.py:66-71 | both lists are cut to the common minimum length, as prefixes, with an empty instance list |
| Sunny2DiffWeathers.GetPaths | data/sunny2diffweathers_dataset.py:36-71 | the content list comes back whole; style entry `i` is the reference image or entry `i mod |S0|` of the concatenated manifests; both lists have equal length; a missing manifest is the error; an empty style list with content is the non-terminating case |
| Sunny2DiffWeathers.PathsMatch | data/sunny2diffweathers_dataset.py:73-74 | every pair of paths matches |
| Experiment.ContentRootsMembers | experiment_script.py:82 | the content roots are exactly the directory entries of the test directory |
| Experiment.IsStyleImageBySuffix | experiment_script.py:91 | the style-image test is the lower-cased suffix's membership in `.jpg`, `.jpeg`, `.png` |
| Experiment.DirGroupsMembers | experiment_script.py:89-92 | a style directory contributes exactly its listed style images, each labelled with the directory's name |
| Experiment.StyleGroupsMembers | experiment_script.py:86-92 | a group is collected exactly when a directory entry of the reference directory contributes it; non-directories contribute nothing |
| Experiment.StyleGroupsLabelled | experiment_script.py:86-92 | every group's directory is a directory entry of the reference directory, its mode is that directory's name and its image is a style image listed in it |
| Experiment.CollectStyleGroups | experiment_script.py:83-92 | the loop with `continue` and `append` returns exactly the specified style groups |
| Experiment.CrossProductAppend | experiment_script.py:95-102 | the tasks of folders `a + b` are `a`'s tasks then `b`'s: content-major order |
| Experiment.CrossProductSplit | experiment_script.py:95-102 | the row of folder `i` sits between the tasks of the earlier and of the later folders |
| Experiment.CrossProductAtOffset | experiment_script.py:95-102 | group `j` of folder `i` is the task right after the earlier folders' tasks and the `j` earlier groups |
| Experiment.CrossProductAt | experiment_script.py:95-102 | task `i*|G| + j` is `(folder[i], G[j].img, G[j].mode)` |
| Experiment.CrossProductLength | experiment_script.py:95-102 | there are `|folders| * |groups|` tasks |
| Experiment.BuildTasks | experiment_script.py:95-102 | the nested append loops return exactly the cross product |
| Experiment.ExperimentNameInjective | experiment_script.py:13-15 | with no underscore in folder names and modes, equal experiment names mean equal folder name, mode and style stem |
| PathText.LastIndexOfAppend | experiment_script.py:14 | appending text without the character leaves its last occurrence where it was |
| PathText.StemSuffixOfDotted | experiment_script.py:14 | `base.x`, with a non-empty base and a non-empty, dot-free `x`, has stem `base` and suffix `.x` |
| Experiment.OutputDirShared | experiment_script.py:14-17 | for any content folder, mode, non-empty base and dot-free non-empty `x1`, `x2`: style images `base.x1` and `base.x2` give one output directory, though the tasks differ when `x1 != x2` |
| Experiment.CommandOptions | experiment_script.py:20-41 | parsing the command line gives back the output directory, the mode, the style image and the content folder, for absolute paths and a mode that does not look like an option |
| Experiment.RunSingleTest | experiment_script.py:11-77 | returns the experiment name exactly on exit code 0; a non-zero exit raises `CalledProcessError` with that code and the command; any other exception propagates |
| Experiment.ProgressBar.constructor | experiment_script.py:106 | the bar starts at zero with no current name |
| Experiment.ProgressBar.Update | experiment_script.py:115 | `update(k)` adds `k` to the counter and leaves the name |
| Experiment.ProgressBar.SetCurrent | experiment_script.py:111 | `set_postfix` sets the name and leaves the counter |
| Experiment.HaltIsFirst | experiment_script.py:107-115 | the batch halts exactly when some failed task's handler raises, and then at the first such task |
| Experiment.HaltPrefix | experiment_script.py:107-115 | a halt among the first tasks is the halt of the whole batch: later tasks cannot change it |
| Experiment.RunBatch | experiment_script.py:106-115 | tasks run in order, each result is that of `run_single_test`, and a failure is swallowed; the loop stops right after the first failed task whose handler raises, with the counter stepped for it, and otherwise the counter ends at the task count; the shown name is that of the last task that returned |
| Experiment.LastSuccessIsLast | experiment_script.py:110-111 | no name is shown exactly when every task failed; otherwise the name is that of a successful task after which all failed |
| Experiment.FailedCount | experiment_script.py:107-113 | the number of failures reported is the number of tasks whose child raised or exited non-zero |
| Experiment.RunExperiments | experiment_script.py:80-117 | `main` runs the cross product of content roots and style groups, `|roots| * |groups|` tasks, with one report per task run; it runs them all unless a handler raises, and then it stops after the first such task |

## Left out

- Reading files. Manifest lines are given after `splitlines()`. Line-ending
  handling is not modelled.
- Real directory traversal. `os.walk`, `Path.iterdir` and `Path.glob("*")`
  are given as sequences, in the order the operating system lists them.
  Hidden-file and symlink behaviour is not modelled. A missing test or
  reference directory is not modelled either. There `iterdir()` raises
  `FileNotFoundError` before any task exists, and `main` stops;
  `RunExperiments` always has listings to work on.
- `PathText.Abspath` does not apply `normpath`: `.`, `..` and repeated
  separators are kept.
- `PathText.Lower` lower-cases ASCII letters only. Python's `str.lower`
  also maps other Unicode letters.
- `resolve()` is not computed. Each entry carries its resolved path, and the
  results root is passed already resolved. Joining the name under the
  resolved root stands for resolving the joined path.
- `Experiment.CommandOptions` states the parse only for absolute paths and a
  mode that does not start with `-`. Other values could read as options.
- `Experiment.Command`: the fixed arguments (`--batchSize 1`,
  `--dataset_mode sunny2diffweathers` and the rest) are stated only by the
  definition, not by a lemma.
- `Sunny2DiffWeathers.ScanPathsMembers` says which paths appear. How many
  times each appears follows from `GetImagePathsRecursive`'s exact result,
  not from a counting lemma.
- `Sunny2DiffWeathers.GetPaths` cannot hang. Where the source's doubling
  loop never ends (empty style list, non-empty content list), the model
  returns `LoopsForever`.
- Creating the output directory, writing the log file, its timestamp and
  text, the child's working directory, and the captured stdout and stderr.
  These are I/O, and any exception they raise is an outcome of the task.
- The text of the exceptions (`str(e)`), `tqdm.write`, `print` and the
  rendering of the progress bar. Only the counter and the shown name are
  modelled.
- `KeyboardInterrupt` and other `BaseException`s that `except Exception`
  does not catch. The only outcome that ends the batch early is a handler
  that raises.
- The option defaults of `modify_commandline_options`, and the
  `Pix2pixDataset` base class, which is not part of this model.
- The command-line entry point of the script, and the unused
  `ThreadPoolExecutor` import and `max_workers` parameter. The entry point
  reads `args.max_workers`, an option it never defines.
