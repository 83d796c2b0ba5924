/** The content/style path pairing of the `sunny2diffweathers` dataset:
    which weather modes are active, how manifests and directory scans become
    path lists, how the style list is grown by self-concatenation, and how
    both lists are cut to a common length.

    Files are not read: a manifest is given by its lines (after
    `splitlines`), keyed by the path it would be opened at, and `os.walk` of a
    directory is given as its sequence of (directory, file names) steps. */
module Sunny2DiffWeathers {
  import opened Wrappers
  import opened PathText
  import opened Keeping

  /** The fixed mode order used in training and with `--test_mode all`. */
  const AllModes: seq<string> := ["night", "cloudy", "rainy", "snowy"]

  /** Extensions accepted by the recursive content scan (compared lower-cased). */
  const ImageExtensions: set<string> := {".jpg", ".jpeg", ".png", ".gif", ".bmp", ".tiff", ".webp"}

  /** Directory of the manifests, relative to the content or style root. */
  const ListDir: string := "bdd100k_lists/sunny2diffweathers/"

  /** The options `get_paths` reads. An empty `sImage` or `cPath` stands for
      an option that is unset (Python's `None` or `''`, both falsy). */
  datatype Options = Options(
    croot: string,
    sroot: string,
    sImage: string,
    cPath: string,
    phase: string,
    testMode: string)

  /** One step of `os.walk`: a directory and the names of the files in it. */
  datatype WalkStep = WalkStep(root: string, files: seq<string>)

  /** What the filesystem answers: manifest lines by path, the walk of each
      directory (a directory not listed walks as empty, as `os.walk` yields
      nothing for a missing directory), and the working directory. */
  datatype FileSystem = FileSystem(
    manifests: map<string, seq<string>>,
    walks: map<string, seq<WalkStep>>,
    cwd: string)

  /** `ManifestNotFound` is the `FileNotFoundError` of `open`; `LoopsForever`
      marks the input on which the doubling loop never ends. */
  datatype PathsError = ManifestNotFound(path: string) | LoopsForever

  /** The triple `get_paths` returns. */
  datatype PathLists = PathLists(content: seq<string>, style: seq<string>, instance: seq<string>)

  function Walk(fs: FileSystem, dir: string): seq<WalkStep> {
    if dir in fs.walks then fs.walks[dir] else []
  }

  // ---------------------------------------------------------------------
  // Mode selection

  /** The active weather modes: all four in training or for `all`, otherwise
      exactly the requested one, whatever string it is. */
  function ModeList(phase: string, testMode: string): (modes: seq<string>)
    ensures phase == "train" ==> modes == AllModes
    ensures testMode == "all" ==> modes == AllModes
    ensures phase != "train" && testMode != "all" ==> modes == [testMode]
    ensures |modes| == 1 <==> phase != "train" && testMode != "all"
  {
    if phase == "train" || testMode == "all" then AllModes else [testMode]
  }

  // ---------------------------------------------------------------------
  // Manifests

  function ContentManifestPath(croot: string, phase: string): string {
    Join(croot, ListDir + "sunny_" + phase + ".txt")
  }

  function StyleManifestPath(sroot: string, mode: string, phase: string): string {
    Join(sroot, ListDir + mode + "_" + phase + ".txt")
  }

  /** A manifest line names a path unless it is the empty string; lines of
      blanks are kept. */
  predicate IsListed(line: string) {
    line != ""
  }

  /** The path a manifest line becomes under `root`. */
  function JoinTo(root: string): string -> string {
    line => Join(root, line)
  }

  /** The paths a manifest names: each listed line joined to the root, in
      file order. */
  function ManifestPaths(root: string, lines: seq<string>): seq<string> {
    Keep(lines, IsListed, JoinTo(root))
  }

  /** A manifest yields a path exactly when some non-empty line joins to it. */
  lemma ManifestPathsMembers(root: string, lines: seq<string>, p: string)
    ensures p in ManifestPaths(root, lines) <==>
      exists i :: 0 <= i < |lines| && lines[i] != "" && p == Join(root, lines[i])
  {
    KeepMembers(lines, IsListed, JoinTo(root), p);
  }

  /** One path per line, less the empty lines. */
  lemma {:induction false} ManifestPathsLength(root: string, lines: seq<string>)
    ensures |ManifestPaths(root, lines)| == |lines| - multiset(lines)[""]
  {
    if lines != [] {
      var init := lines[..|lines| - 1];
      ManifestPathsLength(root, init);
      assert lines == init + [lines[|lines| - 1]];
      assert multiset(lines) == multiset(init) + multiset{lines[|lines| - 1]};
    }
  }

  /** Splitting a manifest splits its paths: the order of the paths is the
      order of the lines. */
  lemma ManifestPathsAppend(root: string, a: seq<string>, b: seq<string>)
    ensures ManifestPaths(root, a + b) == ManifestPaths(root, a) + ManifestPaths(root, b)
  {
    KeepAppend(a, b, IsListed, JoinTo(root));
  }

  // ---------------------------------------------------------------------
  // Recursive content scan

  /** True when the lower-cased `os.path.splitext` extension is an image one. */
  predicate IsImageFile(file: string) {
    Lower(SplitExt(file).1) in ImageExtensions
  }

  /** The absolute path `os.walk` and `abspath` give a file of a step. */
  function FilePath(root: string, file: string, cwd: string): string {
    Abspath(Join(root, file), cwd)
  }

  /** The path a file name of a walk step becomes. */
  function PathIn(root: string, cwd: string): string -> string {
    file => FilePath(root, file, cwd)
  }

  /** The absolute paths of the image files of one walk step, in order. */
  function StepImages(root: string, files: seq<string>, cwd: string): seq<string> {
    Keep(files, IsImageFile, PathIn(root, cwd))
  }

  /** The image paths of one walk step. */
  function StepImagesIn(cwd: string): WalkStep -> seq<string> {
    (step: WalkStep) => StepImages(step.root, step.files, cwd)
  }

  /** The paths a whole walk yields, step after step. */
  function ScanPaths(walk: seq<WalkStep>, cwd: string): seq<string> {
    ConcatMap(walk, StepImagesIn(cwd))
  }

  /** A step yields a path exactly when one of its files has an image
      extension and that file's absolute path is the path. */
  lemma StepImagesMembers(root: string, files: seq<string>, cwd: string, p: string)
    ensures p in StepImages(root, files, cwd) <==>
      exists j :: 0 <= j < |files| && IsImageFile(files[j]) && p == FilePath(root, files[j], cwd)
  {
    KeepMembers(files, IsImageFile, PathIn(root, cwd), p);
  }

  /** The scan yields a path exactly when some walk step yields it. */
  lemma ScanPathsMembers(walk: seq<WalkStep>, cwd: string, p: string)
    ensures p in ScanPaths(walk, cwd) <==>
      exists i :: 0 <= i < |walk| && p in StepImages(walk[i].root, walk[i].files, cwd)
  {
    ConcatMapMembers(walk, StepImagesIn(cwd), p);
  }

  /** Walking `a` then `b` yields the paths of `a` then those of `b`. */
  lemma {:induction false} ScanPathsAppend(a: seq<WalkStep>, b: seq<WalkStep>, cwd: string)
    ensures ScanPaths(a + b, cwd) == ScanPaths(a, cwd) + ScanPaths(b, cwd)
  {
    if b == [] {
      assert a + b == a;
    } else {
      var init := b[..|b| - 1];
      assert (a + b)[..|a + b| - 1] == a + init;
      ScanPathsAppend(a, init, cwd);
    }
  }

  /** `get_image_paths_recursive`: appends, for every walk step and every
      file in it, the absolute path of each image file. */
  method GetImagePathsRecursive(walk: seq<WalkStep>, cwd: string) returns (paths: seq<string>)
    ensures paths == ScanPaths(walk, cwd)
  {
    paths := [];
    for i := 0 to |walk|
      invariant paths == ScanPaths(walk[..i], cwd)
    {
      var step := walk[i];
      for j := 0 to |step.files|
        invariant paths == ScanPaths(walk[..i], cwd) + StepImages(step.root, step.files[..j], cwd)
      {
        var file := step.files[j];
        KeepSnoc(step.files, j, IsImageFile, PathIn(step.root, cwd));
        if Lower(SplitExt(file).1) in ImageExtensions {
          paths := paths + [FilePath(step.root, file, cwd)];
        }
      }
      assert step.files[..|step.files|] == step.files;
      ConcatMapSnoc(walk, i, StepImagesIn(cwd));
    }
    assert walk[..|walk|] == walk;
  }

  // ---------------------------------------------------------------------
  // Style list

  /** The style paths of the given modes, manifest after manifest in mode
      order; the first mode whose manifest is missing is the error. */
  function StyleConcat(sroot: string, phase: string, modes: seq<string>, manifests: map<string, seq<string>>)
    : Result<seq<string>, PathsError>
  {
    if modes == [] then Success([])
    else ExtendWith(StyleConcat(sroot, phase, modes[..|modes| - 1], manifests), sroot, phase, modes[|modes| - 1], manifests)
  }

  /** One turn of the mode loop: open the mode's manifest and extend. */
  function ExtendWith(acc: Result<seq<string>, PathsError>, sroot: string, phase: string, mode: string,
                      manifests: map<string, seq<string>>): Result<seq<string>, PathsError>
  {
    if acc.Failure? then acc
    else
      var path := StyleManifestPath(sroot, mode, phase);
      if path in manifests then Success(acc.value + ManifestPaths(sroot, manifests[path]))
      else Failure(ManifestNotFound(path))
  }

  /** The style list of `a + b` is that of `a` followed by that of `b`:
      modes are concatenated whole, never interleaved. */
  lemma {:induction false} StyleConcatAppend(sroot: string, phase: string, a: seq<string>, b: seq<string>,
                                            manifests: map<string, seq<string>>)
    ensures StyleConcat(sroot, phase, a + b, manifests).Success? <==>
      StyleConcat(sroot, phase, a, manifests).Success? && StyleConcat(sroot, phase, b, manifests).Success?
    ensures StyleConcat(sroot, phase, a + b, manifests).Success? ==>
      StyleConcat(sroot, phase, a + b, manifests).value
        == StyleConcat(sroot, phase, a, manifests).value + StyleConcat(sroot, phase, b, manifests).value
  {
    if b == [] {
      assert a + b == a;
    } else {
      var b', mode := b[..|b| - 1], b[|b| - 1];
      assert (a + b)[..|a + b| - 1] == a + b';
      assert (a + b)[|a + b| - 1] == mode;
      StyleConcatAppend(sroot, phase, a, b', manifests);
      var left := StyleConcat(sroot, phase, a + b', manifests);
      var right := StyleConcat(sroot, phase, b', manifests);
      assert StyleConcat(sroot, phase, a + b, manifests) == ExtendWith(left, sroot, phase, mode, manifests);
      assert StyleConcat(sroot, phase, b, manifests) == ExtendWith(right, sroot, phase, mode, manifests);
      var path := StyleManifestPath(sroot, mode, phase);
      if left.Success? && path in manifests {
        var tail := ManifestPaths(sroot, manifests[path]);
        assert left.value + tail == StyleConcat(sroot, phase, a, manifests).value + (right.value + tail);
      }
    }
  }

  /** Once a mode's manifest is missing, later modes change nothing: the
      error stands and no later manifest is consulted. */
  lemma {:induction false} StyleConcatStopsAtFailure(sroot: string, phase: string, a: seq<string>, b: seq<string>,
                                                    manifests: map<string, seq<string>>)
    requires StyleConcat(sroot, phase, a, manifests).Failure?
    ensures StyleConcat(sroot, phase, a + b, manifests) == StyleConcat(sroot, phase, a, manifests)
  {
    if b == [] {
      assert a + b == a;
    } else {
      var b' := b[..|b| - 1];
      assert (a + b)[..|a + b| - 1] == a + b';
      StyleConcatStopsAtFailure(sroot, phase, a, b', manifests);
    }
  }

  /** Construction fails exactly when some mode's manifest is missing, and
      then it names the first missing one. */
  lemma {:induction false} StyleConcatFailure(sroot: string, phase: string, modes: seq<string>,
                                             manifests: map<string, seq<string>>)
    ensures StyleConcat(sroot, phase, modes, manifests).Success? <==>
      forall k :: 0 <= k < |modes| ==> StyleManifestPath(sroot, modes[k], phase) in manifests
    ensures StyleConcat(sroot, phase, modes, manifests).Failure? ==>
      exists k :: 0 <= k < |modes|
        && StyleManifestPath(sroot, modes[k], phase) !in manifests
        && StyleConcat(sroot, phase, modes, manifests).error == ManifestNotFound(StyleManifestPath(sroot, modes[k], phase))
        && forall j :: 0 <= j < k ==> StyleManifestPath(sroot, modes[j], phase) in manifests
  {
    if modes != [] {
      var init := modes[..|modes| - 1];
      StyleConcatFailure(sroot, phase, init, manifests);
      assert forall k :: 0 <= k < |init| ==> init[k] == modes[k];
    }
  }

  /** Outside training and `all`, the mode string is not checked against
      the known modes: the style list is the manifest of whatever mode was
      asked for, and fails only when that manifest is missing. */
  lemma SingleModeStyles(sroot: string, phase: string, testMode: string, manifests: map<string, seq<string>>)
    requires phase != "train" && testMode != "all"
    ensures var path := StyleManifestPath(sroot, testMode, phase);
      StyleConcat(sroot, phase, ModeList(phase, testMode), manifests)
        == if path in manifests then Success(ManifestPaths(sroot, manifests[path]))
           else Failure(ManifestNotFound(path))
  {
    var modes := ModeList(phase, testMode);
    var path := StyleManifestPath(sroot, testMode, phase);
    assert modes[..|modes| - 1] == [] && modes[|modes| - 1] == testMode;
    if path in manifests {
      assert [] + ManifestPaths(sroot, manifests[path]) == ManifestPaths(sroot, manifests[path]);
    }
  }

  /** `CollectStyles` runs the `for mode in mode_list` loop: open each mode's
      manifest in turn and extend the list with its paths. */
  method CollectStyles(sroot: string, phase: string, modes: seq<string>, manifests: map<string, seq<string>>)
    returns (res: Result<seq<string>, PathsError>)
    ensures res == StyleConcat(sroot, phase, modes, manifests)
  {
    var styles: seq<string> := [];
    for i := 0 to |modes|
      invariant StyleConcat(sroot, phase, modes[..i], manifests) == Success(styles)
    {
      assert modes[..i + 1][..i] == modes[..i];
      var path := StyleManifestPath(sroot, modes[i], phase);
      if path !in manifests {
        assert modes[..i + 1][i] == modes[i];
        assert StyleConcat(sroot, phase, modes[..i + 1], manifests) == Failure(ManifestNotFound(path));
        StyleConcatStopsAtFailure(sroot, phase, modes[..i + 1], modes[i + 1..], manifests);
        assert modes[..i + 1] + modes[i + 1..] == modes;
        return Failure(ManifestNotFound(path));
      }
      styles := styles + ManifestPaths(sroot, manifests[path]);
    }
    assert modes[..|modes|] == modes;
    return Success(styles);
  }

  // ---------------------------------------------------------------------
  // Doubling

  function Pow2(k: nat): (r: nat)
    ensures r >= 1
  {
    if k == 0 then 1 else 2 * Pow2(k - 1)
  }

  /** `n` copies of `s`, one after another. */
  function Repeat(s: seq<string>, n: nat): (r: seq<string>)
  {
    if n == 0 then [] else Repeat(s, n - 1) + s
  }

  lemma {:induction false} RepeatLength(s: seq<string>, n: nat)
    ensures |Repeat(s, n)| == n * |s|
  {
    if n > 0 {
      RepeatLength(s, n - 1);
    }
  }

  lemma {:induction false} RepeatAdd(s: seq<string>, a: nat, b: nat)
    ensures Repeat(s, a + b) == Repeat(s, a) + Repeat(s, b)
  {
    if b > 0 {
      RepeatAdd(s, a, b - 1);
    }
  }

  lemma ModBelow(q: nat, m: nat, j: nat)
    requires j < m
    ensures (q * m + j) % m == j
  {
    var x := q * m + j;
    var d, r := x / m, x % m;
    assert x == d * m + r;
    assert (q - d) * m == r - j;
    if q - d >= 1 {
      assert false;
    } else if q - d <= -1 {
      assert false;
    }
  }

  /** Every copy lines up with the original: entry `i` is `s[i mod |s|]`. */
  lemma {:induction false} RepeatAt(s: seq<string>, n: nat, i: nat)
    requires i < |Repeat(s, n)|
    ensures |s| > 0 && Repeat(s, n)[i] == s[i % |s|]
  {
    RepeatLength(s, n);
    RepeatLength(s, n - 1);
    var front := Repeat(s, n - 1);
    if i < |front| {
      RepeatAt(s, n - 1, i);
    } else {
      ModBelow(n - 1, |s|, i - (n - 1) * |s|);
    }
  }

  /** The `while len(s_image_paths) < len(c_image_paths)` loop: double the
      list by appending it to itself until it is at least `target` long.
      The loop only ends when the list is non-empty or the target is zero.
      The ghost `k` is the number of doublings. */
  method Replicate(s0: seq<string>, target: nat) returns (s: seq<string>, ghost k: nat)
    requires |s0| > 0 || target == 0
    ensures s == Repeat(s0, Pow2(k)) && |s| == Pow2(k) * |s0|
    ensures |s| >= target
    ensures |s0| >= target ==> s == s0
    ensures |s0| < target ==> |s| < 2 * target
    ensures |s0| > 0 ==> forall i :: 0 <= i < |s| ==> s[i] == s0[i % |s0|]
  {
    s, k := s0, 0;
    assert Repeat(s0, 1) == s0 by { assert Repeat(s0, 0) == []; }
    RepeatLength(s0, 1);
    while |s| < target
      invariant s == Repeat(s0, Pow2(k))
      invariant |s| >= |s0|
      invariant k > 0 ==> |s| < 2 * target && |s0| < target
      decreases target - |s|
    {
      RepeatAdd(s0, Pow2(k), Pow2(k));
      RepeatLength(s0, Pow2(k));
      s, k := s + s, k + 1;
    }
    RepeatLength(s0, Pow2(k));
    if |s0| > 0 {
      forall i | 0 <= i < |s|
        ensures s[i] == s0[i % |s0|]
      {
        RepeatAt(s0, Pow2(k), i);
      }
    }
  }

  // ---------------------------------------------------------------------
  // Pairing

  /** The end of `get_paths`: cut both lists to their common length, keeping prefixes,
      and add the always-empty instance list. */
  function Align(c: seq<string>, s: seq<string>): (r: PathLists)
    ensures |r.content| == |r.style| && (|r.content| == |c| || |r.content| == |s|)
    ensures |r.content| <= |c| && |r.content| <= |s|
    ensures r.content <= c && r.style <= s
    ensures r.instance == []
  {
    var length := if |c| <= |s| then |c| else |s|;
    PathLists(c[..length], s[..length], [])
  }

  /** The content list before pairing: a recursive scan when `c_path` is
      set, otherwise the content manifest. */
  function ContentPaths(opt: Options, fs: FileSystem): Result<seq<string>, PathsError> {
    if opt.cPath != "" then
      Success(ScanPaths(Walk(fs, opt.cPath), fs.cwd))
    else
      var path := ContentManifestPath(opt.croot, opt.phase);
      if path in fs.manifests then Success(ManifestPaths(opt.croot, fs.manifests[path]))
      else Failure(ManifestNotFound(path))
  }

  /** The style list before doubling, when no reference image is given. */
  function StyleBase(opt: Options, fs: FileSystem): Result<seq<string>, PathsError> {
    StyleConcat(opt.sroot, opt.phase, ModeList(opt.phase, opt.testMode), fs.manifests)
  }

  /** `get_paths`. On every input that terminates the content list comes back
      whole, and style entry `i` is either the reference image or entry
      `i mod |S0|` of the concatenated mode manifests `S0`. */
  method GetPaths(opt: Options, fs: FileSystem) returns (res: Result<PathLists, PathsError>)
    ensures res.Success? ==> |res.value.content| == |res.value.style| && res.value.instance == []
    ensures ContentPaths(opt, fs).Failure? ==> res == Failure(ContentPaths(opt, fs).error)
    ensures ContentPaths(opt, fs).Success? && opt.sImage != "" ==>
      res.Success? && res.value.content == ContentPaths(opt, fs).value
      && forall i :: 0 <= i < |res.value.style| ==> res.value.style[i] == opt.sImage
    ensures ContentPaths(opt, fs).Success? && opt.sImage == "" && StyleBase(opt, fs).Failure? ==>
      res == Failure(StyleBase(opt, fs).error)
    ensures ContentPaths(opt, fs).Success? && opt.sImage == "" && StyleBase(opt, fs).Success? ==>
      var c := ContentPaths(opt, fs).value;
      var s0 := StyleBase(opt, fs).value;
      (s0 == [] && c != [] ==> res == Failure(LoopsForever))
      && (s0 != [] || c == [] ==>
            res.Success? && res.value.content == c
            && forall i :: 0 <= i < |c| ==> res.value.style[i] == s0[i % |s0|])
  {
    var c: seq<string>;
    if opt.cPath != "" {
      c := GetImagePathsRecursive(Walk(fs, opt.cPath), fs.cwd);
    } else {
      var listPath := ContentManifestPath(opt.croot, opt.phase);
      if listPath !in fs.manifests {
        return Failure(ManifestNotFound(listPath));
      }
      c := ManifestPaths(opt.croot, fs.manifests[listPath]);
    }
    var modes := ModeList(opt.phase, opt.testMode);
    var s: seq<string> := [];
    if opt.sImage != "" {
      s := seq(|c|, _ => opt.sImage);
    } else {
      var collected := CollectStyles(opt.sroot, opt.phase, modes, fs.manifests);
      if collected.Failure? {
        return Failure(collected.error);
      }
      s := collected.value;
      if s == [] && c != [] {
        return Failure(LoopsForever);
      }
      ghost var k;
      s, k := Replicate(s, |c|);
    }
    var paired := Align(c, s);
    assert paired.content == c;
    return Success(paired);
  }

  /** `paths_match`: content and style never need corresponding names. */
  function PathsMatch(path1: string, path2: string): (r: bool)
    ensures r
  {
    true
  }
}
