/** The step lists the SDL scripts repeat for every library: fetching and
    unpacking a source archive, and the CMake or configure/make sequence. */
module Recipes {
  import opened Text
  import opened Steps

  /** The acquisition of one source tree: download the archive only when it
      is missing, remove an existing tree (checked after the download), then
      unpack with the extractor the archive's suffix selects; an unknown
      suffix unpacks nothing. */
  function AcquireSteps(fs: FileSystem, url: string, archive: Path, src: Path, destDir: Path,
                        format: Option<Format>): seq<Action>
  {
    DownloadSteps(fs, url, archive) + WipeSteps(src in fs || src == archive, src) + UnpackSteps(archive, destDir, format)
  }

  function DownloadSteps(fs: FileSystem, url: string, archive: Path): seq<Action> {
    if archive in fs then [] else [Download(url, archive)]
  }

  function WipeSteps(present: bool, src: Path): seq<Action> {
    if present then [RemoveTree(src)] else []
  }

  function UnpackSteps(archive: Path, destDir: Path, format: Option<Format>): seq<Action> {
    match format
    case Some(f) => [Extract(f, archive, destDir)]
    case None => []
  }

  /** `if not archive.exists(): download(url, archive)`. */
  method FetchArchive(h: Host, w: World, s: Stage, url: string, archive: Path) returns (w': World)
    ensures w' == RunAll(h, w, s, DownloadSteps(w.fs, url, archive))
    ensures w'.status == Running ==> w'.fs == if archive in w.fs then w.fs else w.fs[archive := ""]
  {
    w' := w;
    if archive !in w.fs {
      w' := Perform(h, w, s, Download(url, archive));
      RunAllSnoc(h, w, s, [], Download(url, archive));
      assert [] + [Download(url, archive)] == [Download(url, archive)];
    }
  }

  /** `if src.exists(): shutil.rmtree(src)`. */
  method WipeTree(h: Host, w: World, s: Stage, src: Path) returns (w': World)
    ensures w' == RunAll(h, w, s, WipeSteps(src in w.fs, src))
  {
    w' := w;
    if src in w.fs {
      w' := Perform(h, w, s, RemoveTree(src));
      RunAllSnoc(h, w, s, [], RemoveTree(src));
      assert [] + [RemoveTree(src)] == [RemoveTree(src)];
    }
  }

  /** The extractor the archive's suffix selected, if any. */
  method Unpack(h: Host, w: World, s: Stage, archive: Path, destDir: Path, format: Option<Format>)
    returns (w': World)
    ensures w' == RunAll(h, w, s, UnpackSteps(archive, destDir, format))
  {
    w' := w;
    match format {
      case Some(f) =>
        w' := Perform(h, w, s, Extract(f, archive, destDir));
        RunAllSnoc(h, w, s, [], Extract(f, archive, destDir));
        assert [] + [Extract(f, archive, destDir)] == [Extract(f, archive, destDir)];
      case None =>
    }
  }

  /** The acquisition part of every `build_<lib>` function, step by step. */
  method Acquire(h: Host, w: World, s: Stage, url: string, archive: Path, src: Path, destDir: Path,
                 format: Option<Format>) returns (w': World)
    ensures w' == RunAll(h, w, s, AcquireSteps(w.fs, url, archive, src, destDir, format))
  {
    var fetched := FetchArchive(h, w, s, url, archive);
    var wiped := WipeTree(h, fetched, s, src);
    w' := Unpack(h, wiped, s, archive, destDir, format);
    ghost var download := DownloadSteps(w.fs, url, archive);
    ghost var planned := WipeSteps(src in w.fs || src == archive, src);
    if fetched.status == Running {
      assert WipeSteps(src in fetched.fs, src) == planned;
    } else {
      RunAllHalted(h, fetched, s, WipeSteps(src in fetched.fs, src));
      RunAllHalted(h, fetched, s, planned);
    }
    RunAllAppend(h, w, s, download, planned);
    RunAllAppend(h, w, s, download + planned, UnpackSteps(archive, destDir, format));
  }

  /** The archive is downloaded exactly when it is not there yet. */
  lemma AcquireDownloadsIffMissing(fs: FileSystem, url: string, archive: Path, src: Path, destDir: Path,
                                   format: Option<Format>)
    ensures Download(url, archive) in AcquireSteps(fs, url, archive, src, destDir, format) <==> archive !in fs
  {
    var steps := AcquireSteps(fs, url, archive, src, destDir, format);
    if archive in fs {
      assert forall i :: 0 <= i < |steps| ==> !steps[i].Download?;
    } else {
      assert steps[0] == Download(url, archive);
    }
  }

  /** An existing source tree is always removed, and removed before the
      archive is unpacked. */
  lemma AcquireWipesBeforeExtract(fs: FileSystem, url: string, archive: Path, src: Path, destDir: Path,
                                  f: Format)
    requires src in fs
    ensures var steps := AcquireSteps(fs, url, archive, src, destDir, Some(f));
      |steps| >= 2 && steps[|steps| - 2] == RemoveTree(src) && steps[|steps| - 1] == Extract(f, archive, destDir)
  {
  }

  /** A step that deletes `p`. */
  predicate Removes(a: Action, p: Path) {
    a == RemoveFile(p) || (a.RemoveTree? && Under(p, a.dir))
  }

  /** A file no step deletes is still there after the steps. */
  lemma {:induction false} RunAllKeeps(h: Host, w: World, s: Stage, steps: seq<Action>, p: Path)
    requires p in w.fs
    requires forall i :: 0 <= i < |steps| ==> !Removes(steps[i], p)
    ensures p in RunAll(h, w, s, steps).fs
    decreases |steps|
  {
    if steps != [] {
      var init := steps[..|steps| - 1];
      RunAllKeeps(h, w, s, init, p);
      assert !Removes(steps[|steps| - 1], p);
    }
  }

  /** No acquisition step deletes an archive lying outside the tree. */
  lemma AcquireKeepsArchive(fs: FileSystem, url: string, archive: Path, src: Path, destDir: Path,
                            format: Option<Format>)
    requires !Under(archive, src)
    ensures var steps := AcquireSteps(fs, url, archive, src, destDir, format);
      forall i :: 0 <= i < |steps| ==> !Removes(steps[i], archive)
  {
  }

  /** Once the archive is there, steps that never delete it keep it. */
  lemma {:induction false} FetchedStaysFetched(h: Host, w: World, s: Stage, steps: seq<Action>, d: Action, p: Path)
    requires d.Download? && d.dest == p && |steps| >= 1 && steps[0] == d
    requires forall i :: 0 <= i < |steps| ==> !Removes(steps[i], p)
    requires RunAll(h, w, s, steps).status == Running
    ensures p in RunAll(h, w, s, steps).fs
  {
    var rest := steps[1..];
    assert steps == [d] + rest;
    RunAllAppend(h, w, s, [d], rest);
    RunAllSnoc(h, w, s, [], d);
    assert [] + [d] == [d];
    var w1 := Perform(h, w, s, d);
    if w1.status != Running {
      RunAllHalted(h, w1, s, rest);
    }
    forall i | 0 <= i < |rest| ensures !Removes(rest[i], p) {
      assert rest[i] == steps[i + 1];
    }
    RunAllKeeps(h, w1, s, rest, p);
  }

  /** Acquisition is idempotent for the download: once it has run to the
      end, the archive is present, so running it again downloads nothing. */
  lemma AcquireIdempotent(h: Host, w: World, s: Stage, url: string, archive: Path, src: Path, destDir: Path,
                          format: Option<Format>)
    requires !Under(archive, src)
    requires RunAll(h, w, s, AcquireSteps(w.fs, url, archive, src, destDir, format)).status == Running
    ensures var w' := RunAll(h, w, s, AcquireSteps(w.fs, url, archive, src, destDir, format));
      archive in w'.fs && Download(url, archive) !in AcquireSteps(w'.fs, url, archive, src, destDir, format)
  {
    var steps := AcquireSteps(w.fs, url, archive, src, destDir, format);
    AcquireKeepsArchive(w.fs, url, archive, src, destDir, format);
    if archive in w.fs {
      RunAllKeeps(h, w, s, steps, archive);
    } else {
      FetchedStaysFetched(h, w, s, steps, Download(url, archive), archive);
    }
    AcquireDownloadsIffMissing(RunAll(h, w, s, steps).fs, url, archive, src, destDir, format);
  }

  /** `cmake --build . --config Release` and `cmake --install .`. */
  const CMakeBuild: seq<string> := ["cmake", "--build", ".", "--config", "Release"]
  const CMakeInstall: seq<string> := ["cmake", "--install", "."]

  /** `build_path.mkdir(exist_ok=True)`, then the configure, build and
      install commands, all run in the build directory; only the configure
      command gets the modified environment. */
  function CMakeSteps(buildPath: Path, configure: seq<string>, env: Option<Env>): (r: seq<Action>)
    ensures |r| == 4 && r[0] == MakeDir(buildPath)
    ensures r[1].Run? && r[1].argv == configure && r[1].env == env
    ensures r[3] == Run(CMakeInstall, buildPath, None, false)
  {
    [MakeDir(buildPath),
     Run(configure, buildPath, env, false),
     Run(CMakeBuild, buildPath, None, false),
     Run(CMakeInstall, buildPath, None, false)]
  }

  /** `str(os.cpu_count())`: the count's digits, or "None" when Python
      cannot tell. */
  function CpuString(cpu: Option<nat>): (r: string)
    ensures r != []
    ensures cpu.None? <==> r == "None"
  {
    match cpu
    case Some(n) =>
      var d := NatToString(n);
      assert d[0] != 'N';
      d
    case None => "None"
  }

  /** A build whose last steps are the CMake steps has installed when it
      gets to the end. */
  lemma CMakeBuildOutcome(h: Host, w: World, s: Stage, first: seq<Action>, buildPath: Path,
                          configure: seq<string>, env: Option<Env>)
    ensures StageOutcome(w, RunAll(h, w, s, first + CMakeSteps(buildPath, configure, env)), s,
                         Run(CMakeInstall, buildPath, None, false))
  {
    var build := CMakeSteps(buildPath, configure, env);
    StageEndsWith(h, w, s, first, build, Run(CMakeInstall, buildPath, None, false));
  }

  /** `./configure ...`, `make -j<cpus>`, `make install`, run in the
      source tree. */
  function MakeSteps(src: Path, configure: seq<string>, env: Option<Env>, cpu: Option<nat>): (r: seq<Action>)
    ensures |r| == 3 && r[0] == Run(configure, src, env, false)
    ensures r[2] == Run(["make", "install"], src, None, false)
  {
    [Run(configure, src, env, false),
     Run(["make", "-j" + CpuString(cpu)], src, None, false),
     Run(["make", "install"], src, None, false)]
  }

  /** `build_path.mkdir(exist_ok=True)` and the three `run_command` calls of
      a CMake build, one after the other. */
  method RunCMake(h: Host, w: World, s: Stage, buildPath: Path, configure: seq<string>, env: Option<Env>)
    returns (w': World)
    ensures w' == RunAll(h, w, s, CMakeSteps(buildPath, configure, env))
  {
    var steps := CMakeSteps(buildPath, configure, env);
    assert steps[..1] == [] + [steps[0]] && steps[..2] == steps[..1] + [steps[1]];
    assert steps[..3] == steps[..2] + [steps[2]] && steps == steps[..3] + [steps[3]];
    w' := Next(h, w, s, [], w, steps[0]);
    w' := Next(h, w, s, steps[..1], w', steps[1]);
    w' := Next(h, w, s, steps[..2], w', steps[2]);
    w' := Next(h, w, s, steps[..3], w', steps[3]);
  }

  /** The configure, `make -j<cpus>` and `make install` calls, one after
      the other. */
  method RunMake(h: Host, w: World, s: Stage, src: Path, configure: seq<string>, env: Option<Env>, cpu: Option<nat>)
    returns (w': World)
    ensures w' == RunAll(h, w, s, MakeSteps(src, configure, env, cpu))
  {
    var steps := MakeSteps(src, configure, env, cpu);
    assert steps[..1] == [] + [steps[0]] && steps[..2] == steps[..1] + [steps[1]];
    assert steps == steps[..2] + [steps[2]];
    w' := Next(h, w, s, [], w, steps[0]);
    w' := Next(h, w, s, steps[..1], w', steps[1]);
    w' := Next(h, w, s, steps[..2], w', steps[2]);
  }

  /** A tree kept in the repository instead of downloaded: it must exist
      (else exit 1); a stale copy at the destination is removed; the tree
      is copied there. */
  function VendoredSteps(fs: FileSystem, vendored: Path, src: Path): seq<Action> {
    ExitUnless(vendored in fs) + (WipeSteps(src in fs, src) + [CopyTree(vendored, src)])
  }

  /** A check that ends the script with status 1 when it fails. */
  function ExitUnless(ok: bool): seq<Action> {
    if ok then [] else [Exit(1)]
  }

  /** `if not path.exists(): sys.exit(1)`: the files are untouched. */
  method Require(h: Host, w: World, s: Stage, path: Path) returns (w': World)
    ensures w' == RunAll(h, w, s, ExitUnless(path in w.fs))
    ensures w'.fs == w.fs
  {
    w' := w;
    if path !in w.fs {
      w' := Perform(h, w, s, Exit(1));
      RunAllSnoc(h, w, s, [], Exit(1));
      assert [] + [Exit(1)] == [Exit(1)];
    }
  }

  method CopyVendored(h: Host, w: World, s: Stage, vendored: Path, src: Path) returns (w': World)
    ensures w' == RunAll(h, w, s, VendoredSteps(w.fs, vendored, src))
  {
    var checked := Require(h, w, s, vendored);
    var wiped := WipeTree(h, checked, s, src);
    w' := Perform(h, wiped, s, CopyTree(vendored, src));
    RunAllSnoc(h, checked, s, WipeSteps(src in w.fs, src), CopyTree(vendored, src));
    RunAllAppend(h, w, s, ExitUnless(vendored in w.fs), WipeSteps(src in w.fs, src) + [CopyTree(vendored, src)]);
  }

  /** A check that a directory exists (else exit 1), then a CMake build. */
  method CheckedCMake(h: Host, w: World, s: Stage, required: Path, buildPath: Path, argv: seq<string>, env: Option<Env>)
    returns (w': World)
    ensures w' == RunAll(h, w, s, ExitUnless(required in w.fs) + CMakeSteps(buildPath, argv, env))
  {
    w' := Require(h, w, s, required);
    w' := RunCMake(h, w', s, buildPath, argv, env);
    RunAllAppend(h, w, s, ExitUnless(required in w.fs), CMakeSteps(buildPath, argv, env));
  }
}
