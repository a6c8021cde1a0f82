/** The world a build script acts on, and the two ways the scripts perform
    a step on it.

    The files are a map from path to contents (a directory is a path whose
    contents are empty).  Every step a script takes (a download, a `shutil`
    call, a `subprocess.run`) is an `Action`; whether it works and which files
    a tool writes are facts about the host, passed in as the `Host` value.
    Each step is recorded in the world's trace, tagged with the build stage
    that took it and with whether it succeeded. */
module Steps {
  import opened Text

  type Path = string
  type FileSystem = map<Path, string>
  type Env = map<string, string>

  /** The archive readers: tarfile modes `r:gz`, `r:xz`, `r:bz2`, and zipfile. */
  datatype Format = TarGz | TarXz | TarBz2 | Zip

  datatype Action =
    | Download(url: string, dest: Path)               // urllib.request.urlretrieve
    | RemoveTree(dir: Path)                           // shutil.rmtree
    | Extract(format: Format, archive: Path, destDir: Path)  // extractall
    | CopyTree(src: Path, dst: Path)                  // shutil.copytree
    | CopyFile(src: Path, dst: Path)                  // shutil.copy
    | RemoveFile(path: Path)                          // os.remove
    | MakeDir(path: Path)                             // Path.mkdir(exist_ok=True)
    | WriteText(path: Path, text: string)             // Path.write_text
    | Run(argv: seq<string>, cwd: Path, env: Option<Env>, shell: bool)  // subprocess.run
    | Exit(code: int)                                 // sys.exit / an uncaught error

  /** The build stages of the five scripts; every recorded step carries one. */
  datatype Stage =
    // build_sdl_mixer.py
    | MixerSetup | Ogg | Vorbis | Flac | Mpg123 | Mixer
    // build_sdl_image.py
    | ImageSetup | Zlib | Png | Jpeg | Webp | Image
    // build_imgui.py
    | Dependencies | Submodule | Directories | Library | RockFile | SmokeTest
    // build_imgui_ci.py and build_cimgui_cmake.py
    | Cimgui
    // the exit status a script's `main` hands to sys.exit
    | MainReturn

  datatype Event = Event(stage: Stage, action: Action, ok: bool)

  datatype Status = Running | Exited(code: int)

  datatype World = World(fs: FileSystem, trace: seq<Event>, status: Status)

  /** What the scripts read from the machine they run on: `platform.system()`,
      the working directory, `os.environ`, `os.cpu_count()`, the programs
      `shutil.which` finds, whether a step works, and which files a tool
      writes. */
  datatype Host = Host(
    system: string,
    cwd: Path,
    environ: Env,
    cpuCount: Option<nat>,
    onPath: set<string>,
    succeeds: (Action, FileSystem) -> bool,
    produces: (Action, FileSystem) -> FileSystem)

  /** A path relative to the directory the script runs in. */
  function At(h: Host, rel: string): Path {
    h.cwd + "/" + rel
  }

  /** `Path(p).exists()`: an absolute path is looked up as it is, a relative
      one below the working directory. */
  function Locate(h: Host, p: string): Path {
    if StartsWith(p, "/") then p else At(h, p)
  }

  /** `p` is the directory `dir` or lies somewhere below it. */
  predicate Under(p: Path, dir: Path) {
    p == dir || IsPrefix(dir + "/", p)
  }

  /** A path that extends a directory by a suffix not starting with `/` (an
      archive `dir.tar.gz` beside the tree `dir`) is not inside it. */
  lemma NotUnderSibling(dir: Path, suffix: string)
    requires suffix != [] && suffix[0] != '/'
    ensures !Under(dir + suffix, dir)
  {
    var s := dir + suffix;
    IsPrefixStartsWith(dir + "/", s);
    assert s[|dir|] != (dir + "/")[|dir|];
    assert |s| > |dir|;
  }

  /** The part of `fs` at or below `dir`. */
  function Within(fs: FileSystem, dir: Path): (r: FileSystem)
    ensures forall p :: p in r <==> p in fs && Under(p, dir)
    ensures forall p :: p in r ==> r[p] == fs[p]
  {
    map p | p in fs && Under(p, dir) :: fs[p]
  }

  /** The part of `fs` outside `dir`. */
  function Outside(fs: FileSystem, dir: Path): (r: FileSystem)
    ensures forall p :: p in r <==> p in fs && !Under(p, dir)
    ensures forall p :: p in r ==> r[p] == fs[p]
  {
    map p | p in fs && !Under(p, dir) :: fs[p]
  }

  /** Whether the step can work at all on these files: the Python call raises
      when what it reads or removes is missing, and copytree raises when its
      target exists.  An `Exit` never succeeds: it ends the script. */
  predicate Possible(a: Action, fs: FileSystem) {
    match a
    case RemoveTree(dir) => dir in fs
    case Extract(_, archive, _) => archive in fs
    case CopyTree(src, dst) => src in fs && dst !in fs
    case CopyFile(src, _) => src in fs
    case RemoveFile(p) => p in fs
    case Exit(_) => false
    case _ => true
  }

  predicate Succeeds(h: Host, a: Action, fs: FileSystem) {
    Possible(a, fs) && h.succeeds(a, fs)
  }

  /** The files after a step that worked.  Extraction and copytree add only
      what lands below their target; a command may write anywhere. */
  function Effect(h: Host, a: Action, fs: FileSystem): FileSystem {
    match a
    case Download(_, dest) => fs[dest := ""]
    case RemoveTree(dir) => Outside(fs, dir)
    case Extract(_, _, destDir) => fs + Within(h.produces(a, fs), destDir)
    case CopyTree(_, dst) => fs + Within(h.produces(a, fs), dst)
    case CopyFile(src, dst) => if src in fs then fs[dst := fs[src]] else fs
    case RemoveFile(p) => fs - {p}
    case MakeDir(p) => if p in fs then fs else fs[p := ""]
    case WriteText(p, text) => fs[p := text]
    case Run(_, _, _, _) => fs + h.produces(a, fs)
    case Exit(_) => fs
  }

  /** A step whose failure ends the script: `run_command` calls sys.exit(1)
      on a non-zero exit, and a failing `shutil` or file call raises, which
      ends the script with status 1.  A script that has ended does nothing
      more. */
  function Perform(h: Host, w: World, s: Stage, a: Action): (r: World)
    ensures w.status != Running ==> r == w
    ensures w.status == Running ==> r.trace == w.trace + [Event(s, a, r.status == Running)]
    ensures w.status == Running && r.status == Running ==> r.fs == Effect(h, a, w.fs)
    ensures w.status == Running && r.status != Running ==> r.fs == w.fs && r.status == Exited(1)
    ensures r.status == Running ==> Succeeds(h, a, w.fs)
  {
    if w.status != Running then w
    else if Succeeds(h, a, w.fs) then World(Effect(h, a, w.fs), w.trace + [Event(s, a, true)], Running)
    else World(w.fs, w.trace + [Event(s, a, false)], Exited(1))
  }

  /** A step whose failure is only reported back (`run_cmd` returns
      `returncode == 0`): the script goes on either way. */
  function Attempt(h: Host, w: World, s: Stage, a: Action): (r: (World, bool))
    ensures r.0.status == w.status
    ensures w.status != Running ==> r == (w, false)
    ensures w.status == Running ==> r.0.trace == w.trace + [Event(s, a, r.1)]
    ensures w.status == Running ==> (r.1 <==> Succeeds(h, a, w.fs))
    ensures r.0.fs == if r.1 then Effect(h, a, w.fs) else w.fs
  {
    if w.status != Running then (w, false)
    else if Succeeds(h, a, w.fs) then (World(Effect(h, a, w.fs), w.trace + [Event(s, a, true)], Running), true)
    else (World(w.fs, w.trace + [Event(s, a, false)], Running), false)
  }

  /** `sys.exit(code)` with the value a `main` returned. */
  function Finish(w: World, code: int): (r: World)
    ensures w.status != Running ==> r == w
    ensures w.status == Running ==> r.status == Exited(code) && r.fs == w.fs
    ensures w.status == Running ==> r.trace == w.trace + [Event(MainReturn, Exit(code), code == 0)]
  {
    if w.status != Running then w
    else World(w.fs, w.trace + [Event(MainReturn, Exit(code), code == 0)], Exited(code))
  }

  /** A fixed list of steps performed one after the other, each ending the
      script if it fails. */
  function RunAll(h: Host, w: World, s: Stage, steps: seq<Action>): World
    decreases |steps|
  {
    if steps == [] then w
    else Perform(h, RunAll(h, w, s, steps[..|steps| - 1]), s, steps[|steps| - 1])
  }

  lemma RunAllSnoc(h: Host, w: World, s: Stage, steps: seq<Action>, a: Action)
    ensures RunAll(h, w, s, steps + [a]) == Perform(h, RunAll(h, w, s, steps), s, a)
  {
    assert (steps + [a])[..|steps|] == steps;
  }

  /** A step after the script has ended changes nothing. */
  lemma HaltedSnoc(h: Host, w: World, s: Stage, steps: seq<Action>, a: Action)
    requires RunAll(h, w, s, steps).status != Running
    ensures RunAll(h, w, s, steps + [a]) == RunAll(h, w, s, steps)
  {
    RunAllSnoc(h, w, s, steps, a);
  }

  /** One more step of a list being run: the world after `done` and `a`. */
  method Next(h: Host, ghost w0: World, s: Stage, ghost done: seq<Action>, w: World, a: Action) returns (w': World)
    requires w == RunAll(h, w0, s, done)
    ensures w' == RunAll(h, w0, s, done + [a])
  {
    w' := Perform(h, w, s, a);
    RunAllSnoc(h, w0, s, done, a);
  }

  /** Running two lists is running their concatenation. */
  lemma {:induction false} RunAllAppend(h: Host, w: World, s: Stage, first: seq<Action>, second: seq<Action>)
    ensures RunAll(h, w, s, first + second) == RunAll(h, RunAll(h, w, s, first), s, second)
    decreases |second|
  {
    if second == [] {
      assert first + second == first;
    } else {
      var init := second[..|second| - 1];
      var last := second[|second| - 1];
      assert second == init + [last];
      assert first + second == (first + init) + [last];
      RunAllAppend(h, w, s, first, init);
      RunAllSnoc(h, w, s, first + init, last);
      RunAllSnoc(h, RunAll(h, w, s, first), s, init, last);
    }
  }

  /** Once a script has ended, no later step does anything. */
  lemma {:induction false} RunAllHalted(h: Host, w: World, s: Stage, steps: seq<Action>)
    requires w.status != Running
    ensures RunAll(h, w, s, steps) == w
    decreases |steps|
  {
    if steps != [] {
      RunAllHalted(h, w, s, steps[..|steps| - 1]);
    }
  }

  /** A script that is still running or has ended with status 1, the
      status a failed step ends it with. */
  predicate Live(w: World) {
    w.status == Running || w.status == Exited(1)
  }

  lemma {:induction false} RunAllLive(h: Host, w: World, s: Stage, steps: seq<Action>)
    requires Live(w)
    ensures Live(RunAll(h, w, s, steps))
    decreases |steps|
  {
    if steps != [] {
      RunAllLive(h, w, s, steps[..|steps| - 1]);
    }
  }

  /** `run_cmd`: the command runs and its success is handed back. */
  method Step(h: Host, w: World, s: Stage, a: Action) returns (w': World, ok: bool)
    ensures w' == Attempt(h, w, s, a).0 && ok == Attempt(h, w, s, a).1
  {
    var r := Attempt(h, w, s, a);
    w', ok := r.0, r.1;
  }

  /** A loop of `run_cmd` calls that stops at the first one that fails:
      the steps run in order, and the result is the world afterwards and how
      many steps worked; fewer than all means one failed. */
  function AttemptAll(h: Host, w: World, s: Stage, steps: seq<Action>): (r: (World, nat))
    ensures r.1 <= |steps|
    ensures r.0.status == w.status
    decreases |steps|
  {
    if steps == [] then (w, 0)
    else
      var first := Attempt(h, w, s, steps[0]);
      if !first.1 then (first.0, 0)
      else
        var rest := AttemptAll(h, first.0, s, steps[1..]);
        (rest.0, 1 + rest.1)
  }

  /** What the loop records: every step before the failing one worked,
      then the failing one, and nothing after it. */
  lemma {:induction false} AttemptAllTrace(h: Host, w: World, s: Stage, steps: seq<Action>)
    requires w.status == Running
    ensures var r := AttemptAll(h, w, s, steps);
            && |r.0.trace| == |w.trace| + r.1 + (if r.1 < |steps| then 1 else 0)
            && r.0.trace[..|w.trace|] == w.trace
            && (forall i :: 0 <= i < r.1 ==> r.0.trace[|w.trace| + i] == Event(s, steps[i], true))
            && (r.1 < |steps| ==> r.0.trace[|w.trace| + r.1] == Event(s, steps[r.1], false))
    decreases |steps|
  {
    if steps != [] {
      var a := Attempt(h, w, s, steps[0]);
      if a.1 {
        var w1 := a.0;
        var tail := steps[1..];
        AttemptAllTrace(h, w1, s, tail);
        var r := AttemptAll(h, w1, s, tail);
        var t := r.0.trace;
        assert |w1.trace| == |w.trace| + 1;
        assert t[..|w1.trace|] == w1.trace;
        assert t[..|w.trace|] == w.trace by {
          assert t[..|w.trace|] == t[..|w1.trace|][..|w.trace|];
        }
        assert t[|w.trace|] == Event(s, steps[0], true) by {
          assert t[|w.trace|] == t[..|w1.trace|][|w.trace|];
        }
        forall i | 1 <= i < r.1 + 1
          ensures t[|w.trace| + i] == Event(s, steps[i], true)
        {
          assert t[|w1.trace| + (i - 1)] == Event(s, tail[i - 1], true);
        }
        if r.1 < |tail| {
          assert t[|w1.trace| + r.1] == Event(s, tail[r.1], false);
        }
      }
    }
  }

  /** The same record as one sequence: the steps that worked, then the one
      that failed if any. */
  lemma AttemptAllRecord(h: Host, w: World, s: Stage, steps: seq<Action>)
    requires w.status == Running
    ensures var r := AttemptAll(h, w, s, steps);
            r.0.trace == w.trace + Succeeded(s, steps[..r.1])
                         + (if r.1 < |steps| then [Event(s, steps[r.1], false)] else [])
  {
    AttemptAllTrace(h, w, s, steps);
    var r := AttemptAll(h, w, s, steps);
    var expected := w.trace + Succeeded(s, steps[..r.1])
                    + (if r.1 < |steps| then [Event(s, steps[r.1], false)] else []);
    assert |expected| == |r.0.trace|;
    forall i | 0 <= i < |expected|
      ensures r.0.trace[i] == expected[i]
    {
      if i < |w.trace| {
        assert r.0.trace[i] == r.0.trace[..|w.trace|][i];
      }
    }
  }

  /** Every step the loop got through is recorded as having worked, and
      what was recorded before stays. */
  lemma AttemptAllRan(h: Host, w: World, s: Stage, steps: seq<Action>)
    requires w.status == Running
    ensures var r := AttemptAll(h, w, s, steps);
            && |w.trace| <= |r.0.trace| && r.0.trace[..|w.trace|] == w.trace
            && forall i :: 0 <= i < r.1 ==> Ran(r.0, s, steps[i])
  {
    AttemptAllTrace(h, w, s, steps);
    var r := AttemptAll(h, w, s, steps);
    forall i | 0 <= i < r.1
      ensures Ran(r.0, s, steps[i])
    {
      assert r.0.trace[|w.trace| + i] == Event(s, steps[i], true);
    }
  }

  /** One turn of the loop, for a step that works. */
  lemma AttemptAllUnfold(h: Host, w: World, s: Stage, steps: seq<Action>)
    requires steps != [] && Attempt(h, w, s, steps[0]).1
    ensures var next := Attempt(h, w, s, steps[0]).0;
            && AttemptAll(h, w, s, steps).0 == AttemptAll(h, next, s, steps[1..]).0
            && AttemptAll(h, w, s, steps).1 == 1 + AttemptAll(h, next, s, steps[1..]).1
  {
  }

  /** `after` continues the trace of `before` with steps of stage `s` only. */
  predicate Extends(before: World, after: World, s: Stage) {
    |before.trace| <= |after.trace|
    && after.trace[..|before.trace|] == before.trace
    && forall i :: |before.trace| <= i < |after.trace| ==> after.trace[i].stage == s
  }

  lemma ExtendsTrans(a: World, b: World, c: World, s: Stage)
    requires Extends(a, b, s) && Extends(b, c, s)
    ensures Extends(a, c, s)
  {
    assert c.trace[..|a.trace|] == c.trace[..|b.trace|][..|a.trace|];
  }

  /** A list of steps records at most one event per step, all of its stage. */
  lemma {:induction false} RunAllExtends(h: Host, w: World, s: Stage, steps: seq<Action>)
    ensures Extends(w, RunAll(h, w, s, steps), s)
    ensures |RunAll(h, w, s, steps).trace| <= |w.trace| + |steps|
    decreases |steps|
  {
    if steps != [] {
      var mid := RunAll(h, w, s, steps[..|steps| - 1]);
      RunAllExtends(h, w, s, steps[..|steps| - 1]);
      var r := Perform(h, mid, s, steps[|steps| - 1]);
      assert Extends(mid, r, s);
      ExtendsTrans(w, mid, r, s);
    }
  }

  /** The events of a list of steps that all worked. */
  function Succeeded(s: Stage, steps: seq<Action>): (r: seq<Event>)
    ensures |r| == |steps|
    ensures forall i :: 0 <= i < |r| ==> r[i].stage == s && r[i].action == steps[i] && r[i].ok
  {
    seq(|steps|, i requires 0 <= i < |steps| => Event(s, steps[i], true))
  }

  /** A script still running after a list of steps ran every one of them,
      in order, and each worked. */
  lemma {:induction false} RunAllCompleted(h: Host, w: World, s: Stage, steps: seq<Action>)
    requires RunAll(h, w, s, steps).status == Running
    ensures w.status == Running
    ensures RunAll(h, w, s, steps).trace == w.trace + Succeeded(s, steps)
    decreases |steps|
  {
    if steps == [] {
      assert w.trace + Succeeded(s, steps) == w.trace;
    } else {
      var init := steps[..|steps| - 1];
      var last := steps[|steps| - 1];
      var mid := RunAll(h, w, s, init);
      RunAllCompleted(h, w, s, init);
      assert Succeeded(s, steps) == Succeeded(s, init) + [Event(s, last, true)];
    }
  }

  /** Fail-fast: every recorded step but the last worked, the script has
      ended exactly when the last one failed, and it ended with status 1. */
  predicate FailFast(w: World) {
    (forall i :: 0 <= i < |w.trace| - 1 ==> w.trace[i].ok)
    && (w.status == Running <==> (w.trace == [] || w.trace[|w.trace| - 1].ok))
    && (w.status == Running || w.status == Exited(1))
  }

  lemma PerformFailFast(h: Host, w: World, s: Stage, a: Action)
    requires FailFast(w)
    ensures FailFast(Perform(h, w, s, a))
  {
  }

  /** A list of steps run on a fail-fast world leaves it fail-fast: nothing
      runs after the first failure. */
  lemma {:induction false} RunAllFailFast(h: Host, w: World, s: Stage, steps: seq<Action>)
    requires FailFast(w)
    ensures FailFast(RunAll(h, w, s, steps))
    decreases |steps|
  {
    if steps != [] {
      RunAllFailFast(h, w, s, steps[..|steps| - 1]);
      PerformFailFast(h, RunAll(h, w, s, steps[..|steps| - 1]), s, steps[|steps| - 1]);
    }
  }

  /** The stages of a trace appear in the order `rank` gives them. */
  predicate Ordered(trace: seq<Event>, rank: Stage -> nat) {
    forall i, j :: 0 <= i < j < |trace| ==> rank(trace[i].stage) <= rank(trace[j].stage)
  }

  /** No stage in the trace comes after `s`. */
  predicate UpTo(trace: seq<Event>, rank: Stage -> nat, s: Stage) {
    forall i :: 0 <= i < |trace| ==> rank(trace[i].stage) <= rank(s)
  }

  /** Appending steps of a stage no earlier than any already recorded keeps
      the trace ordered, and nothing recorded comes after that stage. */
  lemma ExtendsOrdered(before: World, after: World, s: Stage, rank: Stage -> nat)
    requires Ordered(before.trace, rank) && UpTo(before.trace, rank, s)
    requires Extends(before, after, s)
    ensures Ordered(after.trace, rank) && UpTo(after.trace, rank, s)
  {
    forall i | 0 <= i < |after.trace| ensures rank(after.trace[i].stage) <= rank(s) {
      if i < |before.trace| {
        assert after.trace[i] == before.trace[i];
      }
    }
    forall i, j | 0 <= i < j < |after.trace|
      ensures rank(after.trace[i].stage) <= rank(after.trace[j].stage)
    {
      if j < |before.trace| {
        assert after.trace[i] == before.trace[i] && after.trace[j] == before.trace[j];
      }
    }
  }

  /** Whether the trace records that step `a` of stage `s` worked. */
  predicate Ran(w: World, s: Stage, a: Action) {
    Event(s, a, true) in w.trace
  }

  /** The step that ends a completed list is recorded as having worked. */
  lemma RanLast(h: Host, w: World, s: Stage, steps: seq<Action>)
    requires steps != [] && RunAll(h, w, s, steps).status == Running
    ensures Ran(RunAll(h, w, s, steps), s, steps[|steps| - 1])
  {
    RunAllCompleted(h, w, s, steps);
    var r := RunAll(h, w, s, steps);
    assert r.trace[|w.trace| + |steps| - 1] == Event(s, steps[|steps| - 1], true);
  }

  /** A step recorded as having worked stays recorded in every later world
      whose trace starts with this one's. */
  lemma PrefixKeepsRan(before: World, after: World, t: Stage, a: Action)
    requires |before.trace| <= |after.trace| && after.trace[..|before.trace|] == before.trace
    requires Ran(before, t, a)
    ensures Ran(after, t, a)
  {
    var i :| 0 <= i < |before.trace| && before.trace[i] == Event(t, a, true);
    assert after.trace[i] == before.trace[..|before.trace|][i];
  }

  lemma PrefixTrans(a: World, b: World, c: World)
    requires |a.trace| <= |b.trace| && b.trace[..|a.trace|] == a.trace
    requires |b.trace| <= |c.trace| && c.trace[..|b.trace|] == b.trace
    ensures |a.trace| <= |c.trace| && c.trace[..|a.trace|] == a.trace
  {
    assert c.trace[..|a.trace|] == c.trace[..|b.trace|][..|a.trace|];
  }

  lemma ExtendsKeepsRan(before: World, after: World, s: Stage, t: Stage, a: Action)
    requires Extends(before, after, s) && Ran(before, t, a)
    ensures Ran(after, t, a)
  {
    var i :| 0 <= i < |before.trace| && before.trace[i] == Event(t, a, true);
    assert after.trace[i] == before.trace[i];
  }

  /** Moving on to a stage of equal or higher rank keeps the trace ordered. */
  lemma Advance(before: World, after: World, prev: Stage, s: Stage, rank: Stage -> nat)
    requires Ordered(before.trace, rank) && UpTo(before.trace, rank, prev)
    requires rank(prev) <= rank(s) && Extends(before, after, s)
    ensures Ordered(after.trace, rank) && UpTo(after.trace, rank, s)
  {
    ExtendsOrdered(before, after, s, rank);
  }

  /** The first stage of a script: its trace is fail-fast, holds that stage
      only, and a script still running has run every step. */
  lemma FirstStage(h: Host, fs: FileSystem, s: Stage, steps: seq<Action>, rank: Stage -> nat)
    ensures var w := RunAll(h, World(fs, [], Running), s, steps);
      FailFast(w) && Ordered(w.trace, rank) && UpTo(w.trace, rank, s)
      && (w.status == Running ==> forall i :: 0 <= i < |steps| ==> Ran(w, s, steps[i]))
  {
    var w0 := World(fs, [], Running);
    RunAllExtends(h, w0, s, steps);
    RunAllFailFast(h, w0, s, steps);
    ExtendsOrdered(w0, RunAll(h, w0, s, steps), s, rank);
    FirstStageRan(h, fs, s, steps);
  }

  lemma FirstStageRan(h: Host, fs: FileSystem, s: Stage, steps: seq<Action>)
    ensures var w := RunAll(h, World(fs, [], Running), s, steps);
      w.status == Running ==> forall i :: 0 <= i < |steps| ==> Ran(w, s, steps[i])
  {
    var w0 := World(fs, [], Running);
    var w := RunAll(h, w0, s, steps);
    if w.status == Running {
      RunAllCompleted(h, w0, s, steps);
      var done := Succeeded(s, steps);
      assert w.trace == [] + done;
      forall i | 0 <= i < |steps| ensures Ran(w, s, steps[i]) {
        assert w.trace[i] == done[i];
      }
    }
  }

  /** What `main` needs to know of one `build_*` call: it added steps of
      stage `s` only, kept a fail-fast trace fail-fast, never resumed an
      ended script, and, if the script goes on, ran `last`. */
  predicate StageOutcome(before: World, after: World, s: Stage, last: Action) {
    Extends(before, after, s) && (FailFast(before) ==> FailFast(after))
    && (after.status == Running ==> before.status == Running)
    && (after.status == Running ==> Ran(after, s, last))
  }

  /** A stage whose steps end with `a` has that outcome. */
  lemma StageEndsWith(h: Host, before: World, s: Stage, first: seq<Action>, last: seq<Action>, a: Action)
    requires last != [] && last[|last| - 1] == a
    ensures StageOutcome(before, RunAll(h, before, s, first + last), s, a)
  {
    StageDone(h, before, s, first + last);
    assert (first + last)[|first + last| - 1] == a;
  }

  /** A stage run in two phases, the second deciding its steps on what the
      first left behind, has the outcome of its second phase. */
  lemma StageInPhases(h: Host, before: World, s: Stage, first: seq<Action>, after: World, a: Action)
    requires StageOutcome(RunAll(h, before, s, first), after, s, a)
    ensures StageOutcome(before, after, s, a)
  {
    StageDone(h, before, s, first);
    ExtendsTrans(before, RunAll(h, before, s, first), after, s);
  }

  /** A stage run in two phases, the second chosen after the first, whose
      second phase ends with `a`. */
  lemma StageInTwoPhases(h: Host, before: World, s: Stage, first: seq<Action>, mid: World, second: seq<Action>, a: Action)
    requires mid == RunAll(h, before, s, first)
    requires second != [] && second[|second| - 1] == a
    ensures StageOutcome(before, RunAll(h, mid, s, second), s, a)
  {
    StageDone(h, mid, s, second);
    StageInPhases(h, before, s, first, RunAll(h, mid, s, second), a);
  }

  /** A list of steps of one stage adds events of that stage only, keeps the
      trace fail-fast, and a script still running at the end was running
      before and has done the last step. */
  lemma StageDone(h: Host, before: World, s: Stage, steps: seq<Action>)
    ensures var after := RunAll(h, before, s, steps);
            Extends(before, after, s) && (FailFast(before) ==> FailFast(after))
            && (after.status == Running ==> before.status == Running)
            && (after.status == Running && steps != [] ==> Ran(after, s, steps[|steps| - 1]))
  {
    var after := RunAll(h, before, s, steps);
    RunAllExtends(h, before, s, steps);
    if FailFast(before) {
      RunAllFailFast(h, before, s, steps);
    }
    if after.status == Running {
      RunAllCompleted(h, before, s, steps);
      if steps != [] {
        RanLast(h, before, s, steps);
      }
    }
  }

  /** Traces only grow: each world's trace starts with the one before. */
  lemma PrefixChain(a: World, b: World, c: World, d: World, e: World, f: World)
    requires |a.trace| <= |b.trace| && b.trace[..|a.trace|] == a.trace
    requires |b.trace| <= |c.trace| && c.trace[..|b.trace|] == b.trace
    requires |c.trace| <= |d.trace| && d.trace[..|c.trace|] == c.trace
    requires |d.trace| <= |e.trace| && e.trace[..|d.trace|] == d.trace
    requires |e.trace| <= |f.trace| && f.trace[..|e.trace|] == e.trace
    ensures |a.trace| <= |f.trace| && f.trace[..|a.trace|] == a.trace
  {
    assert f.trace[..|a.trace|] == f.trace[..|e.trace|][..|d.trace|][..|c.trace|][..|b.trace|][..|a.trace|];
  }
}
