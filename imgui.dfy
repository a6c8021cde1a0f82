/** build_imgui.py: the one-command build of cimgui together with the SDL2
    and OpenGL3 backends into one shared library, and the update of the Rock
    test script that loads it.  Every path is relative to the directory the
    script is started in (`h.cwd`); `os.chdir("cimgui")` is modelled by
    running the compiler and linker with `cimgui` as their working
    directory. */
module Imgui {
  import opened Text
  import opened Steps
  import opened Platforms

  // ---------------------------------------------------------------------
  // Platform settings

  /** The table at the top of the script. */
  datatype Settings = Settings(
    libExt: string,
    cc: string,
    cxx: string,
    extraCflags: seq<string>,
    extraLdflags: seq<string>,
    sdlInclude: string)

  function SettingsFor(p: Platform): (s: Settings)
    ensures p == Windows ==> s.libExt == ".dll" && s.cxx == "cl"
    ensures p == MacOS ==> s.libExt == ".dylib" && s.cxx == "clang++"
    ensures p == Linux ==> s.libExt == ".so" && s.cxx == "g++"
  {
    match p
    case Windows => Settings(".dll", "cl", "cl", [], ["-lSDL2", "-lopengl32"], "C:/SDL2/include")
    case MacOS => Settings(".dylib", "clang", "clang++", ["-stdlib=libc++"],
                           ["-lSDL2", "-framework", "OpenGL"], "/usr/local/include/SDL2")
    case Linux => Settings(".so", "gcc", "g++", [],
                           ["-L../bindings", "-lSDL2-2.0", "-lGL", "-ldl", "-Wl,-rpath,$ORIGIN/../bindings"],
                           "bindings/SDL2-2.32.4/include")
  }

  /** The name of the linked library, `cimgui_complete<LIB_EXT>`. */
  function OutputName(p: Platform): string {
    "cimgui_complete" + SettingsFor(p).libExt
  }

  /** Each platform gets its own library name, ending in its own extension. */
  lemma OutputNames(p: Platform, q: Platform)
    ensures EndsWith(OutputName(p), SettingsFor(p).libExt)
    ensures StartsWith(OutputName(p), "cimgui_complete")
    ensures p != q ==> OutputName(p) != OutputName(q)
  {
    EndsWithConcat("cimgui_complete", SettingsFor(p).libExt);
    assert OutputName(p)[..|"cimgui_complete"|] == "cimgui_complete";
    assert OutputName(p)[|"cimgui_complete"|..] == SettingsFor(p).libExt;
    assert OutputName(q)[|"cimgui_complete"|..] == SettingsFor(q).libExt;
  }

  function CimguiDir(h: Host): Path {
    At(h, "cimgui")
  }

  // ---------------------------------------------------------------------
  // check_dependencies

  /** The OpenGL header whose absence on Linux is only reported. */
  const GlHeader := "/usr/include/GL/gl.h"

  /** `check_dependencies`: every check runs and the answer is their
      conjunction.  The compiler must be on the PATH, git too, and off
      Windows the SDL2 library and headers of the bindings must exist. */
  function DependenciesOk(h: Host, fs: FileSystem): (ok: bool)
    ensures ok ==> SettingsFor(HostPlatform(h.system)).cxx in h.onPath && "git" in h.onPath
    ensures ok && HostPlatform(h.system) != Windows ==>
              At(h, "bindings/libSDL2-2.0.so") in fs && Locate(h, SettingsFor(HostPlatform(h.system)).sdlInclude) in fs
  {
    var p := HostPlatform(h.system);
    var s := SettingsFor(p);
    var compiler := if p == Windows then "cl" in h.onPath else s.cxx in h.onPath;
    var sdl := p == Windows || (At(h, "bindings/libSDL2-2.0.so") in fs && Locate(h, s.sdlInclude) in fs);
    compiler && "git" in h.onPath && sdl
  }

  /** Every check counts: installing a missing tool or adding a missing file
      never turns a passing check into a failing one, and the check passes
      with exactly the tools and files it needs. */
  lemma DependenciesMonotone(h: Host, fs: FileSystem, more: FileSystem, tools: set<string>)
    requires DependenciesOk(h, fs) && fs.Keys <= more.Keys
    ensures DependenciesOk(h, more)
    ensures DependenciesOk(h.(onPath := h.onPath + tools), fs)
  {
  }

  /** A missing OpenGL header only warns: whether it exists does not change
      the answer. */
  lemma GlHeaderOnlyWarns(h: Host, fs: FileSystem)
    ensures DependenciesOk(h, fs[GlHeader := ""]) == DependenciesOk(h, fs - {GlHeader})
  {
    var p := HostPlatform(h.system);
    var s := SettingsFor(p);
    assert |At(h, "bindings/libSDL2-2.0.so")| > |GlHeader|;
    if p == Linux {
      assert |At(h, s.sdlInclude)| > |GlHeader|;
    } else if p == MacOS {
      assert Locate(h, s.sdlInclude)[5] != GlHeader[5];
    }
  }

  // ---------------------------------------------------------------------
  // check_submodule

  /** The characters `str.strip()` removes: those for which Python's
      `str.isspace()` holds, the ASCII white space, the separators
      U+001C to U+001F, and the Unicode spaces and line breaks. */
  predicate IsSpace(c: char) {
    c == ' ' || '\t' <= c <= '\r' || '\U{1C}' <= c <= '\U{1F}'
    || c == '\U{85}' || c == '\U{A0}' || c == '\U{1680}' || '\U{2000}' <= c <= '\U{200A}'
    || c == '\U{2028}' || c == '\U{2029}' || c == '\U{202F}' || c == '\U{205F}' || c == '\U{3000}'
  }

  /** `s.strip()` is not empty. */
  predicate HasText(s: string) {
    exists i :: 0 <= i < |s| && !IsSpace(s[i])
  }

  /** `check_submodule`.  The submodule is initialised when `cimgui` or
      `cimgui/imgui` is missing, and a failure there is the only way to
      fail.  `git status --porcelain` then runs; when it works and prints
      something (`porcelain`, its output) the user is asked, and the answer
      `y` in either case resets and cleans the submodule, with the outcome of
      both commands ignored. */
  function SubmoduleOutcome(h: Host, w: World, porcelain: string, answer: string): (r: (World, bool))
    ensures r.0.status == w.status
    ensures !r.1 ==> w.status != Running || CimguiDir(h) !in w.fs || CimguiDir(h) + "/imgui" !in w.fs
  {
    var cimgui := CimguiDir(h);
    var (w1, initOk) :=
      if cimgui !in w.fs || cimgui + "/imgui" !in w.fs
      then Attempt(h, w, Submodule, Run(["git", "submodule", "update", "--init", "--recursive"], h.cwd, None, false))
      else (w, true);
    if !initOk then (w1, false)
    else
      var (w2, statusOk) := Attempt(h, w1, Submodule, Run(["git", "status", "--porcelain"], cimgui, None, false));
      if statusOk && HasText(porcelain) && Lower(answer) == "y" then
        var (w3, _) := Attempt(h, w2, Submodule, Run(["git", "reset", "--hard"], cimgui, None, false));
        var (w4, _) := Attempt(h, w3, Submodule, Run(["git", "clean", "-fd"], cimgui, None, false));
        (w4, true)
      else (w2, true)
  }

  method CheckSubmodule(h: Host, w: World, porcelain: string, answer: string) returns (w': World, ok: bool)
    ensures (w', ok) == SubmoduleOutcome(h, w, porcelain, answer)
  {
    var cimgui := CimguiDir(h);
    w' := w;
    if cimgui !in w'.fs || cimgui + "/imgui" !in w'.fs {
      var initOk;
      w', initOk := Step(h, w', Submodule, Run(["git", "submodule", "update", "--init", "--recursive"], h.cwd, None, false));
      if !initOk {
        return w', false;
      }
    }
    var statusOk;
    w', statusOk := Step(h, w', Submodule, Run(["git", "status", "--porcelain"], cimgui, None, false));
    if statusOk && HasText(porcelain) && Lower(answer) == "y" {
      var ignored;
      w', ignored := Step(h, w', Submodule, Run(["git", "reset", "--hard"], cimgui, None, false));
      w', ignored := Step(h, w', Submodule, Run(["git", "clean", "-fd"], cimgui, None, false));
    }
    ok := true;
  }

  /** A submodule whose status output is blank is never reset, whatever the
      answer. */
  lemma CleanSubmoduleKept(h: Host, w: World, porcelain: string, answer: string)
    requires !HasText(porcelain)
    ensures var r := SubmoduleOutcome(h, w, porcelain, answer);
            forall i :: |w.trace| <= i < |r.0.trace| ==>
              r.0.trace[i].action != Run(["git", "reset", "--hard"], CimguiDir(h), None, false)
  {
  }

  // ---------------------------------------------------------------------
  // ensure_directories

  const WrapperCpp := "cimgui_sdl2_opengl3.cpp"
  const WrapperH := "cimgui_sdl2_opengl3.h"

  /** `ensure_directories`: `libs` and `imgui_backends` are made (an error
      there ends the script), then both wrapper files must be present. */
  method EnsureDirectories(h: Host, w: World) returns (w': World, ok: bool)
    ensures w' == RunAll(h, w, Directories, [MakeDir(At(h, "libs")), MakeDir(At(h, "imgui_backends"))])
    ensures ok <==> At(h, "imgui_backends/" + WrapperCpp) in w'.fs && At(h, "imgui_backends/" + WrapperH) in w'.fs
  {
    w' := Perform(h, w, Directories, MakeDir(At(h, "libs")));
    RunAllSnoc(h, w, Directories, [], MakeDir(At(h, "libs")));
    w' := Perform(h, w', Directories, MakeDir(At(h, "imgui_backends")));
    RunAllSnoc(h, w, Directories, [MakeDir(At(h, "libs"))], MakeDir(At(h, "imgui_backends")));
    ok := At(h, "imgui_backends/" + WrapperCpp) in w'.fs && At(h, "imgui_backends/" + WrapperH) in w'.fs;
  }

  // ---------------------------------------------------------------------
  // build_library

  /** A file inside the submodule, where the compiler and linker run. */
  function InCimgui(h: Host, name: string): Path {
    At(h, "cimgui/" + name)
  }

  /** The nine translation units, relative to `cimgui`; the last is the
      wrapper copied in from `imgui_backends`. */
  const Sources: seq<string> := [
    "cimgui.cpp",
    "imgui/imgui.cpp",
    "imgui/imgui_draw.cpp",
    "imgui/imgui_tables.cpp",
    "imgui/imgui_widgets.cpp",
    "imgui/imgui_demo.cpp",
    "imgui/backends/imgui_impl_sdl2.cpp",
    "imgui/backends/imgui_impl_opengl3.cpp",
    WrapperCpp]

  /** The object file of a source: `.cpp` becomes `.o` and every `/` an
      underscore, so the object lands directly in `cimgui`. */
  function ObjectName(src: string): (obj: string)
    ensures '/' !in obj
  {
    ReplaceCharRemoves(Replace(src, ".cpp", ".o"), '/', "_");
    Replace(Replace(src, ".cpp", ".o"), "/", "_")
  }

  /** A name with neither a `.cpp` nor a `/` in it is its own object name. */
  lemma ObjectNamePlain(src: string)
    requires !Contains(src, ".cpp") && !Contains(src, "/")
    ensures ObjectName(src) == src
  {
    ReplaceAbsent(src, ".cpp", ".o");
    ReplaceAbsent(src, "/", "_");
  }

  function ObjectNames(srcs: seq<string>): (objs: seq<string>)
    ensures |objs| == |srcs|
    ensures forall i :: 0 <= i < |srcs| ==> objs[i] == ObjectName(srcs[i])
  {
    seq(|srcs|, i requires 0 <= i < |srcs| => ObjectName(srcs[i]))
  }

  lemma ObjectNamesSnoc(srcs: seq<string>, i: nat)
    requires i < |srcs|
    ensures ObjectNames(srcs[..i + 1]) == ObjectNames(srcs[..i]) + [ObjectName(srcs[i])]
  {
  }

  // Where the SDL2 include flag points.  Paths are resolved as POSIX does
  // it, over lists of components.

  /** The components of a path, empty and `.` components dropped. */
  function Components(p: string): seq<string> {
    Clean(Split(p, "/"))
  }

  function Clean(parts: seq<string>): (r: seq<string>)
    ensures forall i :: 0 <= i < |r| ==> r[i] != "" && r[i] != "." && r[i] in parts
  {
    if parts == [] then []
    else if parts[0] == "" || parts[0] == "." then Clean(parts[1..])
    else [parts[0]] + Clean(parts[1..])
  }

  /** Walking components from a directory: `..` goes up (and stays at the
      root), any other name goes down. */
  function Walk(dir: seq<string>, comps: seq<string>): seq<string>
    decreases |comps|
  {
    if comps == [] then dir
    else if comps[0] == ".." then Walk(if dir == [] then [] else dir[..|dir| - 1], comps[1..])
    else Walk(dir + [comps[0]], comps[1..])
  }

  /** The directory a path names, seen from the directory `cwd`. */
  function Resolve(cwd: seq<string>, p: string): seq<string> {
    if StartsWith(p, "/") then Walk([], Components(p)) else Walk(cwd, Components(p))
  }

  lemma ComponentsUp(x: string)
    ensures Components("../" + x) == [".."] + Components(x)
  {
    var s := "../" + x;
    assert s[1..] == "./" + x;
    assert ("./" + x)[1..] == "/" + x;
    assert ("/" + x)[1..] == x;
    var tail := Split("/" + x, "/");
    assert tail == [""] + Split(x, "/");
    assert tail[0] == "" && tail[1..] == Split(x, "/");
    assert !StartsWith("./" + x, "/") && "./" + x != [];
    var tail2 := Split("./" + x, "/");
    assert tail2 == [['.'] + tail[0]] + tail[1..];
    assert tail2[0] == "." && tail2[1..] == Split(x, "/");
    assert !StartsWith(s, "/") && s != [];
    assert Split(s, "/") == [['.'] + tail2[0]] + tail2[1..];
    assert ['.'] + tail2[0] == "..";
    assert Split(s, "/") == [".."] + Split(x, "/");
    assert ([".."] + Split(x, "/"))[1..] == Split(x, "/");
  }

  /** A path without a dot has no `..` component. */
  lemma {:induction false} SplitNoDots(s: string)
    requires '.' !in s
    ensures forall i :: 0 <= i < |Split(s, "/")| ==> '.' !in Split(s, "/")[i]
    decreases |s|
  {
    if StartsWith(s, "/") {
      SplitNoDots(s[1..]);
    } else if s != [] {
      SplitNoDots(s[1..]);
      var rest := Split(s[1..], "/");
      assert '.' !in [s[0]] + rest[0];
    }
  }

  lemma ComponentsNoUp(s: string)
    requires '.' !in s
    ensures forall i :: 0 <= i < |Components(s)| ==> Components(s)[i] != ".."
  {
    SplitNoDots(s);
    forall i | 0 <= i < |Components(s)| ensures Components(s)[i] != ".." {
      assert Components(s)[i] in Split(s, "/");
      assert ".."[0] == '.';
    }
  }

  lemma ComponentsRoot(x: string)
    ensures Components("/" + x) == Components(x)
  {
    assert ("/" + x)[1..] == x;
    assert Split("/" + x, "/") == [""] + Split(x, "/");
    assert ([""] + Split(x, "/"))[1..] == Split(x, "/");
  }

  /** Components free of `..` only go down. */
  lemma {:induction false} WalkDown(dir: seq<string>, comps: seq<string>)
    requires forall i :: 0 <= i < |comps| ==> comps[i] != ".."
    ensures Walk(dir, comps) == dir + comps
    decreases |comps|
  {
    if comps != [] {
      WalkDown(dir + [comps[0]], comps[1..]);
      assert dir + [comps[0]] + comps[1..] == dir + comps;
    }
  }

  /** As the script writes it: `../` in front of the header directory,
      whatever it is. */
  function IncludeAsWritten(inc: string): string {
    "../" + inc
  }

  /** From `cimgui` inside the start directory `cwd`, the as-written flag
      names `cwd` followed by an absolute header directory, not the
      directory `check_dependencies` found. */
  lemma IncludeAsWrittenMisses(cwd: seq<string>, inc: string)
    requires cwd != [] && StartsWith(inc, "/")
    requires forall i :: 0 <= i < |Components(inc)| ==> Components(inc)[i] != ".."
    ensures Resolve(cwd + ["cimgui"], IncludeAsWritten(inc)) == cwd + Resolve(cwd, inc)
    ensures Resolve(cwd + ["cimgui"], IncludeAsWritten(inc)) != Resolve(cwd, inc)
  {
    ComponentsUp(inc);
    assert (cwd + ["cimgui"])[..|cwd|] == cwd;
    WalkDown(cwd, Components(inc));
    WalkDown([], Components(inc));
    assert [] + Components(inc) == Components(inc);
    assert !StartsWith(IncludeAsWritten(inc), "/") by {
      assert IncludeAsWritten(inc)[0] == '.';
    }
  }

  /** The macOS header directory is absolute and free of `..`, so the
      as-written flag misses it from any start directory but the root. */
  lemma MacIncludeMissed(cwd: seq<string>)
    requires cwd != []
    ensures Resolve(cwd + ["cimgui"], IncludeAsWritten(SettingsFor(MacOS).sdlInclude))
         != Resolve(cwd, SettingsFor(MacOS).sdlInclude)
  {
    var inc := SettingsFor(MacOS).sdlInclude;
    assert inc[0] == '/';
    assert forall i :: 0 <= i < |inc| ==> inc[i] != '.';
    ComponentsNoUp(inc);
    IncludeAsWrittenMisses(cwd, inc);
  }

  /** As intended: `../` only in front of a relative header directory. */
  function IncludeFromCimgui(inc: string): string {
    if StartsWith(inc, "/") then inc else "../" + inc
  }

  /** From `cimgui`, the corrected flag names exactly the directory
      `check_dependencies` looked for from the start directory, whichever
      form the header directory has. */
  lemma IncludeFromCimguiFindsChecked(cwd: seq<string>, inc: string)
    ensures Resolve(cwd + ["cimgui"], IncludeFromCimgui(inc)) == Resolve(cwd, inc)
  {
    if !StartsWith(inc, "/") {
      ComponentsUp(inc);
      assert (cwd + ["cimgui"])[..|cwd|] == cwd;
      assert !StartsWith("../" + inc, "/") by {
        assert ("../" + inc)[0] == '.';
      }
    }
  }

  /** The `-I` flag for the SDL2 headers as the script passes it from
      inside `cimgui`: `../` in front of the header directory, whatever its
      form (so on macOS the compiler looks below the start directory). */
  function SdlIncludeFlag(inc: string): string {
    "-I" + IncludeAsWritten(inc)
  }

  /** The compile command of one source. */
  function CompileCommand(p: Platform, src: string): seq<string> {
    var s := SettingsFor(p);
    [s.cxx, "-O2", "-fPIC", "-c", src, "-o", ObjectName(src),
     "-I.", "-Iimgui", "-Iimgui/backends", SdlIncludeFlag(s.sdlInclude), "-D_REENTRANT"] + s.extraCflags
  }

  /** Each source is compiled alone (`-c`) by the platform's C++ compiler
      into its own object file, with the SDL2 headers and the platform's
      extra flags last. */
  lemma CompileCommandShape(p: Platform, src: string)
    ensures var argv := CompileCommand(p, src);
            && |argv| == 12 + |SettingsFor(p).extraCflags|
            && argv[0] == SettingsFor(p).cxx && argv[3] == "-c" && argv[4] == src
            && argv[5] == "-o" && argv[6] == ObjectName(src) && '/' !in argv[6]
            && argv[10] == "-I../" + SettingsFor(p).sdlInclude
            && argv[12..] == SettingsFor(p).extraCflags
            && !IsLink(Run(argv, "", None, false))
  {
    var s := SettingsFor(p);
    var head := [s.cxx, "-O2", "-fPIC", "-c", src, "-o", ObjectName(src),
                 "-I.", "-Iimgui", "-Iimgui/backends", SdlIncludeFlag(s.sdlInclude), "-D_REENTRANT"];
    assert CompileCommand(p, src) == head + s.extraCflags;
    assert SdlIncludeFlag(s.sdlInclude) == "-I../" + s.sdlInclude;
  }

  /** On macOS the compile command hands the compiler a header directory
      that, from `cimgui`, is not the one `check_dependencies` found. */
  lemma MacCompileIncludeMissed(cwd: seq<string>, src: string)
    requires cwd != []
    ensures var argv := CompileCommand(MacOS, src);
            Resolve(cwd + ["cimgui"], argv[10][2..]) != Resolve(cwd, SettingsFor(MacOS).sdlInclude)
  {
    CompileCommandShape(MacOS, src);
    var argv := CompileCommand(MacOS, src);
    assert argv[10][2..] == IncludeAsWritten(SettingsFor(MacOS).sdlInclude);
    MacIncludeMissed(cwd);
  }

  function CompileStep(h: Host, src: string): Action {
    Run(CompileCommand(HostPlatform(h.system), src), CimguiDir(h), None, false)
  }

  function CompileSteps(h: Host, srcs: seq<string>): (steps: seq<Action>)
    ensures |steps| == |srcs|
    ensures forall i :: 0 <= i < |srcs| ==> steps[i] == CompileStep(h, srcs[i])
  {
    seq(|srcs|, i requires 0 <= i < |srcs| => CompileStep(h, srcs[i]))
  }

  /** `compile` in a loop with `break`, collecting the object names. */
  method CompileSources(h: Host, w: World, srcs: seq<string>) returns (w': World, objs: seq<string>, failed: bool)
    ensures w' == AttemptAll(h, w, Library, CompileSteps(h, srcs)).0 && |objs| == AttemptAll(h, w, Library, CompileSteps(h, srcs)).1
    ensures objs == ObjectNames(srcs[..|objs|])
    ensures failed <==> |objs| < |srcs|
  {
    ghost var steps := CompileSteps(h, srcs);
    w', objs, failed := w, [], false;
    var i := 0;
    assert steps[0..] == steps;
    assert ObjectNames(srcs[..0]) == [];
    while i < |srcs|
      invariant 0 <= i <= |srcs| && |objs| == i
      invariant objs == ObjectNames(srcs[..i])
      invariant AttemptAll(h, w, Library, steps).0 == AttemptAll(h, w', Library, steps[i..]).0
      invariant AttemptAll(h, w, Library, steps).1 == i + AttemptAll(h, w', Library, steps[i..]).1
    {
      ghost var rest := steps[i..];
      assert rest[0] == steps[i] && rest[1..] == steps[i + 1..];
      ghost var before := w';
      var ok;
      w', ok := Step(h, w', Library, CompileStep(h, srcs[i]));
      if !ok {
        failed := true;
        break;
      }
      AttemptAllUnfold(h, before, Library, rest);
      ObjectNamesSnoc(srcs, i);
      objs := objs + [ObjectName(srcs[i])];
      i := i + 1;
    }
    if !failed {
      assert steps[i..] == [];
    }
  }

  /** The link command: every object, then the output and the platform's
      linker flags. */
  function LinkStep(h: Host, objs: seq<string>): (a: Action)
    ensures a.Run? && a.cwd == CimguiDir(h) && |a.argv| >= 2 + |objs|
    ensures a.argv[..2] == [SettingsFor(HostPlatform(h.system)).cxx, "-shared"]
    ensures a.argv[2..2 + |objs|] == objs
  {
    var p := HostPlatform(h.system);
    var s := SettingsFor(p);
    Run([s.cxx, "-shared"] + objs + ["-o", OutputName(p)] + s.extraLdflags, CimguiDir(h), None, false)
  }

  /** A link command, told apart from a compile by its second word. */
  predicate IsLink(a: Action) {
    a.Run? && |a.argv| >= 2 && a.argv[1] == "-shared"
  }

  /** The files removed after the build whether or not it worked: the two
      wrapper copies and every object made. */
  function Temporaries(h: Host, objs: seq<string>): (paths: seq<Path>)
    ensures |paths| == 2 + |objs|
    ensures paths[0] == InCimgui(h, WrapperCpp) && paths[1] == InCimgui(h, WrapperH)
    ensures forall i :: 0 <= i < |objs| ==> paths[2 + i] == InCimgui(h, objs[i])
  {
    [InCimgui(h, WrapperCpp), InCimgui(h, WrapperH)] + seq(|objs|, i requires 0 <= i < |objs| => InCimgui(h, objs[i]))
  }

  /** `os.remove` of every listed path that `os.path.exists`; an error from
      a removal ends the script.  While the script goes on, the files are
      those before minus the listed ones, and the steps taken are removals. */
  function RemoveExisting(h: Host, w: World, s: Stage, paths: seq<Path>): (r: World)
    ensures r.status == Running ==> w.status == Running && r.fs == w.fs - (set q | q in paths)
    ensures Live(w) ==> Live(r)
    ensures |w.trace| <= |r.trace| && r.trace[..|w.trace|] == w.trace
    ensures forall i :: |w.trace| <= i < |r.trace| ==> r.trace[i].stage == s && r.trace[i].action.RemoveFile?
    ensures w.status != Running ==> r == w
    decreases |paths|
  {
    if paths == [] then w
    else
      var w1 := if paths[0] in w.fs then Perform(h, w, s, RemoveFile(paths[0])) else w;
      var r := RemoveExisting(h, w1, s, paths[1..]);
      assert r.status == Running ==> r.fs == w.fs - (set q | q in paths) by {
        if r.status == Running {
          assert (set q | q in paths) == {paths[0]} + (set q | q in paths[1..]);
        }
      }
      r
  }

  /** The clean-up loop of the script. */
  method RemoveFiles(h: Host, w: World, s: Stage, paths: seq<Path>) returns (w': World)
    ensures w' == RemoveExisting(h, w, s, paths)
  {
    w' := w;
    var i := 0;
    while i < |paths|
      invariant 0 <= i <= |paths|
      invariant RemoveExisting(h, w', s, paths[i..]) == RemoveExisting(h, w, s, paths)
    {
      var rest := paths[i..];
      assert rest[0] == paths[i] && rest[1..] == paths[i + 1..];
      if paths[i] in w'.fs {
        w' := Perform(h, w', s, RemoveFile(paths[i]));
      }
      i := i + 1;
    }
    assert paths[i..] == [];
  }

  /** The copies of the wrapper sources into the submodule. */
  function CopyWrappers(h: Host): seq<Action> {
    [CopyFile(At(h, "imgui_backends/" + WrapperCpp), InCimgui(h, WrapperCpp)),
     CopyFile(At(h, "imgui_backends/" + WrapperH), InCimgui(h, WrapperH))]
  }

  /** The move of the linked library from `cimgui` to `libs`. */
  function MoveOutput(h: Host): seq<Action> {
    var out := OutputName(HostPlatform(h.system));
    [CopyFile(InCimgui(h, out), At(h, "libs/" + out)), RemoveFile(InCimgui(h, out))]
  }

  /** The first half of `build_library`: copy the wrappers in, compile
      until the first failure, and link only if every source compiled.  The
      result is the world, the objects made, and whether the link worked. */
  function Linked(h: Host, w: World): (World, seq<string>, bool) {
    var w1 := RunAll(h, w, Library, CopyWrappers(h));
    var compiled := AttemptAll(h, w1, Library, CompileSteps(h, Sources));
    var objs := ObjectNames(Sources[..compiled.1]);
    if compiled.1 < |Sources| then (compiled.0, objs, false)
    else
      var link := Attempt(h, compiled.0, Library, LinkStep(h, objs));
      (link.0, objs, link.1)
  }

  /** The second half of `build_library`, given the world, the objects and
      whether the link worked: always clean up, and move the library to
      `libs` if the link worked and left it there. */
  function AfterLink(h: Host, l: (World, seq<string>, bool)): (World, bool) {
    var w4 := RemoveExisting(h, l.0, Library, Temporaries(h, l.1));
    if l.2 && InCimgui(h, OutputName(HostPlatform(h.system))) in w4.fs then
      var w5 := RunAll(h, w4, Library, MoveOutput(h));
      (w5, w5.status == Running)
    else (w4, false)
  }

  /** `build_library`. */
  function LibraryOutcome(h: Host, w: World): (World, bool) {
    AfterLink(h, Linked(h, w))
  }

  method CompileAndLink(h: Host, w: World) returns (w': World, objs: seq<string>, linked: bool)
    ensures w' == Linked(h, w).0 && objs == Linked(h, w).1 && linked == Linked(h, w).2
  {
    var copies := CopyWrappers(h);
    w' := Perform(h, w, Library, copies[0]);
    w' := Perform(h, w', Library, copies[1]);
    RunAllSnoc(h, w, Library, [copies[0]], copies[1]);
    RunAllSnoc(h, w, Library, [], copies[0]);
    assert [copies[0]] + [copies[1]] == copies;
    var failed;
    w', objs, failed := CompileSources(h, w', Sources);
    linked := false;
    if !failed {
      w', linked := Step(h, w', Library, LinkStep(h, objs));
    }
  }

  method BuildLibrary(h: Host, w: World) returns (w': World, ok: bool)
    ensures w' == LibraryOutcome(h, w).0 && ok == LibraryOutcome(h, w).1
    ensures ok ==> Linked(h, w).1 == ObjectNames(Sources)
  {
    var objs, linked;
    w', objs, linked := CompileAndLink(h, w);
    w' := RemoveFiles(h, w', Library, Temporaries(h, objs));
    var out := OutputName(HostPlatform(h.system));
    if linked && InCimgui(h, out) in w'.fs {
      var w4 := w';
      var copy := CopyFile(InCimgui(h, out), At(h, "libs/" + out));
      w' := Perform(h, w', Library, copy);
      w' := Perform(h, w', Library, RemoveFile(InCimgui(h, out)));
      RunAllSnoc(h, w4, Library, [copy], RemoveFile(InCimgui(h, out)));
      RunAllSnoc(h, w4, Library, [], copy);
      assert [copy] + [RemoveFile(InCimgui(h, out))] == MoveOutput(h);
      ok := w'.status == Running;
      if ok {
        LibraryLinkedAll(h, w);
      }
    } else {
      ok := false;
    }
  }

  /** A file in the submodule is never one in `libs`. */
  lemma InCimguiNotLibs(h: Host, name: string, lib: string)
    ensures InCimgui(h, name) != At(h, "libs/" + lib)
  {
    assert InCimgui(h, name)[|h.cwd| + 1] == 'c';
    assert At(h, "libs/" + lib)[|h.cwd| + 1] == 'l';
  }

  lemma TemporariesNotLibs(h: Host, objs: seq<string>, lib: string)
    ensures At(h, "libs/" + lib) !in Temporaries(h, objs)
  {
    var paths := Temporaries(h, objs);
    if At(h, "libs/" + lib) in paths {
      var j :| 0 <= j < |paths| && paths[j] == At(h, "libs/" + lib);
      if j == 0 {
        InCimguiNotLibs(h, WrapperCpp, lib);
      } else if j == 1 {
        InCimguiNotLibs(h, WrapperH, lib);
      } else {
        InCimguiNotLibs(h, objs[j - 2], lib);
      }
    }
  }

  /** The move of the library: the copy in `libs` is made and the one in
      `cimgui` removed, nothing else is touched. */
  lemma MoveOutputEffect(h: Host, w: World)
    requires RunAll(h, w, Library, MoveOutput(h)).status == Running
    ensures var out := OutputName(HostPlatform(h.system));
            var r := RunAll(h, w, Library, MoveOutput(h));
            && w.status == Running && InCimgui(h, out) in w.fs
            && r.fs == w.fs[At(h, "libs/" + out) := w.fs[InCimgui(h, out)]] - {InCimgui(h, out)}
  {
    var out := OutputName(HostPlatform(h.system));
    var copy := CopyFile(InCimgui(h, out), At(h, "libs/" + out));
    var remove := RemoveFile(InCimgui(h, out));
    assert MoveOutput(h) == [copy] + [remove];
    RunAllSnoc(h, w, Library, [copy], remove);
    RunAllSnoc(h, w, Library, [], copy);
    var w1 := Perform(h, w, Library, copy);
    assert w1.status == Running;
  }

  /** Whenever the script goes on after `build_library`, the wrapper copies
      and the objects it made are gone from `cimgui`: the clean-up runs
      whether or not the build worked. */
  lemma LibraryCleansUp(h: Host, l: (World, seq<string>, bool))
    ensures var r := AfterLink(h, l);
            r.0.status == Running ==> forall t :: t in Temporaries(h, l.1) ==> t !in r.0.fs
  {
    var w4 := RemoveExisting(h, l.0, Library, Temporaries(h, l.1));
    var out := OutputName(HostPlatform(h.system));
    if l.2 && InCimgui(h, out) in w4.fs {
      var w5 := RunAll(h, w4, Library, MoveOutput(h));
      if w5.status == Running {
        MoveOutputEffect(h, w4);
        TemporariesNotLibs(h, l.1, out);
      }
    }
  }

  /** When `build_library` reports success, every source compiled, the link
      took the objects of all nine, and it is recorded as having worked. */
  lemma LibraryLinkedAll(h: Host, w: World)
    requires LibraryOutcome(h, w).1
    ensures var l := Linked(h, w);
            l.1 == ObjectNames(Sources) && l.2 && Ran(l.0, Library, LinkStep(h, l.1))
  {
    var l := Linked(h, w);
    var w1 := RunAll(h, w, Library, CopyWrappers(h));
    var compiled := AttemptAll(h, w1, Library, CompileSteps(h, Sources));
    assert Sources[..compiled.1] == Sources;
    assert l.0.trace[|compiled.0.trace|] == Event(Library, LinkStep(h, l.1), true);
  }

  /** The wrapper copies only append copy steps to the trace. */
  lemma CopyWrappersTrace(h: Host, w: World)
    ensures var w1 := RunAll(h, w, Library, CopyWrappers(h));
            && |w.trace| <= |w1.trace| && w1.trace[..|w.trace|] == w.trace
            && forall i :: |w.trace| <= i < |w1.trace| ==> w1.trace[i].action.CopyFile?
  {
    var copies := CopyWrappers(h);
    RunAllSnoc(h, w, Library, [copies[0]], copies[1]);
    RunAllSnoc(h, w, Library, [], copies[0]);
    assert [copies[0]] + [copies[1]] == copies;
  }

  /** When a source fails to compile, `build_library` links nothing and
      reports failure: after the wrapper copies, the trace holds the
      compiles that worked and then the failing one, and no step it records
      from then on, clean-up included, is a link. */
  lemma LibraryStopsAtFailedCompile(h: Host, w: World)
    requires AttemptAll(h, RunAll(h, w, Library, CopyWrappers(h)), Library, CompileSteps(h, Sources)).1 < |Sources|
    ensures var l := Linked(h, w);
            var r := LibraryOutcome(h, w);
            && !l.2 && !r.1
            && (forall i :: |w.trace| <= i < |r.0.trace| ==> !IsLink(r.0.trace[i].action))
    ensures var w1 := RunAll(h, w, Library, CopyWrappers(h));
            var n := AttemptAll(h, w1, Library, CompileSteps(h, Sources)).1;
            w1.status == Running ==>
              Linked(h, w).0.trace == w1.trace + Succeeded(Library, CompileSteps(h, Sources)[..n])
                                      + [Event(Library, CompileStep(h, Sources[n]), false)]
  {
    var w1 := RunAll(h, w, Library, CopyWrappers(h));
    var compiled := AttemptAll(h, w1, Library, CompileSteps(h, Sources));
    var l := Linked(h, w);
    assert l == (compiled.0, ObjectNames(Sources[..compiled.1]), false);
    if w1.status == Running {
      AttemptAllRecord(h, w1, Library, CompileSteps(h, Sources));
    }
    CopyWrappersTrace(h, w);
    CompilesNoLink(h, w1, Sources);
    var r := LibraryOutcome(h, w);
    assert r == (RemoveExisting(h, l.0, Library, Temporaries(h, l.1)), false);
    NoLinkTrans(w, w1, l.0, r.0);
  }

  /** The compile loop records no link. */
  lemma CompilesNoLink(h: Host, w: World, srcs: seq<string>)
    ensures var r := AttemptAll(h, w, Library, CompileSteps(h, srcs)).0;
            && |w.trace| <= |r.trace| && r.trace[..|w.trace|] == w.trace
            && forall i :: |w.trace| <= i < |r.trace| ==> !IsLink(r.trace[i].action)
  {
    var steps := CompileSteps(h, srcs);
    forall k | 0 <= k < |steps|
      ensures !IsLink(steps[k])
    {
      CompileStepNotLink(h, srcs[k]);
    }
    AttemptsNoLink(h, w, steps);
  }

  lemma AttemptsNoLink(h: Host, w: World, steps: seq<Action>)
    requires forall k :: 0 <= k < |steps| ==> !IsLink(steps[k])
    ensures var r := AttemptAll(h, w, Library, steps).0;
            && |w.trace| <= |r.trace| && r.trace[..|w.trace|] == w.trace
            && forall i :: |w.trace| <= i < |r.trace| ==> !IsLink(r.trace[i].action)
  {
    if w.status == Running {
      AttemptAllTrace(h, w, Library, steps);
      var r := AttemptAll(h, w, Library, steps);
      forall i | |w.trace| <= i < |r.0.trace|
        ensures !IsLink(r.0.trace[i].action)
      {
        var k := i - |w.trace|;
        assert k <= r.1 && r.0.trace[|w.trace| + k].action == steps[k];
      }
    } else if steps != [] {
      assert AttemptAll(h, w, Library, steps).0 == w;
    }
  }

  lemma CompileStepNotLink(h: Host, src: string)
    ensures !IsLink(CompileStep(h, src))
  {
    CompileCommandShape(HostPlatform(h.system), src);
  }

  /** No link among the steps a chain of three stretches of script adds. */
  lemma NoLinkTrans(a: World, b: World, c: World, d: World)
    requires |a.trace| <= |b.trace| && b.trace[..|a.trace|] == a.trace
    requires |b.trace| <= |c.trace| && c.trace[..|b.trace|] == b.trace
    requires |c.trace| <= |d.trace| && d.trace[..|c.trace|] == c.trace
    requires forall i :: |a.trace| <= i < |b.trace| ==> b.trace[i].action.CopyFile?
    requires forall i :: |b.trace| <= i < |c.trace| ==> !IsLink(c.trace[i].action)
    requires forall i :: |c.trace| <= i < |d.trace| ==> d.trace[i].action.RemoveFile?
    ensures forall i :: |a.trace| <= i < |d.trace| ==> !IsLink(d.trace[i].action)
  {
    forall i | |a.trace| <= i < |d.trace|
      ensures !IsLink(d.trace[i].action)
    {
      if i < |b.trace| {
        assert d.trace[i] == c.trace[i] == b.trace[i];
      } else if i < |c.trace| {
        assert d.trace[i] == c.trace[i];
      }
    }
  }

  /** When `build_library` reports success, the library is in `libs`, its
      copy in `cimgui` is gone, and so are the wrapper copies and the objects
      the link took. */
  lemma LibraryBuilt(h: Host, l: (World, seq<string>, bool))
    requires AfterLink(h, l).1
    ensures var r := AfterLink(h, l).0;
            var out := OutputName(HostPlatform(h.system));
            && At(h, "libs/" + out) in r.fs && InCimgui(h, out) !in r.fs
            && (forall i :: 0 <= i < |l.1| ==> InCimgui(h, l.1[i]) !in r.fs)
            && InCimgui(h, WrapperCpp) !in r.fs && InCimgui(h, WrapperH) !in r.fs
  {
    var temps := Temporaries(h, l.1);
    var w4 := RemoveExisting(h, l.0, Library, temps);
    var out := OutputName(HostPlatform(h.system));
    MoveOutputEffect(h, w4);
    InCimguiNotLibs(h, out, out);
    LibraryCleansUp(h, l);
    assert forall i :: 0 <= i < |l.1| ==> temps[2 + i] == InCimgui(h, l.1[i]);
  }

  /** A link recorded before the clean-up stays recorded. */
  lemma LibraryLinkRan(h: Host, l: (World, seq<string>, bool))
    requires Ran(l.0, Library, LinkStep(h, l.1))
    ensures Ran(AfterLink(h, l).0, Library, LinkStep(h, l.1))
  {
    var w4 := RemoveExisting(h, l.0, Library, Temporaries(h, l.1));
    PrefixKeepsRan(l.0, w4, Library, LinkStep(h, l.1));
    StageDone(h, w4, Library, MoveOutput(h));
    ExtendsKeepsRan(w4, RunAll(h, w4, Library, MoveOutput(h)), Library, Library, LinkStep(h, l.1));
  }

  // ---------------------------------------------------------------------
  // update_rock_file

  const RockScript := "test_gl_triangle.rock"

  /** The library paths an older checkout of the Rock test script loads. */
  const OldLibraryPaths: seq<string> := [
    "/home/darth/projects/rock-headers/libs/libcimgui.so",
    "/home/darth/projects/rock-headers/libs/libcimgui_backends.so",
    "/home/darth/projects/rock-headers/libs/cimgui_complete.so"]

  const CimguiLoad := "local cimgui = ffi.load"
  const BackendsLoad := "local backends = ffi.load"
  const LibLoad := "local lib = ffi.load"

  /** `lib_path`: the library `build_library` put in `libs`. */
  function LibraryPath(h: Host): Path {
    At(h, "libs/" + OutputName(HostPlatform(h.system)))
  }

  predicate NonEmptyPatterns(pats: seq<string>) {
    forall i :: 0 <= i < |pats| ==> pats[i] != []
  }

  /** Each pattern in turn replaced by `rep`, left to right. */
  function ReplaceEach(s: string, pats: seq<string>, rep: string): string
    requires NonEmptyPatterns(pats)
    decreases |pats|
  {
    if pats == [] then s else ReplaceEach(Replace(s, pats[0], rep), pats[1..], rep)
  }

  /** Text that holds none of the patterns is left as it is. */
  lemma {:induction false} ReplaceEachAbsent(s: string, pats: seq<string>, rep: string)
    requires NonEmptyPatterns(pats)
    requires forall i :: 0 <= i < |pats| ==> !Contains(s, pats[i])
    ensures ReplaceEach(s, pats, rep) == s
    decreases |pats|
  {
    if pats != [] {
      ReplaceAbsent(s, pats[0], rep);
      ReplaceEachAbsent(s, pats[1..], rep);
    }
  }

  /** The `for pattern in old_patterns` loop. */
  method ReplacePatterns(content: string, pats: seq<string>, rep: string) returns (r: string)
    requires NonEmptyPatterns(pats)
    ensures r == ReplaceEach(content, pats, rep)
  {
    r := content;
    var i := 0;
    assert pats[0..] == pats;
    while i < |pats|
      invariant 0 <= i <= |pats|
      invariant ReplaceEach(r, pats[i..], rep) == ReplaceEach(content, pats, rep)
    {
      var rest := pats[i..];
      assert rest[0] == pats[i] && rest[1..] == pats[i + 1..];
      r := Replace(r, pats[i], rep);
      i := i + 1;
    }
    assert pats[i..] == [];
  }

  /** The lines the `skip_next` loop keeps: a line holding the backends
      load is dropped together with the line after it; `skip` says the
      first line is such a following line. */
  function DropLoads(lines: seq<string>, skip: bool): (kept: seq<string>)
    ensures |kept| <= |lines|
    decreases |lines|
  {
    if lines == [] then []
    else if skip then DropLoads(lines[1..], false)
    else if Contains(lines[0], BackendsLoad) then DropLoads(lines[1..], true)
    else [lines[0]] + DropLoads(lines[1..], false)
  }

  /** The `skip_next` loop. */
  method DropBackendsLoad(lines: seq<string>) returns (kept: seq<string>)
    ensures kept == DropLoads(lines, false)
  {
    kept := [];
    var skip := false;
    var i := 0;
    assert lines[0..] == lines;
    while i < |lines|
      invariant 0 <= i <= |lines|
      invariant kept + DropLoads(lines[i..], skip) == DropLoads(lines, false)
    {
      var rest := lines[i..];
      assert rest[0] == lines[i] && rest[1..] == lines[i + 1..];
      if skip {
        skip := false;
      } else if Contains(lines[i], BackendsLoad) {
        skip := true;
      } else {
        assert kept + [lines[i]] + DropLoads(lines[i + 1..], false) == kept + ([lines[i]] + DropLoads(lines[i + 1..], false));
        kept := kept + [lines[i]];
      }
      i := i + 1;
    }
    assert lines[i..] == [];
    assert kept + [] == kept;
  }

  /** No kept line holds the backends load. */
  lemma {:induction false} DropLoadsRemovesLoad(lines: seq<string>, skip: bool)
    ensures forall i :: 0 <= i < |DropLoads(lines, skip)| ==> !Contains(DropLoads(lines, skip)[i], BackendsLoad)
    decreases |lines|
  {
    if lines != [] {
      DropLoadsRemovesLoad(lines[1..], false);
      DropLoadsRemovesLoad(lines[1..], true);
    }
  }

  /** Lines without the backends load are all kept. */
  lemma {:induction false} DropLoadsKeepsOthers(lines: seq<string>)
    requires forall i :: 0 <= i < |lines| ==> !Contains(lines[i], BackendsLoad)
    ensures DropLoads(lines, false) == lines
    decreases |lines|
  {
    if lines != [] {
      DropLoadsKeepsOthers(lines[1..]);
      assert lines == [lines[0]] + lines[1..];
    }
  }

  /** A backends load line and the line after it both go, the lines around
      them stay. */
  lemma DropLoadsDropsPair(load: string, next: string, after: seq<string>)
    requires Contains(load, BackendsLoad)
    ensures DropLoads([load, next] + after, false) == DropLoads(after, false)
  {
    var lines := [load, next] + after;
    assert lines[1..][1..] == after;
  }

  /** The rewrite of the script's text: the old library paths become the
      new one, and a script loading cimgui and the backends separately is
      made to load the one library once and to call through it. */
  function RockText(content: string, libPath: string): string {
    var c1 := ReplaceEach(content, OldLibraryPaths, libPath);
    if Contains(c1, CimguiLoad) && Contains(c1, BackendsLoad) then
      var c2 := Replace(c1, CimguiLoad, LibLoad);
      var c3 := Join(DropLoads(Split(c2, "\n"), false), "\n");
      Replace(Replace(c3, "cimgui.", "lib."), "backends.", "lib.")
    else c1
  }

  /** A script that names none of the old paths and does not load both
      libraries is written back unchanged. */
  lemma RockTextUnchanged(content: string, libPath: string)
    requires forall i :: 0 <= i < |OldLibraryPaths| ==> !Contains(content, OldLibraryPaths[i])
    requires !(Contains(content, CimguiLoad) && Contains(content, BackendsLoad))
    ensures RockText(content, libPath) == content
  {
    ReplaceEachAbsent(content, OldLibraryPaths, libPath);
  }

  /** `update_rock_file`: a missing script is skipped, otherwise its text is
      rewritten in place.  It reports success either way. */
  function RockOutcome(h: Host, w: World): (r: World)
    ensures r.status == Running ==> w.status == Running
    ensures r.status == Running ==>
              r.fs == if At(h, RockScript) in w.fs then w.fs[At(h, RockScript) := RockText(w.fs[At(h, RockScript)], LibraryPath(h))] else w.fs
  {
    var path := At(h, RockScript);
    if path !in w.fs then w
    else Perform(h, w, RockFile, WriteText(path, RockText(w.fs[path], LibraryPath(h))))
  }

  method UpdateRockFile(h: Host, w: World) returns (w': World, ok: bool)
    ensures w' == RockOutcome(h, w) && ok
  {
    var path := At(h, RockScript);
    ok := true;
    if path !in w.fs {
      return w, ok;
    }
    var content := ReplacePatterns(w.fs[path], OldLibraryPaths, LibraryPath(h));
    if Contains(content, CimguiLoad) && Contains(content, BackendsLoad) {
      content := Replace(content, CimguiLoad, LibLoad);
      var lines := DropBackendsLoad(Split(content, "\n"));
      content := Join(lines, "\n");
      content := Replace(content, "cimgui.", "lib.");
      content := Replace(content, "backends.", "lib.");
    }
    w' := Perform(h, w, RockFile, WriteText(path, content));
  }

  // ---------------------------------------------------------------------
  // test_build and main

  const TestLua := "test_build.lua"

  /** The part of the smoke-test script the model keeps: the line that
      loads the built library from `libs`. */
  function TestScript(p: Platform): string {
    "local lib = ffi.load(\"./libs/" + OutputName(p) + "\")"
  }

  function TestRun(h: Host): Action {
    Run(["luajit", TestLua], h.cwd, None, false)
  }

  /** `test_build`: write the script, run it with luajit (a failure is only
      reported), remove the script. */
  function TestOutcome(h: Host, w: World): (r: (World, bool))
    ensures r.0.status == Running ==> w.status == Running
  {
    var w1 := Perform(h, w, SmokeTest, WriteText(At(h, TestLua), TestScript(HostPlatform(h.system))));
    var run := Attempt(h, w1, SmokeTest, TestRun(h));
    (Perform(h, run.0, SmokeTest, RemoveFile(At(h, TestLua))), run.1)
  }

  method TestBuild(h: Host, w: World) returns (w': World, ok: bool)
    ensures w' == TestOutcome(h, w).0 && ok == TestOutcome(h, w).1
  {
    w' := Perform(h, w, SmokeTest, WriteText(At(h, TestLua), TestScript(HostPlatform(h.system))));
    w', ok := Step(h, w', SmokeTest, TestRun(h));
    w' := Perform(h, w', SmokeTest, RemoveFile(At(h, TestLua)));
  }

  /** The result of `ensure_directories`. */
  function DirectoriesOutcome(h: Host, w: World): (World, bool) {
    var w' := RunAll(h, w, Directories, [MakeDir(At(h, "libs")), MakeDir(At(h, "imgui_backends"))]);
    (w', At(h, "imgui_backends/" + WrapperCpp) in w'.fs && At(h, "imgui_backends/" + WrapperH) in w'.fs)
  }

  /** `main`, with an error escaping it ending the script with status 1:
      the first failing check or build step returns 1; the Rock update and
      the smoke test cannot change the 0 that follows a built library. */
  function MainOutcome(h: Host, w: World, porcelain: string, answer: string): World {
    if !DependenciesOk(h, w.fs) then Finish(w, 1)
    else
      var sub := SubmoduleOutcome(h, w, porcelain, answer);
      if !sub.1 then Finish(sub.0, 1)
      else
        var dirs := DirectoriesOutcome(h, sub.0);
        if !dirs.1 then Finish(dirs.0, 1)
        else
          var lib := LibraryOutcome(h, dirs.0);
          if !lib.1 then Finish(lib.0, 1)
          else Finish(TestOutcome(h, RockOutcome(h, lib.0)).0, 0)
  }

  method ImguiMain(h: Host, w: World, porcelain: string, answer: string) returns (w': World)
    ensures w' == MainOutcome(h, w, porcelain, answer)
  {
    if !DependenciesOk(h, w.fs) {
      return Finish(w, 1);
    }
    var ok;
    w', ok := CheckSubmodule(h, w, porcelain, answer);
    if !ok {
      return Finish(w', 1);
    }
    w', ok := EnsureDirectories(h, w');
    if !ok {
      return Finish(w', 1);
    }
    w', ok := BuildLibrary(h, w');
    if !ok {
      return Finish(w', 1);
    }
    var updated, smokeOk;
    w', updated := UpdateRockFile(h, w');
    w', smokeOk := TestBuild(h, w');
    w' := Finish(w', 0);
  }

  /** `build_library` ends the script, if at all, with status 1. */
  lemma LibraryLive(h: Host, w: World)
    requires Live(w)
    ensures Live(LibraryOutcome(h, w).0)
  {
    var w1 := RunAll(h, w, Library, CopyWrappers(h));
    RunAllLive(h, w, Library, CopyWrappers(h));
    var l := Linked(h, w);
    var w4 := RemoveExisting(h, l.0, Library, Temporaries(h, l.1));
    RunAllLive(h, w4, Library, MoveOutput(h));
  }

  /** `main` ends with 0 or 1, and never with anything else. */
  lemma ImguiExitCodes(h: Host, w: World, porcelain: string, answer: string)
    requires w.status == Running
    ensures var r := MainOutcome(h, w, porcelain, answer);
            r.status == Exited(0) || r.status == Exited(1)
  {
    var sub := SubmoduleOutcome(h, w, porcelain, answer);
    var dirs := DirectoriesOutcome(h, sub.0);
    RunAllLive(h, sub.0, Directories, [MakeDir(At(h, "libs")), MakeDir(At(h, "imgui_backends"))]);
    LibraryLive(h, dirs.0);
  }

  /** Exit status 0 means every check passed and the library is in `libs`,
      linked from the objects of all nine sources: neither the Rock update
      nor the smoke test removes it. */
  lemma ImguiSuccess(h: Host, w: World, porcelain: string, answer: string)
    requires w.status == Running
    requires MainOutcome(h, w, porcelain, answer).status == Exited(0)
    ensures var r := MainOutcome(h, w, porcelain, answer);
            && DependenciesOk(h, w.fs)
            && SubmoduleOutcome(h, w, porcelain, answer).1
            && LibraryPath(h) in r.fs
            && Ran(r, Library, LinkStep(h, ObjectNames(Sources)))
  {
    ImguiExitCodes(h, w, porcelain, answer);
    var sub := SubmoduleOutcome(h, w, porcelain, answer);
    var dirs := DirectoriesOutcome(h, sub.0);
    RunAllLive(h, sub.0, Directories, [MakeDir(At(h, "libs")), MakeDir(At(h, "imgui_backends"))]);
    LibraryLive(h, dirs.0);
    var lib := LibraryOutcome(h, dirs.0);
    assert lib.1;
    var l := Linked(h, dirs.0);
    LibraryLinkedAll(h, dirs.0);
    LibraryBuilt(h, l);
    LibraryLinkRan(h, l);
    var rock := RockOutcome(h, lib.0);
    var test := TestOutcome(h, rock);
    assert test.0.status == Running;
    LaterStepsKeepLibrary(h, lib.0);
  }

  /** Once the checks pass and `build_library` succeeds, `main` returns 0
      unless writing the Rock file or the test script, or removing the
      script, raises; whether luajit runs the test successfully plays no
      part.  On a host where file writes and removals work, the exit status
      is 0 whatever the smoke test reports. */
  lemma ImguiBuiltExitsZero(h: Host, w: World, porcelain: string, answer: string)
    requires w.status == Running && DependenciesOk(h, w.fs)
    requires var sub := SubmoduleOutcome(h, w, porcelain, answer);
             var dirs := DirectoriesOutcome(h, sub.0);
             sub.1 && dirs.1 && LibraryOutcome(h, dirs.0).1
    ensures var dirs := DirectoriesOutcome(h, SubmoduleOutcome(h, w, porcelain, answer).0);
            var later := TestOutcome(h, RockOutcome(h, LibraryOutcome(h, dirs.0).0)).0;
            MainOutcome(h, w, porcelain, answer).status == Exited(0) <==> later.status == Running
    ensures (forall a: Action, fs: FileSystem :: (a.WriteText? || a.RemoveFile?) ==> h.succeeds(a, fs)) ==>
              MainOutcome(h, w, porcelain, answer).status == Exited(0)
  {
    var sub := SubmoduleOutcome(h, w, porcelain, answer);
    var dirs := DirectoriesOutcome(h, sub.0);
    var lib := LibraryOutcome(h, dirs.0);
    var later := TestOutcome(h, RockOutcome(h, lib.0)).0;
    assert MainOutcome(h, w, porcelain, answer) == Finish(later, 0);
    if forall a: Action, fs: FileSystem :: (a.WriteText? || a.RemoveFile?) ==> h.succeeds(a, fs) {
      LibraryRunning(h, dirs.0);
      LaterStepsWork(h, lib.0);
    }
  }

  /** A successful `build_library` leaves the script running. */
  lemma LibraryRunning(h: Host, w: World)
    requires LibraryOutcome(h, w).1
    ensures LibraryOutcome(h, w).0.status == Running
  {
    var l := Linked(h, w);
    var w4 := RemoveExisting(h, l.0, Library, Temporaries(h, l.1));
  }

  /** On a host where file writes and removals work, the Rock update and the
      smoke test leave the script running, whatever luajit reports. */
  lemma LaterStepsWork(h: Host, w: World)
    requires w.status == Running
    requires forall a: Action, fs: FileSystem :: (a.WriteText? || a.RemoveFile?) ==> h.succeeds(a, fs)
    ensures TestOutcome(h, RockOutcome(h, w)).0.status == Running
  {
    var rock := RockOutcome(h, w);
    assert rock.status == Running;
    var w1 := Perform(h, rock, SmokeTest, WriteText(At(h, TestLua), TestScript(HostPlatform(h.system))));
    var run := Attempt(h, w1, SmokeTest, TestRun(h));
    assert At(h, TestLua) in run.0.fs;
  }

  /** The Rock update and the smoke test write and remove other files than
      the library, and only append to the trace. */
  lemma LaterStepsKeepLibrary(h: Host, w: World)
    requires TestOutcome(h, RockOutcome(h, w)).0.status == Running
    ensures var r := TestOutcome(h, RockOutcome(h, w)).0;
            && |w.trace| <= |r.trace| && r.trace[..|w.trace|] == w.trace
            && (LibraryPath(h) in w.fs ==> LibraryPath(h) in r.fs)
  {
    var rock := RockOutcome(h, w);
    assert At(h, RockScript)[|h.cwd| + 1] != LibraryPath(h)[|h.cwd| + 1];
    assert |w.trace| <= |rock.trace| && rock.trace[..|w.trace|] == w.trace;
    TestKeepsLibrary(h, rock);
    PrefixTrans(w, rock, TestOutcome(h, rock).0);
  }

  lemma TestKeepsLibrary(h: Host, w: World)
    requires TestOutcome(h, w).0.status == Running
    ensures var r := TestOutcome(h, w).0;
            && |w.trace| <= |r.trace| && r.trace[..|w.trace|] == w.trace
            && (LibraryPath(h) in w.fs ==> LibraryPath(h) in r.fs)
  {
    assert At(h, TestLua)[|h.cwd| + 1] != LibraryPath(h)[|h.cwd| + 1];
    var w1 := Perform(h, w, SmokeTest, WriteText(At(h, TestLua), TestScript(HostPlatform(h.system))));
    var run := Attempt(h, w1, SmokeTest, TestRun(h));
    var w3 := Perform(h, run.0, SmokeTest, RemoveFile(At(h, TestLua)));
    assert w3.trace == w.trace + w3.trace[|w.trace|..];
  }
}
