/** build_imgui_ci.py: the CI build of cimgui with the SDL2 and OpenGL3
    backends into one shared library in `build/cimgui`, installed with its
    headers below a prefix named on the command line.  Relative paths are
    taken from the directory the script is started in (`h.cwd`); the
    commands run there too. */
module ImguiCi {
  import opened Text
  import opened Steps
  import opened Platforms
  import Imgui

  // ---------------------------------------------------------------------
  // Platform settings

  /** `lib_name`. */
  function LibName(p: Platform): (r: string)
    ensures p == Windows <==> r == "cimgui.dll"
    ensures p == MacOS <==> r == "libcimgui.dylib"
    ensures p == Linux <==> r == "libcimgui.so"
  {
    match p
    case Windows => "cimgui.dll"
    case MacOS => "libcimgui.dylib"
    case Linux => "libcimgui.so"
  }

  /** The compiler and the linker flags, which only the macOS and Linux
      branches assign; `cc` and `extra_cflags` are assigned there too but
      never read. */
  datatype Toolchain = Toolchain(cxx: string, ldflags: seq<string>)

  function ToolchainFor(p: Platform): (r: Option<Toolchain>)
    ensures r.None? <==> p == Windows
    ensures r.Some? ==> |r.value.ldflags| >= 4 && r.value.ldflags[0] == "-lSDL2"
    ensures p == MacOS ==> r.value.cxx == "clang++" && "OpenGL" in r.value.ldflags
    ensures p == Linux ==> r.value.cxx == "g++" && "-lGL" in r.value.ldflags
  {
    match p
    case Windows => None
    case MacOS => Some(Toolchain("clang++", ["-lSDL2", "-framework", "OpenGL", "-framework", "CoreFoundation"]))
    case Linux => Some(Toolchain("g++", ["-lSDL2", "-lGL", "-ldl", "-lm"]))
  }

  /** The CI script and build_imgui.py agree on the compiler and on the
      library extension of each Unix platform, and on Windows as well for
      the extension. */
  lemma AgreesWithImgui(p: Platform)
    ensures EndsWith(LibName(p), Imgui.SettingsFor(p).libExt)
    ensures p != Windows ==> ToolchainFor(p).value.cxx == Imgui.SettingsFor(p).cxx
  {
    match p
    case Windows => EndsWithConcat("cimgui", ".dll");
    case MacOS => EndsWithConcat("libcimgui", ".dylib");
    case Linux => EndsWithConcat("libcimgui", ".so");
  }

  // ---------------------------------------------------------------------
  // Paths and command lines

  const BuildDir := "build/cimgui"
  const WrapperCpp := "imgui_backends/cimgui_sdl2_opengl3.cpp"
  const WrapperH := "imgui_backends/cimgui_sdl2_opengl3.h"
  const EssentialH := "imgui_backends/cimgui_essential.h"

  /** The eight translation units every build compiles. */
  const FixedSources: seq<string> := [
    "cimgui/cimgui.cpp",
    "cimgui/imgui/imgui.cpp",
    "cimgui/imgui/imgui_draw.cpp",
    "cimgui/imgui/imgui_tables.cpp",
    "cimgui/imgui/imgui_widgets.cpp",
    "cimgui/imgui/imgui_demo.cpp",
    "cimgui/imgui/backends/imgui_impl_sdl2.cpp",
    "cimgui/imgui/backends/imgui_impl_opengl3.cpp"]

  /** `sources`: the fixed ones, then the wrapper when it exists. */
  function SourceList(withWrapper: bool): seq<string> {
    if withWrapper then FixedSources + [WrapperCpp] else FixedSources
  }

  /** The wrapper is compiled exactly when it exists, after the fixed
      sources, which are compiled either way. */
  lemma SourceListWrapper(withWrapper: bool)
    ensures var r := SourceList(withWrapper);
            && |r| == (if withWrapper then 9 else 8)
            && r[..8] == FixedSources
            && (WrapperCpp in r <==> withWrapper)
            && (withWrapper ==> r[8] == WrapperCpp)
  {
    var r := SourceList(withWrapper);
    assert r[..8] == FixedSources;
    forall i | 0 <= i < 8
      ensures FixedSources[i] != WrapperCpp
    {
      assert FixedSources[i][0] == 'c';
    }
    if withWrapper {
      assert r[8] == WrapperCpp;
    }
  }

  /** The list built as the script builds it: the wrapper appended when it
      exists. */
  method AssembleSources(h: Host, w: World) returns (srcs: seq<string>)
    ensures srcs == SourceList(At(h, WrapperCpp) in w.fs)
    ensures |srcs| >= 8 && srcs[..8] == FixedSources
  {
    srcs := FixedSources;
    if At(h, WrapperCpp) in w.fs {
      srcs := srcs + [WrapperCpp];
    }
    SourceListWrapper(At(h, WrapperCpp) in w.fs);
  }

  function Includes(sdl: string): (r: seq<string>)
    ensures |r| == 5
  {
    ["-Icimgui", "-Icimgui/imgui", "-Icimgui/imgui/backends",
     "-I" + sdl + "/include", "-I" + sdl + "/include/SDL2"]
  }

  function LibDirs(sdl: string): (r: seq<string>)
    ensures |r| == 1
  {
    ["-L" + sdl + "/lib"]
  }

  /** `compile_flags`: MSVC-style on Windows, a position-independent shared
      build elsewhere. */
  function CompileFlags(p: Platform): (r: seq<string>)
    ensures |r| == 4
    ensures "-shared" in r <==> p != Windows
  {
    if p == Windows then ["/O2", "/MD", "/D_WINDOWS", "/DNDEBUG"]
    else ["-O2", "-fPIC", "-shared", "-D_REENTRANT"]
  }

  /** `output`, relative to the working directory. */
  function Output(p: Platform): string {
    BuildDir + "/" + LibName(p)
  }

  /** The one command that compiles and links on macOS and Linux. */
  function UnixCommand(t: Toolchain, p: Platform, sdl: string, srcs: seq<string>): seq<string> {
    [t.cxx] + CompileFlags(p) + Includes(sdl) + srcs + LibDirs(sdl) + t.ldflags + ["-o", Output(p)]
  }

  /** Where each part of the Unix command sits: the compiler, the flags,
      the include directories, every source in order, the library
      directory, the linker flags, and the output last. */
  lemma UnixCommandLayout(t: Toolchain, p: Platform, sdl: string, srcs: seq<string>)
    ensures var c := UnixCommand(t, p, sdl, srcs);
            var n := |srcs|;
            && |c| == 13 + n + |t.ldflags|
            && c[0] == t.cxx
            && c[1..5] == CompileFlags(p)
            && c[5..10] == Includes(sdl)
            && c[10..10 + n] == srcs
            && c[10 + n] == "-L" + sdl + "/lib"
            && c[11 + n..11 + n + |t.ldflags|] == t.ldflags
            && c[|c| - 2..] == ["-o", Output(p)]
  {
    var head := [t.cxx] + CompileFlags(p) + Includes(sdl);
    var tail := LibDirs(sdl) + t.ldflags + ["-o", Output(p)];
    SplitThree(head, srcs, tail);
    assert head[1..5] == CompileFlags(p);
    assert head[5..10] == Includes(sdl);
    assert tail[1..1 + |t.ldflags|] == t.ldflags;
    assert tail[|tail| - 2..] == ["-o", Output(p)];
  }

  /** Where the three parts of a concatenation sit. */
  lemma SplitThree(a: seq<string>, b: seq<string>, c: seq<string>)
    ensures var s := a + b + c;
            && s[..|a|] == a && s[|a|..|a| + |b|] == b && s[|a| + |b|..] == c
  {
  }

  /** Different source lists give different commands: every source reaches
      the compiler. */
  lemma UnixCommandInjective(t: Toolchain, p: Platform, sdl: string, a: seq<string>, b: seq<string>)
    requires UnixCommand(t, p, sdl, a) == UnixCommand(t, p, sdl, b)
    ensures a == b
  {
    UnixCommandLayout(t, p, sdl, a);
    UnixCommandLayout(t, p, sdl, b);
  }

  // Windows object names follow `Path(src).stem`.

  /** The last path component. */
  function BaseName(path: string): (r: string)
    ensures '/' !in r
    decreases |path|
  {
    if path == [] || path[|path| - 1] == '/' then []
    else BaseName(path[..|path| - 1]) + [path[|path| - 1]]
  }

  lemma {:induction false} BaseNameAfterSlash(dir: string, name: string)
    requires '/' !in name
    ensures BaseName(dir + "/" + name) == name
    decreases |name|
  {
    var path := dir + "/" + name;
    if name == [] {
      assert path[|path| - 1] == '/';
    } else {
      var init := name[..|name| - 1];
      assert path[..|path| - 1] == dir + "/" + init;
      assert '/' !in init by {
        assert forall i :: 0 <= i < |init| ==> init[i] == name[i];
      }
      BaseNameAfterSlash(dir, init);
      assert name == init + [name[|name| - 1]];
    }
  }

  /** Python's `rfind` of one character: its last index, or -1. */
  function RFind(s: string, c: char): (i: int)
    ensures -1 <= i < |s|
    ensures i >= 0 ==> s[i] == c && forall j :: i < j < |s| ==> s[j] != c
    ensures i == -1 ==> c !in s
    decreases |s|
  {
    if s == [] then -1
    else if s[|s| - 1] == c then |s| - 1
    else
      var i := RFind(s[..|s| - 1], c);
      assert forall j :: 0 <= j < |s| - 1 ==> s[..|s| - 1][j] == s[j];
      i
  }

  /** `Path(path).stem`: the last component without its final suffix; a
      leading dot or a trailing one does not start a suffix. */
  function Stem(path: string): string {
    var name := BaseName(path);
    var i := RFind(name, '.');
    if 0 < i < |name| - 1 then name[..i] else name
  }

  lemma StemOfSource(dir: string, stem: string)
    requires stem != [] && '/' !in stem && '.' !in stem
    ensures Stem(dir + "/" + stem + ".cpp") == stem
  {
    var name := stem + ".cpp";
    assert dir + "/" + stem + ".cpp" == dir + "/" + name;
    assert '/' !in name by {
      assert forall i :: 0 <= i < |stem| ==> name[i] == stem[i];
      assert name[|stem|..] == ".cpp";
    }
    BaseNameAfterSlash(dir, name);
    var i := RFind(name, '.');
    assert name[|stem|] == '.';
    assert name[|stem| + 1] == 'c' && name[|stem| + 2] == 'p' && name[|stem| + 3] == 'p';
    assert i == |stem|;
    assert name[..i] == stem;
  }

  /** The object a Windows compile writes, in the build directory. */
  function WindowsObject(src: string): string {
    BuildDir + "/" + Stem(src) + ".obj"
  }

  /** A source `dir/name.cpp` is compiled to `build/cimgui/name.obj`. */
  lemma WindowsObjectOfSource(dir: string, stem: string)
    requires stem != [] && '/' !in stem && '.' !in stem
    ensures WindowsObject(dir + "/" + stem + ".cpp") == BuildDir + "/" + stem + ".obj"
  {
    StemOfSource(dir, stem);
  }

  function WindowsObjects(srcs: seq<string>): (objs: seq<string>)
    ensures |objs| == |srcs|
    ensures forall i :: 0 <= i < |srcs| ==> objs[i] == WindowsObject(srcs[i])
  {
    seq(|srcs|, i requires 0 <= i < |srcs| => WindowsObject(srcs[i]))
  }

  lemma WindowsObjectsSnoc(srcs: seq<string>, i: nat)
    requires i < |srcs|
    ensures WindowsObjects(srcs[..i + 1]) == WindowsObjects(srcs[..i]) + [WindowsObject(srcs[i])]
  {
  }

  function WindowsCompileStep(h: Host, t: Toolchain, sdl: string, src: string): Action {
    Run([t.cxx] + CompileFlags(Windows) + Includes(sdl) + ["/c", src, "/Fo" + WindowsObject(src)], h.cwd, None, false)
  }

  function WindowsCompileSteps(h: Host, t: Toolchain, sdl: string, srcs: seq<string>): (steps: seq<Action>)
    ensures |steps| == |srcs|
    ensures forall i :: 0 <= i < |srcs| ==> steps[i] == WindowsCompileStep(h, t, sdl, srcs[i])
  {
    seq(|srcs|, i requires 0 <= i < |srcs| => WindowsCompileStep(h, t, sdl, srcs[i]))
  }

  function WindowsLinkStep(h: Host, t: Toolchain, sdl: string, objs: seq<string>): Action {
    Run([t.cxx] + objs + ["/Fe" + Output(Windows), "/LD"] + LibDirs(sdl) + t.ldflags, h.cwd, None, false)
  }

  /** The objects of every source, and the output, reach the linker. */
  lemma WindowsLinkTakesObjects(h: Host, t: Toolchain, sdl: string, srcs: seq<string>)
    ensures var argv := WindowsLinkStep(h, t, sdl, WindowsObjects(srcs)).argv;
            && argv[1..1 + |srcs|] == WindowsObjects(srcs)
            && argv[1 + |srcs|] == "/Fe" + BuildDir + "/cimgui.dll"
  {
    var objs := WindowsObjects(srcs);
    var argv := WindowsLinkStep(h, t, sdl, objs).argv;
    assert argv == [t.cxx] + objs + (["/Fe" + Output(Windows), "/LD"] + LibDirs(sdl) + t.ldflags);
    assert argv[1..1 + |srcs|] == objs;
  }

  // ---------------------------------------------------------------------
  // build_cimgui

  function SubmoduleInit(h: Host): Action {
    Run(["git", "submodule", "update", "--init"], At(h, "cimgui"), None, false)
  }

  /** The checks on the checkout, the submodule and the build directory;
      the flag is false when the script returns False. */
  function Prepared(h: Host, w: World): (World, bool) {
    if At(h, "cimgui") !in w.fs then (w, false)
    else
      var sub := if At(h, "cimgui/imgui") in w.fs then (w, true) else Attempt(h, w, Cimgui, SubmoduleInit(h));
      if !sub.1 then sub
      else (Perform(h, sub.0, Cimgui, MakeDir(At(h, BuildDir))), true)
  }

  /** Compile every source in turn, stopping at the first failure, then
      link all the objects. */
  function WindowsOutcome(h: Host, w: World, t: Toolchain, sdl: string, srcs: seq<string>): (World, bool) {
    var c := AttemptAll(h, w, Cimgui, WindowsCompileSteps(h, t, sdl, srcs));
    if c.1 < |srcs| then (c.0, false)
    else Attempt(h, c.0, Cimgui, WindowsLinkStep(h, t, sdl, WindowsObjects(srcs)))
  }

  /** The build command(s), given the toolchain in scope when they are
      built.  With none (the script's Windows branch) the first use of
      `cxx` raises, which ends the script with status 1. */
  function Compiled(h: Host, w: World, sdl: string, tools: Option<Toolchain>): (World, bool) {
    var p := HostPlatform(h.system);
    var srcs := SourceList(At(h, WrapperCpp) in w.fs);
    match tools
    case None => (Perform(h, w, Cimgui, Exit(1)), false)
    case Some(t) =>
      if p == Windows then WindowsOutcome(h, w, t, sdl, srcs)
      else Attempt(h, w, Cimgui, Run(UnixCommand(t, p, sdl, srcs), h.cwd, None, false))
  }

  function Below(base: Path, rest: string): Path {
    base + "/" + rest
  }

  function LibTarget(h: Host, install: string): Path {
    Below(Locate(h, install), "lib/" + LibName(HostPlatform(h.system)))
  }

  function HeaderTarget(h: Host, install: string, name: string): Path {
    Below(Locate(h, install), "include/cimgui/" + name)
  }

  /** `if src.exists(): shutil.copy(src, dst)`. */
  function CopyIfPresent(h: Host, w: World, src: Path, dst: Path): (r: World)
    ensures r.status == Running ==> w.status == Running
    ensures w.fs.Keys <= r.fs.Keys <= w.fs.Keys + {dst}
    ensures w.status == Running && r.status == Running ==> (dst in r.fs <==> dst in w.fs || src in w.fs)
  {
    if src in w.fs then Perform(h, w, Cimgui, CopyFile(src, dst)) else w
  }

  /** The library, then the headers that exist. */
  function InstallOutcome(h: Host, w: World, install: string): World {
    var base := Locate(h, install);
    var w1 := Perform(h, w, Cimgui, MakeDir(Below(base, "lib")));
    var w2 := Perform(h, w1, Cimgui, CopyFile(At(h, Output(HostPlatform(h.system))), LibTarget(h, install)));
    var w3 := Perform(h, w2, Cimgui, MakeDir(Below(base, "include/cimgui")));
    var w4 := CopyIfPresent(h, w3, At(h, "cimgui/cimgui.h"), HeaderTarget(h, install, "cimgui.h"));
    var w5 := CopyIfPresent(h, w4, At(h, WrapperH), HeaderTarget(h, install, "cimgui_sdl2_opengl3.h"));
    CopyIfPresent(h, w5, At(h, EssentialH), HeaderTarget(h, install, "cimgui_essential.h"))
  }

  /** `build_cimgui`; `tools` is what the platform branch assigned. */
  function BuildOutcome(h: Host, w: World, sdl: string, install: string, tools: Option<Toolchain>): (World, bool) {
    var prep := Prepared(h, w);
    if !prep.1 then prep
    else
      var c := Compiled(h, prep.0, sdl, tools);
      if !c.1 then c
      else (InstallOutcome(h, c.0, install), true)
  }

  /** `main`, ending in sys.exit with what it returns. */
  function CiMainOutcome(h: Host, fs: FileSystem, argv: seq<string>): World {
    var w := World(fs, [], Running);
    if |argv| != 3 || Locate(h, argv[1]) !in fs then Finish(w, 1)
    else
      var p := HostPlatform(h.system);
      var r := BuildOutcome(h, w, argv[1], argv[2], ToolchainFor(p));
      Finish(r.0, if r.1 then 0 else 1)
  }

  // The steps, in the order the script takes them.

  method Prepare(h: Host, w: World) returns (w': World, ok: bool)
    ensures w' == Prepared(h, w).0 && ok == Prepared(h, w).1
  {
    if At(h, "cimgui") !in w.fs {
      return w, false;
    }
    w', ok := w, true;
    if At(h, "cimgui/imgui") !in w.fs {
      w', ok := Step(h, w, Cimgui, SubmoduleInit(h));
      if !ok {
        return;
      }
    }
    w' := Perform(h, w', Cimgui, MakeDir(At(h, BuildDir)));
  }

  /** Before any build step: without a checkout the script stops at once;
      a missing `imgui` submodule is fetched first, and if that fails the
      script stops with only that attempt recorded; otherwise the build
      directory exists afterwards. */
  lemma PreparedSteps(h: Host, w: World)
    requires w.status == Running
    ensures var r := Prepared(h, w);
            && (At(h, "cimgui") !in w.fs ==> r == (w, false))
            && (r.1 && At(h, "cimgui/imgui") !in w.fs ==> Ran(r.0, Cimgui, SubmoduleInit(h)))
            && (!r.1 && At(h, "cimgui") in w.fs ==>
                  r.0.fs == w.fs && r.0.trace == w.trace + [Event(Cimgui, SubmoduleInit(h), false)])
            && (r.1 && r.0.status == Running ==> At(h, BuildDir) in r.0.fs)
  {
    var sub := if At(h, "cimgui/imgui") in w.fs then (w, true) else Attempt(h, w, Cimgui, SubmoduleInit(h));
    if At(h, "cimgui") in w.fs && sub.1 {
      var r := Perform(h, sub.0, Cimgui, MakeDir(At(h, BuildDir)));
      if At(h, "cimgui/imgui") !in w.fs {
        assert sub.0.trace[|w.trace|] == Event(Cimgui, SubmoduleInit(h), true);
        PerformKeepsTrace(h, sub.0, MakeDir(At(h, BuildDir)));
        PrefixKeepsRan(sub.0, r, Cimgui, SubmoduleInit(h));
      }
    }
  }

  /** The Windows compile loop, collecting the object names. */
  method CompileWindows(h: Host, w: World, t: Toolchain, sdl: string, srcs: seq<string>)
      returns (w': World, objs: seq<string>, failed: bool)
    ensures w' == AttemptAll(h, w, Cimgui, WindowsCompileSteps(h, t, sdl, srcs)).0
    ensures |objs| == AttemptAll(h, w, Cimgui, WindowsCompileSteps(h, t, sdl, srcs)).1
    ensures objs == WindowsObjects(srcs[..|objs|])
    ensures failed <==> |objs| < |srcs|
  {
    ghost var steps := WindowsCompileSteps(h, t, sdl, srcs);
    w', objs, failed := w, [], false;
    var i := 0;
    assert steps[0..] == steps;
    assert WindowsObjects(srcs[..0]) == [];
    while i < |srcs|
      invariant 0 <= i <= |srcs| && |objs| == i
      invariant objs == WindowsObjects(srcs[..i])
      invariant AttemptAll(h, w, Cimgui, steps).0 == AttemptAll(h, w', Cimgui, steps[i..]).0
      invariant AttemptAll(h, w, Cimgui, steps).1 == i + AttemptAll(h, w', Cimgui, steps[i..]).1
    {
      ghost var rest := steps[i..];
      assert rest[0] == steps[i] && rest[1..] == steps[i + 1..];
      ghost var before := w';
      var ok;
      w', ok := Step(h, w', Cimgui, WindowsCompileStep(h, t, sdl, srcs[i]));
      if !ok {
        failed := true;
        break;
      }
      AttemptAllUnfold(h, before, Cimgui, rest);
      WindowsObjectsSnoc(srcs, i);
      objs := objs + [WindowsObject(srcs[i])];
      i := i + 1;
    }
    if !failed {
      assert steps[i..] == [];
    }
  }

  method BuildWindows(h: Host, w: World, t: Toolchain, sdl: string, srcs: seq<string>) returns (w': World, ok: bool)
    ensures w' == WindowsOutcome(h, w, t, sdl, srcs).0 && ok == WindowsOutcome(h, w, t, sdl, srcs).1
  {
    var objs, failed;
    w', objs, failed := CompileWindows(h, w, t, sdl, srcs);
    if failed {
      return w', false;
    }
    assert srcs[..|objs|] == srcs;
    w', ok := Step(h, w', Cimgui, WindowsLinkStep(h, t, sdl, objs));
  }

  method Compile(h: Host, w: World, sdl: string, tools: Option<Toolchain>) returns (w': World, ok: bool)
    ensures w' == Compiled(h, w, sdl, tools).0 && ok == Compiled(h, w, sdl, tools).1
  {
    var p := HostPlatform(h.system);
    var srcs := AssembleSources(h, w);
    if tools.None? {
      return Perform(h, w, Cimgui, Exit(1)), false;
    }
    var t := tools.value;
    if p == Windows {
      w', ok := BuildWindows(h, w, t, sdl, srcs);
    } else {
      w', ok := Step(h, w, Cimgui, Run(UnixCommand(t, p, sdl, srcs), h.cwd, None, false));
    }
  }

  method CopyHeader(h: Host, w: World, src: Path, dst: Path) returns (w': World)
    ensures w' == CopyIfPresent(h, w, src, dst)
  {
    w' := w;
    if src in w.fs {
      w' := Perform(h, w, Cimgui, CopyFile(src, dst));
    }
  }

  method Install(h: Host, w: World, install: string) returns (w': World)
    ensures w' == InstallOutcome(h, w, install)
  {
    var base := Locate(h, install);
    w' := Perform(h, w, Cimgui, MakeDir(Below(base, "lib")));
    w' := Perform(h, w', Cimgui, CopyFile(At(h, Output(HostPlatform(h.system))), LibTarget(h, install)));
    w' := Perform(h, w', Cimgui, MakeDir(Below(base, "include/cimgui")));
    w' := CopyHeader(h, w', At(h, "cimgui/cimgui.h"), HeaderTarget(h, install, "cimgui.h"));
    w' := CopyHeader(h, w', At(h, WrapperH), HeaderTarget(h, install, "cimgui_sdl2_opengl3.h"));
    w' := CopyHeader(h, w', At(h, EssentialH), HeaderTarget(h, install, "cimgui_essential.h"));
  }

  method BuildCimgui(h: Host, w: World, sdl: string, install: string, tools: Option<Toolchain>) returns (w': World, ok: bool)
    ensures w' == BuildOutcome(h, w, sdl, install, tools).0 && ok == BuildOutcome(h, w, sdl, install, tools).1
  {
    w', ok := Prepare(h, w);
    if !ok {
      return;
    }
    w', ok := Compile(h, w', sdl, tools);
    if !ok {
      return;
    }
    w' := Install(h, w', install);
  }

  method CiMain(h: Host, fs: FileSystem, argv: seq<string>) returns (w: World)
    ensures w == CiMainOutcome(h, fs, argv)
  {
    w := World(fs, [], Running);
    if |argv| != 3 || Locate(h, argv[1]) !in fs {
      return Finish(w, 1);
    }
    var ok;
    w, ok := BuildCimgui(h, w, argv[1], argv[2], ToolchainFor(HostPlatform(h.system)));
    w := Finish(w, if ok then 0 else 1);
  }

  // ---------------------------------------------------------------------
  // What a run achieves

  /** Steps that only make directories and copy files: the files already
      there stay, and the only new ones are the targets. */
  lemma PerformAdds(h: Host, w: World, a: Action, target: Path)
    requires a == MakeDir(target) || (a.CopyFile? && a.dst == target)
    ensures var r := Perform(h, w, Cimgui, a);
            w.fs.Keys <= r.fs.Keys <= w.fs.Keys + {target}
  {
  }

  /** The installation adds the library and the headers and nothing else,
      all of them below the install prefix, and keeps every file there was. */
  lemma InstallWithinPrefix(h: Host, w: World, install: string)
    ensures var r := InstallOutcome(h, w, install);
            && w.fs.Keys <= r.fs.Keys
            && forall k :: k in r.fs && k !in w.fs ==> StartsWith(k, Locate(h, install) + "/")
  {
    var base := Locate(h, install);
    var lib := Below(base, "lib");
    var inc := Below(base, "include/cimgui");
    var w1 := Perform(h, w, Cimgui, MakeDir(lib));
    var w2 := Perform(h, w1, Cimgui, CopyFile(At(h, Output(HostPlatform(h.system))), LibTarget(h, install)));
    var w3 := Perform(h, w2, Cimgui, MakeDir(inc));
    PerformAdds(h, w, MakeDir(lib), lib);
    PerformAdds(h, w1, CopyFile(At(h, Output(HostPlatform(h.system))), LibTarget(h, install)), LibTarget(h, install));
    PerformAdds(h, w2, MakeDir(inc), inc);
    var targets := {lib, LibTarget(h, install), inc, HeaderTarget(h, install, "cimgui.h"),
                    HeaderTarget(h, install, "cimgui_sdl2_opengl3.h"), HeaderTarget(h, install, "cimgui_essential.h")};
    forall k | k in targets
      ensures StartsWith(k, base + "/")
    {
      assert k[..|base + "/"|] == base + "/";
    }
  }

  /** When the installation runs to its end, the library is in `lib` below
      the prefix, and each header is in `include/cimgui` exactly when it
      was there already or its source existed when its turn came. */
  lemma InstallPlacesLibrary(h: Host, w: World, install: string)
    requires InstallOutcome(h, w, install).status == Running
    ensures var r := InstallOutcome(h, w, install);
            && LibTarget(h, install) in r.fs
            && Below(Locate(h, install), "include/cimgui") in r.fs
            && Ran(r, Cimgui, CopyFile(At(h, Output(HostPlatform(h.system))), LibTarget(h, install)))
  {
    var base := Locate(h, install);
    var copy := CopyFile(At(h, Output(HostPlatform(h.system))), LibTarget(h, install));
    var w1 := Perform(h, w, Cimgui, MakeDir(Below(base, "lib")));
    var w2 := Perform(h, w1, Cimgui, copy);
    var w3 := Perform(h, w2, Cimgui, MakeDir(Below(base, "include/cimgui")));
    var w4 := CopyIfPresent(h, w3, At(h, "cimgui/cimgui.h"), HeaderTarget(h, install, "cimgui.h"));
    var w5 := CopyIfPresent(h, w4, At(h, WrapperH), HeaderTarget(h, install, "cimgui_sdl2_opengl3.h"));
    var r := CopyIfPresent(h, w5, At(h, EssentialH), HeaderTarget(h, install, "cimgui_essential.h"));
    assert w2.trace[|w2.trace| - 1] == Event(Cimgui, copy, true);
    CopyKeepsTrace(h, w3, At(h, "cimgui/cimgui.h"), HeaderTarget(h, install, "cimgui.h"));
    CopyKeepsTrace(h, w4, At(h, WrapperH), HeaderTarget(h, install, "cimgui_sdl2_opengl3.h"));
    CopyKeepsTrace(h, w5, At(h, EssentialH), HeaderTarget(h, install, "cimgui_essential.h"));
    PrefixTrans(w2, w3, w4);
    PrefixTrans(w2, w4, w5);
    PrefixTrans(w2, w5, r);
    PrefixKeepsRan(w2, r, Cimgui, copy);
  }

  lemma CopyKeepsTrace(h: Host, w: World, src: Path, dst: Path)
    ensures var r := CopyIfPresent(h, w, src, dst);
            |w.trace| <= |r.trace| && r.trace[..|w.trace|] == w.trace
  {
  }

  lemma PerformKeepsTrace(h: Host, w: World, a: Action)
    ensures var r := Perform(h, w, Cimgui, a);
            |w.trace| <= |r.trace| && r.trace[..|w.trace|] == w.trace
  {
  }

  /** The installation only adds to the trace, and ends the script with
      status 1 when one of its steps fails. */
  lemma InstallKeepsTrace(h: Host, w: World, install: string)
    ensures var r := InstallOutcome(h, w, install);
            && |w.trace| <= |r.trace| && r.trace[..|w.trace|] == w.trace
            && (w.status == Running ==> r.status == Running || r.status == Exited(1))
  {
    var base := Locate(h, install);
    var copy := CopyFile(At(h, Output(HostPlatform(h.system))), LibTarget(h, install));
    var w1 := Perform(h, w, Cimgui, MakeDir(Below(base, "lib")));
    var w2 := Perform(h, w1, Cimgui, copy);
    var w3 := Perform(h, w2, Cimgui, MakeDir(Below(base, "include/cimgui")));
    var w4 := CopyIfPresent(h, w3, At(h, "cimgui/cimgui.h"), HeaderTarget(h, install, "cimgui.h"));
    var w5 := CopyIfPresent(h, w4, At(h, WrapperH), HeaderTarget(h, install, "cimgui_sdl2_opengl3.h"));
    var r := CopyIfPresent(h, w5, At(h, EssentialH), HeaderTarget(h, install, "cimgui_essential.h"));
    PerformKeepsTrace(h, w, MakeDir(Below(base, "lib")));
    PerformKeepsTrace(h, w1, copy);
    PerformKeepsTrace(h, w2, MakeDir(Below(base, "include/cimgui")));
    CopyKeepsTrace(h, w3, At(h, "cimgui/cimgui.h"), HeaderTarget(h, install, "cimgui.h"));
    CopyKeepsTrace(h, w4, At(h, WrapperH), HeaderTarget(h, install, "cimgui_sdl2_opengl3.h"));
    CopyKeepsTrace(h, w5, At(h, EssentialH), HeaderTarget(h, install, "cimgui_essential.h"));
    PrefixTrans(w, w1, w2);
    PrefixTrans(w, w2, w3);
    PrefixTrans(w, w3, w4);
    PrefixTrans(w, w4, w5);
    PrefixTrans(w, w5, r);
  }

  /** A build stops either still running or with status 1. */
  lemma BuildStatus(h: Host, w: World, sdl: string, install: string, tools: Option<Toolchain>)
    requires w.status == Running
    ensures var r := BuildOutcome(h, w, sdl, install, tools).0;
            r.status == Running || r.status == Exited(1)
  {
    var prep := Prepared(h, w);
    if prep.1 {
      var c := Compiled(h, prep.0, sdl, tools);
      if c.1 {
        InstallKeepsTrace(h, c.0, install);
      }
    }
  }

  /** As written, the Windows branch never builds: `cxx` is never assigned
      there, so the script stops with status 1 as soon as the build
      directory exists, before any compiler runs. */
  lemma WindowsAsWrittenFails(h: Host, w: World, sdl: string, install: string)
    requires HostPlatform(h.system) == Windows
    ensures var r := BuildOutcome(h, w, sdl, install, ToolchainFor(Windows));
            && !r.1
            && (Prepared(h, w).1 && Prepared(h, w).0.status == Running ==> r.0.status == Exited(1))
  {
  }

  /** And so `main` never exits 0 on Windows. */
  lemma CiMainWindowsFails(h: Host, fs: FileSystem, argv: seq<string>)
    requires HostPlatform(h.system) == Windows
    ensures CiMainOutcome(h, fs, argv).status == Exited(1)
  {
    if |argv| == 3 && Locate(h, argv[1]) in fs {
      var w := World(fs, [], Running);
      WindowsAsWrittenFails(h, w, argv[1], argv[2]);
      BuildStatus(h, w, argv[1], argv[2], ToolchainFor(Windows));
    }
  }

  /** A Windows build that reports success compiled every source to its
      own object and linked all the objects. */
  lemma WindowsLinksAll(h: Host, w: World, t: Toolchain, sdl: string, srcs: seq<string>)
    requires w.status == Running && WindowsOutcome(h, w, t, sdl, srcs).1
    ensures var r := WindowsOutcome(h, w, t, sdl, srcs).0;
            && (forall i :: 0 <= i < |srcs| ==> Ran(r, Cimgui, WindowsCompileStep(h, t, sdl, srcs[i])))
            && Ran(r, Cimgui, WindowsLinkStep(h, t, sdl, WindowsObjects(srcs)))
  {
    var steps := WindowsCompileSteps(h, t, sdl, srcs);
    var c := AttemptAll(h, w, Cimgui, steps);
    var link := WindowsLinkStep(h, t, sdl, WindowsObjects(srcs));
    var l := Attempt(h, c.0, Cimgui, link);
    AttemptAllTrace(h, w, Cimgui, steps);
    assert l.0.trace[..|c.0.trace|] == c.0.trace;
    forall i | 0 <= i < |srcs|
      ensures Ran(l.0, Cimgui, WindowsCompileStep(h, t, sdl, srcs[i]))
    {
      assert c.0.trace[|w.trace| + i] == Event(Cimgui, steps[i], true);
      PrefixKeepsRan(c.0, l.0, Cimgui, steps[i]);
    }
    assert l.0.trace[|c.0.trace|] == Event(Cimgui, link, true);
  }

  /** The loop returns at the first compile that fails: nothing after it is
      compiled and nothing is linked. */
  lemma WindowsStopsAtFailure(h: Host, w: World, t: Toolchain, sdl: string, srcs: seq<string>)
    requires w.status == Running
    requires AttemptAll(h, w, Cimgui, WindowsCompileSteps(h, t, sdl, srcs)).1 < |srcs|
    ensures var r := WindowsOutcome(h, w, t, sdl, srcs);
            var n := AttemptAll(h, w, Cimgui, WindowsCompileSteps(h, t, sdl, srcs)).1;
            && !r.1
            && r.0.trace == w.trace + Succeeded(Cimgui, WindowsCompileSteps(h, t, sdl, srcs)[..n])
                            + [Event(Cimgui, WindowsCompileStep(h, t, sdl, srcs[n]), false)]
  {
    AttemptAllRecord(h, w, Cimgui, WindowsCompileSteps(h, t, sdl, srcs));
  }

  /** Steps recorded before the installation stay recorded. */
  lemma InstallKeepsRan(h: Host, w: World, install: string, a: Action)
    requires Ran(w, Cimgui, a)
    ensures Ran(InstallOutcome(h, w, install), Cimgui, a)
  {
    InstallKeepsTrace(h, w, install);
    PrefixKeepsRan(w, InstallOutcome(h, w, install), Cimgui, a);
  }

  /** With a compiler and linker flags in scope, the Windows branch does what
      it sets out to do: when it reports success and the installation
      completed, every source was compiled to its own object, the link took
      all the objects, and the library is installed. */
  lemma WindowsCorrectedBuilds(h: Host, w: World, sdl: string, install: string, t: Toolchain)
    requires HostPlatform(h.system) == Windows && w.status == Running
    requires var r := BuildOutcome(h, w, sdl, install, Some(t)); r.1 && r.0.status == Running
    ensures var r := BuildOutcome(h, w, sdl, install, Some(t)).0;
            var srcs := SourceList(At(h, WrapperCpp) in Prepared(h, w).0.fs);
            && (forall i :: 0 <= i < |srcs| ==> Ran(r, Cimgui, WindowsCompileStep(h, t, sdl, srcs[i])))
            && Ran(r, Cimgui, WindowsLinkStep(h, t, sdl, WindowsObjects(srcs)))
            && LibTarget(h, install) in r.fs
  {
    var prep := Prepared(h, w);
    var srcs := SourceList(At(h, WrapperCpp) in prep.0.fs);
    var c := WindowsOutcome(h, prep.0, t, sdl, srcs);
    assert Compiled(h, prep.0, sdl, Some(t)) == c;
    WindowsLinksAll(h, prep.0, t, sdl, srcs);
    forall i | 0 <= i < |srcs|
      ensures Ran(InstallOutcome(h, c.0, install), Cimgui, WindowsCompileStep(h, t, sdl, srcs[i]))
    {
      InstallKeepsRan(h, c.0, install, WindowsCompileStep(h, t, sdl, srcs[i]));
    }
    InstallKeepsRan(h, c.0, install, WindowsLinkStep(h, t, sdl, WindowsObjects(srcs)));
    InstallPlacesLibrary(h, c.0, install);
  }

  /** On macOS and Linux a successful build ran the one compile-and-link
      command over every source, and the library is installed. */
  lemma UnixBuilds(h: Host, w: World, sdl: string, install: string)
    requires HostPlatform(h.system) != Windows && w.status == Running
    requires var r := BuildOutcome(h, w, sdl, install, ToolchainFor(HostPlatform(h.system)));
             r.1 && r.0.status == Running
    ensures var p := HostPlatform(h.system);
            var r := BuildOutcome(h, w, sdl, install, ToolchainFor(p)).0;
            var srcs := SourceList(At(h, WrapperCpp) in Prepared(h, w).0.fs);
            && Ran(r, Cimgui, Run(UnixCommand(ToolchainFor(p).value, p, sdl, srcs), h.cwd, None, false))
            && LibTarget(h, install) in r.fs
  {
    var p := HostPlatform(h.system);
    var prep := Prepared(h, w);
    var srcs := SourceList(At(h, WrapperCpp) in prep.0.fs);
    var cmd := Run(UnixCommand(ToolchainFor(p).value, p, sdl, srcs), h.cwd, None, false);
    var c := Attempt(h, prep.0, Cimgui, cmd);
    assert c.0.trace[|prep.0.trace|] == Event(Cimgui, cmd, true);
    InstallKeepsTrace(h, c.0, install);
    PrefixKeepsRan(c.0, InstallOutcome(h, c.0, install), Cimgui, cmd);
    InstallPlacesLibrary(h, c.0, install);
  }

  /** `main` exits 0 or 1; with the wrong number of arguments, a missing SDL2
      prefix or no `cimgui` checkout it exits 1 having done nothing; an exit
      0 means a Unix build installed the library. */
  lemma CiMainCodes(h: Host, fs: FileSystem, argv: seq<string>)
    ensures var r := CiMainOutcome(h, fs, argv);
            && (r.status == Exited(0) || r.status == Exited(1))
            && (|argv| != 3 || Locate(h, argv[1]) !in fs || At(h, "cimgui") !in fs ==>
                  r == World(fs, [Event(MainReturn, Exit(1), false)], Exited(1)))
            && (r.status == Exited(0) ==>
                  && |argv| == 3 && Locate(h, argv[1]) in fs
                  && HostPlatform(h.system) != Windows
                  && LibTarget(h, argv[2]) in r.fs)
  {
    var w := World(fs, [], Running);
    if |argv| == 3 && Locate(h, argv[1]) in fs {
      var p := HostPlatform(h.system);
      var b := BuildOutcome(h, w, argv[1], argv[2], ToolchainFor(p));
      BuildStatus(h, w, argv[1], argv[2], ToolchainFor(p));
      if p == Windows {
        CiMainWindowsFails(h, fs, argv);
      } else if b.1 && b.0.status == Running {
        UnixBuilds(h, w, argv[1], argv[2]);
      }
    }
  }
}
