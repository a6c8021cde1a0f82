/** build_cimgui_cmake.py: the same cimgui build as build_imgui_ci.py, but
    driven by a CMakeLists.txt the script writes into `build/cimgui` and by
    CMake's configure, build and install commands run there.  Both prefixes
    are resolved to absolute paths first. */
module CimguiCmake {
  import opened Text
  import opened Steps
  import opened Platforms
  import ImguiCi

  // ---------------------------------------------------------------------
  // run_cmd

  /** What `run_cmd` is handed: an argument list, or one command line. */
  datatype Command = Argv(args: seq<string>) | Line(text: string)

  /** Only a command line on Windows goes through the shell. */
  function UsesShell(p: Platform, cmd: Command): (r: bool)
    ensures r <==> p == Windows && cmd.Line?
  {
    p == Windows && !cmd.Argv?
  }

  function CommandAction(h: Host, cmd: Command, cwd: Path): Action {
    var argv := match cmd
      case Argv(args) => args
      case Line(text) => [text];
    Run(argv, cwd, None, UsesShell(HostPlatform(h.system), cmd))
  }

  /** `run_cmd`: success is handed back. */
  method RunCmd(h: Host, w: World, cmd: Command, cwd: Path) returns (w': World, ok: bool)
    ensures w' == Attempt(h, w, Cimgui, CommandAction(h, cmd, cwd)).0
    ensures ok == Attempt(h, w, Cimgui, CommandAction(h, cmd, cwd)).1
  {
    w', ok := Step(h, w, Cimgui, CommandAction(h, cmd, cwd));
  }

  /** Every command the script runs is an argument list, so none of them
      goes through the shell, on any platform. */
  lemma ListsNeverUseShell(h: Host, args: seq<string>, cwd: Path)
    ensures CommandAction(h, Argv(args), cwd) == Run(args, cwd, None, false)
  {
  }

  // ---------------------------------------------------------------------
  // write_cmakelists

  const Preamble := "cmake_minimum_required(VERSION 3.10)\nproject(cimgui)\n\nset(CMAKE_C_STANDARD 11)\nset(CMAKE_CXX_STANDARD 11)\n\n# Find SDL2\n"

  /** The one line that depends on an argument: where CMake looks for
      SDL2's package files. */
  function SdlDirLine(sdl: string): string {
    "set(SDL2_DIR \"" + sdl + "/lib/cmake/SDL2\" \"" + sdl + "\")\n"
  }

  /** The lines of the template from `find_package(SDL2 REQUIRED)` on,
      which mention no argument. */
  const RestLines: seq<string> := [
    "find_package(SDL2 REQUIRED)",
    "",
    "# Find OpenGL",
    "find_package(OpenGL REQUIRED)",
    "",
    "# Source files",
    "set(IMGUI_DIR \"${CMAKE_CURRENT_SOURCE_DIR}/../../cimgui/imgui\")",
    "set(CIMGUI_DIR \"${CMAKE_CURRENT_SOURCE_DIR}/../../cimgui\")",
    "set(BACKENDS_DIR \"${CMAKE_CURRENT_SOURCE_DIR}/../../imgui_backends\")",
    "",
    "set(SOURCES",
    "    ${CIMGUI_DIR}/cimgui.cpp",
    "    ${IMGUI_DIR}/imgui.cpp",
    "    ${IMGUI_DIR}/imgui_draw.cpp",
    "    ${IMGUI_DIR}/imgui_tables.cpp",
    "    ${IMGUI_DIR}/imgui_widgets.cpp",
    "    ${IMGUI_DIR}/imgui_demo.cpp",
    "    ${IMGUI_DIR}/backends/imgui_impl_sdl2.cpp",
    "    ${IMGUI_DIR}/backends/imgui_impl_opengl3.cpp",
    ")",
    "",
    "# Add wrapper if exists",
    "if(EXISTS \"${BACKENDS_DIR}/cimgui_sdl2_opengl3.cpp\")",
    "    list(APPEND SOURCES \"${BACKENDS_DIR}/cimgui_sdl2_opengl3.cpp\")",
    "endif()",
    "",
    "# Create shared library",
    "add_library(cimgui SHARED ${SOURCES})",
    "",
    "# Include directories",
    "target_include_directories(cimgui PUBLIC",
    "    ${CIMGUI_DIR}",
    "    ${IMGUI_DIR}",
    "    ${IMGUI_DIR}/backends",
    "    ${BACKENDS_DIR}",
    "    ${SDL2_INCLUDE_DIRS}",
    ")",
    "",
    "# Compile definitions",
    "target_compile_definitions(cimgui PRIVATE",
    "    IMGUI_IMPL_API=extern\\ \"C\"",
    "    CIMGUI_IMPL_API=extern\\ \"C\"",
    ")",
    "",
    "if(WIN32)",
    "    target_compile_definitions(cimgui PRIVATE",
    "        _WINDOWS",
    "        IMGUI_API=__declspec(dllexport)",
    "    )",
    "endif()",
    "",
    "# Link libraries",
    "if(WIN32)",
    "    target_link_libraries(cimgui",
    "        ${SDL2_LIBRARIES}",
    "        ${OPENGL_LIBRARIES}",
    "        imm32",
    "    )",
    "else()",
    "    target_link_libraries(cimgui",
    "        ${SDL2_LIBRARIES}",
    "        ${OPENGL_LIBRARIES}",
    "        m",
    "        dl",
    "    )",
    "endif()",
    "",
    "# Set output name",
    "set_target_properties(cimgui PROPERTIES",
    "    OUTPUT_NAME \"cimgui\"",
    "    PREFIX \"${CMAKE_SHARED_LIBRARY_PREFIX}\"",
    ")",
    "",
    "# Install rules",
    "install(TARGETS cimgui",
    "    RUNTIME DESTINATION bin",
    "    LIBRARY DESTINATION lib",
    "    ARCHIVE DESTINATION lib",
    ")",
    "",
    "install(FILES",
    "    ${CIMGUI_DIR}/cimgui.h",
    "    DESTINATION include/cimgui",
    ")",
    "",
    "if(EXISTS \"${BACKENDS_DIR}/cimgui_sdl2_opengl3.h\")",
    "    install(FILES \"${BACKENDS_DIR}/cimgui_sdl2_opengl3.h\"",
    "        DESTINATION include/cimgui)",
    "endif()",
    "",
    "if(EXISTS \"${BACKENDS_DIR}/cimgui_essential.h\")",
    "    install(FILES \"${BACKENDS_DIR}/cimgui_essential.h\"",
    "        DESTINATION include/cimgui)",
    "endif()"]

  /** The rest of the file, one line after the other. */
  function RestText(): string {
    Join(RestLines, "\n") + "\n"
  }

  /** The template with the prefix and the fixed rest filled in. */
  function Template(sdl: string, rest: string): string {
    Preamble + SdlDirLine(sdl) + rest
  }

  function CMakeListsText(sdl: string): string {
    Template(sdl, RestText())
  }

  /** The prefix is written into the `SDL2_DIR` line right after the fixed
      preamble, and can be read back from the text: different prefixes give
      different files. */
  lemma {:induction false} TemplateEmbedsPrefix(sdl: string, other: string, rest: string)
    ensures StartsWith(Template(sdl, rest), Preamble + SdlDirLine(sdl))
    ensures Template(sdl, rest) == Template(other, rest) ==> sdl == other
  {
    var t := Template(sdl, rest);
    assert t[..|Preamble + SdlDirLine(sdl)|] == Preamble + SdlDirLine(sdl);
    if t == Template(other, rest) {
      var u := Template(other, rest);
      assert |sdl| == |other|;
      var start := |Preamble| + |"set(SDL2_DIR \""|;
      assert t[start..start + |sdl|] == sdl;
      assert u[start..start + |other|] == other;
    }
  }

  lemma CMakeListsEmbedsPrefix(sdl: string, other: string)
    ensures StartsWith(CMakeListsText(sdl), Preamble + SdlDirLine(sdl))
    ensures CMakeListsText(sdl) == CMakeListsText(other) ==> sdl == other
  {
    TemplateEmbedsPrefix(sdl, other, RestText());
  }

  function CMakeListsPath(h: Host): Path {
    At(h, ImguiCi.BuildDir + "/CMakeLists.txt")
  }

  method WriteCMakeLists(h: Host, w: World, sdl: string) returns (w': World)
    ensures w' == Perform(h, w, Cimgui, WriteText(CMakeListsPath(h), CMakeListsText(sdl)))
  {
    w' := Perform(h, w, Cimgui, WriteText(CMakeListsPath(h), CMakeListsText(sdl)));
  }

  // ---------------------------------------------------------------------
  // build_cimgui

  /** The generator: Visual Studio on Windows, Ninja elsewhere when it is on
      the PATH, and CMake's own default otherwise. */
  function Generator(p: Platform, ninja: bool): seq<string> {
    if p == Windows then ["-G", "Visual Studio 17 2022", "-A", "x64"]
    else if ninja then ["-G", "Ninja"]
    else []
  }

  function ConfigureArgs(p: Platform, install: string, sdl: string, ninja: bool): seq<string> {
    ["cmake", ".", "-DCMAKE_INSTALL_PREFIX=" + install, "-DCMAKE_PREFIX_PATH=" + sdl, "-DCMAKE_BUILD_TYPE=Release"]
      + Generator(p, ninja)
  }

  /** `str(os.cpu_count())`, which is "None" when the count is unknown. */
  function CpuText(n: Option<nat>): (r: string)
    ensures n.None? <==> r == "None"
    ensures n.Some? ==> forall i :: 0 <= i < |r| ==> '0' <= r[i] <= '9'
  {
    match n
    case None => "None"
    case Some(k) =>
      var r := NatToString(k);
      assert r[0] != 'N';
      r
  }

  function BuildArgs(p: Platform, cpus: Option<nat>): seq<string> {
    ["cmake", "--build", ".", "--config", "Release"] + (if p == Windows then [] else ["--parallel", CpuText(cpus)])
  }

  const InstallArgs: seq<string> := ["cmake", "--install", ".", "--config", "Release"]

  /** The configure line names both prefixes; it asks for a generator
      exactly on Windows or when Ninja is available, Ninja exactly off
      Windows when it is available, and Visual Studio exactly on Windows. */
  lemma GeneratorChoice(p: Platform, install: string, sdl: string, ninja: bool)
    ensures var c := ConfigureArgs(p, install, sdl, ninja);
            && c[2] == "-DCMAKE_INSTALL_PREFIX=" + install
            && c[3] == "-DCMAKE_PREFIX_PATH=" + sdl
            && ("-G" in c <==> p == Windows || ninja)
            && ("Ninja" in c <==> p != Windows && ninja)
            && ("Visual Studio 17 2022" in c <==> p == Windows)
  {
    var base := ["cmake", ".", "-DCMAKE_INSTALL_PREFIX=" + install, "-DCMAKE_PREFIX_PATH=" + sdl, "-DCMAKE_BUILD_TYPE=Release"];
    var c := ConfigureArgs(p, install, sdl, ninja);
    assert c == base + Generator(p, ninja);
    assert base[0][0] == 'c' && |base[1]| == 1;
    assert forall i :: 2 <= i < 5 ==> base[i][0] == '-' && base[i][1] == 'D';
    assert "-G" !in base && "Ninja" !in base && "Visual Studio 17 2022" !in base;
  }

  /** The build runs in parallel, on as many jobs as there are processors,
      everywhere but on Windows. */
  lemma ParallelOffWindows(p: Platform, cpus: Option<nat>)
    ensures var b := BuildArgs(p, cpus);
            && b[..5] == ["cmake", "--build", ".", "--config", "Release"]
            && ("--parallel" in b <==> p != Windows)
            && (p != Windows ==> |b| == 7 && b[6] == CpuText(cpus))
  {
    var b := BuildArgs(p, cpus);
    assert b[..5] == ["cmake", "--build", ".", "--config", "Release"];
    if p != Windows {
      assert b[5] == "--parallel";
    }
  }

  function BuildDirPath(h: Host): Path {
    At(h, ImguiCi.BuildDir)
  }

  /** Configure, build and install, each with `run_cmd` in the build
      directory. */
  function CMakeSteps(h: Host, install: string, sdl: string): (steps: seq<Action>)
    ensures |steps| == 3
  {
    var p := HostPlatform(h.system);
    [CommandAction(h, Argv(ConfigureArgs(p, install, sdl, "ninja" in h.onPath)), BuildDirPath(h)),
     CommandAction(h, Argv(BuildArgs(p, h.cpuCount)), BuildDirPath(h)),
     CommandAction(h, Argv(InstallArgs), BuildDirPath(h))]
  }

  function WriteStep(h: Host, sdl: string): Action {
    WriteText(CMakeListsPath(h), CMakeListsText(sdl))
  }

  /** `build_cimgui`: the checkout checks and the build directory, as in
      build_imgui_ci.py; the CMakeLists.txt; then the three commands, the
      first failure ending the build. */
  function CMakeOutcome(h: Host, w: World, sdl: string, install: string): (World, bool) {
    var prep := ImguiCi.Prepared(h, w);
    if !prep.1 then prep
    else
      var w1 := Perform(h, prep.0, Cimgui, WriteStep(h, sdl));
      var c := AttemptAll(h, w1, Cimgui, CMakeSteps(h, install, sdl));
      (c.0, c.1 == 3)
  }

  /** `main`: both prefixes resolved against the working directory before
      the SDL2 one is checked. */
  function CMakeMainOutcome(h: Host, fs: FileSystem, argv: seq<string>): World {
    var w := World(fs, [], Running);
    if |argv| != 3 || Locate(h, argv[1]) !in fs then Finish(w, 1)
    else
      var r := CMakeOutcome(h, w, Locate(h, argv[1]), Locate(h, argv[2]));
      Finish(r.0, if r.1 then 0 else 1)
  }

  /** The three commands with early returns, the lists extended as the
      script extends them. */
  method RunChain(h: Host, w: World, sdl: string, install: string) returns (w': World, ok: bool)
    ensures w' == AttemptAll(h, w, Cimgui, CMakeSteps(h, install, sdl)).0
    ensures ok <==> AttemptAll(h, w, Cimgui, CMakeSteps(h, install, sdl)).1 == 3
  {
    ghost var steps := CMakeSteps(h, install, sdl);
    var p := HostPlatform(h.system);
    var dir := BuildDirPath(h);
    var cmake := ["cmake", ".", "-DCMAKE_INSTALL_PREFIX=" + install, "-DCMAKE_PREFIX_PATH=" + sdl, "-DCMAKE_BUILD_TYPE=Release"];
    if p == Windows {
      cmake := cmake + ["-G", "Visual Studio 17 2022", "-A", "x64"];
    } else if "ninja" in h.onPath {
      cmake := cmake + ["-G", "Ninja"];
    }
    assert cmake == ConfigureArgs(p, install, sdl, "ninja" in h.onPath);
    w', ok := RunCmd(h, w, Argv(cmake), dir);
    if !ok {
      return;
    }
    ghost var w1 := w';
    AttemptAllUnfold(h, w, Cimgui, steps);
    var build := ["cmake", "--build", ".", "--config", "Release"];
    if p != Windows {
      build := build + ["--parallel", CpuText(h.cpuCount)];
    }
    assert build == BuildArgs(p, h.cpuCount);
    w', ok := RunCmd(h, w', Argv(build), dir);
    if !ok {
      return;
    }
    AttemptAllUnfold(h, w1, Cimgui, steps[1..]);
    assert steps[1..][1..] == [steps[2]];
    w', ok := RunCmd(h, w', Argv(InstallArgs), dir);
  }

  method BuildCimgui(h: Host, w: World, sdl: string, install: string) returns (w': World, ok: bool)
    ensures w' == CMakeOutcome(h, w, sdl, install).0 && ok == CMakeOutcome(h, w, sdl, install).1
  {
    w', ok := ImguiCi.Prepare(h, w);
    if !ok {
      return;
    }
    w' := WriteCMakeLists(h, w', sdl);
    w', ok := RunChain(h, w', sdl, install);
  }

  method CMakeMain(h: Host, fs: FileSystem, argv: seq<string>) returns (w: World)
    ensures w == CMakeMainOutcome(h, fs, argv)
  {
    w := World(fs, [], Running);
    if |argv| != 3 || Locate(h, argv[1]) !in fs {
      return Finish(w, 1);
    }
    var ok;
    w, ok := BuildCimgui(h, w, Locate(h, argv[1]), Locate(h, argv[2]));
    w := Finish(w, if ok then 0 else 1);
  }

  /** Configure, build and install run in that order, each only when the
      one before it worked; the first that fails is the last recorded, and
      the build reports success exactly when all three worked. */
  lemma ChainInOrder(h: Host, w: World, sdl: string, install: string)
    requires w.status == Running
    ensures var steps := CMakeSteps(h, install, sdl);
            var c := AttemptAll(h, w, Cimgui, steps);
            && c.0.status == Running
            && c.0.trace == w.trace + Succeeded(Cimgui, steps[..c.1])
                            + (if c.1 < 3 then [Event(Cimgui, steps[c.1], false)] else [])
  {
    AttemptAllRecord(h, w, Cimgui, CMakeSteps(h, install, sdl));
  }

  /** A build stops either still running or with status 1. */
  lemma CMakeStatus(h: Host, w: World, sdl: string, install: string)
    requires w.status == Running
    ensures var r := CMakeOutcome(h, w, sdl, install).0;
            r.status == Running || r.status == Exited(1)
  {
  }

  /** A build that reports success wrote the CMakeLists.txt for this SDL2
      prefix and then ran all three commands. */
  lemma CMakeSucceeded(h: Host, w: World, sdl: string, install: string)
    requires w.status == Running && CMakeOutcome(h, w, sdl, install).1
    ensures var r := CMakeOutcome(h, w, sdl, install).0;
            var steps := CMakeSteps(h, install, sdl);
            && Ran(r, Cimgui, WriteStep(h, sdl))
            && Ran(r, Cimgui, steps[0]) && Ran(r, Cimgui, steps[1]) && Ran(r, Cimgui, steps[2])
  {
    var prep := ImguiCi.Prepared(h, w);
    var w1 := Perform(h, prep.0, Cimgui, WriteStep(h, sdl));
    var steps := CMakeSteps(h, install, sdl);
    var c := AttemptAll(h, w1, Cimgui, steps);
    assert w1.trace[|w1.trace| - 1] == Event(Cimgui, WriteStep(h, sdl), true);
    AttemptAllRan(h, w1, Cimgui, steps);
    PrefixKeepsRan(w1, c.0, Cimgui, WriteStep(h, sdl));
  }

  /** An exit 0 comes after a build that reported success and was still
      running. */
  lemma CMakeMainZero(h: Host, fs: FileSystem, argv: seq<string>)
    requires CMakeMainOutcome(h, fs, argv).status == Exited(0)
    ensures |argv| == 3 && Locate(h, argv[1]) in fs
    ensures var b := CMakeOutcome(h, World(fs, [], Running), Locate(h, argv[1]), Locate(h, argv[2]));
            && b.1 && b.0.status == Running
            && CMakeMainOutcome(h, fs, argv) == Finish(b.0, 0)
  {
    if |argv| == 3 && Locate(h, argv[1]) in fs {
      CMakeStatus(h, World(fs, [], Running), Locate(h, argv[1]), Locate(h, argv[2]));
    }
  }

  /** `main` exits 0 or 1; with the wrong number of arguments or a missing
      SDL2 prefix it exits 1 having done nothing; an exit 0 means the whole
      chain ran on the resolved prefixes. */
  lemma CMakeMainCodes(h: Host, fs: FileSystem, argv: seq<string>)
    ensures var r := CMakeMainOutcome(h, fs, argv);
            && (r.status == Exited(0) || r.status == Exited(1))
            && (|argv| != 3 || Locate(h, argv[1]) !in fs ==>
                  r == World(fs, [Event(MainReturn, Exit(1), false)], Exited(1)))
            && (r.status == Exited(0) ==>
                  && |argv| == 3 && Locate(h, argv[1]) in fs
                  && var steps := CMakeSteps(h, Locate(h, argv[2]), Locate(h, argv[1]));
                  && Ran(r, Cimgui, WriteStep(h, Locate(h, argv[1])))
                  && Ran(r, Cimgui, steps[0]) && Ran(r, Cimgui, steps[1]) && Ran(r, Cimgui, steps[2]))
  {
    var w := World(fs, [], Running);
    if |argv| == 3 && Locate(h, argv[1]) in fs {
      CMakeStatus(h, w, Locate(h, argv[1]), Locate(h, argv[2]));
    }
    var r := CMakeMainOutcome(h, fs, argv);
    if r.status == Exited(0) {
      CMakeMainZero(h, fs, argv);
      var sdl := Locate(h, argv[1]);
      var install := Locate(h, argv[2]);
      var b := CMakeOutcome(h, w, sdl, install);
      var steps := CMakeSteps(h, install, sdl);
      CMakeSucceeded(h, w, sdl, install);
      assert r.trace[..|b.0.trace|] == b.0.trace;
      PrefixKeepsRan(b.0, r, Cimgui, WriteStep(h, sdl));
      PrefixKeepsRan(b.0, r, Cimgui, steps[0]);
      PrefixKeepsRan(b.0, r, Cimgui, steps[1]);
      PrefixKeepsRan(b.0, r, Cimgui, steps[2]);
    }
  }
}
