# Build plans of the SDL_mixer, SDL_image and cimgui build scripts

This project models the core of five Python build scripts in Dafny:

- `build_sdl_mixer.py` and `build_sdl_image.py` fetch, unpack and build the codec and image libraries. They then build SDL_mixer or SDL_image from a tree kept in the repository. Everything is installed into `prebuilt/<platform>/<arch>`.
- `build_imgui.py` checks the tools and the `cimgui` submodule. It compiles the nine cimgui/imgui/backend sources one at a time and links them into `cimgui_complete<ext>`. It then moves the library to `libs`, rewrites the Rock test script and runs a LuaJIT smoke test.
- `build_imgui_ci.py` builds cimgui for CI between an SDL2 prefix and an install prefix. It runs one compiler call on macOS and Linux, and separate compile and link calls on Windows. Then it copies the library and headers into the prefix.
- `build_cimgui_cmake.py` does the same through a generated `CMakeLists.txt` and a configure, build and install chain.

The model passes a world along (module `Steps`). A `World` holds three things:

- the files that exist, as a map from path to contents;
- a trace of every external step with its stage and outcome;
- whether the script is still running or has exited with some status.

Everything the scripts ask of the machine is a `Host` parameter: `platform.system()`, the working directory, the environment, `os.cpu_count()`, `shutil.which`, and whether each command succeeds and which files it writes.

Each external step is an `Action`: download, remove a tree, unpack, copy a tree or a file, remove a file, make a directory, write a text file, run a command, or exit. Steps are run in one of two ways:

- `Perform`: a failure ends the script with status 1. This is what `run_command`'s `sys.exit(1)` does, and what an exception escaping `shutil` or a file call does.
- `Attempt`: the outcome is handed back. This is the `run_cmd` of the cimgui scripts.

The modules are:

- `Text`: Python string operations.
- `Flags`: command-line arguments, the in-place Windows library rewrite, and the CPPFLAGS filter.
- `Platforms`: platform detection.
- `Recipes`: the shared download, unpack and CMake recipes.
- `SdlMixer` and `SdlImage`: the two SDL scripts.
- `Imgui`, `ImguiCi` and `CimguiCmake`: the three cimgui scripts.

Each `build_*` function is a method. Its postcondition ties the resulting world to a plan: a function of the starting files that lists the steps. Properties of the plans are proved as lemmas. The properties covered are:

- the argument lists and environments;
- the order in which `main` builds its targets, and that every target comes after the targets its configure line refers to;
- that the Windows rewrite changes only library paths;
- fail-fast behaviour;
- clean-up;
- the exit codes of each `main`.

## Model

| member | source | states |
|---|---|---|
| Text.IsPrefixStartsWith | build_sdl_image.py:192 | the character-by-character prefix test is `str.startswith`, both ways |
| Text.EndsWithDiffer | build_sdl_mixer.py:52-60 | two suffixes that differ at the same distance from the end cannot both end one name |
| Text.Split | build_imgui.py:290 | `split` yields at least one piece |
| Text.JoinSplit | build_imgui.py:290-301 | joining the pieces of a split with the separator gives the text back |
| Text.FirstPieceIsPrefix | build_imgui.py:290 | the first piece of a split is a prefix of the text |
| Text.SplitPiecesFree | build_sdl_image.py:129 | no piece of a split contains the separator |
| Text.ReplaceIsSplitJoin | build_sdl_image.py:129 | `str.replace` (left to right, no overlaps) equals split-then-join with the replacement |
| Text.ReplaceBySelf | build_imgui.py:280 | replacing a pattern by itself changes nothing |
| Text.ReplaceAbsent | build_imgui.py:279-280 | text without the pattern is left unchanged |
| Text.ReplaceCharRemoves | build_imgui.py:204 | replacing a character by text that lacks it removes every occurrence |
| Text.Lower | build_sdl_mixer.py:35 | ASCII lower-casing: each of `A`-`Z` becomes its lower-case letter, every other character is kept, and the length is kept |
| Text.LowerIdempotent | build_sdl_mixer.py:35 | lower-casing twice is lower-casing once |
| Text.NatToString | build_sdl_mixer.py:245 | `str(n)` of a count is a non-empty string of digits with no leading zero |
| Text.NatToStringValue | build_sdl_mixer.py:245 | the digits of `str(n)` read back as decimal give `n` |
| Platforms.Name | build_sdl_mixer.py:33-40 | the platform tag is one of windows, macos, linux |
| Platforms.GetPlatform | build_sdl_mixer.py:33-40 | macOS exactly when the lower-cased system is "darwin", Windows exactly for "windows", Linux for every other name |
| Platforms.GetPlatformIgnoresCase | build_sdl_image.py:35 | the tag does not depend on the case of the host name |
| Platforms.KnownHosts | build_sdl_image.py:33-40 | Darwin, Windows and Linux map to their own platforms |
| Platforms.HostPlatform | build_imgui.py:15-18 | the imgui scripts' exact-name tests: Windows exactly for "Windows", macOS exactly for "Darwin" |
| Platforms.HostPlatformAgrees | build_imgui_ci.py:15-18 | on the three reported names the exact tests agree with `get_platform`; a lower-case "windows" is Windows for the SDL scripts but Linux for the imgui scripts |
| Platforms.PlatformCMakeArgs | build_sdl_mixer.py:104-107 | Linux adds nothing, `-G` appears exactly on Windows, the arm64 architecture exactly on macOS |
| Flags.RenderAll | build_sdl_mixer.py:282-311 | each argument is rendered in place, and the length is kept |
| Flags.KeysUnique | build_sdl_mixer.py:335-346 | an argument starts with `KEY=` for at most one `=`-free key |
| Flags.HasKeyRender | build_sdl_mixer.py:335-346 | a rendered argument starts with `m=` exactly when it is a definition of `m` |
| Flags.RewriteAll | build_sdl_mixer.py:335-346 | the `enumerate` loop keeps the number of arguments |
| Flags.RewriteLibraryPaths | build_sdl_mixer.py:335-346 | the in-place array loop leaves exactly the argument-by-argument rewrite of the old contents |
| Flags.RewriteUnmatched | build_sdl_mixer.py:335-346 | an argument that no branch matches is kept |
| Flags.RewriteChangesOnlyMatched | build_sdl_image.py:344-352 | only an argument that defines some rule's key can change |
| Flags.RewriteMatched | build_sdl_image.py:344-352 | with distinct keys the order of the `elif` branches does not matter: a matching argument gets that rule's replacement |
| Flags.RewriteSkipsArg | build_sdl_mixer.py:335-346 | a definition of a key that no rule names goes through unchanged |
| Flags.RewriteHitsArg | build_sdl_mixer.py:335-346 | a definition of rule j's key comes out with rule j's value |
| Flags.RewriteKeepsKey | build_sdl_mixer.py:335-346 | the rewrite changes values and never keys |
| Flags.MentionsAppend | build_sdl_mixer.py:313-323 | extending an argument list mentions a key exactly when either part does |
| Flags.CommandKey | build_sdl_mixer.py:326-346 | which key each argument of the final command defines is decided by the argument it was rendered from |
| Flags.DropKey | build_sdl_image.py:192 | the filter keeps only arguments of the list that do not define the key |
| Flags.DropKeyAppend | build_sdl_image.py:192 | the filter keeps order and distributes over concatenation |
| Flags.DropKeyAbsent | build_sdl_image.py:192 | a list that never defines the key passes the filter whole |
| Flags.CountKeyAppend | build_sdl_image.py:192-197 | counting definitions is additive over concatenation |
| Flags.DropKeyCount | build_sdl_image.py:192 | after the filter no argument defines the key |
| Flags.DropThenAppendOne | build_sdl_image.py:192-197 | filtering and then appending one definition leaves exactly one |
| Flags.DropKeyOne | build_sdl_image.py:192 | a list with one definition loses exactly that one |
| Steps.NotUnderSibling | build_sdl_mixer.py:81-82 | the archive `dir.tar.gz` is not inside the tree `dir` |
| Steps.Within | build_sdl_mixer.py:48-63 | the files at or below a directory, with their contents |
| Steps.Outside | build_sdl_mixer.py:87-88 | the files outside a directory, the files left after `rmtree` |
| Steps.Perform | build_sdl_mixer.py:65-76 | a failing step records a failure and ends the script with status 1 leaving the files; a working one applies its effect; an ended script does nothing |
| Steps.Attempt | build_imgui_ci.py:20-24 | `run_cmd` records the step and reports whether it worked; the status never changes |
| Steps.Finish | build_imgui_ci.py:186-187 | `sys.exit(main())` ends a running script with the code returned |
| Steps.RunAllSnoc | build_sdl_mixer.py:109-111 | one more step of a list is one more `Perform` |
| Steps.HaltedSnoc | build_sdl_mixer.py:65-76 | after the script has ended, later steps change nothing |
| Steps.Next | build_sdl_mixer.py:109-111 | one statement of a `build_*` body extends the plan by one step |
| Steps.RunAllAppend | build_sdl_mixer.py:389-395 | running two lists one after the other is running their concatenation |
| Steps.RunAllHalted | build_sdl_mixer.py:65-76 | once the script has ended no step does anything |
| Steps.RunAllLive | build_sdl_mixer.py:65-76 | a script ends, if at all, with status 1 |
| Steps.Step | build_imgui.py:65-72 | `run_cmd` as a method |
| Steps.AttemptAll | build_imgui_ci.py:111-117 | the loop that returns at the first failure stops with the status unchanged, after at most all steps |
| Steps.AttemptAllTrace | build_imgui_ci.py:111-117 | every step before the failing one is recorded as having worked, then the failing one, and nothing after |
| Steps.AttemptAllRecord | build_imgui_ci.py:111-117 | the same record written as a single sequence |
| Steps.AttemptAllRan | build_imgui_ci.py:111-117 | every step the loop got through is recorded as having worked, and the earlier trace is kept |
| Steps.AttemptAllUnfold | build_cimgui_cmake.py:183-200 | one working step moves the loop on by one |
| Steps.ExtendsTrans | build_sdl_mixer.py:389-395 | adding events of a stage is transitive |
| Steps.RunAllExtends | build_sdl_mixer.py:65-76 | a list of steps adds at most one event per step, all of its stage |
| Steps.Succeeded | build_sdl_mixer.py:109-111 | the record of steps that all worked |
| Steps.RunAllCompleted | build_sdl_mixer.py:65-76 | a script still running after a list ran every step in order, and each one worked |
| Steps.PerformFailFast | build_sdl_mixer.py:65-76 | one step keeps the trace fail-fast: every step but the last worked, and the script ended with 1 exactly when the last one failed |
| Steps.RunAllFailFast | build_sdl_mixer.py:65-76 | nothing runs after the first failure |
| Steps.ExtendsOrdered | build_sdl_mixer.py:389-395 | appending a stage that is not earlier than the recorded ones keeps the stages in order |
| Steps.RanLast | build_sdl_mixer.py:111 | the last step of a completed list is recorded as having worked |
| Steps.PrefixKeepsRan | build_sdl_mixer.py:389-395 | a recorded success stays recorded as the trace grows |
| Steps.ExtendsKeepsRan | build_sdl_mixer.py:389-395 | a recorded success survives later stages |
| Steps.Advance | build_sdl_mixer.py:389-395 | moving on to a stage of equal or higher rank keeps the trace ordered |
| Steps.FirstStage | build_sdl_mixer.py:378-386 | the directory setup of `main` leaves a fail-fast, ordered trace, and if it goes on every step ran |
| Steps.FirstStageRan | build_sdl_mixer.py:378-386 | a running script has done each setup step |
| Steps.StageEndsWith | build_sdl_mixer.py:109-111 | a stage whose steps end with `a` has recorded `a` if the script goes on |
| Steps.StageInPhases | build_sdl_mixer.py:203-207 | a stage that decides its later steps after unpacking has the outcome of its second phase |
| Steps.StageInTwoPhases | build_sdl_image.py:123-131 | the same for a second phase chosen on the files the first left |
| Steps.StageDone | build_sdl_mixer.py:389-395 | a stage adds only its own events, keeps fail-fast, never resumes an ended script, and if it goes on has done its last step |
| Recipes.FetchArchive | build_sdl_mixer.py:84-85 | the archive is downloaded only when missing; afterwards it exists |
| Recipes.WipeTree | build_sdl_mixer.py:87-88 | an existing tree is removed |
| Recipes.Unpack | build_sdl_mixer.py:89 | the extractor that the suffix selected runs, and none for an unknown suffix |
| Recipes.Acquire | build_sdl_mixer.py:81-89 | fetch, wipe and unpack as one plan |
| Recipes.AcquireDownloadsIffMissing | build_sdl_mixer.py:84-85 | the download happens exactly when the archive is missing |
| Recipes.AcquireWipesBeforeExtract | build_sdl_mixer.py:87-89 | an existing tree is always removed, just before the archive is unpacked |
| Recipes.RunAllKeeps | build_sdl_mixer.py:81-89 | a file that no step deletes is still there afterwards |
| Recipes.AcquireKeepsArchive | build_sdl_mixer.py:81-89 | no acquisition step deletes an archive outside the tree |
| Recipes.FetchedStaysFetched | build_sdl_mixer.py:84-89 | once downloaded, the archive stays |
| Recipes.AcquireIdempotent | build_sdl_mixer.py:84-89 | after a completed acquisition, a second one downloads nothing |
| Recipes.CMakeSteps | build_sdl_mixer.py:92-111 | mkdir of `build`, configure (the only step with the modified environment), build, `cmake --install .` in that directory |
| Recipes.CpuString | build_sdl_image.py:107 | `str(os.cpu_count())` is "None" exactly when the count is unknown |
| Recipes.CMakeBuildOutcome | build_sdl_mixer.py:109-111 | a build ending in the CMake steps has installed if the script goes on |
| Recipes.MakeSteps | build_sdl_mixer.py:244-246 | configure in the tree with its environment, then make, then `make install` |
| Recipes.RunCMake | build_sdl_mixer.py:92-111 | the CMake statements run one after the other, as planned |
| Recipes.RunMake | build_sdl_mixer.py:244-246 | the configure/make statements run as planned |
| Recipes.Require | build_sdl_mixer.py:268-272 | a missing path ends the script with 1, and the files are untouched |
| Recipes.CopyVendored | build_sdl_mixer.py:252-265 | the vendored tree must exist, a stale copy is removed, then copytree |
| Recipes.CheckedCMake | build_sdl_image.py:300-309 | the prefix check followed by the CMake steps |
| SdlMixer.SuffixesExclusive | build_sdl_mixer.py:48-63 | no name ends in two of the four known suffixes |
| SdlMixer.Extractor | build_sdl_mixer.py:48-63 | each suffix selects its own reader, both ways; any other name is not unpacked |
| SdlMixer.Fetch | build_sdl_mixer.py:81-89 | `<build>/<name><suffix>` is fetched and unpacked as planned |
| SdlMixer.MixerEnv | build_sdl_mixer.py:353-363 | the caller's environment with PKG_CONFIG_PATH set, `/DFLAC__NO_DLL` flags on Windows, include and library flags elsewhere; nothing else changes |
| SdlMixer.MixerBaseShape | build_sdl_mixer.py:282-311 | the base line has no MP3 options and names the four static codec libraries at fixed places |
| SdlMixer.MixerPlatformShape | build_sdl_mixer.py:326-351 | the platform options say nothing about MP3 |
| SdlMixer.MixerMp3Gating | build_sdl_mixer.py:313-323 | `-DSDL2MIXER_MP3` is ON exactly when mpg123 was found, and the mpg123 library is named exactly then |
| SdlMixer.MixerLibraryKeys | build_sdl_mixer.py:335-346 | the five library keys are `=`-free and distinct |
| SdlMixer.MixerWindowsRulesDistinct | build_sdl_mixer.py:335-346 | the Windows rules name distinct keys (four without mpg123) |
| SdlMixer.MixerWindowsRewriteLocal | build_sdl_mixer.py:335-346 | the rewrite keeps the length and changes only arguments that define a rule key |
| SdlMixer.MixerWindowsHit | build_sdl_mixer.py:335-346 | an argument defining a rule key gets that rule's value |
| SdlMixer.MixerWindowsLibraries | build_sdl_mixer.py:335-346 | on Windows ogg, vorbis, vorbisfile and FLAC point at `.lib` files (FLAC's also at ogg.lib), and mpg123's does when found |
| SdlMixer.MixerWindowsMiss | build_sdl_mixer.py:335-346 | every other argument is left alone |
| SdlMixer.MixerCommandMp3 | build_sdl_mixer.py:313-346 | in the final command on every platform the MP3 switch reads ON exactly when mpg123 was found |
| SdlMixer.PlatformArgsNoDependency | build_sdl_mixer.py:104-107 | the platform options refer to no target |
| SdlMixer.OggArgsNoDependency | build_sdl_mixer.py:95-107 | libogg refers to no other target |
| SdlMixer.VorbisArgsDependencies | build_sdl_mixer.py:113-147 | libvorbis refers to libogg and nothing else |
| SdlMixer.FlacArgsDependencies | build_sdl_mixer.py:149-192 | FLAC refers to libogg and nothing else |
| SdlMixer.Mpg123ArgsNoDependency | build_sdl_mixer.py:214-242 | mpg123 refers to no other target |
| SdlMixer.MixerArgsDependencies | build_sdl_mixer.py:282-323 | SDL_mixer refers to libogg, libvorbis and FLAC always, and to mpg123 exactly when it was found |
| SdlMixer.MixerDependenciesFirst | build_sdl_mixer.py:389-395 | `main`'s fixed order builds every target before each target that refers to it |
| SdlMixer.BuildLibogg | build_sdl_mixer.py:78-111 | the libogg build follows its plan |
| SdlMixer.BuildLibvorbis | build_sdl_mixer.py:113-147 | the libvorbis build follows its plan (OGG_ROOT from the prefix) |
| SdlMixer.BuildFlac | build_sdl_mixer.py:149-192 | the FLAC build follows its plan (only its configure step sees PKG_CONFIG_PATH) |
| SdlMixer.BuildMpg123 | build_sdl_mixer.py:194-246 | the branch is decided on the unpacked tree; on Windows without a CMakeLists.txt nothing is built after unpacking |
| SdlMixer.MixerConfigure | build_sdl_mixer.py:282-351 | the list built, extended and rewritten in place is the command in the plan |
| SdlMixer.BuildSdlMixer | build_sdl_mixer.py:248-367 | copy the vendored tree; then, on the copied files, the prefix check, the MP3 probe and the CMake build |
| SdlMixer.MixerPrefix | build_sdl_mixer.py:373-379 | `cwd/prebuilt/<platform>/arm64` on every platform |
| SdlMixer.InstallStepIn | build_sdl_mixer.py:111 | each target's last step is `cmake --install .` in its build directory |
| SdlMixer.MixerBuildEnds | build_sdl_mixer.py:365-367 | SDL_mixer's plan ends with its install step |
| SdlMixer.OggTarget | build_sdl_mixer.py:389 | libogg adds only its own events and, if the script goes on, has installed |
| SdlMixer.VorbisTarget | build_sdl_mixer.py:390 | the same for libvorbis |
| SdlMixer.FlacTarget | build_sdl_mixer.py:391 | the same for FLAC |
| SdlMixer.Mpg123Target | build_sdl_mixer.py:392 | mpg123 adds only its own events and keeps fail-fast (it may build nothing) |
| SdlMixer.MixerTarget | build_sdl_mixer.py:395 | SDL_mixer adds only its own events and, if the script goes on, has installed |
| SdlMixer.MixerLibraries | build_sdl_mixer.py:389-391 | the first three builds keep the trace fail-fast and ordered, and a running script has installed all three |
| SdlMixer.MixerBuilds | build_sdl_mixer.py:389-395 | the five builds run in order and stop at the first failure; a running script has installed libogg, libvorbis, FLAC and SDL_mixer |
| SdlMixer.MixerMain | build_sdl_mixer.py:369-395 | `main` makes the directories and then runs the builds, with the same guarantees from an empty trace |
| SdlImage.ImageExtractor | build_sdl_image.py:48-57 | gzip tarballs and zip files only, both ways; any other name is not unpacked |
| SdlImage.ExtractorsAgree | build_sdl_image.py:48-57 | the two scripts agree on `.tar.gz` and `.zip`; this one skips `.tar.xz` and `.tar.bz2` |
| SdlImage.ImageFetch | build_sdl_image.py:71-79 | `<build>/<name>.tar.gz` is fetched and unpacked as planned |
| SdlImage.ZlibEnv | build_sdl_image.py:82-87 | arm64 compiler and linker flags on macOS, the caller's environment elsewhere |
| SdlImage.ZlibBranches | build_sdl_image.py:89-108 | CMake on Windows; `./configure --prefix --static`, make and make install elsewhere, with the arm64 flags on macOS |
| SdlImage.BuildZlib | build_sdl_image.py:68-108 | the zlib build follows its plan |
| SdlImage.PatchPngPriv | build_sdl_image.py:129 | every fp.h include is commented out, and a header without one is unchanged |
| SdlImage.PatchPngPrivPieces | build_sdl_image.py:129 | the header splits into include-free pieces; the original joins them with the include, the patched header with its commented form |
| SdlImage.PngPatchSteps | build_sdl_image.py:124-131 | the header is rewritten exactly on macOS when it exists, with the patched text |
| SdlImage.PngEnv | build_sdl_image.py:134-161 | the flags point at the prefix first, zlib comes from the prefix, the compiler include paths are removed; nothing else changes |
| SdlImage.PngFilterDropsOne | build_sdl_image.py:179-192 | the base line has one CPPFLAGS entry, and the filter drops only it, keeping order |
| SdlImage.PngConfigureMacOS | build_sdl_image.py:190-197 | on macOS exactly one CPPFLAGS entry remains, the NEON-off one at the end |
| SdlImage.BuildLibpng | build_sdl_image.py:110-201 | fetch; then, on the unpacked tree, patch and build |
| SdlImage.BuildLibjpeg | build_sdl_image.py:203-236 | the libjpeg-turbo build follows its plan |
| SdlImage.BuildLibwebp | build_sdl_image.py:238-279 | the libwebp build follows its plan |
| SdlImage.ImageConfigure | build_sdl_image.py:311-357 | the list built, extended and rewritten in place is the command in the plan |
| SdlImage.ImageWindowsRulesDistinct | build_sdl_image.py:344-352 | the four Windows rules name distinct `=`-free keys |
| SdlImage.ImageBaseShape | build_sdl_image.py:311-338 | 27 arguments, with the four static libraries at fixed places |
| SdlImage.ImageWindowsRewriteLocal | build_sdl_image.py:344-352 | the rewrite keeps the length and changes only arguments that define a rule key |
| SdlImage.ImageWindowsHit | build_sdl_image.py:344-352 | an argument defining a rule key gets that rule's value |
| SdlImage.ImageWindowsLibraries | build_sdl_image.py:340-352 | on Windows the four libraries point at zlibstatic, libpng16_static, jpeg-static and webp `.lib` files |
| SdlImage.ImageEnv | build_sdl_image.py:359-361 | include and library flags for the prefix, named twice; nothing else changes |
| SdlImage.BuildSdlImage | build_sdl_image.py:281-365 | copy the vendored tree; then the prefix check and the CMake build |
| SdlImage.PlatformArgsNoDependency | build_sdl_image.py:340-357 | the platform options refer to no target |
| SdlImage.ZlibArgsNoDependency | build_sdl_image.py:93-106 | zlib refers to no other target |
| SdlImage.PngArgsDependencies | build_sdl_image.py:167-187 | libpng refers to zlib and nothing else |
| SdlImage.JpegArgsNoDependency | build_sdl_image.py:220-232 | libjpeg-turbo refers to no other target |
| SdlImage.WebpArgsNoDependency | build_sdl_image.py:255-275 | libwebp refers to no other target |
| SdlImage.ImageArgsDependencies | build_sdl_image.py:311-338 | SDL_image refers to exactly the four libraries |
| SdlImage.ImageDependenciesFirst | build_sdl_image.py:390-396 | `main`'s order builds every target before each target that refers to it |
| SdlImage.ImagePrefix | build_sdl_image.py:373-380 | `cwd/prebuilt/<platform>/<arch>`, arch being arm64 on macOS and x86_64 elsewhere |
| SdlImage.PrefixesAgreeOnMacOSOnly | build_sdl_image.py:373-380 | the two SDL scripts use the same prefix exactly on macOS |
| SdlImage.InstallStepIn | build_sdl_image.py:99-108 | `make install` in the tree for zlib and libpng off Windows, `cmake --install .` otherwise |
| SdlImage.ZlibTarget | build_sdl_image.py:390 | zlib adds only its own events and, if the script goes on, has installed |
| SdlImage.PngTarget | build_sdl_image.py:391 | the same for libpng |
| SdlImage.JpegTarget | build_sdl_image.py:392 | the same for libjpeg-turbo |
| SdlImage.WebpTarget | build_sdl_image.py:393 | the same for libwebp |
| SdlImage.ImageTarget | build_sdl_image.py:396 | the same for SDL_image |
| SdlImage.ImageEarlyLibraries | build_sdl_image.py:390-391 | zlib then libpng, fail-fast and ordered; both installed if running |
| SdlImage.ImageLateLibraries | build_sdl_image.py:392-393 | libjpeg-turbo then libwebp, fail-fast and ordered; both installed if running |
| SdlImage.ImageBuilds | build_sdl_image.py:390-396 | the five builds in order, stopping at the first failure; all five installed if running |
| SdlImage.ImageDirectories | build_sdl_image.py:379-387 | the four directories are made first, in a fail-fast trace |
| SdlImage.ImageMain | build_sdl_image.py:367-396 | `main`: directories, then the five builds, all installed if it runs to the end |
| Imgui.SettingsFor | build_imgui.py:21-42 | `.dll`/cl on Windows, `.dylib`/clang++ on macOS, `.so`/g++ on Linux |
| Imgui.OutputNames | build_imgui.py:224 | `cimgui_complete<ext>` is distinct per platform and ends in its extension |
| Imgui.DependenciesOk | build_imgui.py:74-123 | passing means the compiler and git are on the PATH and, off Windows, the SDL2 library and headers exist |
| Imgui.DependenciesMonotone | build_imgui.py:74-123 | more tools or files never make the check fail |
| Imgui.GlHeaderOnlyWarns | build_imgui.py:113-118 | the OpenGL header does not change the answer |
| Imgui.SubmoduleOutcome | build_imgui.py:125-151 | the only failure is a failed submodule initialisation, which happens only when `cimgui` or `cimgui/imgui` is missing |
| Imgui.CheckSubmodule | build_imgui.py:125-151 | the method does what the outcome function says |
| Imgui.CleanSubmoduleKept | build_imgui.py:139-146 | a blank `git status` never leads to `git reset --hard`, whatever the answer |
| Imgui.EnsureDirectories | build_imgui.py:153-171 | both directories are made, and success means both wrapper files are present |
| Imgui.ObjectName | build_imgui.py:204 | object names have no `/`, so every object lands directly in `cimgui` |
| Imgui.ObjectNamePlain | build_imgui.py:204 | a name without `.cpp` and `/` is its own object name |
| Imgui.ObjectNames | build_imgui.py:199-219 | the object of each source, in order |
| Imgui.Clean | build_imgui.py:210 | path components are non-empty and not `.` |
| Imgui.IncludeAsWrittenMisses | build_imgui.py:210 | from `cimgui`, `-I../` before an absolute header directory names the start directory followed by that directory, not the directory that was checked |
| Imgui.MacIncludeMissed | build_imgui.py:28-34 | the macOS header directory is missed from any start directory but the root |
| Imgui.IncludeFromCimguiFindsChecked | build_imgui.py:103-106 | the corrected flag names exactly the directory `check_dependencies` checked |
| Imgui.CompileCommandShape | build_imgui.py:204-213 | one source compiled alone with `-c` into its own object; argument 10 is `-I../` followed by the platform's SDL2 header directory, as line 210 writes it, and the platform's extra flags come last; it is not a link |
| Imgui.MacCompileIncludeMissed | build_imgui.py:210 | on macOS the header directory the compile command names, resolved from `cimgui`, is not the one `check_dependencies` found |
| Imgui.CompileSteps | build_imgui.py:201-219 | one compile step per source, in order, each running the as-written compile command in `cimgui` |
| Imgui.CompileSources | build_imgui.py:199-219 | the loop stops at the first failure, collects the objects of the sources that compiled, and reports failure exactly when one did not |
| Imgui.LinkStep | build_imgui.py:221-230 | `<cxx> -shared` followed by every object, run in `cimgui` |
| Imgui.Temporaries | build_imgui.py:233-244 | the two wrapper copies and every object made |
| Imgui.RemoveExisting | build_imgui.py:233-244 | while running, the files are those before minus the listed ones, and only removals are recorded |
| Imgui.RemoveFiles | build_imgui.py:233-244 | the clean-up loop does that |
| Imgui.CompileAndLink | build_imgui.py:186-230 | copies, compile loop and link are the first half of `build_library`, with the as-written compile commands |
| Imgui.BuildLibrary | build_imgui.py:173-255 | `build_library` with the as-written compile commands; success implies every source compiled |
| Imgui.InCimguiNotLibs | build_imgui.py:247-250 | a file in `cimgui` is never one in `libs` |
| Imgui.TemporariesNotLibs | build_imgui.py:233-250 | the clean-up never touches the library in `libs` |
| Imgui.MoveOutputEffect | build_imgui.py:247-251 | the move makes the copy in `libs`, removes the one in `cimgui`, and touches nothing else |
| Imgui.LibraryCleansUp | build_imgui.py:233-244 | whether or not the build worked, the wrappers and objects are gone if the script goes on |
| Imgui.LibraryLinkedAll | build_imgui.py:199-230 | success means all nine sources compiled and the link over their objects worked |
| Imgui.LibraryStopsAtFailedCompile | build_imgui.py:214-230 | after a failed compile no link runs and `build_library` fails: the trace holds the compiles that worked, then the failing one, then only clean-up removals |
| Imgui.CompilesNoLink | build_imgui.py:201-219 | the compile loop records no link step |
| Imgui.LibraryBuilt | build_imgui.py:233-255 | success means the library is in `libs`, not in `cimgui`, and the temporaries are gone |
| Imgui.LibraryLinkRan | build_imgui.py:233-255 | a recorded link stays recorded through the clean-up |
| Imgui.ReplaceEachAbsent | build_imgui.py:273-280 | text holding none of the old paths is unchanged |
| Imgui.ReplacePatterns | build_imgui.py:279-280 | the pattern loop replaces each old path in turn |
| Imgui.DropLoads | build_imgui.py:290-300 | the kept lines are never more than the input |
| Imgui.DropBackendsLoad | build_imgui.py:290-300 | the `skip_next` loop keeps exactly the lines `DropLoads` keeps |
| Imgui.DropLoadsRemovesLoad | build_imgui.py:290-300 | no kept line holds the backends load |
| Imgui.DropLoadsKeepsOthers | build_imgui.py:290-300 | lines without the load are all kept |
| Imgui.DropLoadsDropsPair | build_imgui.py:294-299 | a load line and the line after it both go |
| Imgui.RockTextUnchanged | build_imgui.py:273-305 | a script with no old path and without both loads is written back unchanged |
| Imgui.RockOutcome | build_imgui.py:257-310 | a missing script is skipped; otherwise exactly its text is rewritten |
| Imgui.UpdateRockFile | build_imgui.py:257-310 | the update always reports success |
| Imgui.TestOutcome | build_imgui.py:312-351 | the smoke test ends the script only if a step raised |
| Imgui.TestBuild | build_imgui.py:312-351 | the method does what the outcome function says |
| Imgui.ImguiMain | build_imgui.py:353-404 | `main` with an escaping error ending the script with status 1, compiling with the as-written include flag |
| Imgui.LibraryLive | build_imgui.py:394-404 | `build_library` ends the script, if at all, with status 1 |
| Imgui.ImguiExitCodes | build_imgui.py:353-404 | the exit status is 0 or 1 |
| Imgui.ImguiSuccess | build_imgui.py:359-392 | exit 0 means the checks passed, the submodule was fine, and the library linked from all nine objects is in `libs` |
| Imgui.ImguiBuiltExitsZero | build_imgui.py:377-392 | once the checks pass and the library is built, the exit status is 0 exactly when the Rock update and the smoke test raise no file error, and always 0 on a host whose file writes and removals work, whatever the submodule prompt and luajit do |
| Imgui.LibraryRunning | build_imgui.py:373-375 | a successful `build_library` leaves the script running |
| Imgui.LaterStepsWork | build_imgui.py:377-392 | when file writes and removals work, the Rock update and the smoke test do not end the script, whatever luajit reports |
| Imgui.LaterStepsKeepLibrary | build_imgui.py:377-390 | the Rock update and the smoke test keep the library and only append to the trace |
| Imgui.TestKeepsLibrary | build_imgui.py:312-351 | the smoke test keeps the library |
| ImguiCi.LibName | build_imgui_ci.py:48-63 | cimgui.dll, libcimgui.dylib and libcimgui.so exactly for Windows, macOS and Linux |
| ImguiCi.ToolchainFor | build_imgui_ci.py:48-63 | no compiler is assigned exactly on Windows; the linker flags start with `-lSDL2`, with OpenGL on macOS and GL on Linux |
| ImguiCi.AgreesWithImgui | build_imgui_ci.py:48-63 | the extension agrees with build_imgui.py everywhere, and the compiler does off Windows |
| ImguiCi.SourceListWrapper | build_imgui_ci.py:70-85 | eight fixed sources, and the wrapper last exactly when it exists |
| ImguiCi.AssembleSources | build_imgui_ci.py:70-85 | the list the script builds starts with the fixed sources |
| ImguiCi.Includes | build_imgui_ci.py:88-94 | five include directories |
| ImguiCi.LibDirs | build_imgui_ci.py:97-99 | one library directory |
| ImguiCi.CompileFlags | build_imgui_ci.py:102-105 | four flags, `-shared` among them exactly off Windows |
| ImguiCi.UnixCommandLayout | build_imgui_ci.py:127-128 | compiler, flags, includes, every source in order, library directory, linker flags, then `-o` and the output |
| ImguiCi.UnixCommandInjective | build_imgui_ci.py:128 | different source lists give different commands |
| ImguiCi.BaseName | build_imgui_ci.py:112 | the last component has no `/` |
| ImguiCi.BaseNameAfterSlash | build_imgui_ci.py:112 | the last component of `dir/name` is `name` |
| ImguiCi.RFind | build_imgui_ci.py:112 | the last index of the character, or -1 when it is absent |
| ImguiCi.StemOfSource | build_imgui_ci.py:112 | `Path("dir/x.cpp").stem` is `x` |
| ImguiCi.WindowsObjectOfSource | build_imgui_ci.py:112 | `dir/x.cpp` compiles to `build/cimgui/x.obj` |
| ImguiCi.WindowsObjects | build_imgui_ci.py:110-117 | the object of each source, in order |
| ImguiCi.WindowsCompileSteps | build_imgui_ci.py:111-114 | one compile per source, in order |
| ImguiCi.WindowsLinkTakesObjects | build_imgui_ci.py:120-121 | the link takes every object and the `.dll` output |
| ImguiCi.CopyIfPresent | build_imgui_ci.py:146-162 | the copy adds at most the target, which exists afterwards exactly when it did before or the source existed |
| ImguiCi.Prepare | build_imgui_ci.py:33-67 | the checkout checks and the build directory |
| ImguiCi.PreparedSteps | build_imgui_ci.py:33-67 | without a checkout nothing happens; a failed submodule fetch is the only thing recorded; success leaves the build directory in place |
| ImguiCi.CompileWindows | build_imgui_ci.py:110-117 | the compile loop stops at the first failure and collects the objects of the sources that compiled |
| ImguiCi.BuildWindows | build_imgui_ci.py:108-124 | compile loop, then the link only if every source compiled |
| ImguiCi.Compile | build_imgui_ci.py:107-132 | the build command or commands of the platform branch |
| ImguiCi.CopyHeader | build_imgui_ci.py:146-162 | one `if exists: copy` |
| ImguiCi.Install | build_imgui_ci.py:134-162 | the library copy and the header copies |
| ImguiCi.BuildCimgui | build_imgui_ci.py:26-165 | `build_cimgui` |
| ImguiCi.CiMain | build_imgui_ci.py:167-187 | `main` with `sys.exit` |
| ImguiCi.PerformAdds | build_imgui_ci.py:135-143 | mkdir and copy add at most their target and keep every file |
| ImguiCi.InstallWithinPrefix | build_imgui_ci.py:134-162 | the installation keeps every file and adds new ones only below the install prefix |
| ImguiCi.InstallPlacesLibrary | build_imgui_ci.py:134-143 | a completed installation has the library in `lib` and the header directory, and records the copy |
| ImguiCi.CopyKeepsTrace | build_imgui_ci.py:146-162 | a copy only appends to the trace |
| ImguiCi.PerformKeepsTrace | build_imgui_ci.py:134-143 | a step only appends to the trace |
| ImguiCi.InstallKeepsTrace | build_imgui_ci.py:134-162 | the installation only appends, and ends the script, if at all, with 1 |
| ImguiCi.BuildStatus | build_imgui_ci.py:26-165 | a build stops running or with status 1 |
| ImguiCi.WindowsAsWrittenFails | build_imgui_ci.py:48-51 | as written, Windows never builds: after the build directory exists the script ends with 1 |
| ImguiCi.CiMainWindowsFails | build_imgui_ci.py:167-187 | `main` never exits 0 on Windows |
| ImguiCi.WindowsLinksAll | build_imgui_ci.py:110-124 | a Windows build that reports success compiled every source and linked all the objects |
| ImguiCi.WindowsStopsAtFailure | build_imgui_ci.py:114-116 | after a failed compile nothing else is compiled and nothing is linked |
| ImguiCi.InstallKeepsRan | build_imgui_ci.py:134-162 | steps recorded before installation stay recorded |
| ImguiCi.WindowsCorrectedBuilds | build_imgui_ci.py:108-143 | with a compiler in scope, a Windows success compiled and linked everything and installed the library |
| ImguiCi.UnixBuilds | build_imgui_ci.py:125-143 | on macOS and Linux a success ran the one command over every source and installed the library |
| ImguiCi.CiMainCodes | build_imgui_ci.py:167-184 | exit 0 or 1; wrong arguments, a missing SDL2 prefix or no checkout give 1 with nothing done; 0 means a Unix build installed the library |
| CimguiCmake.UsesShell | build_cimgui_cmake.py:20-27 | the shell is used exactly for a command line on Windows |
| CimguiCmake.RunCmd | build_cimgui_cmake.py:20-27 | `run_cmd` records the command and returns whether it worked |
| CimguiCmake.ListsNeverUseShell | build_cimgui_cmake.py:23-26 | an argument list never goes through the shell |
| CimguiCmake.TemplateEmbedsPrefix | build_cimgui_cmake.py:31-38 | the prefix goes into the SDL2_DIR line after the fixed preamble, and different prefixes give different files |
| CimguiCmake.CMakeListsEmbedsPrefix | build_cimgui_cmake.py:31-133 | the same for the whole generated file |
| CimguiCmake.WriteCMakeLists | build_cimgui_cmake.py:135-136 | writes the file for this prefix into the build directory |
| CimguiCmake.CpuText | build_cimgui_cmake.py:190 | "None" exactly for an unknown count, digits otherwise |
| CimguiCmake.GeneratorChoice | build_cimgui_cmake.py:168-181 | both prefixes are named; `-G` exactly on Windows or with Ninja; Ninja exactly off Windows with Ninja; Visual Studio exactly on Windows |
| CimguiCmake.ParallelOffWindows | build_cimgui_cmake.py:188-190 | `--parallel <cpus>` exactly off Windows |
| CimguiCmake.CMakeSteps | build_cimgui_cmake.py:183-200 | three commands |
| CimguiCmake.RunChain | build_cimgui_cmake.py:183-200 | the three commands with early returns; success exactly when all three worked |
| CimguiCmake.BuildCimgui | build_cimgui_cmake.py:139-203 | `build_cimgui` |
| CimguiCmake.CMakeMain | build_cimgui_cmake.py:205-225 | `main` with `sys.exit` |
| CimguiCmake.ChainInOrder | build_cimgui_cmake.py:183-200 | configure, build and install in order, each only after the one before worked; the first failure is the last thing recorded |
| CimguiCmake.CMakeStatus | build_cimgui_cmake.py:139-203 | a build stops running or with status 1 |
| CimguiCmake.CMakeSucceeded | build_cimgui_cmake.py:165-203 | success means the CMakeLists.txt for this prefix was written and all three commands ran |
| CimguiCmake.CMakeMainZero | build_cimgui_cmake.py:205-222 | exit 0 follows a build that reported success |
| CimguiCmake.CMakeMainCodes | build_cimgui_cmake.py:205-222 | exit 0 or 1; wrong arguments or a missing prefix give 1 with nothing done; 0 means the whole chain ran on the resolved prefixes |

## Left out

- Output and progress messages (`print`, the colour codes, the closing listing of installed libraries) are not modelled. They change no file and no exit status.
- Downloads, archive contents, compilers and CMake are not modelled. What a command does is a parameter of the host: whether it succeeds, and which files it writes.
- The interactive `input()` answer and the `git status --porcelain` output in build_imgui.py are parameters of `main`.
- `subprocess` internals, and a command that cannot start at all (`FileNotFoundError`), are not modelled. A command either succeeds or fails.
- `os.chdir` in build_imgui.py is modelled by running each command in the directory it would run in.
- The Lua text of the smoke test is reduced to the line that loads the library. Its other lines do not affect the build.
- The CMake language of the generated CMakeLists.txt is not modelled. Only the text written and the prefix inside it are modelled.
- Paths use `/` on every platform. Windows separators and drive letters are not modelled.
- `Path.resolve()` is not modelled: no symlinks and no `..` normalisation. `Locate` joins a relative path to the working directory.
- `mkdir(parents=True)` records the directory itself, not its parents.
- Text.Lower is ASCII-only: Python's `str.lower()` also lower-cases non-ASCII letters and can change the length (`'İ'.lower()` has two characters). The scripts only compare the result with "darwin", "windows" and "y", and no non-ASCII character lower-cases to one of their letters, so those comparisons come out the same.
- `str.strip()` is modelled by `Imgui.IsSpace`, the characters for which `str.isspace()` holds. Only whether the stripped output is empty matters, so only that is modelled.
- The files are a flat map from path to contents. A file may be present while its directory has no entry of its own, so `Path.exists()` on a parent directory is not tied to the files below it.
- `Path.stem` and the base name follow pathlib for the names the scripts use. Trailing slashes and `.` components are not normalised.
- `shutil.copy` onto its own source (SameFileError) is not modelled.
- The variables `cc` and `extra_cflags` in build_imgui_ci.py are assigned but never used, so they have no counterpart.
- Mpg123Target states only trace facts and no install step, because on Windows the build is skipped when the unpacked tree has no CMakeLists.txt.

## Findings

| source | as written | input that shows it | evidently intended | confidence | as-written member | corrected member |
|---|---|---|---|---|---|---|
| build_imgui.py:210 | `-I../{SDL_INCLUDE}` is prefixed with `../` even when the header directory is absolute; the compile commands of the model use this as-written flag | macOS, where the header directory is `/usr/local/include/SDL2`: from `cimgui` the flag names `<start>/usr/local/include/SDL2` | the directory `check_dependencies` checked | medium, not executed | Imgui.IncludeAsWrittenMisses | Imgui.IncludeFromCimguiFindsChecked |
| build_imgui_ci.py:48-51 | the Windows branch assigns neither `cxx` nor `extra_ldflags`, which lines 113 and 121 use | any run on Windows: the first compile raises UnboundLocalError and the script exits with 1 | a Windows compiler and linker flags in scope, and the build compiling, linking and installing | high, not executed | ImguiCi.WindowsAsWrittenFails | ImguiCi.WindowsCorrectedBuilds |
