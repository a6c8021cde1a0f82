/** build_sdl_image.py: SDL_image with its four image libraries (zlib,
    libpng, libjpeg-turbo, libwebp), all installed into one prefix in a
    fixed order, every failing step ending the script. */
module SdlImage {
  import opened Text
  import opened Steps
  import opened Flags
  import opened Platforms
  import opened Recipes
  import SdlMixer

  const ZlibName := "zlib-1.3.1"
  const ZlibUrl := "https://github.com/madler/zlib/releases/download/v1.3.1/zlib-1.3.1.tar.gz"
  const PngName := "libpng-1.6.44"
  const PngUrl := "https://download.sourceforge.net/libpng/libpng-1.6.44.tar.gz"
  const JpegName := "libjpeg-turbo-3.0.4"
  const JpegUrl := "https://github.com/libjpeg-turbo/libjpeg-turbo/releases/download/3.0.4/libjpeg-turbo-3.0.4.tar.gz"
  const WebpName := "libwebp-1.3.2"
  const WebpUrl := "https://github.com/webmproject/libwebp/archive/v1.3.2.tar.gz"
  /** The SDL_image tree kept in the repository instead of downloaded. */
  const ImageName := "SDL2_image-2.8.2"

  // ---------------------------------------------------------------------
  // Archives

  /** This script's `extract_archive`: gzip tarballs and zip files only;
      any other name is not unpacked at all. */
  function ImageExtractor(archive: string): (f: Option<Format>)
    ensures f == Some(TarGz) <==> EndsWith(archive, ".tar.gz")
    ensures f == Some(Zip) <==> EndsWith(archive, ".zip")
    ensures f == None <==> !EndsWith(archive, ".tar.gz") && !EndsWith(archive, ".zip")
  {
    SdlMixer.SuffixesExclusive(archive);
    if EndsWith(archive, ".tar.gz") then Some(TarGz)
    else if EndsWith(archive, ".zip") then Some(Zip)
    else None
  }

  /** The two scripts agree on gzip tarballs and zip files; the SDL_image
      script silently skips the xz and bzip2 tarballs the SDL_mixer script
      unpacks. */
  lemma ExtractorsAgree(archive: string)
    ensures SdlMixer.Extractor(archive) in {Some(TarGz), Some(Zip)} ==> ImageExtractor(archive) == SdlMixer.Extractor(archive)
    ensures SdlMixer.Extractor(archive) in {Some(TarXz), Some(TarBz2)} ==> ImageExtractor(archive) == None
    ensures SdlMixer.Extractor(archive) == None ==> ImageExtractor(archive) == None
  {
  }

  /** Every archive of this script is a gzip tarball `<build_dir>/<name>.tar.gz`
      unpacked into the build directory. */
  function ImageFetchSteps(fs: FileSystem, url: string, buildDir: Path, name: string): seq<Action> {
    var archive := buildDir + "/" + name + ".tar.gz";
    AcquireSteps(fs, url, archive, buildDir + "/" + name, buildDir, ImageExtractor(archive))
  }

  method ImageFetch(h: Host, w: World, s: Stage, url: string, buildDir: Path, name: string) returns (w': World)
    ensures w' == RunAll(h, w, s, ImageFetchSteps(w.fs, url, buildDir, name))
  {
    var archive := buildDir + "/" + name + ".tar.gz";
    w' := Acquire(h, w, s, url, archive, buildDir + "/" + name, buildDir, ImageExtractor(archive));
  }

  // ---------------------------------------------------------------------
  // zlib

  /** zlib on Windows: CMake, with no generator given. */
  function ZlibCMakeArgs(prefix: Path): seq<Arg> {
    [Word("cmake"), Word(".."),
     Define("-DCMAKE_INSTALL_PREFIX", prefix),
     Define("-DCMAKE_BUILD_TYPE", "Release")]
  }

  /** zlib elsewhere: its own configure script, static only. */
  function ZlibConfigureArgs(prefix: Path): seq<Arg> {
    [Word("./configure"), Define("--prefix", prefix), Word("--static")]
  }

  /** The configure environment of zlib: the caller's, with the compiler and
      linker forced to arm64 on macOS. */
  function ZlibEnv(environ: Env, p: Platform): (env: Env)
    ensures p == MacOS ==> "CFLAGS" in env && "LDFLAGS" in env
                           && env["CFLAGS"] == "-arch arm64" && env["LDFLAGS"] == "-arch arm64"
    ensures p != MacOS ==> env == environ
    ensures forall k :: k in environ ==> k in env
    ensures forall k :: k in env && k !in {"CFLAGS", "LDFLAGS"} ==> k in environ && env[k] == environ[k]
  {
    if p == MacOS then environ["CFLAGS" := "-arch arm64"]["LDFLAGS" := "-arch arm64"] else environ
  }

  /** What zlib does once unpacked: a CMake build on Windows (whose
      configure step does not get the prepared environment), configure and
      make in the tree elsewhere. */
  function ZlibBuildSteps(environ: Env, cpu: Option<nat>, src: Path, prefix: Path, p: Platform): seq<Action> {
    if p == Windows then CMakeSteps(src + "/build", RenderAll(ZlibCMakeArgs(prefix)), None)
    else MakeSteps(src, RenderAll(ZlibConfigureArgs(prefix)), Some(ZlibEnv(environ, p)), cpu)
  }

  /** zlib's platform branches: the CMake sequence on Windows, and
      `./configure --prefix=<prefix> --static` then make and make install
      everywhere else, the configure step seeing arm64 flags on macOS. */
  lemma ZlibBranches(environ: Env, cpu: Option<nat>, src: Path, prefix: Path, p: Platform)
    ensures var steps := ZlibBuildSteps(environ, cpu, src, prefix, p);
            (p == Windows ==> steps == CMakeSteps(src + "/build", ["cmake", "..", "-DCMAKE_INSTALL_PREFIX=" + prefix, "-DCMAKE_BUILD_TYPE=Release"], None))
            && (p != Windows ==>
                  |steps| == 3 && steps[0].argv == ["./configure", "--prefix=" + prefix, "--static"]
                  && steps[0].cwd == src && steps[2] == Run(["make", "install"], src, None, false))
            && (p == MacOS ==> steps[0].env.Some? && steps[0].env.value["CFLAGS"] == "-arch arm64"
                                && steps[0].env.value["LDFLAGS"] == "-arch arm64")
            && (p == Linux ==> steps[0].env == Some(environ))
  {
    assert "-DCMAKE_INSTALL_PREFIX" + "=" + prefix == "-DCMAKE_INSTALL_PREFIX=" + prefix;
    assert "-DCMAKE_BUILD_TYPE" + "=" + "Release" == "-DCMAKE_BUILD_TYPE=Release";
    assert "--prefix" + "=" + prefix == "--prefix=" + prefix;
    var cm := RenderAll(ZlibCMakeArgs(prefix));
    assert cm[2] == "-DCMAKE_INSTALL_PREFIX=" + prefix && cm[3] == "-DCMAKE_BUILD_TYPE=Release";
    assert cm == ["cmake", "..", "-DCMAKE_INSTALL_PREFIX=" + prefix, "-DCMAKE_BUILD_TYPE=Release"];
    var cf := RenderAll(ZlibConfigureArgs(prefix));
    assert cf[1] == "--prefix=" + prefix;
    assert cf == ["./configure", "--prefix=" + prefix, "--static"];
  }

  method BuildZlib(h: Host, w: World, buildDir: Path, prefix: Path, p: Platform) returns (w': World)
    ensures w' == RunAll(h, w, Zlib, ImageFetchSteps(w.fs, ZlibUrl, buildDir, ZlibName)
                                     + ZlibBuildSteps(h.environ, h.cpuCount, buildDir + "/" + ZlibName, prefix, p))
  {
    var src := buildDir + "/" + ZlibName;
    w' := ImageFetch(h, w, Zlib, ZlibUrl, buildDir, ZlibName);
    var env := ZlibEnv(h.environ, p);
    if p == Windows {
      w' := RunCMake(h, w', Zlib, src + "/build", RenderAll(ZlibCMakeArgs(prefix)), None);
    } else {
      w' := RunMake(h, w', Zlib, src, RenderAll(ZlibConfigureArgs(prefix)), Some(env), h.cpuCount);
    }
    RunAllAppend(h, w, Zlib, ImageFetchSteps(w.fs, ZlibUrl, buildDir, ZlibName),
                 ZlibBuildSteps(h.environ, h.cpuCount, src, prefix, p));
  }

  // ---------------------------------------------------------------------
  // libpng

  /** The include `pngpriv.h` pulls in on macOS, and its commented-out form. */
  const FpInclude := "#      include <fp.h>"
  const FpIncludeOff := "/* #      include <fp.h> */"

  /** `content.replace(...)`: every occurrence of the fp.h include is
      commented out, and nothing else changes. */
  function PatchPngPriv(content: string): (r: string)
    ensures r == Join(Split(content, FpInclude), FpIncludeOff)
    ensures !Contains(content, FpInclude) ==> r == content
  {
    ReplaceIsSplitJoin(content, FpInclude, FpIncludeOff);
    if Contains(content, FpInclude) then Replace(content, FpInclude, FpIncludeOff)
    else ReplaceAbsent(content, FpInclude, FpIncludeOff); Replace(content, FpInclude, FpIncludeOff)
  }

  /** The header is cut at the includes into pieces that hold none; the
      original joins the pieces with the include, the patched header with
      its commented-out form. */
  lemma PatchPngPrivPieces(content: string)
    ensures var pieces := Split(content, FpInclude);
            Join(pieces, FpInclude) == content
            && (forall i :: 0 <= i < |pieces| ==> !Contains(pieces[i], FpInclude))
            && PatchPngPriv(content) == Join(pieces, FpIncludeOff)
  {
    JoinSplit(content, FpInclude);
    SplitPiecesFree(content, FpInclude);
  }

  /** On macOS only, and only when the unpacked tree has `pngpriv.h`, the
      header is rewritten with its fp.h include commented out. */
  function PngPatchSteps(fs: FileSystem, src: Path, p: Platform): (r: seq<Action>)
    ensures |r| <= 1
    ensures r != [] <==> p == MacOS && src + "/pngpriv.h" in fs
    ensures r != [] ==> r[0] == WriteText(src + "/pngpriv.h", PatchPngPriv(fs[src + "/pngpriv.h"]))
  {
    var header := src + "/pngpriv.h";
    if p == MacOS && header in fs then [WriteText(header, PatchPngPriv(fs[header]))] else []
  }

  /** The flags libpng is configured with: the prefix's headers and
      libraries first, with ARM NEON off and arm64 forced on macOS. */
  function PngCFlags(prefix: Path, p: Platform): string {
    "-I" + prefix + "/include" + (if p == MacOS then " -DPNG_ARM_NEON_OPT=0 -arch arm64" else "")
  }

  function PngLdFlags(prefix: Path, p: Platform): string {
    "-L" + prefix + "/lib" + (if p == MacOS then " -arch arm64" else "")
  }

  /** The environment of libpng's configure step: the caller's, with the
      flags pointed at the prefix, zlib taken from the prefix, and the
      compiler's own include paths removed. */
  function PngEnv(environ: Env, prefix: Path, p: Platform): (env: Env)
    ensures "CFLAGS" in env && "CPPFLAGS" in env && "LDFLAGS" in env
    ensures StartsWith(env["CFLAGS"], "-I" + prefix + "/include")
    ensures StartsWith(env["CPPFLAGS"], "-I" + prefix + "/include")
    ensures StartsWith(env["LDFLAGS"], "-L" + prefix + "/lib")
    ensures env["CFLAGS"] == env["CPPFLAGS"]
    ensures p != MacOS ==> env["CFLAGS"] == "-I" + prefix + "/include" && env["LDFLAGS"] == "-L" + prefix + "/lib"
    ensures "PKG_CONFIG_PATH" in env && env["PKG_CONFIG_PATH"] == prefix + "/lib/pkgconfig"
    ensures "ZLIB_CFLAGS" in env && env["ZLIB_CFLAGS"] == env["CPPFLAGS"]
    ensures "ZLIB_LIBS" in env && env["ZLIB_LIBS"] == env["LDFLAGS"] + " -lz"
    ensures "C_INCLUDE_PATH" !in env && "CPLUS_INCLUDE_PATH" !in env
    ensures forall k :: k in environ && k !in {"C_INCLUDE_PATH", "CPLUS_INCLUDE_PATH"} ==> k in env
    ensures forall k :: k in env && k !in PngEnvKeys ==> k in environ && env[k] == environ[k]
  {
    var cflags := PngCFlags(prefix, p);
    var ldflags := PngLdFlags(prefix, p);
    StartsWithConcat("-I" + prefix + "/include", if p == MacOS then " -DPNG_ARM_NEON_OPT=0 -arch arm64" else "", "-I" + prefix + "/include");
    StartsWithConcat("-L" + prefix + "/lib", if p == MacOS then " -arch arm64" else "", "-L" + prefix + "/lib");
    var env := environ["CFLAGS" := cflags]["CPPFLAGS" := cflags]["LDFLAGS" := ldflags]
                      ["PKG_CONFIG_PATH" := prefix + "/lib/pkgconfig"]
                      ["ZLIB_CFLAGS" := cflags]["ZLIB_LIBS" := ldflags + " -lz"];
    env - {"C_INCLUDE_PATH", "CPLUS_INCLUDE_PATH"}
  }

  /** The keys libpng's environment sets or deletes. */
  const PngEnvKeys := {"CFLAGS", "CPPFLAGS", "LDFLAGS", "PKG_CONFIG_PATH", "ZLIB_CFLAGS", "ZLIB_LIBS",
                       "C_INCLUDE_PATH", "CPLUS_INCLUDE_PATH"}

  /** libpng on Windows: CMake, static only, zlib from the prefix. */
  function PngCMakeArgs(prefix: Path): seq<Arg> {
    [Word("cmake"), Word(".."),
     Define("-DCMAKE_INSTALL_PREFIX", prefix),
     Define("-DZLIB_ROOT", prefix),
     Define("-DPNG_SHARED", "OFF"),
     Define("-DPNG_STATIC", "ON"),
     Define("-DCMAKE_BUILD_TYPE", "Release")]
  }

  /** libpng elsewhere: the configure line before the macOS adjustment. */
  function PngConfigureBase(prefix: Path): seq<Arg> {
    [Word("./configure"),
     Define("--prefix", prefix),
     Word("--enable-static"),
     Word("--disable-shared"),
     Define("--with-zlib-prefix", prefix),
     Define("CPPFLAGS", "-I" + prefix + "/include"),
     Define("LDFLAGS", "-L" + prefix + "/lib")]
  }

  /** The CPPFLAGS entry macOS puts in place of the generic one. */
  function PngNeonOff(prefix: Path): string {
    Render(Define("CPPFLAGS", "-I" + prefix + "/include -DPNG_ARM_NEON_OPT=0 -DPNG_ARM_NEON_IMPLEMENTATION=0"))
  }

  /** The configure line: on macOS every `CPPFLAGS=` entry is filtered out
      and NEON is switched off, with its own CPPFLAGS entry, at the end. */
  function PngConfigureArgs(prefix: Path, p: Platform): seq<string> {
    var args := RenderAll(PngConfigureBase(prefix));
    if p == MacOS then DropKey(args, "CPPFLAGS") + ["--disable-arm-neon", PngNeonOff(prefix)]
    else args
  }

  /** What the filter does to the base line: it drops the one CPPFLAGS entry
      and keeps the other six in their order. */
  lemma PngFilterDropsOne(prefix: Path)
    ensures var args := RenderAll(PngConfigureBase(prefix));
            CountKey(args, "CPPFLAGS") == 1
            && DropKey(args, "CPPFLAGS") == args[..5] + args[6..]
  {
    var base := PngConfigureBase(prefix);
    var args := RenderAll(base);
    var front := args[..5];
    var back := args[6..];
    assert args == front + [args[5]] + back;
    assert front[0][0] == '.' && front[1][0] == '-' && front[2][0] == '-' && front[3][0] == '-' && front[4][0] == '-';
    forall i | 0 <= i < |front| ensures !HasKey(front[i], "CPPFLAGS") {
      FirstCharNoKey(front[i], "CPPFLAGS");
    }
    assert |back| == 1 && back[0][0] == 'L';
    FirstCharNoKey(back[0], "CPPFLAGS");
    DefineHasKey("CPPFLAGS", "-I" + prefix + "/include");
    DropKeyOne(front, args[5], back, "CPPFLAGS");
  }

  /** On macOS the configure line has exactly one CPPFLAGS entry, the one
      with NEON off, after `--disable-arm-neon` at the very end; the other
      arguments keep their order.  Elsewhere it is the base line. */
  lemma PngConfigureMacOS(prefix: Path)
    ensures var base := RenderAll(PngConfigureBase(prefix));
            var cfg := PngConfigureArgs(prefix, MacOS);
            cfg == base[..5] + base[6..] + ["--disable-arm-neon", PngNeonOff(prefix)]
            && CountKey(cfg, "CPPFLAGS") == 1
  {
    var base := RenderAll(PngConfigureBase(prefix));
    PngFilterDropsOne(prefix);
    DefineHasKey("CPPFLAGS", "-I" + prefix + "/include -DPNG_ARM_NEON_OPT=0 -DPNG_ARM_NEON_IMPLEMENTATION=0");
    FirstCharNoKey("--disable-arm-neon", "CPPFLAGS");
    DropThenAppendOne(base, "--disable-arm-neon", PngNeonOff(prefix), "CPPFLAGS");
  }

  /** What libpng does once unpacked and patched: on Windows the CMake
      sequence, which does not get the prepared environment; elsewhere
      configure (with that environment) and make in the tree. */
  function PngBuildSteps(environ: Env, cpu: Option<nat>, src: Path, prefix: Path, p: Platform): seq<Action> {
    if p == Windows then CMakeSteps(src + "/build", RenderAll(PngCMakeArgs(prefix)), None)
    else MakeSteps(src, PngConfigureArgs(prefix, p), Some(PngEnv(environ, prefix, p)), cpu)
  }

  /** libpng: fetched, patched on the unpacked tree, built. */
  method BuildLibpng(h: Host, w: World, buildDir: Path, prefix: Path, p: Platform) returns (w': World)
    ensures var fetched := RunAll(h, w, Png, ImageFetchSteps(w.fs, PngUrl, buildDir, PngName));
            var src := buildDir + "/" + PngName;
            w' == RunAll(h, fetched, Png, PngPatchSteps(fetched.fs, src, p) + PngBuildSteps(h.environ, h.cpuCount, src, prefix, p))
  {
    var src := buildDir + "/" + PngName;
    w' := ImageFetch(h, w, Png, PngUrl, buildDir, PngName);
    ghost var fetched := w';
    var header := src + "/pngpriv.h";
    if p == MacOS && header in w'.fs {
      var content := w'.fs[header];
      w' := Perform(h, w', Png, WriteText(header, PatchPngPriv(content)));
      RunAllSnoc(h, fetched, Png, [], WriteText(header, PatchPngPriv(content)));
    }
    ghost var patched := w';
    assert patched == RunAll(h, fetched, Png, PngPatchSteps(fetched.fs, src, p));
    var env := PngEnv(h.environ, prefix, p);
    if p == Windows {
      w' := RunCMake(h, w', Png, src + "/build", RenderAll(PngCMakeArgs(prefix)), None);
    } else {
      var configureArgs := PngConfigureArgs(prefix, p);
      w' := RunMake(h, w', Png, src, configureArgs, Some(env), h.cpuCount);
    }
    RunAllAppend(h, fetched, Png, PngPatchSteps(fetched.fs, src, p), PngBuildSteps(h.environ, h.cpuCount, src, prefix, p));
  }

  // ---------------------------------------------------------------------
  // libjpeg-turbo and libwebp

  function JpegArgs(prefix: Path, p: Platform): seq<Arg> {
    [Word("cmake"), Word(".."),
     Define("-DCMAKE_INSTALL_PREFIX", prefix),
     Define("-DENABLE_SHARED", "OFF"),
     Define("-DENABLE_STATIC", "ON"),
     Define("-DCMAKE_BUILD_TYPE", "Release"),
     Define("-DCMAKE_POLICY_VERSION_MINIMUM", "3.5")]
    + PlatformCMakeArgs(p)
  }

  function WebpArgs(prefix: Path, p: Platform): seq<Arg> {
    [Word("cmake"), Word(".."),
     Define("-DCMAKE_INSTALL_PREFIX", prefix),
     Define("-DBUILD_SHARED_LIBS", "OFF"),
     Define("-DWEBP_BUILD_ANIM_UTILS", "OFF"),
     Define("-DWEBP_BUILD_CWEBP", "OFF"),
     Define("-DWEBP_BUILD_DWEBP", "OFF"),
     Define("-DWEBP_BUILD_GIF2WEBP", "OFF"),
     Define("-DWEBP_BUILD_IMG2WEBP", "OFF"),
     Define("-DWEBP_BUILD_VWEBP", "OFF"),
     Define("-DWEBP_BUILD_WEBPINFO", "OFF"),
     Define("-DWEBP_BUILD_WEBPMUX", "OFF"),
     Define("-DWEBP_BUILD_EXTRAS", "OFF"),
     Define("-DCMAKE_BUILD_TYPE", "Release"),
     Define("-DCMAKE_POLICY_VERSION_MINIMUM", "3.5")]
    + PlatformCMakeArgs(p)
  }

  method BuildLibjpeg(h: Host, w: World, buildDir: Path, prefix: Path, p: Platform) returns (w': World)
    ensures w' == RunAll(h, w, Jpeg, ImageFetchSteps(w.fs, JpegUrl, buildDir, JpegName)
                                     + CMakeSteps(buildDir + "/" + JpegName + "/build", RenderAll(JpegArgs(prefix, p)), None))
  {
    w' := ImageFetch(h, w, Jpeg, JpegUrl, buildDir, JpegName);
    w' := RunCMake(h, w', Jpeg, buildDir + "/" + JpegName + "/build", RenderAll(JpegArgs(prefix, p)), None);
    RunAllAppend(h, w, Jpeg, ImageFetchSteps(w.fs, JpegUrl, buildDir, JpegName),
                 CMakeSteps(buildDir + "/" + JpegName + "/build", RenderAll(JpegArgs(prefix, p)), None));
  }

  method BuildLibwebp(h: Host, w: World, buildDir: Path, prefix: Path, p: Platform) returns (w': World)
    ensures w' == RunAll(h, w, Webp, ImageFetchSteps(w.fs, WebpUrl, buildDir, WebpName)
                                     + CMakeSteps(buildDir + "/" + WebpName + "/build", RenderAll(WebpArgs(prefix, p)), None))
  {
    w' := ImageFetch(h, w, Webp, WebpUrl, buildDir, WebpName);
    w' := RunCMake(h, w', Webp, buildDir + "/" + WebpName + "/build", RenderAll(WebpArgs(prefix, p)), None);
    RunAllAppend(h, w, Webp, ImageFetchSteps(w.fs, WebpUrl, buildDir, WebpName),
                 CMakeSteps(buildDir + "/" + WebpName + "/build", RenderAll(WebpArgs(prefix, p)), None));
  }

  // ---------------------------------------------------------------------
  // SDL_image

  /** The options every SDL_image build passes; the SDL2 prefix is the
      install prefix itself. */
  function ImageBaseArgs(prefix: Path): seq<Arg> {
    [Word("cmake"), Word(".."),
     Define("-DCMAKE_INSTALL_PREFIX", prefix),
     Define("-DCMAKE_PREFIX_PATH", prefix + ";" + prefix),
     Define("-DSDL2_DIR", prefix + "/lib/cmake/SDL2"),
     Define("-DSDL2IMAGE_SAMPLES", "OFF"),
     Define("-DBUILD_SHARED_LIBS", "ON"),
     Define("-DSDL2IMAGE_DEPS_SHARED", "OFF"),
     Define("-DSDL2IMAGE_VENDORED", "OFF"),
     Define("-DSDL2IMAGE_PNG", "ON"),
     Define("-DSDL2IMAGE_PNG_SHARED", "OFF"),
     Define("-DSDL2IMAGE_JPG", "ON"),
     Define("-DSDL2IMAGE_JPG_SHARED", "OFF"),
     Define("-DSDL2IMAGE_WEBP", "ON"),
     Define("-DSDL2IMAGE_WEBP_SHARED", "OFF"),
     Define("-DSDL2IMAGE_TIF", "OFF"),
     Define("-DSDL2IMAGE_AVIF", "OFF"),
     Define("-DSDL2IMAGE_JXL", "OFF"),
     Define("-DZLIB_LIBRARY", prefix + "/lib/libz.a"),
     Define("-DZLIB_INCLUDE_DIR", prefix + "/include"),
     Define("-DPNG_LIBRARY", prefix + "/lib/libpng.a"),
     Define("-DPNG_PNG_INCLUDE_DIR", prefix + "/include"),
     Define("-DJPEG_LIBRARY", prefix + "/lib/libjpeg.a"),
     Define("-DJPEG_INCLUDE_DIR", prefix + "/include"),
     Define("-DWEBP_LIBRARY", prefix + "/lib/libwebp.a"),
     Define("-DWEBP_INCLUDE_DIR", prefix + "/include"),
     Define("-DCMAKE_BUILD_TYPE", "Release")]
  }

  function ImagePlatformArgs(p: Platform): seq<Arg> {
    match p
    case Windows => [Word("-G"), Word("Visual Studio 17 2022"), Word("-A"), Word("x64")]
    case MacOS => [Define("-DCMAKE_OSX_ARCHITECTURES", "arm64"), Define("-DCMAKE_OSX_DEPLOYMENT_TARGET", "11.0")]
    case Linux => []
  }

  function ImageArgs(prefix: Path, p: Platform): seq<Arg> {
    ImageBaseArgs(prefix) + ImagePlatformArgs(p)
  }

  /** The Windows static library names of the four image libraries. */
  function ImageWindowsRules(prefix: Path): seq<Rule> {
    [Rule("-DZLIB_LIBRARY", prefix + "/lib/zlibstatic.lib"),
     Rule("-DPNG_LIBRARY", prefix + "/lib/libpng16_static.lib"),
     Rule("-DJPEG_LIBRARY", prefix + "/lib/jpeg-static.lib"),
     Rule("-DWEBP_LIBRARY", prefix + "/lib/webp.lib")]
  }

  /** The configure command as finally handed to CMake. */
  function ImageCommand(prefix: Path, p: Platform): seq<string> {
    var argv := RenderAll(ImageArgs(prefix, p));
    if p == Windows then RewriteAll(argv, ImageWindowsRules(prefix)) else argv
  }

  /** The argument list is built, extended, and on Windows rewritten by
      index in place. */
  method ImageConfigure(prefix: Path, p: Platform) returns (argv: seq<string>)
    ensures argv == ImageCommand(prefix, p)
  {
    var args := RenderAll(ImageArgs(prefix, p));
    var cmakeArgs := new string[|args|](k requires 0 <= k < |args| => args[k]);
    assert cmakeArgs[..] == args;
    if p == Windows {
      RewriteLibraryPaths(cmakeArgs, ImageWindowsRules(prefix));
    }
    argv := cmakeArgs[..];
  }

  lemma ImageWindowsRulesDistinct(prefix: Path)
    ensures DistinctKeys(ImageWindowsRules(prefix))
  {
    assert '=' !in "-DZLIB_LIBRARY" && '=' !in "-DPNG_LIBRARY" && '=' !in "-DJPEG_LIBRARY" && '=' !in "-DWEBP_LIBRARY";
  }

  lemma ImageBaseShape(prefix: Path)
    ensures |ImageBaseArgs(prefix)| == 27
    ensures ImageBaseArgs(prefix)[18] == Define("-DZLIB_LIBRARY", prefix + "/lib/libz.a")
    ensures ImageBaseArgs(prefix)[20] == Define("-DPNG_LIBRARY", prefix + "/lib/libpng.a")
    ensures ImageBaseArgs(prefix)[22] == Define("-DJPEG_LIBRARY", prefix + "/lib/libjpeg.a")
    ensures ImageBaseArgs(prefix)[24] == Define("-DWEBP_LIBRARY", prefix + "/lib/libwebp.a")
  {
  }

  /** The Windows rewrite of SDL_image's command keeps its length and
      changes only entries that define one of the four library keys. */
  lemma ImageWindowsRewriteLocal(prefix: Path)
    ensures var argv := RenderAll(ImageArgs(prefix, Windows));
            var rules := ImageWindowsRules(prefix);
            var cmd := ImageCommand(prefix, Windows);
            |cmd| == |argv|
            && forall i :: 0 <= i < |cmd| ==> cmd[i] == argv[i] || exists j :: 0 <= j < |rules| && HasKey(argv[i], rules[j].key)
  {
    var argv := RenderAll(ImageArgs(prefix, Windows));
    var rules := ImageWindowsRules(prefix);
    forall i | 0 <= i < |argv|
      ensures RewriteAll(argv, rules)[i] == argv[i] || exists j :: 0 <= j < |rules| && HasKey(argv[i], rules[j].key)
    {
      RewriteChangesOnlyMatched(argv, rules, i);
    }
  }

  /** An argument defining rule `j`'s key ends up with rule `j`'s value. */
  lemma ImageWindowsHit(prefix: Path, i: nat, j: nat, v: string)
    requires i < |ImageArgs(prefix, Windows)| && j < |ImageWindowsRules(prefix)|
    requires ImageArgs(prefix, Windows)[i] == Define(ImageWindowsRules(prefix)[j].key, v)
    ensures var rule := ImageWindowsRules(prefix)[j];
            ImageCommand(prefix, Windows)[i] == Render(Define(rule.key, rule.value))
  {
    ImageWindowsRulesDistinct(prefix);
    RewriteHitsArg(v, ImageWindowsRules(prefix), j);
  }

  /** On Windows the four libraries point at their static `.lib` files. */
  lemma ImageWindowsLibraries(prefix: Path)
    ensures var cmd := ImageCommand(prefix, Windows);
            |cmd| == 31
            && cmd[18] == Render(Define("-DZLIB_LIBRARY", prefix + "/lib/zlibstatic.lib"))
            && cmd[20] == Render(Define("-DPNG_LIBRARY", prefix + "/lib/libpng16_static.lib"))
            && cmd[22] == Render(Define("-DJPEG_LIBRARY", prefix + "/lib/jpeg-static.lib"))
            && cmd[24] == Render(Define("-DWEBP_LIBRARY", prefix + "/lib/webp.lib"))
  {
    var base := ImageBaseArgs(prefix);
    var args := ImageArgs(prefix, Windows);
    ImageBaseShape(prefix);
    assert args[18] == base[18] && args[20] == base[20] && args[22] == base[22] && args[24] == base[24];
    ImageWindowsHit(prefix, 18, 0, prefix + "/lib/libz.a");
    ImageWindowsHit(prefix, 20, 1, prefix + "/lib/libpng.a");
    ImageWindowsHit(prefix, 22, 2, prefix + "/lib/libjpeg.a");
    ImageWindowsHit(prefix, 24, 3, prefix + "/lib/libwebp.a");
  }

  /** The environment of SDL_image's configure step: the caller's, with the
      compiler and linker pointed at the prefix (named twice, once as the
      install prefix and once as SDL2's). */
  function ImageEnv(environ: Env, prefix: Path): (env: Env)
    ensures "CFLAGS" in env && env["CFLAGS"] == "-I" + prefix + "/include -I" + prefix + "/include"
    ensures "LDFLAGS" in env && env["LDFLAGS"] == "-L" + prefix + "/lib -L" + prefix + "/lib"
    ensures forall k :: k in environ ==> k in env
    ensures forall k :: k in env && k !in {"CFLAGS", "LDFLAGS"} ==> k in environ && env[k] == environ[k]
  {
    environ["CFLAGS" := "-I" + prefix + "/include -I" + prefix + "/include"]
           ["LDFLAGS" := "-L" + prefix + "/lib -L" + prefix + "/lib"]
  }

  /** The prefix must exist (else exit 1); then the CMake build. */
  function ImageBuildSteps(fs: FileSystem, environ: Env, src: Path, prefix: Path, p: Platform): seq<Action> {
    ExitUnless(prefix in fs)
    + CMakeSteps(src + "/build", ImageCommand(prefix, p), Some(ImageEnv(environ, prefix)))
  }

  /** SDL_image itself, from the vendored tree. */
  method BuildSdlImage(h: Host, w: World, buildDir: Path, prefix: Path, p: Platform) returns (w': World)
    ensures var copied := RunAll(h, w, Image, VendoredSteps(w.fs, h.cwd + "/" + ImageName, buildDir + "/" + ImageName));
            w' == RunAll(h, copied, Image, ImageBuildSteps(copied.fs, h.environ, buildDir + "/" + ImageName, prefix, p))
  {
    var src := buildDir + "/" + ImageName;
    w' := CopyVendored(h, w, Image, h.cwd + "/" + ImageName, src);
    var cmakeArgs := ImageConfigure(prefix, p);
    var env := ImageEnv(h.environ, prefix);
    w' := CheckedCMake(h, w', Image, prefix, src + "/build", cmakeArgs, Some(env));
  }

  // ---------------------------------------------------------------------
  // Dependency order

  /** The keys through which a configure line refers to what target `d`
      installed into the prefix. */
  function DependencyKeys(d: Stage): set<string> {
    match d
    case Zlib => {"-DZLIB_ROOT", "--with-zlib-prefix", "-DZLIB_LIBRARY", "-DZLIB_INCLUDE_DIR"}
    case Png => {"-DPNG_LIBRARY", "-DPNG_PNG_INCLUDE_DIR"}
    case Jpeg => {"-DJPEG_LIBRARY", "-DJPEG_INCLUDE_DIR"}
    case Webp => {"-DWEBP_LIBRARY", "-DWEBP_INCLUDE_DIR"}
    case _ => {}
  }

  /** The configure arguments of each target `main` builds (libpng's before
      the macOS filter, which only removes and adds CPPFLAGS). */
  function TargetArgs(t: Stage, prefix: Path, p: Platform): seq<Arg> {
    match t
    case Zlib => if p == Windows then ZlibCMakeArgs(prefix) else ZlibConfigureArgs(prefix)
    case Png => if p == Windows then PngCMakeArgs(prefix) else PngConfigureBase(prefix)
    case Jpeg => JpegArgs(prefix, p)
    case Webp => WebpArgs(prefix, p)
    case Image => ImageArgs(prefix, p)
    case _ => []
  }

  /** The position of each stage in `main`'s fixed order. */
  function ImageRank(s: Stage): nat {
    match s
    case ImageSetup => 0
    case Zlib => 1
    case Png => 2
    case Jpeg => 3
    case Webp => 4
    case Image => 5
    case _ => 6
  }

  lemma PlatformArgsNoDependency(p: Platform, d: Stage)
    ensures !Mentions(PlatformCMakeArgs(p), DependencyKeys(d))
    ensures !Mentions(ImagePlatformArgs(p), DependencyKeys(d))
  {
  }

  lemma ZlibArgsNoDependency(prefix: Path, d: Stage)
    ensures !Mentions(ZlibCMakeArgs(prefix), DependencyKeys(d))
    ensures !Mentions(ZlibConfigureArgs(prefix), DependencyKeys(d))
  {
  }

  /** libpng refers to zlib only. */
  lemma PngArgsDependencies(prefix: Path, d: Stage)
    ensures Mentions(PngCMakeArgs(prefix), DependencyKeys(d)) <==> d == Zlib
    ensures Mentions(PngConfigureBase(prefix), DependencyKeys(d)) <==> d == Zlib
  {
    assert PngCMakeArgs(prefix)[3].key in DependencyKeys(Zlib);
    assert PngConfigureBase(prefix)[4].key in DependencyKeys(Zlib);
  }

  lemma JpegArgsNoDependency(prefix: Path, p: Platform, d: Stage)
    ensures !Mentions(JpegArgs(prefix, p), DependencyKeys(d))
  {
    var own := [Word("cmake"), Word(".."),
     Define("-DCMAKE_INSTALL_PREFIX", prefix),
     Define("-DENABLE_SHARED", "OFF"),
     Define("-DENABLE_STATIC", "ON"),
     Define("-DCMAKE_BUILD_TYPE", "Release"),
     Define("-DCMAKE_POLICY_VERSION_MINIMUM", "3.5")];
    MentionsAppend(own, PlatformCMakeArgs(p), DependencyKeys(d));
    PlatformArgsNoDependency(p, d);
  }

  lemma WebpArgsNoDependency(prefix: Path, p: Platform, d: Stage)
    ensures !Mentions(WebpArgs(prefix, p), DependencyKeys(d))
  {
    var own := [Word("cmake"), Word(".."),
     Define("-DCMAKE_INSTALL_PREFIX", prefix),
     Define("-DBUILD_SHARED_LIBS", "OFF"),
     Define("-DWEBP_BUILD_ANIM_UTILS", "OFF"),
     Define("-DWEBP_BUILD_CWEBP", "OFF"),
     Define("-DWEBP_BUILD_DWEBP", "OFF"),
     Define("-DWEBP_BUILD_GIF2WEBP", "OFF"),
     Define("-DWEBP_BUILD_IMG2WEBP", "OFF"),
     Define("-DWEBP_BUILD_VWEBP", "OFF"),
     Define("-DWEBP_BUILD_WEBPINFO", "OFF"),
     Define("-DWEBP_BUILD_WEBPMUX", "OFF"),
     Define("-DWEBP_BUILD_EXTRAS", "OFF"),
     Define("-DCMAKE_BUILD_TYPE", "Release"),
     Define("-DCMAKE_POLICY_VERSION_MINIMUM", "3.5")];
    MentionsAppend(own, PlatformCMakeArgs(p), DependencyKeys(d));
    PlatformArgsNoDependency(p, d);
  }

  /** SDL_image refers to all four libraries. */
  lemma ImageArgsDependencies(prefix: Path, p: Platform, d: Stage)
    ensures Mentions(ImageArgs(prefix, p), DependencyKeys(d)) <==> d in {Zlib, Png, Jpeg, Webp}
  {
    var base := ImageBaseArgs(prefix);
    ImageBaseShape(prefix);
    MentionsAppend(base, ImagePlatformArgs(p), DependencyKeys(d));
    PlatformArgsNoDependency(p, d);
    assert base[18].key in DependencyKeys(Zlib);
    assert base[20].key in DependencyKeys(Png);
    assert base[22].key in DependencyKeys(Jpeg);
    assert base[24].key in DependencyKeys(Webp);
  }

  /** The fixed order of `main` builds zlib before libpng and all four
      libraries before SDL_image: every target comes before each target
      whose configure line refers to it. */
  lemma ImageDependenciesFirst(t: Stage, d: Stage, prefix: Path, p: Platform)
    ensures Mentions(TargetArgs(t, prefix, p), DependencyKeys(d)) ==> ImageRank(d) < ImageRank(t)
  {
    match t {
      case Zlib => ZlibArgsNoDependency(prefix, d);
      case Png => PngArgsDependencies(prefix, d);
      case Jpeg => JpegArgsNoDependency(prefix, p, d);
      case Webp => WebpArgsNoDependency(prefix, p, d);
      case Image => ImageArgsDependencies(prefix, p, d);
      case _ =>
    }
  }

  // ---------------------------------------------------------------------
  // main

  /** The architecture directory: arm64 on macOS, x86_64 everywhere else. */
  function Arch(p: Platform): string {
    if p == MacOS then "arm64" else "x86_64"
  }

  /** `Path.cwd() / "prebuilt" / <platform> / <arch>`. */
  function ImagePrefix(h: Host): (prefix: Path)
    ensures StartsWith(prefix, h.cwd + "/prebuilt/")
    ensures EndsWith(prefix, "/" + Arch(GetPlatform(h.system)))
  {
    var prefix := h.cwd + "/prebuilt/" + Name(GetPlatform(h.system)) + "/" + Arch(GetPlatform(h.system));
    assert prefix[..|h.cwd + "/prebuilt/"|] == h.cwd + "/prebuilt/";
    assert prefix == h.cwd + "/prebuilt/" + Name(GetPlatform(h.system)) + ("/" + Arch(GetPlatform(h.system)));
    EndsWithConcat(h.cwd + "/prebuilt/" + Name(GetPlatform(h.system)), "/" + Arch(GetPlatform(h.system)));
    prefix
  }

  /** The two SDL scripts install into the same prefix on macOS only: the
      SDL_mixer script says arm64 on every platform. */
  lemma PrefixesAgreeOnMacOSOnly(h: Host)
    ensures ImagePrefix(h) == SdlMixer.MixerPrefix(h) <==> GetPlatform(h.system) == MacOS
  {
    if GetPlatform(h.system) != MacOS {
      EndsWithDiffer(ImagePrefix(h), "/arm64", "/x86_64", 2);
    }
  }

  function ImageBuildDir(h: Host): Path {
    h.cwd + "/build/sdl_image"
  }

  /** The tree each target is built from, below the build directory. */
  function TargetName(t: Stage): string {
    match t
    case Zlib => ZlibName
    case Png => PngName
    case Jpeg => JpegName
    case Webp => WebpName
    case _ => ImageName
  }

  /** The last step of a target's build: `make install` in the tree for
      zlib and libpng off Windows, `cmake --install .` in the tree's build
      directory otherwise. */
  function InstallStep(t: Stage, buildDir: Path, p: Platform): Action {
    var src := buildDir + "/" + TargetName(t);
    if t in {Zlib, Png} && p != Windows then Run(["make", "install"], src, None, false)
    else Run(CMakeInstall, src + "/build", None, false)
  }

  // Each `build_*` call as `main` sees it.

  /** The install step of a target, with the tree's name given. */
  lemma InstallStepIn(t: Stage, buildDir: Path, p: Platform, name: string)
    requires name == TargetName(t)
    ensures InstallStep(t, buildDir, p)
            == if (t == Zlib || t == Png) && p != Windows then Run(["make", "install"], buildDir + "/" + name, None, false)
               else Run(CMakeInstall, buildDir + "/" + name + "/build", None, false)
  {
  }

  method ZlibTarget(h: Host, w: World, buildDir: Path, prefix: Path, p: Platform) returns (w': World)
    ensures StageOutcome(w, w', Zlib, InstallStep(Zlib, buildDir, p))
  {
    ghost var build := ZlibBuildSteps(h.environ, h.cpuCount, buildDir + "/" + ZlibName, prefix, p);
    InstallStepIn(Zlib, buildDir, p, ZlibName);
    assert build[|build| - 1] == InstallStep(Zlib, buildDir, p);
    w' := BuildZlib(h, w, buildDir, prefix, p);
    StageEndsWith(h, w, Zlib, ImageFetchSteps(w.fs, ZlibUrl, buildDir, ZlibName), build, InstallStep(Zlib, buildDir, p));
  }

  method PngTarget(h: Host, w: World, buildDir: Path, prefix: Path, p: Platform) returns (w': World)
    ensures StageOutcome(w, w', Png, InstallStep(Png, buildDir, p))
  {
    ghost var src := buildDir + "/" + PngName;
    ghost var fetchSteps := ImageFetchSteps(w.fs, PngUrl, buildDir, PngName);
    ghost var fetched := RunAll(h, w, Png, fetchSteps);
    ghost var build := PngBuildSteps(h.environ, h.cpuCount, src, prefix, p);
    InstallStepIn(Png, buildDir, p, PngName);
    assert build[|build| - 1] == InstallStep(Png, buildDir, p);
    w' := BuildLibpng(h, w, buildDir, prefix, p);
    StageEndsWith(h, fetched, Png, PngPatchSteps(fetched.fs, src, p), build, InstallStep(Png, buildDir, p));
    StageInPhases(h, w, Png, fetchSteps, w', InstallStep(Png, buildDir, p));
  }

  method JpegTarget(h: Host, w: World, buildDir: Path, prefix: Path, p: Platform) returns (w': World)
    ensures StageOutcome(w, w', Jpeg, InstallStep(Jpeg, buildDir, p))
  {
    w' := BuildLibjpeg(h, w, buildDir, prefix, p);
    InstallStepIn(Jpeg, buildDir, p, JpegName);
    CMakeBuildOutcome(h, w, Jpeg, ImageFetchSteps(w.fs, JpegUrl, buildDir, JpegName), buildDir + "/" + JpegName + "/build",
                      RenderAll(JpegArgs(prefix, p)), None);
  }

  method WebpTarget(h: Host, w: World, buildDir: Path, prefix: Path, p: Platform) returns (w': World)
    ensures StageOutcome(w, w', Webp, InstallStep(Webp, buildDir, p))
  {
    w' := BuildLibwebp(h, w, buildDir, prefix, p);
    InstallStepIn(Webp, buildDir, p, WebpName);
    CMakeBuildOutcome(h, w, Webp, ImageFetchSteps(w.fs, WebpUrl, buildDir, WebpName), buildDir + "/" + WebpName + "/build",
                      RenderAll(WebpArgs(prefix, p)), None);
  }

  method ImageTarget(h: Host, w: World, buildDir: Path, prefix: Path, p: Platform) returns (w': World)
    ensures StageOutcome(w, w', Image, InstallStep(Image, buildDir, p))
  {
    ghost var vendorSteps := VendoredSteps(w.fs, h.cwd + "/" + ImageName, buildDir + "/" + ImageName);
    ghost var copied := RunAll(h, w, Image, vendorSteps);
    ghost var check := ExitUnless(prefix in copied.fs);
    ghost var build := CMakeSteps(buildDir + "/" + ImageName + "/build", ImageCommand(prefix, p), Some(ImageEnv(h.environ, prefix)));
    w' := BuildSdlImage(h, w, buildDir, prefix, p);
    InstallStepIn(Image, buildDir, p, ImageName);
    StageEndsWith(h, copied, Image, check, build, InstallStep(Image, buildDir, p));
    StageInPhases(h, w, Image, vendorSteps, w', InstallStep(Image, buildDir, p));
  }



  /** zlib and libpng, the first two builds of `main`. */
  method ImageEarlyLibraries(h: Host, w: World, buildDir: Path, prefix: Path, p: Platform) returns (w': World)
    requires FailFast(w) && Ordered(w.trace, ImageRank) && UpTo(w.trace, ImageRank, ImageSetup)
    ensures FailFast(w')
    ensures Ordered(w'.trace, ImageRank) && UpTo(w'.trace, ImageRank, Png)
    ensures |w.trace| <= |w'.trace| && w'.trace[..|w.trace|] == w.trace
    ensures w'.status == Running ==> w.status == Running
    ensures w'.status == Running ==>
      Ran(w', Zlib, InstallStep(Zlib, buildDir, p)) && Ran(w', Png, InstallStep(Png, buildDir, p))
  {
    w' := ZlibTarget(h, w, buildDir, prefix, p);
    Advance(w, w', ImageSetup, Zlib, ImageRank);
    ghost var zlib := w';
    w' := PngTarget(h, w', buildDir, prefix, p);
    Advance(zlib, w', Zlib, Png, ImageRank);
    PrefixTrans(w, zlib, w');
    if w'.status == Running {
      ExtendsKeepsRan(zlib, w', Png, Zlib, InstallStep(Zlib, buildDir, p));
    }
  }

  /** libjpeg-turbo and libwebp, the next two builds of `main`. */
  method ImageLateLibraries(h: Host, w: World, buildDir: Path, prefix: Path, p: Platform) returns (w': World)
    requires FailFast(w) && Ordered(w.trace, ImageRank) && UpTo(w.trace, ImageRank, Png)
    ensures FailFast(w')
    ensures Ordered(w'.trace, ImageRank) && UpTo(w'.trace, ImageRank, Webp)
    ensures |w.trace| <= |w'.trace| && w'.trace[..|w.trace|] == w.trace
    ensures w'.status == Running ==> w.status == Running
    ensures w'.status == Running ==>
      Ran(w', Jpeg, InstallStep(Jpeg, buildDir, p)) && Ran(w', Webp, InstallStep(Webp, buildDir, p))
  {
    w' := JpegTarget(h, w, buildDir, prefix, p);
    Advance(w, w', Png, Jpeg, ImageRank);
    ghost var jpeg := w';
    w' := WebpTarget(h, w', buildDir, prefix, p);
    Advance(jpeg, w', Jpeg, Webp, ImageRank);
    PrefixTrans(w, jpeg, w');
    if w'.status == Running {
      ExtendsKeepsRan(jpeg, w', Webp, Jpeg, InstallStep(Jpeg, buildDir, p));
    }
  }

  /** The five `build_*` calls of `main`, in their fixed order.  The run
      stops at the first failure, the stages appear in that order in the
      trace, and a run that gets to the end has installed all five. */
  method ImageBuilds(h: Host, w: World, buildDir: Path, prefix: Path, p: Platform) returns (w': World)
    requires FailFast(w) && Ordered(w.trace, ImageRank) && UpTo(w.trace, ImageRank, ImageSetup)
    ensures FailFast(w')
    ensures Ordered(w'.trace, ImageRank) && UpTo(w'.trace, ImageRank, Image)
    ensures |w.trace| <= |w'.trace| && w'.trace[..|w.trace|] == w.trace
    ensures w'.status == Running ==> w.status == Running
    ensures w'.status == Running ==>
      Ran(w', Zlib, InstallStep(Zlib, buildDir, p)) && Ran(w', Png, InstallStep(Png, buildDir, p))
      && Ran(w', Jpeg, InstallStep(Jpeg, buildDir, p)) && Ran(w', Webp, InstallStep(Webp, buildDir, p))
      && Ran(w', Image, InstallStep(Image, buildDir, p))
  {
    w' := ImageEarlyLibraries(h, w, buildDir, prefix, p);
    ghost var early := w';
    w' := ImageLateLibraries(h, w', buildDir, prefix, p);
    ghost var late := w';
    w' := ImageTarget(h, w', buildDir, prefix, p);
    Advance(late, w', Webp, Image, ImageRank);
    PrefixTrans(early, late, w');
    PrefixTrans(w, early, w');
    if w'.status == Running {
      PrefixKeepsRan(early, w', Zlib, InstallStep(Zlib, buildDir, p));
      PrefixKeepsRan(early, w', Png, InstallStep(Png, buildDir, p));
      PrefixKeepsRan(late, w', Jpeg, InstallStep(Jpeg, buildDir, p));
      PrefixKeepsRan(late, w', Webp, InstallStep(Webp, buildDir, p));
    }
  }


  /** The directories `main` makes before any build: the build directory,
      the prefix and its `lib` and `include` directories. */
  method ImageDirectories(h: Host, fs: FileSystem, buildDir: Path, prefix: Path) returns (w: World)
    ensures FailFast(w) && Ordered(w.trace, ImageRank) && UpTo(w.trace, ImageRank, ImageSetup)
    ensures w.status == Running ==> Ran(w, ImageSetup, MakeDir(prefix + "/lib"))
  {
    var steps := [MakeDir(buildDir), MakeDir(prefix), MakeDir(prefix + "/lib"), MakeDir(prefix + "/include")];
    w := RunAll(h, World(fs, [], Running), ImageSetup, steps);
    FirstStage(h, fs, ImageSetup, steps, ImageRank);
    assert steps[2] == MakeDir(prefix + "/lib");
  }

  /** `main`: the directories, then the five builds. */
  method ImageMain(h: Host, fs: FileSystem) returns (w: World)
    ensures FailFast(w)
    ensures Ordered(w.trace, ImageRank) && UpTo(w.trace, ImageRank, Image)
    ensures w.status == Running ==>
      var p := GetPlatform(h.system);
      Ran(w, ImageSetup, MakeDir(ImagePrefix(h) + "/lib"))
      && Ran(w, Zlib, InstallStep(Zlib, ImageBuildDir(h), p)) && Ran(w, Png, InstallStep(Png, ImageBuildDir(h), p))
      && Ran(w, Jpeg, InstallStep(Jpeg, ImageBuildDir(h), p)) && Ran(w, Webp, InstallStep(Webp, ImageBuildDir(h), p))
      && Ran(w, Image, InstallStep(Image, ImageBuildDir(h), p))
  {
    var p := GetPlatform(h.system);
    var buildDir := ImageBuildDir(h);
    var prefix := ImagePrefix(h);
    w := ImageDirectories(h, fs, buildDir, prefix);
    ghost var setup := w;
    w := ImageBuilds(h, w, buildDir, prefix, p);
    if w.status == Running {
      PrefixKeepsRan(setup, w, ImageSetup, MakeDir(prefix + "/lib"));
    }
  }

}
