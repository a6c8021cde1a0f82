/** build_sdl_mixer.py: SDL_mixer with its four codec libraries (libogg,
    libvorbis, FLAC, mpg123), all installed into one prefix in a fixed
    order, every failing step ending the script. */
module SdlMixer {
  import opened Text
  import opened Steps
  import opened Flags
  import opened Platforms
  import opened Recipes

  const OggName := "libogg-1.3.5"
  const OggUrl := "https://downloads.xiph.org/releases/ogg/libogg-1.3.5.tar.gz"
  const VorbisName := "libvorbis-1.3.7"
  const VorbisUrl := "https://downloads.xiph.org/releases/vorbis/libvorbis-1.3.7.tar.gz"
  const FlacName := "flac-1.4.3"
  const FlacUrl := "https://downloads.xiph.org/releases/flac/flac-1.4.3.tar.xz"
  const Mpg123Name := "mpg123-1.32.10"
  const Mpg123Url := "https://sourceforge.net/projects/mpg123/files/mpg123/1.32.10/mpg123-1.32.10.tar.bz2"
  /** The SDL_mixer tree kept in the repository instead of downloaded. */
  const MixerName := "SDL2_mixer-2.8.0"

  // ---------------------------------------------------------------------
  // Archives

  /** No name ends in two of the four suffixes `extract_archive` knows. */
  lemma SuffixesExclusive(s: string)
    ensures !(EndsWith(s, ".tar.gz") && EndsWith(s, ".tar.xz"))
    ensures !(EndsWith(s, ".tar.gz") && EndsWith(s, ".tar.bz2"))
    ensures !(EndsWith(s, ".tar.gz") && EndsWith(s, ".zip"))
    ensures !(EndsWith(s, ".tar.xz") && EndsWith(s, ".tar.bz2"))
    ensures !(EndsWith(s, ".tar.xz") && EndsWith(s, ".zip"))
    ensures !(EndsWith(s, ".tar.bz2") && EndsWith(s, ".zip"))
  {
    EndsWithDiffer(s, ".tar.gz", ".tar.xz", 1);
    EndsWithDiffer(s, ".tar.gz", ".tar.bz2", 0);
    EndsWithDiffer(s, ".tar.gz", ".zip", 0);
    EndsWithDiffer(s, ".tar.xz", ".tar.bz2", 0);
    EndsWithDiffer(s, ".tar.xz", ".zip", 0);
    EndsWithDiffer(s, ".tar.bz2", ".zip", 0);
  }

  /** `extract_archive`: the suffix picks exactly one reader; any other name
      is not unpacked at all. */
  function Extractor(archive: string): (f: Option<Format>)
    ensures f == Some(TarGz) <==> EndsWith(archive, ".tar.gz")
    ensures f == Some(TarXz) <==> EndsWith(archive, ".tar.xz")
    ensures f == Some(TarBz2) <==> EndsWith(archive, ".tar.bz2")
    ensures f == Some(Zip) <==> EndsWith(archive, ".zip")
    ensures f == None <==> !EndsWith(archive, ".tar.gz") && !EndsWith(archive, ".tar.xz")
                           && !EndsWith(archive, ".tar.bz2") && !EndsWith(archive, ".zip")
  {
    SuffixesExclusive(archive);
    if EndsWith(archive, ".tar.gz") then Some(TarGz)
    else if EndsWith(archive, ".tar.xz") then Some(TarXz)
    else if EndsWith(archive, ".tar.bz2") then Some(TarBz2)
    else if EndsWith(archive, ".zip") then Some(Zip)
    else None
  }

  /** `<build_dir>/<name><suffix>` is fetched and unpacked into the build
      directory, where it becomes `<build_dir>/<name>`. */
  function FetchSteps(fs: FileSystem, url: string, buildDir: Path, name: string, suffix: string): seq<Action> {
    var archive := buildDir + "/" + name + suffix;
    AcquireSteps(fs, url, archive, buildDir + "/" + name, buildDir, Extractor(archive))
  }

  method Fetch(h: Host, w: World, s: Stage, url: string, buildDir: Path, name: string, suffix: string)
    returns (w': World)
    ensures w' == RunAll(h, w, s, FetchSteps(w.fs, url, buildDir, name, suffix))
  {
    var archive := buildDir + "/" + name + suffix;
    w' := Acquire(h, w, s, url, archive, buildDir + "/" + name, buildDir, Extractor(archive));
  }

  // ---------------------------------------------------------------------
  // Configure arguments

  function OggArgs(prefix: Path, p: Platform): seq<Arg> {
    [Word("cmake"), Word(".."),
     Define("-DCMAKE_INSTALL_PREFIX", prefix),
     Define("-DBUILD_SHARED_LIBS", "OFF"),
     Define("-DCMAKE_BUILD_TYPE", "Release"),
     Define("-DCMAKE_POLICY_VERSION_MINIMUM", "3.5"),
     Define("-DCMAKE_POSITION_INDEPENDENT_CODE", "ON")]
    + PlatformCMakeArgs(p)
  }

  function VorbisArgs(prefix: Path, p: Platform): seq<Arg> {
    [Word("cmake"), Word(".."),
     Define("-DCMAKE_INSTALL_PREFIX", prefix),
     Define("-DOGG_ROOT", prefix),
     Define("-DBUILD_SHARED_LIBS", "OFF"),
     Define("-DCMAKE_BUILD_TYPE", "Release"),
     Define("-DCMAKE_POLICY_VERSION_MINIMUM", "3.5"),
     Define("-DCMAKE_POSITION_INDEPENDENT_CODE", "ON")]
    + PlatformCMakeArgs(p)
  }

  function FlacArgs(prefix: Path, p: Platform): seq<Arg> {
    [Word("cmake"), Word(".."),
     Define("-DCMAKE_INSTALL_PREFIX", prefix),
     Define("-DOGG_ROOT", prefix),
     Define("-DBUILD_SHARED_LIBS", "OFF"),
     Define("-DBUILD_PROGRAMS", "OFF"),
     Define("-DBUILD_EXAMPLES", "OFF"),
     Define("-DBUILD_TESTING", "OFF"),
     Define("-DBUILD_DOCS", "OFF"),
     Define("-DINSTALL_MANPAGES", "OFF"),
     Define("-DWITH_OGG", "ON"),
     Define("-DCMAKE_BUILD_TYPE", "Release"),
     Define("-DCMAKE_POLICY_VERSION_MINIMUM", "3.5"),
     Define("-DCMAKE_POSITION_INDEPENDENT_CODE", "ON")]
    + PlatformCMakeArgs(p)
  }

  /** mpg123 on Windows: CMake, always with the Visual Studio generator. */
  function Mpg123CMakeArgs(prefix: Path): seq<Arg> {
    [Word("cmake"), Word(".."),
     Define("-DCMAKE_INSTALL_PREFIX", prefix),
     Define("-DBUILD_SHARED_LIBS", "OFF"),
     Define("-DCMAKE_BUILD_TYPE", "Release"),
     Define("-DCMAKE_POLICY_VERSION_MINIMUM", "3.5"),
     Word("-G"), Word("Visual Studio 17 2022"), Word("-A"), Word("x64")]
  }

  /** mpg123 elsewhere: autotools, cross-compiling for Apple silicon on macOS. */
  function Mpg123ConfigureArgs(prefix: Path, p: Platform): seq<Arg> {
    [Word("./configure"),
     Define("--prefix", prefix),
     Word("--enable-static"),
     Word("--disable-shared"),
     Define("--with-audio", "dummy"),
     Define("--enable-int-quality", "yes"),
     Word("--with-pic")]
    + (if p == MacOS then [Define("--host", "aarch64-apple-darwin")] else [])
  }

  /** The options every SDL_mixer build passes; the SDL2 prefix is the
      install prefix itself. */
  function MixerBaseArgs(prefix: Path): seq<Arg> {
    [Word("cmake"), Word(".."),
     Define("-DCMAKE_INSTALL_PREFIX", prefix),
     Define("-DCMAKE_PREFIX_PATH", prefix + ";" + prefix),
     Define("-DSDL2_DIR", prefix + "/lib/cmake/SDL2"),
     Define("-DSDL2MIXER_SAMPLES", "OFF"),
     Define("-DSDL2MIXER_INSTALL_TEST", "OFF"),
     Define("-DBUILD_SHARED_LIBS", "ON"),
     Define("-DSDL2MIXER_DEPS_SHARED", "OFF"),
     Define("-DSDL2MIXER_VENDORED", "OFF"),
     Define("-DSDL2MIXER_WAV", "ON"),
     Define("-DSDL2MIXER_OGG", "ON"),
     Define("-DSDL2MIXER_OGG_SHARED", "OFF"),
     Define("-DSDL2MIXER_FLAC", "ON"),
     Define("-DSDL2MIXER_FLAC_LIBFLAC", "ON"),
     Define("-DSDL2MIXER_FLAC_LIBFLAC_SHARED", "OFF"),
     Define("-DSDL2MIXER_MOD", "OFF"),
     Define("-DSDL2MIXER_MIDI", "OFF"),
     Define("-DSDL2MIXER_OPUS", "OFF"),
     Define("-DSDL2MIXER_WAVPACK", "OFF"),
     Define("-DOGG_LIBRARY", prefix + "/lib/libogg.a"),
     Define("-DOGG_INCLUDE_DIR", prefix + "/include"),
     Define("-DVORBIS_LIBRARY", prefix + "/lib/libvorbis.a"),
     Define("-DVORBISFILE_LIBRARY", prefix + "/lib/libvorbisfile.a"),
     Define("-DVORBIS_INCLUDE_DIR", prefix + "/include"),
     Define("-DFLAC_LIBRARY", prefix + "/lib/libFLAC.a"),
     Define("-DFLAC_INCLUDE_DIR", prefix + "/include"),
     Define("-DCMAKE_BUILD_TYPE", "Release")]
  }

  /** The MP3 options, switched by whether mpg123 was found. */
  function Mp3Args(prefix: Path, hasMpg123: bool): seq<Arg> {
    if hasMpg123 then
      [Define("-DSDL2MIXER_MP3", "ON"),
       Define("-DSDL2MIXER_MP3_MPG123", "ON"),
       Define("-DSDL2MIXER_MP3_MPG123_SHARED", "OFF"),
       Define("-DMPG123_LIBRARY", prefix + "/lib/libmpg123.a"),
       Define("-DMPG123_INCLUDE_DIR", prefix + "/include")]
    else [Define("-DSDL2MIXER_MP3", "OFF")]
  }

  function MixerPlatformArgs(p: Platform): seq<Arg> {
    match p
    case Windows =>
      [Word("-G"), Word("Visual Studio 17 2022"), Word("-A"), Word("x64"),
       Define("-DCMAKE_C_FLAGS", "/DFLAC__NO_DLL"),
       Define("-DCMAKE_CXX_FLAGS", "/DFLAC__NO_DLL")]
    case MacOS =>
      [Define("-DCMAKE_OSX_ARCHITECTURES", "arm64"),
       Define("-DCMAKE_OSX_DEPLOYMENT_TARGET", "11.0")]
    case Linux => []
  }

  function MixerArgs(prefix: Path, p: Platform, hasMpg123: bool): seq<Arg> {
    MixerBaseArgs(prefix) + Mp3Args(prefix, hasMpg123) + MixerPlatformArgs(p)
  }

  /** The Windows `.lib` names; the mpg123 branch only applies when mpg123
      was found. */
  function MixerWindowsRules(prefix: Path, hasMpg123: bool): seq<Rule> {
    [Rule("-DOGG_LIBRARY", prefix + "/lib/ogg.lib"),
     Rule("-DVORBIS_LIBRARY", prefix + "/lib/vorbis.lib"),
     Rule("-DVORBISFILE_LIBRARY", prefix + "/lib/vorbisfile.lib"),
     Rule("-DFLAC_LIBRARY", prefix + "/lib/FLAC.lib;" + prefix + "/lib/ogg.lib")]
    + (if hasMpg123 then [Rule("-DMPG123_LIBRARY", prefix + "/lib/mpg123.lib")] else [])
  }

  /** The configure command as finally handed to CMake. */
  function MixerCommand(prefix: Path, p: Platform, hasMpg123: bool): seq<string> {
    var argv := RenderAll(MixerArgs(prefix, p, hasMpg123));
    if p == Windows then RewriteAll(argv, MixerWindowsRules(prefix, hasMpg123)) else argv
  }

  /** The MP3 probe: a static mpg123 library, Unix or Windows style, sits in
      the prefix. */
  predicate HasMpg123(fs: FileSystem, prefix: Path) {
    prefix + "/lib/libmpg123.a" in fs || prefix + "/lib/mpg123.lib" in fs
  }

  /** The environment of SDL_mixer's configure step: the caller's, with the
      pkg-config path and the compiler flags pointed at the prefix. */
  function MixerEnv(environ: Env, prefix: Path, p: Platform): (env: Env)
    ensures "PKG_CONFIG_PATH" in env && "CFLAGS" in env
    ensures env["PKG_CONFIG_PATH"] == prefix + "/lib/pkgconfig:" + prefix + "/lib/pkgconfig"
    ensures p == Windows ==> "CXXFLAGS" in env && env["CFLAGS"] == "/DFLAC__NO_DLL" && env["CXXFLAGS"] == "/DFLAC__NO_DLL"
    ensures p != Windows ==> env["CFLAGS"] == "-I" + prefix + "/include -I" + prefix + "/include"
    ensures p != Windows ==> "LDFLAGS" in env && env["LDFLAGS"] == "-L" + prefix + "/lib -L" + prefix + "/lib"
    ensures forall k :: k in environ ==> k in env
    ensures forall k :: k in env && k !in environ ==> k in {"PKG_CONFIG_PATH", "CFLAGS", "CXXFLAGS", "LDFLAGS"}
    ensures forall k :: k in environ && k !in {"PKG_CONFIG_PATH", "CFLAGS", "CXXFLAGS", "LDFLAGS"} ==> env[k] == environ[k]
    ensures p == Windows && "LDFLAGS" in environ ==> env["LDFLAGS"] == environ["LDFLAGS"]
    ensures p != Windows && "CXXFLAGS" in environ ==> env["CXXFLAGS"] == environ["CXXFLAGS"]
  {
    var env := environ["PKG_CONFIG_PATH" := prefix + "/lib/pkgconfig:" + prefix + "/lib/pkgconfig"];
    if p == Windows then
      env["CFLAGS" := "/DFLAC__NO_DLL"]["CXXFLAGS" := "/DFLAC__NO_DLL"]
    else
      env["CFLAGS" := "-I" + prefix + "/include -I" + prefix + "/include"]
         ["LDFLAGS" := "-L" + prefix + "/lib -L" + prefix + "/lib"]
  }

  // ---------------------------------------------------------------------
  // Properties of the configure line

  /** Where the MP3 options sit in SDL_mixer's argument list. */
  const Mp3At := 28
  const Mpg123LibraryAt := 31
  const FlacLibraryAt := 25

  lemma MixerBaseShape(prefix: Path)
    ensures |MixerBaseArgs(prefix)| == Mp3At
    ensures !Mentions(MixerBaseArgs(prefix), {"-DSDL2MIXER_MP3", "-DMPG123_LIBRARY", "-DMPG123_INCLUDE_DIR"})
    ensures MixerBaseArgs(prefix)[20] == Define("-DOGG_LIBRARY", prefix + "/lib/libogg.a")
    ensures MixerBaseArgs(prefix)[22] == Define("-DVORBIS_LIBRARY", prefix + "/lib/libvorbis.a")
    ensures MixerBaseArgs(prefix)[23] == Define("-DVORBISFILE_LIBRARY", prefix + "/lib/libvorbisfile.a")
    ensures MixerBaseArgs(prefix)[FlacLibraryAt] == Define("-DFLAC_LIBRARY", prefix + "/lib/libFLAC.a")
  {
  }

  lemma MixerPlatformShape(p: Platform)
    ensures !Mentions(MixerPlatformArgs(p), {"-DSDL2MIXER_MP3", "-DMPG123_LIBRARY", "-DMPG123_INCLUDE_DIR"})
  {
  }

  /** MP3 gating: the MP3 switch is passed, "ON" exactly when mpg123 was
      found and "OFF" otherwise, and the mpg123 library is named exactly
      when it was found. */
  lemma MixerMp3Gating(prefix: Path, p: Platform, has: bool)
    ensures var args := MixerArgs(prefix, p, has);
            Define("-DSDL2MIXER_MP3", if has then "ON" else "OFF") in args
            && (forall i :: 0 <= i < |args| && args[i].Define? && args[i].key == "-DSDL2MIXER_MP3" ==>
                  args[i].value == (if has then "ON" else "OFF"))
            && (Mentions(args, {"-DMPG123_LIBRARY"}) <==> has)
            && (has ==> Define("-DMPG123_LIBRARY", prefix + "/lib/libmpg123.a") in args)
  {
    var base, mp3, plat := MixerBaseArgs(prefix), Mp3Args(prefix, has), MixerPlatformArgs(p);
    var args := MixerArgs(prefix, p, has);
    MixerBaseShape(prefix);
    MixerPlatformShape(p);
    assert args == base + mp3 + plat;
    assert args[Mp3At] == mp3[0];
    assert forall i :: 0 <= i < Mp3At ==> args[i] == base[i];
    assert forall i :: Mp3At <= i < Mp3At + |mp3| ==> args[i] == mp3[i - Mp3At];
    assert forall i :: Mp3At + |mp3| <= i < |args| ==> args[i] == plat[i - Mp3At - |mp3|];
    if has {
      assert args[Mpg123LibraryAt] == mp3[3];
    }
  }

  /** The five library keys of the Windows rules: `=`-free and distinct. */
  lemma MixerLibraryKeys()
    ensures '=' !in "-DOGG_LIBRARY" && '=' !in "-DVORBIS_LIBRARY" && '=' !in "-DVORBISFILE_LIBRARY"
            && '=' !in "-DFLAC_LIBRARY" && '=' !in "-DMPG123_LIBRARY"
    ensures "-DOGG_LIBRARY" != "-DVORBIS_LIBRARY" && "-DOGG_LIBRARY" != "-DVORBISFILE_LIBRARY"
            && "-DOGG_LIBRARY" != "-DFLAC_LIBRARY" && "-DOGG_LIBRARY" != "-DMPG123_LIBRARY"
            && "-DVORBIS_LIBRARY" != "-DVORBISFILE_LIBRARY" && "-DVORBIS_LIBRARY" != "-DFLAC_LIBRARY"
            && "-DVORBIS_LIBRARY" != "-DMPG123_LIBRARY" && "-DVORBISFILE_LIBRARY" != "-DFLAC_LIBRARY"
            && "-DVORBISFILE_LIBRARY" != "-DMPG123_LIBRARY" && "-DFLAC_LIBRARY" != "-DMPG123_LIBRARY"
  {
  }

  /** The Windows rules name five distinct `=`-free keys (four without mpg123). */
  lemma MixerWindowsRulesDistinct(prefix: Path, has: bool)
    ensures DistinctKeys(MixerWindowsRules(prefix, has))
  {
    var rules := MixerWindowsRules(prefix, has);
    MixerLibraryKeys();
    assert rules[0].key == "-DOGG_LIBRARY" && rules[1].key == "-DVORBIS_LIBRARY";
    assert rules[2].key == "-DVORBISFILE_LIBRARY" && rules[3].key == "-DFLAC_LIBRARY";
    assert has ==> rules[4].key == "-DMPG123_LIBRARY";
  }

  /** The Windows rewrite of SDL_mixer's command keeps its length and
      changes only entries that define one of the rule keys. */
  lemma MixerWindowsRewriteLocal(prefix: Path, has: bool)
    ensures var argv := RenderAll(MixerArgs(prefix, Windows, has));
            var rules := MixerWindowsRules(prefix, has);
            var cmd := MixerCommand(prefix, Windows, has);
            |cmd| == |argv|
            && forall i :: 0 <= i < |cmd| ==> cmd[i] == argv[i] || exists j :: 0 <= j < |rules| && HasKey(argv[i], rules[j].key)
  {
    var argv := RenderAll(MixerArgs(prefix, Windows, has));
    var rules := MixerWindowsRules(prefix, has);
    forall i | 0 <= i < |argv|
      ensures RewriteAll(argv, rules)[i] == argv[i] || exists j :: 0 <= j < |rules| && HasKey(argv[i], rules[j].key)
    {
      RewriteChangesOnlyMatched(argv, rules, i);
    }
  }

  /** An argument defining rule `j`'s key ends up with rule `j`'s value. */
  lemma MixerWindowsHit(prefix: Path, has: bool, i: nat, j: nat, v: string)
    requires i < |MixerArgs(prefix, Windows, has)| && j < |MixerWindowsRules(prefix, has)|
    requires MixerArgs(prefix, Windows, has)[i] == Define(MixerWindowsRules(prefix, has)[j].key, v)
    ensures var rule := MixerWindowsRules(prefix, has)[j];
            MixerCommand(prefix, Windows, has)[i] == Render(Define(rule.key, rule.value))
  {
    MixerWindowsRulesDistinct(prefix, has);
    RewriteHitsArg(v, MixerWindowsRules(prefix, has), j);
  }

  /** On Windows the four codec libraries (and mpg123's, when found) point
      at the `.lib` files; FLAC's entry also names ogg.lib. */
  lemma MixerWindowsLibraries(prefix: Path, has: bool)
    ensures var cmd := MixerCommand(prefix, Windows, has);
            |cmd| > Mpg123LibraryAt
            && cmd[20] == Render(Define("-DOGG_LIBRARY", prefix + "/lib/ogg.lib"))
            && cmd[22] == Render(Define("-DVORBIS_LIBRARY", prefix + "/lib/vorbis.lib"))
            && cmd[23] == Render(Define("-DVORBISFILE_LIBRARY", prefix + "/lib/vorbisfile.lib"))
            && cmd[FlacLibraryAt] == Render(Define("-DFLAC_LIBRARY", prefix + "/lib/FLAC.lib;" + prefix + "/lib/ogg.lib"))
            && (has ==> cmd[Mpg123LibraryAt] == Render(Define("-DMPG123_LIBRARY", prefix + "/lib/mpg123.lib")))
  {
    var base, mp3 := MixerBaseArgs(prefix), Mp3Args(prefix, has);
    var args := MixerArgs(prefix, Windows, has);
    MixerBaseShape(prefix);
    assert args == base + mp3 + MixerPlatformArgs(Windows);
    assert args[20] == base[20] && args[22] == base[22] && args[23] == base[23] && args[FlacLibraryAt] == base[FlacLibraryAt];
    MixerWindowsHit(prefix, has, 20, 0, prefix + "/lib/libogg.a");
    MixerWindowsHit(prefix, has, 22, 1, prefix + "/lib/libvorbis.a");
    MixerWindowsHit(prefix, has, 23, 2, prefix + "/lib/libvorbisfile.a");
    MixerWindowsHit(prefix, has, FlacLibraryAt, 3, prefix + "/lib/libFLAC.a");
    if has {
      assert args[Mpg123LibraryAt] == mp3[3];
      MixerWindowsHit(prefix, has, Mpg123LibraryAt, 4, prefix + "/lib/libmpg123.a");
    }
  }

  /** An argument that defines no rule key is left alone by the Windows
      rewrite. */
  lemma MixerWindowsMiss(prefix: Path, has: bool, i: nat)
    requires i < |MixerArgs(prefix, Windows, has)|
    requires var a := MixerArgs(prefix, Windows, has)[i];
             WellFormed(a) && !(a.Define? && a.key in {"-DOGG_LIBRARY", "-DVORBIS_LIBRARY", "-DVORBISFILE_LIBRARY", "-DFLAC_LIBRARY", "-DMPG123_LIBRARY"})
    ensures MixerCommand(prefix, Windows, has)[i] == Render(MixerArgs(prefix, Windows, has)[i])
  {
    var rules := MixerWindowsRules(prefix, has);
    assert forall j :: 0 <= j < |rules| ==>
      rules[j].key in {"-DOGG_LIBRARY", "-DVORBIS_LIBRARY", "-DVORBISFILE_LIBRARY", "-DFLAC_LIBRARY", "-DMPG123_LIBRARY"};
    MixerWindowsRulesDistinct(prefix, has);
    RewriteSkipsArg(MixerArgs(prefix, Windows, has)[i], rules);
  }

  /** In the command finally handed to CMake, on every platform, the MP3
      switch reads "ON" exactly when mpg123 was found. */
  lemma MixerCommandMp3(prefix: Path, p: Platform, has: bool)
    ensures var cmd := MixerCommand(prefix, p, has);
            |cmd| > Mp3At && cmd[Mp3At] == Render(Define("-DSDL2MIXER_MP3", if has then "ON" else "OFF"))
  {
    var args := MixerArgs(prefix, p, has);
    assert |MixerBaseArgs(prefix)| == Mp3At;
    assert args[Mp3At] == Mp3Args(prefix, has)[0];
    if p == Windows {
      assert '=' !in "-DSDL2MIXER_MP3";
      MixerWindowsMiss(prefix, has, Mp3At);
    }
  }

  /** The keys through which a configure line refers to what target `d`
      installed into the prefix. */
  function DependencyKeys(d: Stage): set<string> {
    match d
    case Ogg => {"-DOGG_ROOT", "-DOGG_LIBRARY", "-DOGG_INCLUDE_DIR"}
    case Vorbis => {"-DVORBIS_LIBRARY", "-DVORBISFILE_LIBRARY", "-DVORBIS_INCLUDE_DIR"}
    case Flac => {"-DFLAC_LIBRARY", "-DFLAC_INCLUDE_DIR"}
    case Mpg123 => {"-DMPG123_LIBRARY", "-DMPG123_INCLUDE_DIR"}
    case _ => {}
  }

  /** The configure arguments of each target `main` builds. */
  function TargetArgs(t: Stage, prefix: Path, p: Platform, has: bool): seq<Arg> {
    match t
    case Ogg => OggArgs(prefix, p)
    case Vorbis => VorbisArgs(prefix, p)
    case Flac => FlacArgs(prefix, p)
    case Mpg123 => if p == Windows then Mpg123CMakeArgs(prefix) else Mpg123ConfigureArgs(prefix, p)
    case Mixer => MixerArgs(prefix, p, has)
    case _ => []
  }

  lemma PlatformArgsNoDependency(p: Platform, d: Stage)
    ensures !Mentions(PlatformCMakeArgs(p), DependencyKeys(d))
  {
  }

  lemma OggArgsNoDependency(prefix: Path, p: Platform, d: Stage)
    ensures !Mentions(OggArgs(prefix, p), DependencyKeys(d))
  {
    var own := [Word("cmake"), Word(".."),
     Define("-DCMAKE_INSTALL_PREFIX", prefix),
     Define("-DBUILD_SHARED_LIBS", "OFF"),
     Define("-DCMAKE_BUILD_TYPE", "Release"),
     Define("-DCMAKE_POLICY_VERSION_MINIMUM", "3.5"),
     Define("-DCMAKE_POSITION_INDEPENDENT_CODE", "ON")];
    MentionsAppend(own, PlatformCMakeArgs(p), DependencyKeys(d));
    PlatformArgsNoDependency(p, d);
  }

  /** libvorbis refers to libogg only. */
  lemma VorbisArgsDependencies(prefix: Path, p: Platform, d: Stage)
    ensures Mentions(VorbisArgs(prefix, p), DependencyKeys(d)) <==> d == Ogg
  {
    var own := [Word("cmake"), Word(".."),
     Define("-DCMAKE_INSTALL_PREFIX", prefix),
     Define("-DOGG_ROOT", prefix),
     Define("-DBUILD_SHARED_LIBS", "OFF"),
     Define("-DCMAKE_BUILD_TYPE", "Release"),
     Define("-DCMAKE_POLICY_VERSION_MINIMUM", "3.5"),
     Define("-DCMAKE_POSITION_INDEPENDENT_CODE", "ON")];
    MentionsAppend(own, PlatformCMakeArgs(p), DependencyKeys(d));
    PlatformArgsNoDependency(p, d);
    assert own[3].key in DependencyKeys(Ogg);
  }

  /** FLAC refers to libogg only. */
  lemma FlacArgsDependencies(prefix: Path, p: Platform, d: Stage)
    ensures Mentions(FlacArgs(prefix, p), DependencyKeys(d)) <==> d == Ogg
  {
    var own := [Word("cmake"), Word(".."),
     Define("-DCMAKE_INSTALL_PREFIX", prefix),
     Define("-DOGG_ROOT", prefix),
     Define("-DBUILD_SHARED_LIBS", "OFF"),
     Define("-DBUILD_PROGRAMS", "OFF"),
     Define("-DBUILD_EXAMPLES", "OFF"),
     Define("-DBUILD_TESTING", "OFF"),
     Define("-DBUILD_DOCS", "OFF"),
     Define("-DINSTALL_MANPAGES", "OFF"),
     Define("-DWITH_OGG", "ON"),
     Define("-DCMAKE_BUILD_TYPE", "Release"),
     Define("-DCMAKE_POLICY_VERSION_MINIMUM", "3.5"),
     Define("-DCMAKE_POSITION_INDEPENDENT_CODE", "ON")];
    MentionsAppend(own, PlatformCMakeArgs(p), DependencyKeys(d));
    PlatformArgsNoDependency(p, d);
    assert own[3].key in DependencyKeys(Ogg);
  }

  /** mpg123 refers to none of the other targets. */
  lemma Mpg123ArgsNoDependency(prefix: Path, p: Platform, d: Stage)
    ensures !Mentions(Mpg123CMakeArgs(prefix), DependencyKeys(d))
    ensures !Mentions(Mpg123ConfigureArgs(prefix, p), DependencyKeys(d))
  {
  }

  /** SDL_mixer refers to libogg, libvorbis and FLAC always, and to mpg123
      exactly when it was found. */
  lemma MixerArgsDependencies(prefix: Path, p: Platform, has: bool)
    ensures Mentions(MixerArgs(prefix, p, has), DependencyKeys(Ogg))
    ensures Mentions(MixerArgs(prefix, p, has), DependencyKeys(Vorbis))
    ensures Mentions(MixerArgs(prefix, p, has), DependencyKeys(Flac))
    ensures Mentions(MixerArgs(prefix, p, has), DependencyKeys(Mpg123)) <==> has
  {
    var base, mp3, plat := MixerBaseArgs(prefix), Mp3Args(prefix, has), MixerPlatformArgs(p);
    MixerBaseShape(prefix);
    MixerPlatformShape(p);
    assert base[20].key in DependencyKeys(Ogg);
    assert base[22].key in DependencyKeys(Vorbis);
    assert base[FlacLibraryAt].key in DependencyKeys(Flac);
    MentionsAppend(base, mp3, DependencyKeys(Ogg));
    MentionsAppend(base + mp3, plat, DependencyKeys(Ogg));
    MentionsAppend(base, mp3, DependencyKeys(Vorbis));
    MentionsAppend(base + mp3, plat, DependencyKeys(Vorbis));
    MentionsAppend(base, mp3, DependencyKeys(Flac));
    MentionsAppend(base + mp3, plat, DependencyKeys(Flac));
    MentionsAppend(base, mp3, DependencyKeys(Mpg123));
    MentionsAppend(base + mp3, plat, DependencyKeys(Mpg123));
    if has {
      assert mp3[3].key in DependencyKeys(Mpg123);
    }
  }

  /** The fixed order of `main` puts every target before each target whose
      configure line refers to it. */
  lemma MixerDependenciesFirst(t: Stage, d: Stage, prefix: Path, p: Platform, has: bool)
    ensures Mentions(TargetArgs(t, prefix, p, has), DependencyKeys(d)) ==> MixerRank(d) < MixerRank(t)
  {
    match t {
      case Ogg => OggArgsNoDependency(prefix, p, d);
      case Vorbis => VorbisArgsDependencies(prefix, p, d);
      case Flac => FlacArgsDependencies(prefix, p, d);
      case Mpg123 => Mpg123ArgsNoDependency(prefix, p, d);
      case Mixer =>
        if d == Mixer {
          assert DependencyKeys(d) == {};
        }
      case _ =>
    }
  }

  // ---------------------------------------------------------------------
  // Build plans

  function OggSteps(fs: FileSystem, buildDir: Path, prefix: Path, p: Platform): seq<Action> {
    FetchSteps(fs, OggUrl, buildDir, OggName, ".tar.gz")
    + CMakeSteps(buildDir + "/" + OggName + "/build", RenderAll(OggArgs(prefix, p)), None)
  }

  function VorbisSteps(fs: FileSystem, buildDir: Path, prefix: Path, p: Platform): seq<Action> {
    FetchSteps(fs, VorbisUrl, buildDir, VorbisName, ".tar.gz")
    + CMakeSteps(buildDir + "/" + VorbisName + "/build", RenderAll(VorbisArgs(prefix, p)), None)
  }

  /** FLAC's configure step alone sees PKG_CONFIG_PATH set to the prefix. */
  function FlacSteps(fs: FileSystem, environ: Env, buildDir: Path, prefix: Path, p: Platform): seq<Action> {
    FetchSteps(fs, FlacUrl, buildDir, FlacName, ".tar.xz")
    + CMakeSteps(buildDir + "/" + FlacName + "/build", RenderAll(FlacArgs(prefix, p)),
                 Some(environ["PKG_CONFIG_PATH" := prefix + "/lib/pkgconfig"]))
  }

  /** What mpg123 does once its tree is unpacked: on Windows a CMake build
      only when the tree has a CMakeLists.txt, and otherwise nothing; on the
      other platforms configure and make in the tree itself. */
  function Mpg123BuildSteps(fs: FileSystem, cpu: Option<nat>, src: Path, prefix: Path, p: Platform): seq<Action> {
    if p == Windows then
      if src + "/CMakeLists.txt" in fs then CMakeSteps(src + "/build", RenderAll(Mpg123CMakeArgs(prefix)), None)
      else []
    else MakeSteps(src, RenderAll(Mpg123ConfigureArgs(prefix, p)), None, cpu)
  }

  /** The prefix must exist (else exit 1); then the CMake build with the MP3
      options the probe selects. */
  function MixerBuildSteps(fs: FileSystem, environ: Env, src: Path, prefix: Path, p: Platform): seq<Action> {
    ExitUnless(prefix in fs)
    + CMakeSteps(src + "/build", MixerCommand(prefix, p, HasMpg123(fs, prefix)), Some(MixerEnv(environ, prefix, p)))
  }

  // ---------------------------------------------------------------------
  // The build functions

  method BuildLibogg(h: Host, w: World, buildDir: Path, prefix: Path, p: Platform) returns (w': World)
    ensures w' == RunAll(h, w, Ogg, OggSteps(w.fs, buildDir, prefix, p))
  {
    w' := Fetch(h, w, Ogg, OggUrl, buildDir, OggName, ".tar.gz");
    var fetched := w';
    w' := RunCMake(h, w', Ogg, buildDir + "/" + OggName + "/build", RenderAll(OggArgs(prefix, p)), None);
    RunAllAppend(h, w, Ogg, FetchSteps(w.fs, OggUrl, buildDir, OggName, ".tar.gz"),
                 CMakeSteps(buildDir + "/" + OggName + "/build", RenderAll(OggArgs(prefix, p)), None));
  }

  method BuildLibvorbis(h: Host, w: World, buildDir: Path, prefix: Path, p: Platform) returns (w': World)
    ensures w' == RunAll(h, w, Vorbis, VorbisSteps(w.fs, buildDir, prefix, p))
  {
    w' := Fetch(h, w, Vorbis, VorbisUrl, buildDir, VorbisName, ".tar.gz");
    w' := RunCMake(h, w', Vorbis, buildDir + "/" + VorbisName + "/build", RenderAll(VorbisArgs(prefix, p)), None);
    RunAllAppend(h, w, Vorbis, FetchSteps(w.fs, VorbisUrl, buildDir, VorbisName, ".tar.gz"),
                 CMakeSteps(buildDir + "/" + VorbisName + "/build", RenderAll(VorbisArgs(prefix, p)), None));
  }

  method BuildFlac(h: Host, w: World, buildDir: Path, prefix: Path, p: Platform) returns (w': World)
    ensures w' == RunAll(h, w, Flac, FlacSteps(w.fs, h.environ, buildDir, prefix, p))
  {
    w' := Fetch(h, w, Flac, FlacUrl, buildDir, FlacName, ".tar.xz");
    var env := h.environ;
    env := env["PKG_CONFIG_PATH" := prefix + "/lib/pkgconfig"];
    w' := RunCMake(h, w', Flac, buildDir + "/" + FlacName + "/build", RenderAll(FlacArgs(prefix, p)), Some(env));
    RunAllAppend(h, w, Flac, FetchSteps(w.fs, FlacUrl, buildDir, FlacName, ".tar.xz"),
                 CMakeSteps(buildDir + "/" + FlacName + "/build", RenderAll(FlacArgs(prefix, p)), Some(env)));
  }

  /** mpg123 decides how to build after unpacking, on the unpacked tree. */
  method BuildMpg123(h: Host, w: World, buildDir: Path, prefix: Path, p: Platform) returns (w': World)
    ensures var fetched := RunAll(h, w, Mpg123, FetchSteps(w.fs, Mpg123Url, buildDir, Mpg123Name, ".tar.bz2"));
            w' == RunAll(h, fetched, Mpg123, Mpg123BuildSteps(fetched.fs, h.cpuCount, buildDir + "/" + Mpg123Name, prefix, p))
    ensures var fetched := RunAll(h, w, Mpg123, FetchSteps(w.fs, Mpg123Url, buildDir, Mpg123Name, ".tar.bz2"));
            p == Windows && buildDir + "/" + Mpg123Name + "/CMakeLists.txt" !in fetched.fs ==> w' == fetched
  {
    w' := Fetch(h, w, Mpg123, Mpg123Url, buildDir, Mpg123Name, ".tar.bz2");
    var src := buildDir + "/" + Mpg123Name;
    if p == Windows {
      if src + "/CMakeLists.txt" in w'.fs {
        w' := RunCMake(h, w', Mpg123, src + "/build", RenderAll(Mpg123CMakeArgs(prefix)), None);
      } else {
        return;
      }
    } else {
      w' := RunMake(h, w', Mpg123, src, RenderAll(Mpg123ConfigureArgs(prefix, p)), None, h.cpuCount);
    }
  }

  /** The argument list is built, extended, and on Windows rewritten by
      index in place. */
  method MixerConfigure(prefix: Path, p: Platform, hasMpg123: bool) returns (argv: seq<string>)
    ensures argv == MixerCommand(prefix, p, hasMpg123)
  {
    var args := RenderAll(MixerArgs(prefix, p, hasMpg123));
    var cmakeArgs := new string[|args|](k requires 0 <= k < |args| => args[k]);
    assert cmakeArgs[..] == args;
    if p == Windows {
      RewriteLibraryPaths(cmakeArgs, MixerWindowsRules(prefix, hasMpg123));
    }
    argv := cmakeArgs[..];
  }

  /** SDL_mixer itself, from the vendored tree, with the MP3 probe taken
      after the copy and the Windows library names rewritten in place. */
  method BuildSdlMixer(h: Host, w: World, buildDir: Path, prefix: Path, p: Platform) returns (w': World)
    ensures var copied := RunAll(h, w, Mixer, VendoredSteps(w.fs, h.cwd + "/" + MixerName, buildDir + "/" + MixerName));
            w' == RunAll(h, copied, Mixer, MixerBuildSteps(copied.fs, h.environ, buildDir + "/" + MixerName, prefix, p))
  {
    var src := buildDir + "/" + MixerName;
    w' := CopyVendored(h, w, Mixer, h.cwd + "/" + MixerName, src);
    ghost var copied := w';
    var hasMpg123 := HasMpg123(w'.fs, prefix);
    var cmakeArgs := MixerConfigure(prefix, p, hasMpg123);
    var env := MixerEnv(h.environ, prefix, p);
    w' := CheckedCMake(h, w', Mixer, prefix, src + "/build", cmakeArgs, Some(env));
  }

  // ---------------------------------------------------------------------
  // main

  /** `Path.cwd() / "prebuilt" / <platform> / "arm64"`: the same architecture
      directory on every platform. */
  function MixerPrefix(h: Host): (prefix: Path)
    ensures StartsWith(prefix, h.cwd + "/prebuilt/")
    ensures EndsWith(prefix, "/arm64")
  {
    var prefix := h.cwd + "/prebuilt/" + Name(GetPlatform(h.system)) + "/arm64";
    assert prefix[..|h.cwd + "/prebuilt/"|] == h.cwd + "/prebuilt/";
    EndsWithConcat(h.cwd + "/prebuilt/" + Name(GetPlatform(h.system)), "/arm64");
    prefix
  }

  function MixerBuildDir(h: Host): Path {
    h.cwd + "/build/sdl_mixer"
  }

  /** The position of each stage in `main`'s fixed order. */
  function MixerRank(s: Stage): nat {
    match s
    case MixerSetup => 0
    case Ogg => 1
    case Vorbis => 2
    case Flac => 3
    case Mpg123 => 4
    case Mixer => 5
    case _ => 6
  }

  function MixerSetupSteps(buildDir: Path, prefix: Path): seq<Action> {
    [MakeDir(buildDir), MakeDir(prefix), MakeDir(prefix + "/lib"), MakeDir(prefix + "/include")]
  }

  /** The tree each target is built from, below the build directory. */
  function TargetName(t: Stage): string {
    match t
    case Ogg => OggName
    case Vorbis => VorbisName
    case Flac => FlacName
    case Mpg123 => Mpg123Name
    case _ => MixerName
  }

  /** The last step of a target's build when it is a CMake build. */
  function InstallStep(t: Stage, buildDir: Path): Action {
    Run(CMakeInstall, buildDir + "/" + TargetName(t) + "/build", None, false)
  }

  /** The install step of a target, with the tree's name given. */
  lemma InstallStepIn(t: Stage, buildDir: Path, name: string)
    requires name == TargetName(t)
    ensures InstallStep(t, buildDir) == Run(CMakeInstall, buildDir + "/" + name + "/build", None, false)
  {
  }

  lemma MixerBuildEnds(fs: FileSystem, environ: Env, src: Path, prefix: Path, p: Platform)
    ensures var steps := MixerBuildSteps(fs, environ, src, prefix, p);
      steps != [] && steps[|steps| - 1] == Run(CMakeInstall, src + "/build", None, false)
  {
    var steps := MixerBuildSteps(fs, environ, src, prefix, p);
    var build := CMakeSteps(src + "/build", MixerCommand(prefix, p, HasMpg123(fs, prefix)), Some(MixerEnv(environ, prefix, p)));
    assert steps[|steps| - 1] == build[3];
  }

  // Each `build_*` call as `main` sees it: it adds steps of its own stage
  // only, keeps a fail-fast trace fail-fast, never resumes an ended script,
  // and a CMake-built target that gets to the end has run its install step.

  method OggTarget(h: Host, w: World, buildDir: Path, prefix: Path, p: Platform) returns (w': World)
    ensures StageOutcome(w, w', Ogg, InstallStep(Ogg, buildDir))
  {
    w' := BuildLibogg(h, w, buildDir, prefix, p);
    InstallStepIn(Ogg, buildDir, OggName);
    CMakeBuildOutcome(h, w, Ogg, FetchSteps(w.fs, OggUrl, buildDir, OggName, ".tar.gz"),
                      buildDir + "/" + OggName + "/build", RenderAll(OggArgs(prefix, p)), None);
  }

  method VorbisTarget(h: Host, w: World, buildDir: Path, prefix: Path, p: Platform) returns (w': World)
    ensures StageOutcome(w, w', Vorbis, InstallStep(Vorbis, buildDir))
  {
    w' := BuildLibvorbis(h, w, buildDir, prefix, p);
    InstallStepIn(Vorbis, buildDir, VorbisName);
    CMakeBuildOutcome(h, w, Vorbis, FetchSteps(w.fs, VorbisUrl, buildDir, VorbisName, ".tar.gz"),
                      buildDir + "/" + VorbisName + "/build", RenderAll(VorbisArgs(prefix, p)), None);
  }

  method FlacTarget(h: Host, w: World, buildDir: Path, prefix: Path, p: Platform) returns (w': World)
    ensures StageOutcome(w, w', Flac, InstallStep(Flac, buildDir))
  {
    w' := BuildFlac(h, w, buildDir, prefix, p);
    InstallStepIn(Flac, buildDir, FlacName);
    CMakeBuildOutcome(h, w, Flac, FetchSteps(w.fs, FlacUrl, buildDir, FlacName, ".tar.xz"),
                      buildDir + "/" + FlacName + "/build", RenderAll(FlacArgs(prefix, p)),
                      Some(h.environ["PKG_CONFIG_PATH" := prefix + "/lib/pkgconfig"]));
  }

  /** mpg123 may end without any build at all, so only the trace facts hold. */
  method Mpg123Target(h: Host, w: World, buildDir: Path, prefix: Path, p: Platform) returns (w': World)
    ensures Extends(w, w', Mpg123)
    ensures FailFast(w) ==> FailFast(w')
    ensures w'.status == Running ==> w.status == Running
  {
    ghost var fetchSteps := FetchSteps(w.fs, Mpg123Url, buildDir, Mpg123Name, ".tar.bz2");
    ghost var fetched := RunAll(h, w, Mpg123, fetchSteps);
    ghost var steps := Mpg123BuildSteps(fetched.fs, h.cpuCount, buildDir + "/" + Mpg123Name, prefix, p);
    w' := BuildMpg123(h, w, buildDir, prefix, p);
    StageDone(h, w, Mpg123, fetchSteps);
    StageDone(h, fetched, Mpg123, steps);
    ExtendsTrans(w, fetched, w', Mpg123);
  }

  method MixerTarget(h: Host, w: World, buildDir: Path, prefix: Path, p: Platform) returns (w': World)
    ensures StageOutcome(w, w', Mixer, InstallStep(Mixer, buildDir))
  {
    ghost var vendorSteps := VendoredSteps(w.fs, h.cwd + "/" + MixerName, buildDir + "/" + MixerName);
    ghost var copied := RunAll(h, w, Mixer, vendorSteps);
    ghost var steps := MixerBuildSteps(copied.fs, h.environ, buildDir + "/" + MixerName, prefix, p);
    w' := BuildSdlMixer(h, w, buildDir, prefix, p);
    InstallStepIn(Mixer, buildDir, MixerName);
    MixerBuildEnds(copied.fs, h.environ, buildDir + "/" + MixerName, prefix, p);
    StageInTwoPhases(h, w, Mixer, vendorSteps, copied, steps, InstallStep(Mixer, buildDir));
  }

  /** libogg, libvorbis and FLAC, the first three builds of `main`. */
  method MixerLibraries(h: Host, w: World, buildDir: Path, prefix: Path, p: Platform) returns (w': World)
    requires FailFast(w) && Ordered(w.trace, MixerRank) && UpTo(w.trace, MixerRank, MixerSetup)
    ensures FailFast(w')
    ensures Ordered(w'.trace, MixerRank) && UpTo(w'.trace, MixerRank, Flac)
    ensures |w.trace| <= |w'.trace| && w'.trace[..|w.trace|] == w.trace
    ensures w'.status == Running ==> w.status == Running
    ensures w'.status == Running ==>
      Ran(w', Ogg, InstallStep(Ogg, buildDir)) && Ran(w', Vorbis, InstallStep(Vorbis, buildDir))
      && Ran(w', Flac, InstallStep(Flac, buildDir))
  {
    w' := OggTarget(h, w, buildDir, prefix, p);
    Advance(w, w', MixerSetup, Ogg, MixerRank);
    ghost var ogg := w';
    w' := VorbisTarget(h, w', buildDir, prefix, p);
    Advance(ogg, w', Ogg, Vorbis, MixerRank);
    ghost var vorbis := w';
    w' := FlacTarget(h, w', buildDir, prefix, p);
    Advance(vorbis, w', Vorbis, Flac, MixerRank);
    PrefixTrans(w, ogg, vorbis);
    PrefixTrans(w, vorbis, w');
    if w'.status == Running {
      ExtendsKeepsRan(ogg, vorbis, Vorbis, Ogg, InstallStep(Ogg, buildDir));
      PrefixKeepsRan(vorbis, w', Ogg, InstallStep(Ogg, buildDir));
      PrefixKeepsRan(vorbis, w', Vorbis, InstallStep(Vorbis, buildDir));
    }
  }

  /** The five `build_*` calls of `main`, in their fixed order.  The run
      stops at the first failure, the stages appear in that order in the
      trace, and a run that gets to the end has installed libogg, libvorbis,
      FLAC and SDL_mixer. */
  method MixerBuilds(h: Host, w: World, buildDir: Path, prefix: Path, p: Platform) returns (w': World)
    requires FailFast(w) && Ordered(w.trace, MixerRank) && UpTo(w.trace, MixerRank, MixerSetup)
    ensures FailFast(w')
    ensures Ordered(w'.trace, MixerRank) && UpTo(w'.trace, MixerRank, Mixer)
    ensures |w.trace| <= |w'.trace| && w'.trace[..|w.trace|] == w.trace
    ensures w'.status == Running ==> w.status == Running
    ensures w'.status == Running ==>
      Ran(w', Ogg, InstallStep(Ogg, buildDir)) && Ran(w', Vorbis, InstallStep(Vorbis, buildDir))
      && Ran(w', Flac, InstallStep(Flac, buildDir)) && Ran(w', Mixer, InstallStep(Mixer, buildDir))
  {
    w' := MixerLibraries(h, w, buildDir, prefix, p);
    ghost var libs := w';
    w' := Mpg123Target(h, w', buildDir, prefix, p);
    Advance(libs, w', Flac, Mpg123, MixerRank);
    ghost var mpg123 := w';
    w' := MixerTarget(h, w', buildDir, prefix, p);
    Advance(mpg123, w', Mpg123, Mixer, MixerRank);
    PrefixTrans(libs, mpg123, w');
    PrefixTrans(w, libs, w');
    if w'.status == Running {
      PrefixKeepsRan(libs, w', Ogg, InstallStep(Ogg, buildDir));
      PrefixKeepsRan(libs, w', Vorbis, InstallStep(Vorbis, buildDir));
      PrefixKeepsRan(libs, w', Flac, InstallStep(Flac, buildDir));
    }
  }

  /** `main`: the build directory and the prefix with its `lib` and
      `include` directories, then the five builds. */
  method MixerMain(h: Host, fs: FileSystem) returns (w: World)
    ensures FailFast(w)
    ensures Ordered(w.trace, MixerRank) && UpTo(w.trace, MixerRank, Mixer)
    ensures w.status == Running ==>
      Ran(w, MixerSetup, MakeDir(MixerPrefix(h) + "/lib"))
      && Ran(w, Ogg, InstallStep(Ogg, MixerBuildDir(h))) && Ran(w, Vorbis, InstallStep(Vorbis, MixerBuildDir(h)))
      && Ran(w, Flac, InstallStep(Flac, MixerBuildDir(h))) && Ran(w, Mixer, InstallStep(Mixer, MixerBuildDir(h)))
  {
    var p := GetPlatform(h.system);
    var buildDir := MixerBuildDir(h);
    var prefix := MixerPrefix(h);
    var steps := MixerSetupSteps(buildDir, prefix);
    w := RunAll(h, World(fs, [], Running), MixerSetup, steps);
    FirstStage(h, fs, MixerSetup, steps, MixerRank);
    assert steps[2] == MakeDir(prefix + "/lib");
    ghost var setup := w;
    w := MixerBuilds(h, w, buildDir, prefix, p);
    if w.status == Running {
      PrefixKeepsRan(setup, w, MixerSetup, MakeDir(prefix + "/lib"));
    }
  }
}
