/** Host name to platform tag, as the two SDL scripts' `get_platform` do it,
    and the per-platform CMake arguments their dependency builds append. */
module Platforms {
  import opened Text
  import opened Flags

  datatype Platform = Windows | MacOS | Linux

  /** The tag used in the install prefix `prebuilt/<tag>/<arch>`. */
  function Name(p: Platform): (r: string)
    ensures r in {"windows", "macos", "linux"}
  {
    match p
    case Windows => "windows"
    case MacOS => "macos"
    case Linux => "linux"
  }

  /** `get_platform`: the lower-cased `platform.system()` picks macOS for
      "darwin", Windows for "windows", and Linux for every other name. */
  function GetPlatform(system: string): (p: Platform)
    ensures p == MacOS <==> Lower(system) == "darwin"
    ensures p == Windows <==> Lower(system) == "windows"
    ensures p == Linux <==> Lower(system) != "darwin" && Lower(system) != "windows"
  {
    var s := Lower(system);
    if s == "darwin" then MacOS
    else if s == "windows" then Windows
    else Linux
  }

  /** The tag does not depend on the case of the host name. */
  lemma GetPlatformIgnoresCase(system: string)
    ensures GetPlatform(Lower(system)) == GetPlatform(system)
  {
    LowerIdempotent(system);
  }

  /** The names `platform.system()` reports on the three hosts. */
  lemma KnownHosts()
    ensures GetPlatform("Darwin") == MacOS
    ensures GetPlatform("Windows") == Windows
    ensures GetPlatform("Linux") == Linux
  {
    LowerName("Darwin", "darwin");
    LowerName("Windows", "windows");
    LowerName("Linux", "linux");
  }

  /** A host name whose first letter alone is upper case lower-cases to the
      name with that letter lowered. */
  lemma LowerName(system: string, lower: string)
    requires |system| == |lower| && system != []
    requires 'A' <= system[0] <= 'Z' && lower[0] == (system[0] as int + 32) as char
    requires forall i :: 1 <= i < |system| ==> system[i] == lower[i] && !('A' <= system[i] <= 'Z')
    ensures Lower(system) == lower
  {
  }

  /** The imgui scripts' `IS_WINDOWS` / `IS_MACOS` tests: exact names, no
      lower-casing; every other name takes the Linux branch. */
  function HostPlatform(system: string): (p: Platform)
    ensures p == Windows <==> system == "Windows"
    ensures p == MacOS <==> system == "Darwin"
  {
    if system == "Windows" then Windows
    else if system == "Darwin" then MacOS
    else Linux
  }

  /** On the names `platform.system()` reports, the exact-name tests of the
      imgui scripts and the lower-casing `get_platform` agree; a host name
      spelled in lower case is Windows for the SDL scripts but takes the
      Linux branch in the imgui scripts. */
  lemma HostPlatformAgrees(system: string)
    ensures system in {"Windows", "Darwin", "Linux"} ==> HostPlatform(system) == GetPlatform(system)
    ensures HostPlatform("windows") == Linux && GetPlatform("windows") == Windows
  {
    KnownHosts();
    assert Lower("windows") == "windows";
  }

  /** What every CMake-built dependency appends to its configure line: the
      Visual Studio generator on Windows, the arm64 architecture on macOS,
      nothing on Linux. */
  function PlatformCMakeArgs(p: Platform): (r: seq<Arg>)
    ensures p == Linux <==> r == []
    ensures Word("-G") in r <==> p == Windows
    ensures Define("-DCMAKE_OSX_ARCHITECTURES", "arm64") in r <==> p == MacOS
  {
    match p
    case Windows => [Word("-G"), Word("Visual Studio 17 2022"), Word("-A"), Word("x64")]
    case MacOS => [Define("-DCMAKE_OSX_ARCHITECTURES", "arm64")]
    case Linux => []
  }
}
