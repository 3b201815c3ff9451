/** `NativeLibraryLoader.GetNativeDllPath`: the folder, below a base path, that
    holds the native library for the running OS and architecture. */
module NativeLibraryLoader {
  import opened Wrappers
  import opened Exceptions
  import opened Platform

  predicate SupportedOS(os: OS) {
    os.Windows? || os.Linux? || os.OSX? || os.IOS? || os.Android?
  }

  predicate SupportedArchitecture(arch: Architecture) {
    arch.X64? || arch.X86? || arch.Arm64?
  }

  /** Mobile platforms ship one folder per OS, without an architecture suffix. */
  predicate IsMobile(os: OS) {
    os.IOS? || os.Android?
  }

  /** The runtime-identifier folder of the on-disk layout
      `runtimes/<os>[-<arch>]/native`, written out host by host. */
  function RuntimeIdentifier(host: Host): string
    requires SupportedOS(host.os) && SupportedArchitecture(host.arch)
  {
    match (host.os, host.arch)
    case (Windows, X64) => "win-x64"
    case (Windows, X86) => "win-x86"
    case (Windows, Arm64) => "win-arm64"
    case (Linux, X64) => "linux-x64"
    case (Linux, X86) => "linux-x86"
    case (Linux, Arm64) => "linux-arm64"
    case (OSX, X64) => "osx-x64"
    case (OSX, X86) => "osx-x86"
    case (OSX, Arm64) => "osx-arm64"
    case (IOS, _) => "ios"
    case (Android, _) => "android"
  }

  /** The platform probe chain: Windows, Linux, OSX, IOS, ANDROID, else throw. */
  function PlatformName(os: OS): Result<string, Exception> {
    if os.Windows? then Success("win")
    else if os.Linux? then Success("linux")
    else if os.OSX? then Success("osx")
    else if os.IOS? then Success("ios")
    else if os.Android? then Success("android")
    else Failure(PlatformNotSupported("Unsupported platform"))
  }

  /** The architecture probe chain: X64, X86, Arm64, else throw. */
  function ArchitectureName(arch: Architecture): Result<string, Exception> {
    if arch == X64 then Success("x64")
    else if arch == X86 then Success("x86")
    else if arch == Arm64 then Success("arm64")
    else Failure(PlatformNotSupported("Unsupported architecture"))
  }

  /** The OS is resolved first, then the architecture (even on mobile, where it
      is not used), and only then is the path assembled; a result is always
      `basePath` plus exactly three segments. */
  function GetNativeDllPath(basePath: Path, host: Host): (r: Result<Path, Exception>)
    ensures r.Success? <==> SupportedOS(host.os) && SupportedArchitecture(host.arch)
    ensures !SupportedOS(host.os) ==> r == Failure(PlatformNotSupported("Unsupported platform"))
    ensures SupportedOS(host.os) && !SupportedArchitecture(host.arch) ==>
              r == Failure(PlatformNotSupported("Unsupported architecture"))
    ensures r.Success? ==> r.value == basePath + ["runtimes", RuntimeIdentifier(host), "native"]
    ensures r.Success? ==> |r.value| == |basePath| + 3 && r.value[..|basePath|] == basePath
  {
    var platform :- PlatformName(host.os);
    var architecture :- ArchitectureName(host.arch);
    if platform == "ios" || platform == "android" then
      Success(Combine(basePath, ["runtimes", platform, "native"]))
    else
      RuntimeIdentifierSpelling(host);
      Success(Combine(basePath, ["runtimes", platform + "-" + architecture, "native"]))
  }

  /** On desktop the identifier is the platform name, a dash and the
      architecture name. */
  lemma RuntimeIdentifierSpelling(host: Host)
    requires SupportedOS(host.os) && SupportedArchitecture(host.arch) && !IsMobile(host.os)
    ensures RuntimeIdentifier(host)
            == PlatformName(host.os).value + "-" + ArchitectureName(host.arch).value
  {
    match (host.os, host.arch)
    case (Windows, X64) => assert "win-x64" == "win" + "-" + "x64";
    case (Windows, X86) => assert "win-x86" == "win" + "-" + "x86";
    case (Windows, Arm64) => assert "win-arm64" == "win" + "-" + "arm64";
    case (Linux, X64) => assert "linux-x64" == "linux" + "-" + "x64";
    case (Linux, X86) => assert "linux-x86" == "linux" + "-" + "x86";
    case (Linux, Arm64) => assert "linux-arm64" == "linux" + "-" + "arm64";
    case (OSX, X64) => assert "osx-x64" == "osx" + "-" + "x64";
    case (OSX, X86) => assert "osx-x86" == "osx" + "-" + "x86";
    case (OSX, Arm64) => assert "osx-arm64" == "osx" + "-" + "arm64";
  }

  /** Different desktop hosts never share a native folder, and a mobile folder
      is never shared with a different OS: the folder identifies the OS, and on
      desktop the architecture too. */
  lemma NativeDllPathIdentifiesHost(basePath: Path, h1: Host, h2: Host)
    requires GetNativeDllPath(basePath, h1).Success?
    requires GetNativeDllPath(basePath, h1) == GetNativeDllPath(basePath, h2)
    ensures h1.os == h2.os
    ensures !IsMobile(h1.os) ==> h1.arch == h2.arch
  {
    var p := GetNativeDllPath(basePath, h1).value;
    assert p[|basePath| + 1] == RuntimeIdentifier(h1) == RuntimeIdentifier(h2);
  }

  /** On iOS and Android the architecture never matters once it is supported. */
  lemma MobileIgnoresArchitecture(basePath: Path, os: OS, a1: Architecture, a2: Architecture)
    requires IsMobile(os) && SupportedArchitecture(a1) && SupportedArchitecture(a2)
    ensures GetNativeDllPath(basePath, Host(os, a1)) == GetNativeDllPath(basePath, Host(os, a2))
    ensures GetNativeDllPath(basePath, Host(os, a1)).Success?
  {
  }
}
