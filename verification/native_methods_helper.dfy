/** `MagicNativeMethods.SetLibraryPath`: the full path of the onnxruntime-genai
    library for the chosen backend on the running host, with the checks in the
    order the library performs them. */
module NativeMethodsHelper {
  import opened Wrappers
  import opened Exceptions
  import opened Platform
  import opened NativeLibraryLoader

  /** The backend folder below the application base directory. */
  function BackendFolder(hardware: HardwareType): Result<string, Exception> {
    match hardware
    case Cpu => Success("cpu")
    case Cuda => Success("cuda")
    case Dml => Success("dml")
    case Undefined(_) => Failure(ArgumentOutOfRange("_hardwareType", "Unsupported hardware type"))
  }

  /** The library file name for the OS, as the `#if` chain of the build selects it. */
  function LibraryFileName(os: OS, build: BuildFlavor): Result<string, Exception> {
    if os.Windows? then Success("onnxruntime-genai.dll")
    else if os.Linux? then Success("libonnxruntime-genai.so")
    else if os.OSX? then Success("libonnxruntime-genai.dylib")
    else match build
      case AndroidBuild => Success("onnxruntime.aar")
      case IosBuild => Success("onnxruntime.xcframework")
      case DefaultBuild => Failure(PlatformNotSupported("Unsupported platform for onnxruntime-genai"))
  }

  /** Everything that can be resolved before the existence check. */
  predicate Resolvable(hardware: HardwareType, host: Host, build: BuildFlavor) {
    && !hardware.Undefined?
    && SupportedOS(host.os)
    && SupportedArchitecture(host.arch)
    && (IsMobile(host.os) ==> build != DefaultBuild)
  }

  /** The file name written out per platform and build. */
  function ExpectedFileName(os: OS, build: BuildFlavor): string
    requires SupportedOS(os) && (IsMobile(os) ==> build != DefaultBuild)
  {
    match os
    case Windows => "onnxruntime-genai.dll"
    case Linux => "libonnxruntime-genai.so"
    case OSX => "libonnxruntime-genai.dylib"
    case _ => if build == AndroidBuild then "onnxruntime.aar" else "onnxruntime.xcframework"
  }

  function ExpectedBackendFolder(hardware: HardwareType): string
    requires !hardware.Undefined?
  {
    if hardware == Cpu then "cpu" else if hardware == Cuda then "cuda" else "dml"
  }

  /** `SetLibraryPath` for a backend, an application base directory, the host,
      the build flavour and the file-existence oracle. Errors surface in a fixed
      order: backend, OS, architecture, library file name, existence. On
      success the path is `<base>/<backend>/runtimes/<os>[-<arch>]/native/<file>`. */
  function SetLibraryPath(hardware: HardwareType, baseDirectory: Path, host: Host,
                          build: BuildFlavor, fileExists: Path -> bool): (r: Result<Path, Exception>)
    ensures hardware.Undefined? ==>
              r == Failure(ArgumentOutOfRange("_hardwareType", "Unsupported hardware type"))
    ensures !hardware.Undefined? && !SupportedOS(host.os) ==>
              r == Failure(PlatformNotSupported("Unsupported platform"))
    ensures !hardware.Undefined? && SupportedOS(host.os) && !SupportedArchitecture(host.arch) ==>
              r == Failure(PlatformNotSupported("Unsupported architecture"))
    ensures !hardware.Undefined? && SupportedOS(host.os) && SupportedArchitecture(host.arch)
            && IsMobile(host.os) && build == DefaultBuild ==>
              r == Failure(PlatformNotSupported("Unsupported platform for onnxruntime-genai"))
    ensures Resolvable(hardware, host, build) ==>
              var path := baseDirectory + [ExpectedBackendFolder(hardware), "runtimes",
                                           RuntimeIdentifier(host), "native",
                                           ExpectedFileName(host.os, build)];
              r == if fileExists(path) then Success(path) else Failure(DllNotFound(path))
  {
    var folder :- BackendFolder(hardware);
    var runtimeFolder :- GetNativeDllPath(Combine(baseDirectory, [folder]), host);
    var fileName :- LibraryFileName(host.os, build);
    var libraryPath := Combine(runtimeFolder, [fileName]);
    assert libraryPath == baseDirectory + [folder, "runtimes", RuntimeIdentifier(host), "native", fileName];
    if !fileExists(libraryPath) then Failure(DllNotFound(libraryPath)) else Success(libraryPath)
  }

  /** The library path names the backend it was asked for: distinct backends
      never resolve to the same file. */
  lemma LibraryPathIdentifiesBackend(h1: HardwareType, h2: HardwareType, baseDirectory: Path,
                                     host: Host, build: BuildFlavor, fileExists: Path -> bool)
    requires SetLibraryPath(h1, baseDirectory, host, build, fileExists).Success?
    requires SetLibraryPath(h1, baseDirectory, host, build, fileExists)
             == SetLibraryPath(h2, baseDirectory, host, build, fileExists)
    ensures h1 == h2
  {
    var p := SetLibraryPath(h1, baseDirectory, host, build, fileExists).value;
    assert p[|baseDirectory|] == ExpectedBackendFolder(h1) == ExpectedBackendFolder(h2);
  }

  /** A default build rejects iOS and Android although their native folder
      resolves. */
  lemma DefaultBuildRejectsMobile(hardware: HardwareType, baseDirectory: Path, host: Host,
                                  fileExists: Path -> bool)
    requires !hardware.Undefined? && IsMobile(host.os) && SupportedArchitecture(host.arch)
    ensures GetNativeDllPath(baseDirectory + [ExpectedBackendFolder(hardware)], host).Success?
    ensures SetLibraryPath(hardware, baseDirectory, host, DefaultBuild, fileExists).Failure?
  {
  }
}
