/** The host facts the native layer consults: the operating system that
    `RuntimeInformation.IsOSPlatform` recognises, the OS architecture, the
    compute backend, and file-system paths. */
module Platform {

  /** The platform the host reports. The library probes it in a fixed order,
      so only the one matching value matters. */
  datatype OS = Windows | Linux | OSX | IOS | Android | FreeBSD | OtherOS(name: string)

  /** `RuntimeInformation.OSArchitecture`. */
  datatype Architecture = X64 | X86 | Arm | Arm64 | OtherArchitecture(name: string)

  datatype Host = Host(os: OS, arch: Architecture)

  /** The `HardwareType` enumeration. A C# enum variable can hold any integer,
      so values outside the three named members are representable and reach
      the `default` branches of switches over it. */
  datatype HardwareType = Cpu | Cuda | Dml | Undefined(value: int)

  /** Which conditional-compilation symbol the library was built with
      (`__ANDROID__` is tested before `__IOS__`). */
  datatype BuildFlavor = DefaultBuild | AndroidBuild | IosBuild

  /** A path as the list of segments `Path.Combine` joined. */
  type Path = seq<string>

  /** `Path.Combine(base, parts...)` for relative, non-empty parts. */
  function Combine(base: Path, parts: seq<string>): (r: Path)
    ensures |r| == |base| + |parts| && r[..|base|] == base && r[|base|..] == parts
  {
    base + parts
  }
}
