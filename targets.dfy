/** The inputs the linker driver reads: the target triple, the host it was built for, the caller's options. */
module Targets {
  import opened Wrappers

  /** The operating-system part of the target triple, reduced to the cases the driver distinguishes. */
  datatype OSType = Win32 | Linux | Darwin | MacOSX | OtherOS

  /** The environment part of the target triple. */
  datatype EnvironmentType = MSVC | GNU | OtherEnvironment

  datatype Triple = Triple(os: OSType, environment: EnvironmentType)

  /**
   * The platform the driver itself was compiled for. Each back end is compiled
   * only for its own host (`_WIN32`, `__linux__`, `__APPLE__`).
   */
  datatype Host = WindowsHost | LinuxHost | AppleHost | OtherHost

  /** The lld driver a link call goes to. */
  datatype Flavor = Coff | Elf | MachO | MinGW

  /** A call into lld: which driver, and whether it may exit the process early. */
  datatype LinkCall = LinkCall(flavor: Flavor, canExitEarly: bool)

  /** The caller's search directories and bare library names, in order. */
  datatype LinkerOptions = LinkerOptions(libraryDirs: seq<string>, libraries: seq<string>)

  /** What the MSVC toolchain reports: its Lib directory and, when found, the CRT and SDK library directories. */
  datatype MsvcToolchain = MsvcToolchain(libDir: string, crtDir: Option<string>, sdkDir: Option<string>)

  /** What the compilation context provides: the target, the object file written, and the MSVC toolchain. */
  datatype Context = Context(triple: Triple, outputFile: string, toolchain: MsvcToolchain)
}
