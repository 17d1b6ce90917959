/**
 * The world outside the driver: the Clang driver library, process spawning, the
 * temporary-name generator and the platform.  Each is an oracle the model calls
 * but does not define.
 */
module Toolchain {
  import opened Wrappers

  /** Components of an LLVM target triple; `Other...` stands for LLVM's remaining enumerators. */
  datatype ArchType = UnknownArch | Amdgcn | OtherArch(id: nat)
  datatype VendorType = UnknownVendor | AMD | OtherVendor(id: nat)
  datatype OSType = UnknownOS | AMDHSA | OtherOS(id: nat)
  datatype EnvironmentType = UnknownEnvironment | AMDOpenCL | OtherEnvironment(id: nat)
  datatype ObjectFormatType = UnknownObjectFormat | ELF | OtherObjectFormat(id: nat)

  datatype TripleValue = TripleValue(
    arch: ArchType,
    vendor: VendorType,
    os: OSType,
    environment: EnvironmentType,
    objectFormat: ObjectFormatType)

  /** The default target a Clang driver is created with: a triple string, or the string of a triple. */
  datatype Target = TargetName(name: string) | TargetTriple(triple: TripleValue)

  /** A configured Clang driver object. */
  datatype ClangDriver = ClangDriver(clangPath: string, target: Target, title: string, checkInputsExist: bool)

  const DriverTitle: string := "AMDGPU OpenCL driver"

  /** One entry of the driver's failing-command list: its exit status and the command. */
  datatype FailingCommand = FailingCommand(status: int, command: string)

  /** What building and executing a compilation gives: no compilation at all, or its status and failing commands. */
  datatype Execution = NoCompilation | Executed(status: int, failing: seq<FailingCommand>)

  /** An element of a C argument vector: a string or the terminating null pointer. */
  datatype CArg = Arg(text: string) | Null

  /** A call the driver makes into the toolchain. */
  datatype Invocation =
    | DriverCall(args: seq<string>)
    | LinkCall(program: string, argv: seq<CArg>)

  /**
   * The environment: `clang` builds and executes a compilation, `exec` spawns a
   * program and waits for its exit status, `mktemp` gives the stem that mktemp
   * produces on the temp-file call numbered n, `win32` selects the Windows build,
   * `tempPath` is what GetTempPath reports (None when it fails).
   */
  datatype Env = Env(
    clang: (ClangDriver, seq<string>) -> Execution,
    exec: (string, seq<CArg>) -> int,
    mktemp: nat -> string,
    win32: bool,
    tempPath: Option<string>)
}
