/**
 * The OpenCL compiler driver: it remembers where Clang is, creates a Clang
 * driver object targeting amdgcn-amd-amdhsa-amdopencl with ELF objects, and
 * builds a compilation from an argument list, reporting one exit status.
 */
module Driver {
  import opened Wrappers
  import opened Toolchain
  import opened StatusFold

  /** An LLVM target triple, held component by component; a fresh one is all unknown. */
  class Triple {
    var arch: ArchType
    var vendor: VendorType
    var os: OSType
    var environment: EnvironmentType
    var objectFormat: ObjectFormatType

    constructor()
      ensures Value() == TripleValue(UnknownArch, UnknownVendor, UnknownOS, UnknownEnvironment, UnknownObjectFormat)
    {
      arch, vendor, os := UnknownArch, UnknownVendor, UnknownOS;
      environment, objectFormat := UnknownEnvironment, UnknownObjectFormat;
    }

    function Value(): TripleValue
      reads this
    {
      TripleValue(arch, vendor, os, environment, objectFormat)
    }
  }

  /** The triple every OpenCL driver targets. */
  const AmdOpenCLTriple: TripleValue := TripleValue(Amdgcn, AMD, AMDHSA, AMDOpenCL, ELF)

  /** Sets architecture, vendor and operating system; environment and object format are kept. */
  method ConstructTriple(triple: Triple, arch: ArchType, vendor: VendorType, os: OSType)
    modifies triple
    ensures triple.Value() == old(triple.Value()).(arch := arch, vendor := vendor, os := os)
    ensures triple.environment == old(triple.environment) && triple.objectFormat == old(triple.objectFormat)
  {
    triple.arch := arch;
    triple.vendor := vendor;
    triple.os := os;
  }

  /** Sets all five components: the result no longer depends on what the triple held. */
  method ConstructTripleWithEnvironment(triple: Triple, arch: ArchType, vendor: VendorType, os: OSType,
                                        environment: EnvironmentType, objectFormat: ObjectFormatType)
    modifies triple
    ensures triple.Value() == TripleValue(arch, vendor, os, environment, objectFormat)
  {
    ConstructTriple(triple, arch, vendor, os);
    triple.environment := environment;
    triple.objectFormat := objectFormat;
  }

  class OpenCLDriver {
    var clangExe: string
    /** The driver's own triple member; initialisation configures a local triple instead. */
    var triple: TripleValue
    /** Whether the diagnostics engine has been created. */
    var hasDiags: bool
    /** The Clang driver object, once created. */
    var clangDriver: Option<ClangDriver>

    constructor()
      ensures clangExe == [] && !hasDiags && clangDriver.None?
      ensures triple == TripleValue(UnknownArch, UnknownVendor, UnknownOS, UnknownEnvironment, UnknownObjectFormat)
    {
      clangExe := [];
      triple := TripleValue(UnknownArch, UnknownVendor, UnknownOS, UnknownEnvironment, UnknownObjectFormat);
      hasDiags := false;
      clangDriver := None;
    }

    /**
     * Records the Clang path and fails when it is empty.  Otherwise creates the
     * diagnostics engine and a Clang driver for that path, with the AMD OpenCL
     * triple as default target, the driver title set and the existence check on
     * inputs switched off.
     */
    method Init(clangExecutable: string) returns (ok: bool)
      modifies this
      ensures clangExe == clangExecutable
      ensures ok <==> |clangExecutable| > 0
      ensures ok ==> hasDiags &&
                     clangDriver == Some(ClangDriver(clangExecutable, TargetTriple(AmdOpenCLTriple), DriverTitle, false))
      ensures !ok ==> hasDiags == old(hasDiags) && clangDriver == old(clangDriver)
      ensures triple == old(triple)
    {
      clangExe := clangExecutable;
      if |clangExe| == 0 {
        return false;
      }
      var localTriple := new Triple();
      ConstructTripleWithEnvironment(localTriple, Amdgcn, AMD, AMDHSA, AMDOpenCL, ELF);
      hasDiags := true;
      var created := ClangDriver(clangExe, TargetTriple(localTriple.Value()), "clang LLVM compiler", true);
      created := created.(title := DriverTitle);
      created := created.(checkInputsExist := false);
      clangDriver := Some(created);
      return true;
    }

    /**
     * Builds and executes a compilation for the arguments and folds its outcome
     * into one exit status; also gives the crashed command diagnostics are made for.
     */
    method Build(args: seq<string>, env: Env) returns (res: int, diagnosed: Option<FailingCommand>)
      requires clangDriver.Some?
      ensures res == FoldStatus(env.clang(clangDriver.value, args), env.win32)
      ensures res == 0 <==> InitialStatus(env.clang(clangDriver.value, args)) == 0 &&
                            var scanned := Scanned(FailingOf(env.clang(clangDriver.value, args)), env.win32);
                            forall j :: 0 <= j < |scanned| ==> scanned[j].status == 0
      ensures var failing := FailingOf(env.clang(clangDriver.value, args));
              var k := CrashIndex(failing, env.win32);
              diagnosed == if k < |failing| then Some(failing[k]) else None
    {
      var run := env.clang(clangDriver.value, args);
      res, diagnosed := FoldExitStatus(run, env.win32);
      StatusZeroIff(run, env.win32);
    }
  }
}
