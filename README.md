# AMDGPU OpenCL compiler driver — Dafny model

This project models the core of the ROCm OpenCL compiler driver:

- **`AMDGPUCompiler`**, the compiler object. It allocates artifacts (input, output and temporary files) into a list it owns, and it names temp files from a process-wide counter. It builds the argument vectors handed to the Clang driver and to `llvm-link`, folds the outcome of a Clang compilation into one success flag, and orchestrates single- and multi-input compiles to LLVM bitcode and to executables.
- **The artifact data model**: the four data kinds, and the `File`, `BufferReference` and `Buffer` artifacts with their types and read-only flags.
- **`OpenCLDriver`**, which records the Clang path. `Init` creates a Clang driver targeting `amdgcn-amd-amdhsa-amdopencl` with ELF objects. `Build` builds and runs a compilation and returns one exit status.

The toolchain is not part of the model. It is an oracle value `Toolchain.Env` that the operations take as a parameter:

- `clang` builds and executes a compilation for a driver configuration and an argument list. It gives either no compilation, or a status and the list of failing commands.
- `exec` spawns a program with a C argument vector and gives its exit status.
- `mktemp` gives the random stem of each temp-file call, indexed by the counter value. The distinctness lemmas assume only what `mktemp` can leave in the template `AMD_tmp_XXXXXX`: 14 characters starting `AMD_tmp_`, or the empty string when it fails (`TempNames.ValidStem`).
- `win32` selects the Windows build.
- `tempPath` is what `GetTempPath` reports.

Every toolchain call the compiler makes is recorded in the ghost trace `AMDGPUCompiler.calls`. The contracts therefore state exactly which calls happen and in which order. They cover:

- short-circuiting on the first failed compile;
- `llvm-link` running only after every input compiled;
- the options going to the right step.

Each method is proved against a value-level function in `Pipeline`, such as `CompileEach`, `CompileToBitcode` or `CompileAndLink`. The lemmas beside those functions state the orchestration properties.

Modules, in dependency order:

| file | module | contents |
|---|---|---|
| wrappers.dfy | Wrappers | `Option` |
| artifacts.dfy | Artifacts | `DataType`, `Data` (File / BufferReference / Buffer) |
| toolchain.dfy | Toolchain | triple components, Clang driver configuration, executions, invocations, `Env` |
| status_fold.dfy | StatusFold | the exit-status fold shared by `InvokeDriver` and `OpenCLDriver::Build` |
| temp_names.dfy | TempNames | temp file names and their distinctness |
| arguments.dfy | Arguments | Clang and `llvm-link` argument layouts, and their readers |
| pipeline.dfy | Pipeline | value-level specification of the compile operations, and orchestration lemmas |
| amd_compiler.dfy | AmdCompiler | the `AMDGPUCompiler` class, the temp counter, the factory |
| driver.dfy | Driver | `Triple`, `constructTriple`, `OpenCLDriver` |

Some behaviour is modelled as the code has it, where a reader might expect otherwise:

- **Temp names on non-Windows platforms.** The name is the base with `"/tmp/"` and the base again appended (`name += "/tmp/" + name`, src/driver/AmdCompiler.cpp:213). It is not the base placed under `/tmp/`.
- **Read-only temp files.** Temp files are allocated read-only, yet the compiler passes them to Clang and `llvm-link` as outputs. `IsReadOnly` is never consulted before a file is used as an output (src/driver/AmdCompiler.cpp:240, 260-261, 310-311), and the model does the same.
- **`Init`'s triple.** `Init` configures a local `Triple` that shadows the driver's member of the same name. The member stays as it was.

## Model

| member | source | states |
|---|---|---|
| Artifacts.DataType.Ordinal | src/driver/AmdCompiler.h:9-14 | each data kind has one of the four enumerator values 0..3 |
| Artifacts.FromOrdinal | src/driver/AmdCompiler.h:9-14 | every value 0..3 names a kind whose value it is |
| Artifacts.OrdinalRoundTrip | src/driver/AmdCompiler.h:9-14 | kinds and values 0..3 are in one-to-one correspondence: exactly four kinds |
| Artifacts.Data.Type | src/driver/AmdCompiler.h:16-24 | every artifact, whatever its kind, reports the type it was constructed with |
| Artifacts.Data.IsReadOnly | src/driver/AmdCompiler.h:25-65 | read-only-ness by kind: a File reports its own flag, a buffer reference is always read-only, a buffer never is |
| Artifacts.MakeFile | src/driver/AmdCompiler.h:28-40 | a File keeps the type, name and read-only flag it was constructed with; read-only defaults to false |
| Artifacts.MakeBufferReference | src/driver/AmdCompiler.h:42-55 | a buffer reference keeps its type, pointer and size, and is always read-only |
| Artifacts.MakeBuffer | src/driver/AmdCompiler.h:57-68 | a buffer keeps its type, is never read-only and starts with empty storage |
| StatusFold.CrashIndex | src/driver/AmdCompiler.cpp:117-128 | the scan stops at the first failing command whose status is negative, 70, or 3 on Windows; none before it crashed |
| StatusFold.Clamp | src/driver/AmdCompiler.cpp:138-144 | on Windows a negative status is reported as exactly 1, so never negative; a non-negative status, or any status elsewhere, is kept; zero-ness is preserved |
| StatusFold.FoldAdoptsFirstFailure | src/driver/AmdCompiler.cpp:112-129 | a non-zero running status is kept; from zero the result is the first non-zero status among the commands scanned up to and including the first crash |
| StatusFold.StatusZeroIff | src/driver/AmdCompiler.cpp:106-146 | the fold gives 0 iff the compilation's own status is 0 (or there was no compilation) and every scanned failing command has status 0 |
| StatusFold.FoldIgnoresAfterCrash | src/driver/AmdCompiler.cpp:125-128 | failing commands after the first crash cannot change the result |
| StatusFold.FoldExitStatus | src/driver/AmdCompiler.cpp:106-144 | the loop with early break computes the specified fold, and diagnostics are generated for exactly the first crashed command |
| TempNames.Decimal | src/driver/AmdCompiler.cpp:203 | the counter is written as a non-empty string of decimal digits, a single digit exactly below 10 |
| TempNames.DecimalInjective | src/driver/AmdCompiler.cpp:203 | different counter values are written differently |
| TempNames.TempName | src/driver/AmdCompiler.cpp:199-214 | the name always ends with stem_n.ext; on Windows it is that base behind the reported temp path (or alone when GetTempPath fails); elsewhere it is the base, then "/tmp/", then the base again |
| TempNames.TempFile | src/driver/AmdCompiler.cpp:194-217 | a temp file is a read-only File of the requested type named stem_n.ext, prefixed by the temp path on Windows, else followed by "/tmp/" and itself |
| TempNames.TempBaseDistinct | src/driver/AmdCompiler.cpp:199-205 | two counter values give different stem_n.ext names for any stems mktemp can leave, successful or failed |
| TempNames.TempNameDistinct | src/driver/AmdCompiler.cpp:199-214 | two counter values give different full names on one platform: the distinctness survives the Windows prefix and the non-Windows "/tmp/" suffixing |
| TempNames.TempFilesDistinct | src/driver/AmdCompiler.cpp:194-217 | temp files allocated at different counter values have different names, whether or not the mktemp calls succeeded |
| Arguments.CompileArgsRoundTrip | src/driver/AmdCompiler.cpp:229-248 | the compile vector is the common flags, "-c", "-emit-llvm", input, "-o", output, then the options verbatim; input, output and options are recovered from it, and no other vector reads back the same |
| Arguments.CompileAndLinkArgsRoundTrip | src/driver/AmdCompiler.cpp:284-302 | the compile-and-link vector is the common flags, input, "-o", output, then the options; it reads back uniquely |
| Arguments.CompileAndLinkArgsDiffer | src/driver/AmdCompiler.cpp:284-302 | a compile-and-link vector is never a compile-to-bitcode vector |
| Arguments.LinkArgsLayout | src/driver/AmdCompiler.cpp:268-281 | the llvm-link arguments are the input names in order, "-o", the output name, then the options |
| Arguments.LinkArgvLayout | src/driver/AmdCompiler.cpp:149-155 | the spawned argv is the llvm-link path, "-v", exactly the given arguments, then its only null |
| Pipeline.TempBitcode | src/driver/AmdCompiler.cpp:260 | each per-input temp file is a read-only LLVM bitcode File |
| Pipeline.CompileEach | src/driver/AmdCompiler.cpp:258-263 | the multi-input loop makes one call and allocates one temp file per input it tries, never more than the inputs, all of them files |
| Pipeline.CompileEachInOrder | src/driver/AmdCompiler.cpp:259-261 | the j-th call compiles the j-th input into the j-th temp file with the caller's options |
| Pipeline.CompileEachTemps | src/driver/AmdCompiler.cpp:259-262 | the j-th temp file is the one allocated at counter c + j |
| Pipeline.CompileEachFirst | src/driver/AmdCompiler.cpp:259-262 | if the first input fails the loop stops after one call; otherwise it goes on with the rest |
| Pipeline.CompileEachOkIff | src/driver/AmdCompiler.cpp:258-263 | the loop succeeds iff every input compiles, and then it has made exactly one call per input |
| Pipeline.CompileEachStopsAfterFailure | src/driver/AmdCompiler.cpp:261 | a failed loop's last call is the first input that did not compile; every earlier one did |
| Pipeline.CompileEachIsBatchPrefix | src/driver/AmdCompiler.cpp:258-263 | the calls and temp files of the loop are always the first steps of the full in-order batch |
| Pipeline.CompileEachAllCompile | src/driver/AmdCompiler.cpp:258-263 | when all compile, the loop makes every input's call and allocates every temp file, in order |
| Pipeline.CompileEachStopsAt | src/driver/AmdCompiler.cpp:261 | when input k is the first failure, the loop fails after exactly k + 1 calls and k + 1 allocations; later inputs are not compiled |
| Pipeline.CompileToBitcodeSingleInput | src/driver/AmdCompiler.cpp:255-256 | one input is delegated to the single-input compile with the same output and options; nothing is allocated |
| Pipeline.LinkOnlyAfterAllCompiled | src/driver/AmdCompiler.cpp:257-264 | llvm-link is called iff every input compiled; it is then the last call, on the temp files in input order with no options, and decides the result; a failed compile means failure |
| Pipeline.CompileEachTempsDistinct | src/driver/AmdCompiler.cpp:258-262 | the temp files of one batch are pairwise distinct, for any stems mktemp leaves for the batch's counter values |
| Pipeline.CompileToBitcodeMakesNoExecutableCall | src/driver/AmdCompiler.cpp:253-266 | no call of a bitcode compile is a compile-and-link call |
| Pipeline.CompileAndLinkBitcodeFirst | src/driver/AmdCompiler.cpp:309-313 | several inputs go first into one fresh temp bitcode file: the temps are that file followed by the inner compile's, and the calls are exactly those of the no-option bitcode compile into it; the final compile-and-link with the caller's options runs iff that succeeded, runs last and decides the result |
| AmdCompiler.TempCounter.constructor | src/driver/AmdCompiler.cpp:196 | the temp counter starts at 1 |
| AmdCompiler.AMDGPUCompiler.constructor | src/driver/AmdCompiler.cpp:86-95 | the Clang driver is llvmBin/clang targeting amdgcn-amd-amdhsa, titled "AMDGPU OpenCL driver", with the input-existence check off; llvm-link is llvmBin/llvm-link; nothing is owned yet |
| AmdCompiler.AMDGPUCompiler.Output | src/driver/AmdCompiler.cpp:60 | the output is always empty |
| AmdCompiler.AMDGPUCompiler.AddCommonArgs | src/driver/AmdCompiler.cpp:79-84 | appends exactly "-x cl", "-Xclang", "-cl-std=CL1.2", "-v" in order and leaves earlier entries unchanged |
| AmdCompiler.AMDGPUCompiler.ToInputFile | src/driver/AmdCompiler.cpp:172-176 | the cast gives the same file, with its name and type |
| AmdCompiler.AMDGPUCompiler.ToOutputFile | src/driver/AmdCompiler.cpp:178-182 | the cast gives the same file, with its name and type |
| AmdCompiler.AMDGPUCompiler.AddData | src/driver/AmdCompiler.cpp:45-46 | the artifact is appended to the owned list and returned |
| AmdCompiler.AMDGPUCompiler.NewInputFile | src/driver/AmdCompiler.cpp:184-187 | a read-only File with the given type and path, appended as the one new owned artifact |
| AmdCompiler.AMDGPUCompiler.NewOutputFile | src/driver/AmdCompiler.cpp:189-192 | a writable File with the given type and path, appended as the one new owned artifact |
| AmdCompiler.AMDGPUCompiler.NewTempFile | src/driver/AmdCompiler.cpp:194-217 | the temp file named from the current counter value, which moves on by exactly one; appended as the one new owned artifact |
| AmdCompiler.AMDGPUCompiler.NewBufferReference | src/driver/AmdCompiler.cpp:219-222 | gives no artifact (null) |
| AmdCompiler.AMDGPUCompiler.NewBuffer | src/driver/AmdCompiler.cpp:224-227 | gives no artifact (null) |
| AmdCompiler.AMDGPUCompiler.InvokeDriver | src/driver/AmdCompiler.cpp:97-147 | one Clang call with exactly these arguments; succeeds iff the folded status is 0 |
| AmdCompiler.AMDGPUCompiler.InvokeLLVMLink | src/driver/AmdCompiler.cpp:149-170 | one llvm-link spawn with the path, "-v", the arguments and a null; succeeds iff it exits with 0 |
| AmdCompiler.AMDGPUCompiler.CompileToLLVMBitcodeOne | src/driver/AmdCompiler.cpp:229-249 | one Clang call with the compile layout; its result is the call's |
| AmdCompiler.AMDGPUCompiler.CompileToLLVMBitcode | src/driver/AmdCompiler.cpp:253-266 | result, calls, owned artifacts and counter are exactly those of the specified multi-input bitcode compile |
| AmdCompiler.AMDGPUCompiler.CompileEachInput | src/driver/AmdCompiler.cpp:258-263 | the loop's result, calls, allocations and counter are those of the specified batch; the collected files are the temp files of the inputs that compiled |
| AmdCompiler.AMDGPUCompiler.LinkLLVMBitcode | src/driver/AmdCompiler.cpp:268-282 | one llvm-link call with the link layout; its result is the call's |
| AmdCompiler.AMDGPUCompiler.CompileAndLinkExecutableOne | src/driver/AmdCompiler.cpp:284-303 | one Clang call with the compile-and-link layout; its result is the call's |
| AmdCompiler.AMDGPUCompiler.CompileAndLinkExecutable | src/driver/AmdCompiler.cpp:305-314 | result, calls, owned artifacts and counter are exactly those of the specified compile-and-link |
| AmdCompiler.AMDGPUCompiler.CompileAndLinkViaBitcode | src/driver/AmdCompiler.cpp:309-313 | the several-input branch: temp file, bitcode compile without options, then compile-and-link, as specified |
| AmdCompiler.CreateAMDGPUCompiler | src/driver/AmdCompiler.cpp:316-319 | a new compiler for llvmBin, owning nothing, sharing the process-wide counter |
| Driver.Triple.constructor | src/driver/Driver.cpp:66 | a default triple has every component unknown |
| Driver.ConstructTriple | src/driver/Driver.cpp:28-35 | sets architecture, vendor and OS to the arguments; environment and object format are untouched |
| Driver.ConstructTripleWithEnvironment | src/driver/Driver.cpp:37-48 | the triple holds exactly the five given components |
| Driver.OpenCLDriver.constructor | src/driver/Driver.cpp:86 | a new driver has no Clang path, no diagnostics engine and no Clang driver |
| Driver.OpenCLDriver.Init | src/driver/Driver.cpp:56-84 | records the path; fails iff it is empty, changing nothing else; otherwise creates diagnostics and a Clang driver for the path targeting amdgcn/AMD/AMDHSA/AMDOpenCL/ELF, titled, with the input check off; the member triple is untouched |
| Driver.OpenCLDriver.Build | src/driver/Driver.cpp:88-134 | returns the folded status: 0 iff the compilation's status and every scanned failing command's status is 0; diagnostics go to the first crashed command |

## Left out

- Logging of the argument lists to `errs()` (src/driver/AmdCompiler.cpp:99-103, 156-163) is output only and is not modelled.
- `PrintActions` (src/driver/AmdCompiler.cpp:131, src/driver/Driver.cpp:118) prints only, so it is not modelled. On a null compilation it dereferences null; the model treats it as a no-op.
- `generateCompilationDiagnostics` is a foreign call. It is modelled only as the command `FoldExitStatus` and `Build` return as diagnosed.
- `BuildCompilation`, `ExecuteCompilation` and `ExecuteAndWait` are foreign calls. They are the `clang` and `exec` oracles of `Env`, and they are deterministic functions of their arguments.
- `mktemp` and `GetTempPath` are OS calls. They are the `mktemp` oracle, indexed by the counter value, and the `tempPath` parameter.
- `LLVM_ON_WIN32` and `_WIN32` are merged into one `win32` flag.
- The diagnostics engine and its printer are modelled only as whether they were created (`hasDiags`).
- `Fini`, `llvm_shutdown` and the `new`/`delete` ownership of artifacts and drivers are resource teardown and are not modelled. A null returned by the buffer constructors is `None`.
- `Triple::str()` is not modelled: a triple is kept component by component. Clang driver targets are `TargetName` for a string or `TargetTriple` for a triple.
- `LLVMModule` (src/driver/AmdCompiler.h:70-71) is an empty class that is never constructed, so it is not modelled.
- `Buffer::Buf()` exposes mutable storage. Nothing in the core writes to it, so a buffer is a value.
- src/roc-cl/roc-cl.cpp, src/driver/Driver.h and src/unittest/Tests.cpp are not part of this model.
- AmdCompiler.AMDGPUCompiler.NewTempFile: the counter is unbounded (`nat`). The C++ `int` overflow after 2^31 - 1 calls is not modelled.
- AmdCompiler.TempCounter.constructor: the counter is a shared object passed to each compiler, not a function-local static. Sharing it across compilers is how the model says it is process-wide.
- Driver.OpenCLDriver.Build: requires that `Init` created the Clang driver. Before a successful `Init` the `clangDriver` member is an uninitialised pointer (src/driver/Driver.cpp:25-26, src/driver/Driver.h:42-44), and using it is undefined behaviour.
- Driver.OpenCLDriver.constructor: the constructor leaves the `clangDriver` and `diags` pointers uninitialised. The model represents that indeterminate state as `None` and `false`, so it does not capture a `Fini` deleting such a pointer.
- AmdCompiler.AMDGPUCompiler.InvokeDriver: returns only success. The diagnosed command is computed as in `Build` but is not returned.
- AmdCompiler.AMDGPUCompiler.ToInputFile: requires a File. The cast is unchecked in the source, and materializing other artifacts as files is not implemented there; the same applies to `ToOutputFile`.
- AmdCompiler.AMDGPUCompiler.CompileEachInput: the loop body of the multi-input `CompileToLLVMBitcode` is a method of its own, so that its invariants can be stated apart.
