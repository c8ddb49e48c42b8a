/** The backend glue of crates/rustc_codegen_qir/src/lib.rs: compiling one
    codegen unit into a module, wrapping modules into buffers for thin
    merging and caching, the no-op optimizer, object emission, and the
    rlib-only `link`.

    The source declares the module payload as bytes (`Vec<u8>`) and the
    buffers as words (`Vec<u32>`) and passes one straight into the other.
    The model routes that hand-over through the validated byte-to-word
    conversion, so wrapping a payload whose length is not a whole number of
    words is a fatal error. */
module Backend {
  import opened Core
  import opened Errors
  import opened Buffers
  import opened Rustc
  import Compiler

  /** `ExtraBackendMethods::compile_codegen_unit`: build the unit's module,
      serialize it with `writeBitcode` (the bitcode writer, opaque here),
      and report it as a regular module named after the unit, at cost 0.
      A failed compile is fatal; `compile` never fails, so neither does this. */
  method CompileCodegenUnit(cgu: Compiler.CodegenUnit, writeBitcode: Compiler.IrModule -> seq<Byte>)
    returns (r: Result<(ModuleCodegen, nat), Abort>)
    ensures r.Ok?
    ensures r.value.0.name == cgu.name && r.value.0.kind == Regular
    ensures r.value.0.moduleLlvm == writeBitcode(Compiler.IrModule(cgu.name, cgu.items, []))
    ensures r.value.1 == 0
  {
    var codegen := Compiler.New(cgu);
    var compiled := Compiler.Compile(codegen);
    assert [] + cgu.items == cgu.items;
    match compiled {
      case Ok(m) =>
        r := Ok((ModuleCodegen(cgu.name, writeBitcode(m), Regular), 0));
      case Err(e) =>
        r := Err(Fatal("could not compile module " + cgu.name + ": " + e));
    }
  }

  /** `WriteBackendMethods::prepare_thin`: the module's name with a thin
      buffer over its payload; the buffer's byte view is the payload itself. */
  function PrepareThin(m: ModuleCodegen): (r: Result<(string, QirThinBuffer), FatalError>)
    ensures r.Ok? <==> |m.moduleLlvm| % WORD_SIZE == 0
    ensures r.Ok? ==> r.value.0 == m.name && r.value.1.Data() == m.moduleLlvm
  {
    match FromByteArrayToBinary(m.moduleLlvm)
    case Err(e) => Err(e)
    case Ok(bin) =>
      BytesRoundTrip(m.moduleLlvm);
      Ok((m.name, QirThinBuffer(bin)))
  }

  /** `WriteBackendMethods::serialize_module`: the module's name with a
      module buffer over its payload; the buffer's byte view is the payload itself. */
  function SerializeModule(m: ModuleCodegen): (r: Result<(string, QirModuleBuffer), FatalError>)
    ensures r.Ok? <==> |m.moduleLlvm| % WORD_SIZE == 0
    ensures r.Ok? ==> r.value.0 == m.name && r.value.1.Data() == m.moduleLlvm
  {
    match FromByteArrayToBinary(m.moduleLlvm)
    case Err(e) => Err(e)
    case Ok(bin) =>
      BytesRoundTrip(m.moduleLlvm);
      Ok((m.name, QirModuleBuffer(bin)))
  }

  /** `WriteBackendMethods::optimize`: optimizations are no-ops and always succeed. */
  function Optimize(m: ModuleCodegen): (r: Result<(), FatalError>)
    ensures r.Ok?
  {
    Ok(())
  }

  /** What the file system did with an attempted object write. */
  datatype IoOutcome = Written | CreateFailed(reason: string) | WriteFailed(reason: string)

  /** A file the backend wrote, with its contents. */
  datatype EmittedFile = EmittedFile(path: Path, contents: seq<Byte>)

  /** `WriteBackendMethods::codegen`: write the module's payload to its
      temporary object path (`tempObjectPath` of the module name) and
      describe it as a compiled module whose only output is that object.
      A create or write failure is fatal and logged with its cause. */
  function Codegen(tempObjectPath: string -> Path, m: ModuleCodegen, io: IoOutcome)
    : (r: Result<(CompiledModule, EmittedFile), FatalError>)
    ensures r.Ok? <==> io.Written?
    ensures r.Ok? ==> r.value.1 == EmittedFile(tempObjectPath(m.name), m.moduleLlvm)
    ensures r.Ok? ==> r.value.0.name == m.name && r.value.0.kind == m.kind
    ensures r.Ok? ==> r.value.0.objectFile == Some(r.value.1.path)
    ensures r.Ok? ==> r.value.0.dwarfObject.None? && r.value.0.bytecode.None?
    ensures io.CreateFailed? ==> r == Err(QirFatalError(CouldNotCreate(tempObjectPath(m.name), io.reason)))
    ensures io.WriteFailed? ==> r == Err(QirFatalError(CouldNotWrite(io.reason)))
  {
    var path := tempObjectPath(m.name);
    match io
    case CreateFailed(reason) => Err(QirFatalError(CouldNotCreate(path, reason)))
    case WriteFailed(reason) => Err(QirFatalError(CouldNotWrite(reason)))
    case Written =>
      Ok((CompiledModule(m.name, m.kind, Some(path), None, None), EmittedFile(path, m.moduleLlvm)))
  }

  /** The text `link` writes into every output file. */
  const COMPILED_MESSAGE: string := "This has been \"compiled\" successfully."

  /** An output file written by `link`. */
  datatype OutputFile = OutputFile(path: Path, contents: string)

  /** The files `link` wrote and, if it stopped, why. */
  datatype LinkOutcome = LinkOutcome(files: seq<OutputFile>, abort: Option<Abort>)

  /** `CodegenBackend::link` over the requested crate types: each `Rlib`
      gets the fixed message at its output path (`outFilename` of the crate
      type and the crate's local name); the first
      other crate type ends the session fatally, naming it, and nothing
      after it is written. */
  function Link(crateTypes: seq<CrateType>, crateInfo: CrateInfo, outFilename: (CrateType, string) -> Path): (r: LinkOutcome)
    ensures r.abort.None? <==> forall i :: 0 <= i < |crateTypes| ==> crateTypes[i] == Rlib
    ensures r.abort.None? ==> |r.files| == |crateTypes|
    ensures r.abort.Some? ==> |r.files| < |crateTypes| && crateTypes[|r.files|] != Rlib
    ensures r.abort.Some? ==> r.abort.value == Fatal("Crate type is " + CrateTypeDebug(crateTypes[|r.files|]))
    ensures forall j :: 0 <= j < |r.files| ==>
      crateTypes[j] == Rlib && r.files[j] == OutputFile(outFilename(Rlib, crateInfo.localCrateName), COMPILED_MESSAGE)
    decreases |crateTypes|
  {
    if |crateTypes| == 0 then LinkOutcome([], None)
    else if crateTypes[0] != Rlib then
      LinkOutcome([], Some(Fatal("Crate type is " + CrateTypeDebug(crateTypes[0]))))
    else
      var rest := Link(crateTypes[1..], crateInfo, outFilename);
      LinkOutcome([OutputFile(outFilename(crateTypes[0], crateInfo.localCrateName), COMPILED_MESSAGE)] + rest.files, rest.abort)
  }
}
