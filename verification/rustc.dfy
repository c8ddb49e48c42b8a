/** The rustc data the backend receives and returns: modules in flight,
    compiled modules, crate types, native libraries and codegen results.
    These belong to the host compiler; the model keeps only the fields the
    backend reads or writes. */
module Rustc {
  import opened Core

  /** `ModuleKind`. */
  datatype ModuleKind = Regular | Metadata | Allocator

  /** `ModuleCodegen<Vec<u8>>`: a unit's module, its payload being the
      serialized target representation. */
  datatype ModuleCodegen = ModuleCodegen(name: string, moduleLlvm: seq<Byte>, kind: ModuleKind)

  /** `CompiledModule`: a module after emission, with the files it produced. */
  datatype CompiledModule = CompiledModule(
    name: string,
    kind: ModuleKind,
    objectFile: Option<Path>,
    dwarfObject: Option<Path>,
    bytecode: Option<Path>)

  /** `CrateType`. */
  datatype CrateType = Executable | Dylib | Rlib | Staticlib | Cdylib | ProcMacro

  /** The `{:?}` rendering of a crate type. */
  function CrateTypeDebug(ct: CrateType): string {
    match ct
    case Executable => "Executable"
    case Dylib => "Dylib"
    case Rlib => "Rlib"
    case Staticlib => "Staticlib"
    case Cdylib => "Cdylib"
    case ProcMacro => "ProcMacro"
  }

  /** `NativeLibKind`; `DynamicLib` is its `Dylib` variant, renamed here to
      keep it apart from the crate type of the same name. */
  datatype NativeLibKind =
    | Static(bundle: Option<bool>, wholeArchive: Option<bool>)
    | DynamicLib(asNeeded: Option<bool>)
    | RawDylib
    | Framework(asNeeded: Option<bool>)
    | LinkArg
    | Unspecified

  /** `NativeLib`: a native library the crate asks to link. */
  datatype NativeLib = NativeLib(name: Option<string>, kind: NativeLibKind)

  /** `CrateInfo`, reduced to what linking reads. */
  datatype CrateInfo = CrateInfo(localCrateName: string, usedLibraries: seq<NativeLib>)

  /** `EncodedMetadata`: the crate metadata, opaque to the backend. */
  datatype EncodedMetadata = EncodedMetadata(raw: seq<Byte>)

  /** `CodegenResults`. */
  datatype CodegenResults = CodegenResults(
    modules: seq<CompiledModule>,
    allocatorModule: Option<CompiledModule>,
    metadataModule: Option<CompiledModule>,
    metadata: EncodedMetadata,
    crateInfo: CrateInfo)

  /** A session-ending condition: `sess.fatal`, `bug!`, or the fatal
      diagnostic rustc raises for an output file it cannot write. */
  datatype Abort =
    | Fatal(message: string)
    | Bug(message: string)
    | NotWriteable(path: Path)
}
