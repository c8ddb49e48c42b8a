/** The earlier backend entry points of src/lib.rs: the same triple
    resolution with rustc's default target options, and a crate codegen
    that produces no modules at all. */
module Legacy {
  import opened Core
  import opened Rustc
  import Target
  import Link

  /** `QirCodegenBackend::target_override` (earlier version): the QIR
      target for exactly the QIR triples, with every option at its default,
      so atomics are not capped below the pointer width. */
  function TargetOverride(triple: Target.TargetTriple): (r: Option<Target.Target>)
    ensures r.Some? <==> Target.IsQirTriple(triple.triple)
    ensures r.Some? ==> r.value.arch == "qir" && r.value.dataLayout == "e" && r.value.pointerWidth == 64
    ensures r.Some? ==> r.value.llvmTarget == "qir-unknown-base" && r.value.options == Target.DEFAULT_OPTIONS
    ensures r.Some? ==> Target.MaxAtomicWidth(r.value) == 64
  {
    Target.Resolve(triple, Target.DEFAULT_OPTIONS)
  }

  /** Both versions own the same triples and describe the same target,
      except that the later one disables atomics and enables dynamic linking. */
  lemma VersionsDifferOnlyInOptions(triple: Target.TargetTriple)
    ensures TargetOverride(triple).Some? <==> Target.TargetOverride(triple).Some?
    ensures TargetOverride(triple).Some? ==>
      Target.TargetOverride(triple).value
        == TargetOverride(triple).value.(options := Target.GenerateQirTargetOptions())
  {}

  /** The target CPU the earlier `codegen_crate` records in its crate info. */
  const QIR_TARGET_CPU: string := "qir"

  /** `CodegenBackend::codegen_crate` (earlier version): no modules, no
      allocator or metadata module, the metadata passed through, and crate
      info built by rustc's `CrateInfo::new` (`newCrateInfo`, opaque here)
      for the `qir` target CPU. */
  function CodegenCrate(metadata: EncodedMetadata, newCrateInfo: string -> CrateInfo): (r: CodegenResults)
    ensures r.modules == [] && r.allocatorModule.None? && r.metadataModule.None?
    ensures r.metadata == metadata
    ensures r.crateInfo == newCrateInfo("qir")
  {
    CodegenResults([], None, None, metadata, newCrateInfo(QIR_TARGET_CPU))
  }

  /** Results of the earlier codegen carry the metadata unchanged and give
      an rlib nothing to collect. */
  lemma CodegenCrateLinksNothing(metadata: EncodedMetadata, newCrateInfo: string -> CrateInfo, outFilename: Path)
    ensures CodegenCrate(metadata, newCrateInfo).metadata == metadata
    ensures CodegenCrate(metadata, newCrateInfo).allocatorModule.None?
    ensures CodegenCrate(metadata, newCrateInfo).metadataModule.None?
    ensures Link.LinkRlib(CodegenCrate(metadata, newCrateInfo), outFilename).0.fileList == []
  {}
}
