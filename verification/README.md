# QIR codegen backend for rustc — Dafny model

This project models the parts of the `rustc_codegen_qir` backend that hold
real decision logic, as immutable datatypes and pure functions with proved
contracts:

- **Target-profile resolution** (`Target`, `Legacy`): a target triple is
  split on `-`; exactly three segments with a third segment naming a QIR
  profile (only `base` exists) yield a `qir` target with 64-bit pointers,
  data layout `e` and LLVM target `qir-unknown-base`; anything else is "not
  this backend's target". The crate version caps atomics at width 0 and
  enables dynamic linking; the earlier `src/lib.rs` version keeps rustc's
  default options.
- **Module buffers** (`Buffers`): buffers hold 32-bit words; their byte
  view is the memory image of those words, and bytes become words only
  when the length is a multiple of 4. Both round trips are proved.
- **Unit compilation and backend glue** (`Compiler`, `Backend`): `compile`
  predefines every item of a codegen unit once, in the unit's order;
  `compile_codegen_unit` reports a regular module named after the unit at
  cost 0; `prepare_thin` and `serialize_module` keep the module's name and
  wrap its payload; `optimize` is a no-op; `codegen` emits the object file;
  `link` writes one file per rlib and stops fatally at any other crate type.
- **Thin-LTO coordination** (`Lto`): `run_thin` pools fresh and cached
  modules, fresh names first, each group in input order, makes job `i` for
  name `i`, returns no work products, and fails on the first name holding
  a NUL.
- **Linking** (`Link`): the per-crate-type loop of `link.rs` and the rlib
  planning of `link_rlib`, including which native libraries are reported.

`Core` holds `Option`/`Result` and the byte, word and path types; `Text`
holds `split`, `join` and `CString::new`; `Errors` models
`qir_fatal_error_wrapper`; `Rustc` holds the host compiler's data types.

Modelling choices:

- rustc's `FatalError` is a unit marker. The model's `FatalError` also
  keeps the message the backend logged when raising it (`None` when it
  logged nothing), so contracts can say which failure was reported.
- The model fixes little-endian byte order for words; the source
  reinterprets memory in the host's byte order (see "## Left out").
- The crate's `lib.rs` declares the module payload as `Vec<u8>` and passes
  it straight into buffers declared over `Vec<u32>` (lib.rs:199, 293, 297
  against lto.rs:16, 24). The model keeps bytes as the payload and words in
  the buffers, and routes the hand-over through the validated conversion,
  so `Backend.PrepareThin` and `Backend.SerializeModule` return a `Result`
  that fails when the payload is not a whole number of words.
- `link_rlib` only assembles the list of object files and writes nothing;
  no archive is produced.
- An unsupported crate type in `link.rs` is a non-fatal error, and the loop
  continues with the next crate type.
- Unbundled static libraries, dynamic libraries, frameworks, raw dylibs and
  link arguments are skipped without a report; only named, bundled static
  libraries are reported.
- The earlier `target_override` in `src/lib.rs` does not cap atomics.
- `CString::new` reports the NUL's offset in the UTF-8 encoding of the
  name; the model computes it from the characters' encoded widths.
- rustc's own services are parameters: `out_filename` and the temporary
  object path are functions, `invalid_output_for_target` and
  `check_file_is_writeable` are sets, the bitcode writer is a function from
  the IR module to bytes, and the outcome of a file write is an input.

## Model

| member | source | states |
|---|---|---|
| Text.Split | crates/rustc_codegen_qir/src/lib.rs:159-164 | `split("-")` yields one more segment than there are dashes, and no segment holds a dash |
| Text.JoinSplit | crates/rustc_codegen_qir/src/lib.rs:159-164 | splitting loses nothing: joining the segments with the dash gives the triple back |
| Text.SplitJoin | crates/rustc_codegen_qir/src/lib.rs:159-164 | dash-free segments joined with dashes split back into exactly those segments |
| Text.NewCString | crates/rustc_codegen_qir/src/lto.rs:79-81 | `CString::new` accepts exactly the names without NUL, unchanged, and otherwise reports the UTF-8 byte offset of the first NUL, which lies between its character index and four times that index |
| Text.AsciiNulPosition | crates/rustc_codegen_qir/src/lto.rs:79-81 | for an ASCII name the reported byte offset is the index of the first NUL |
| Text.WideCharShiftsNulPosition | crates/rustc_codegen_qir/src/lto.rs:79-81 | in `"é\0"` the NUL is reported at byte offset 2, after the two-byte `é` |
| Errors.QirFatalError | crates/rustc_codegen_qir/src/qir_errors.rs:4-7 | the fatal error carries the message that was logged with it |
| Buffers.FromBinaryToByteArray | crates/rustc_codegen_qir/src/lto.rs:34-44 | the byte view of a word slice has exactly four bytes per word |
| Buffers.ByteArrayLayout | crates/rustc_codegen_qir/src/lto.rs:34-44 | byte `k` of the view is byte `k % 4` of word `k / 4`: the view is the words' memory image in order |
| Buffers.Reinterpret | crates/rustc_codegen_qir/src/lto.rs:61-66 | a word-aligned byte run reads as `len / 4` words, word `i` built from bytes `4i` to `4i+3` |
| Buffers.FromByteArrayToBinary | crates/rustc_codegen_qir/src/lto.rs:48-67 | fails, logging nothing, if and only if the length is not a multiple of 4; on success gives `len / 4` words read from consecutive byte quadruples |
| Buffers.WordsRoundTrip | crates/rustc_codegen_qir/src/lto.rs:34-67 | word to byte to word always succeeds and returns the original words |
| Buffers.BytesRoundTrip | crates/rustc_codegen_qir/src/lto.rs:34-67 | for every byte buffer whose length is a multiple of 4, byte to word succeeds and word to byte returns the original bytes |
| Buffers.QirModuleBuffer.Data | crates/rustc_codegen_qir/src/lto.rs:16-22 | a module buffer's byte view has four bytes per word and converts back to the buffer's own words |
| Buffers.QirThinBuffer.Data | crates/rustc_codegen_qir/src/lto.rs:24-30 | a thin buffer's byte view has four bytes per word and converts back to the buffer's own words |
| Target.DeserializeProfile | crates/rustc_codegen_qir/src/lib.rs:377-381 | a raw profile deserializes to the profile whose tag it is, and fails only when no profile has that tag |
| Target.ProfileRoundTrip | crates/rustc_codegen_qir/src/lib.rs:377-381 | every profile deserializes back from its own tag |
| Target.GenerateQirTargetOptions | crates/rustc_codegen_qir/src/lib.rs:359-369 | atomics capped at width 0, dynamic linking on, every other option equal to the default |
| Target.QirTripleShape | crates/rustc_codegen_qir/src/lib.rs:159-178 | three split segments ending in `base` is the same as the shape `arch-vendor-base` with dash-free arch and vendor |
| Target.Resolve | crates/rustc_codegen_qir/src/lib.rs:156-195 | resolution succeeds exactly for `arch-vendor-base` triples (plain or JSON), and then gives arch `qir`, layout `e`, 64-bit pointers, LLVM target `qir-unknown-base` and the given options |
| Target.TargetOverride | crates/rustc_codegen_qir/src/lib.rs:156-195 | the crate's `target_override` owns exactly the QIR triples and its target has atomics capped at 0 (effective atomic width 0) and dynamic linking on |
| Target.WrongSegmentCountRejected | crates/rustc_codegen_qir/src/lib.rs:166-169 | a triple whose dash count is not two is never resolved |
| Target.ArchAndVendorIgnored | crates/rustc_codegen_qir/src/lib.rs:171-191 | the result depends only on the profile segment; any dash-free arch and vendor give the same answer |
| Target.ExtraSegmentRejected | crates/rustc_codegen_qir/src/lib.rs:166-169 | a triple with four or more segments is rejected even when its third segment is `base` |
| Target.BaseTripleAccepted | crates/rustc_codegen_qir/src/lib.rs:180-194 | `qir-unknown-base` resolves to the full QIR target descriptor |
| Target.EmptySegmentsCount | crates/rustc_codegen_qir/src/lib.rs:159-169 | `--base` has three (empty) segments and is accepted |
| Target.HostTripleRejected | crates/rustc_codegen_qir/src/lib.rs:166-169 | `x86_64-unknown-linux-gnu` has four segments and is rejected |
| Target.TrailingDashRejected | crates/rustc_codegen_qir/src/lib.rs:166-169 | `qir-unknown-base-` has a fourth, empty, segment and is rejected |
| Target.UnknownProfileRejected | crates/rustc_codegen_qir/src/lib.rs:171-178 | `qir-unknown-nope` has three segments but no such profile and is rejected |
| Target.UnknownProfileSegmentRejected | crates/rustc_codegen_qir/src/lib.rs:171-178 | three dash-free segments whose third names no QIR profile are rejected, whatever the options |
| Legacy.TargetOverride | src/lib.rs:121-159 | the earlier `target_override` owns exactly the QIR triples, with the same descriptor but default options, so the effective atomic width is the pointer width, 64 |
| Legacy.VersionsDifferOnlyInOptions | src/lib.rs:142-158 | both versions accept the same triples and their targets differ only in the options |
| Legacy.CodegenCrate | src/lib.rs:81-96 | the earlier `codegen_crate` produces no module and no allocator or metadata module, passes the metadata through unchanged, and takes its crate info from rustc's `CrateInfo::new` (a parameter) for the target CPU `qir` |
| Legacy.CodegenCrateLinksNothing | src/lib.rs:89-95 | the earlier codegen passes the metadata through, has no allocator or metadata module, and leaves an rlib no object to collect |
| Compiler.New | crates/rustc_codegen_qir/src/codegen/mod.rs:24-37 | a new compiler's module is named after the codegen unit and starts with nothing declared or defined |
| Compiler.Compile | crates/rustc_codegen_qir/src/codegen/mod.rs:39-49 | `compile` always succeeds (the source panics in its `todo!()` predefine hooks instead; see "## Left out"), keeps the module's name, appends every unit item exactly once in the unit's order with its linkage and visibility, and translates no body |
| Backend.CompileCodegenUnit | crates/rustc_codegen_qir/src/lib.rs:313-341 | the unit compiles to a regular module named after the unit, whose payload is the bitcode of a module declaring exactly the unit's items in order, at cost 0 |
| Backend.PrepareThin | crates/rustc_codegen_qir/src/lib.rs:292-294 | succeeds exactly for word-aligned payloads; keeps the module's name and a thin buffer whose byte view is the payload |
| Backend.SerializeModule | crates/rustc_codegen_qir/src/lib.rs:296-298 | succeeds exactly for word-aligned payloads; keeps the module's name and a module buffer whose byte view is the payload |
| Backend.Optimize | crates/rustc_codegen_qir/src/lib.rs:233-241 | optimizing never fails |
| Backend.Codegen | crates/rustc_codegen_qir/src/lib.rs:258-290 | on a successful write the payload is emitted at the module's temporary object path and the compiled module keeps name and kind with that object as its only output; a create or write failure is fatal and logged with its cause |
| Backend.Link | crates/rustc_codegen_qir/src/lib.rs:130-148 | the link stops fatally, naming it, at the first crate type that is not `Rlib`; every rlib before it gets one file holding the fixed message at `out_filename` of `Rlib` and the crate's local name; with only rlibs no `sess.fatal` is raised (the `unwrap()` panics on a failed create or write are not modelled; see "## Left out") |
| Lto.EncodeNames | crates/rustc_codegen_qir/src/lto.rs:78-98 | converting names succeeds exactly when none holds a NUL, returns them unchanged, and otherwise fails with the error for the first offending name |
| Lto.RunThin | crates/rustc_codegen_qir/src/lto.rs:70-120 | `run_thin` fails exactly when some fresh or cached name holds a NUL; on success there is one job per name, job `i` has index `i`, every job's pool holds fresh names then cached names and both buffer lists in input order, and no work product is returned |
| Lto.ThinJobs | crates/rustc_codegen_qir/src/lto.rs:107-117 | one thin job per pool name, job `i` holding the pool and index `i`; `JobNames` ties each job back to its input module |
| Lto.OnePool | crates/rustc_codegen_qir/src/lto.rs:100-117 | all jobs of one call share the same pool |
| Lto.JobNames | crates/rustc_codegen_qir/src/lto.rs:75-117 | job `i` names fresh module `i` and holds its buffer; job `len(modules) + j` names cached work product `j` and its module |
| Lto.FreshNameRejected | crates/rustc_codegen_qir/src/lto.rs:78-85 | the first fresh name holding a NUL aborts the whole call with that name's logged error |
| Lto.CachedNameRejected | crates/rustc_codegen_qir/src/lto.rs:89-98 | with all fresh names valid, the first cached unit name holding a NUL aborts the whole call with that name's logged error |
| Lto.PreparedModulesKeepNames | crates/rustc_codegen_qir/src/lto.rs:78-117 | modules passed through `prepare_thin` and merged with nothing cached give one job per module, job `i` naming module `i` with its payload as the buffer's bytes |
| Link.ObjectFiles | crates/rustc_codegen_qir/src/link.rs:61-68 | the collected paths are exactly the objects of the modules that have one |
| Link.ObjectFilesAppend | crates/rustc_codegen_qir/src/link.rs:61-68 | collecting commutes with concatenation, so objects keep the modules' relative order |
| Link.ObjectFilesInModuleOrder | crates/rustc_codegen_qir/src/link.rs:61-68 | when every module has an object, path `i` is module `i`'s object |
| Link.NativeLibErrorExactly | crates/rustc_codegen_qir/src/link.rs:69-90 | a named static library that is bundled (explicitly or by default) gives exactly one error; every other library, including an unnamed bundled one, gives none |
| Link.NativeLibErrors | crates/rustc_codegen_qir/src/link.rs:69-91 | at most one report per library, each one a native-library report; `NativeLibErrorsComplete` shows the reports are exactly the rejected libraries |
| Link.NativeLibErrorsAppend | crates/rustc_codegen_qir/src/link.rs:69-91 | errors over a library list are the errors of its parts, in library order |
| Link.NativeLibErrorsComplete | crates/rustc_codegen_qir/src/link.rs:69-91 | every rejected library is reported and every report names a rejected library |
| Link.LinkRlib | crates/rustc_codegen_qir/src/link.rs:60-92 | the rlib plan targets the given path, lists exactly the module objects, and reports exactly the rejected native libraries |
| Link.FirstNotWriteable | crates/rustc_codegen_qir/src/link.rs:35-41 | the writeability check passes exactly when no object is unwriteable, and otherwise names the first unwriteable object in module order, the one whose check fails first |
| Link.LinkStep | crates/rustc_codegen_qir/src/link.rs:19-56 | an executable is skipped exactly when no code is generated and no metadata was requested; otherwise an invalid crate type aborts with a bug, then an unwriteable object aborts naming the first unwriteable object in module order, and a valid crate type with writeable objects is linked; with outputs generated an rlib is planned from the module objects with the native-library errors, and any other type gets one "not supported" error |
| Link.LinkCrateTypes | crates/rustc_codegen_qir/src/link.rs:19-57 | the loop runs to the end exactly when no crate type's step aborts, and plans at most one rlib per crate type; `LinkCrateTypesFirstAbort`, `LinkOneCrateType` and `LinkCrateTypesAppend` give the abort, errors and plans it reports |
| Link.LinkCrateTypesFirstAbort | crates/rustc_codegen_qir/src/link.rs:19-57 | when the loop stops, it stops with the abort of the first crate type whose step aborts, every earlier one having passed |
| Link.LinkOneCrateType | crates/rustc_codegen_qir/src/link.rs:19-56 | the loop over a single crate type reports exactly that step's errors and plan, or its skip or abort |
| Link.LinkCrateTypesAppend | crates/rustc_codegen_qir/src/link.rs:19-57 | the loop over `a + b` is the loop over `a` followed by the loop over `b`: it stops where `a`'s run stops, and otherwise reports `a`'s errors and plans, then `b`'s, in crate-type order, ending as `b`'s run ends; with `LinkOneCrateType` this fixes the whole report |
| Link.Link | crates/rustc_codegen_qir/src/link.rs:12-58 | `link` aborts exactly when some requested crate type aborts, and plans at most one rlib per crate type |
| Link.LinkAbortsExactly | crates/rustc_codegen_qir/src/link.rs:19-41 | `link` runs to the end exactly when every requested crate type is a skipped executable or is valid for the target with every module object writeable |
| Link.LinkPlansEveryRlib | crates/rustc_codegen_qir/src/link.rs:43-55 | a link that runs to the end with outputs generated plans one rlib per requested `Rlib`, each from the module objects, and reports every other crate type that was not skipped |
| Link.ExecutablesSkipped | crates/rustc_codegen_qir/src/link.rs:18-25 | with codegen off and no metadata requested, a list of executables produces no report, no plan and no abort |
| Link.NoOutputsNoReports | crates/rustc_codegen_qir/src/link.rs:43-56 | when outputs are not generated, nothing is reported or planned |
| Link.EmittedObjectsInModuleOrder | crates/rustc_codegen_qir/src/link.rs:61-68 | objects emitted by `codegen` reach the rlib file list in the order the modules were supplied |

## Left out

- Backend.Link: a failed create or write panics through `unwrap()` (lib.rs:144-145); the model assumes every write succeeds, so a link of rlibs only never ends abnormally.
- Legacy.CodegenCrate: `tcx` and what `CrateInfo::new` records (the target CPU `qir` among it) are not modelled; the crate info is whatever the parameter yields for `qir`.
- File creation and writes: `codegen` (lib.rs:258-290) returns the emitted (path, bytes) record and takes the file system's outcome as an input; `link` (lib.rs:143-145) returns the files it would write.
- `out_filename`, `temp_path`, `invalid_output_for_target` and `check_file_is_writeable` belong to rustc and are parameters (`out_filename` is given the crate type and the crate's local name, as at link.rs:43 and lib.rs:143); the writeability check `out_filename` itself performs is not modelled.
- `items_in_deterministic_order` belongs to rustc: a codegen unit carries its items already in that order.
- Compiler.Compile: the crate's own `predefine_fn` and `predefine_static` (codegen/unknown.rs:20-40) are `todo!()`, so the source's `compile` panics at the first function or static item of a unit; the model instead records the forward declaration those hooks are meant to make, one per item (global `asm!` blocks included, which rustc's `MonoItem::predefine` would not pass on), and always succeeds.
- Backend.CompileCodegenUnit: the bitcode writer (`write_bitcode_to_memory`) is an opaque function parameter; the inkwell context and the rustc query for the unit are not modelled.
- Target.Resolve: `TargetOptions` is reduced to os, vendor, cpu, atomic cap and dynamic linking; the other default fields are not represented.
- The crate version of `codegen_crate` delegates to rustc's `codegen_crate` and `join_codegen` waits on rustc's `OngoingCodegen`; both are rustc plumbing and are not modelled.
- `init` (logger setup), `provide`, `target_machine_factory` and the entry point are process and query plumbing with no decision logic.
- `run_link`, `run_fat_lto`, `optimize_thin`, `optimize_fat`, `print_pass_timings` and `codegen_allocator` are `todo!()` stubs with no behaviour to state.
- The builder (builder/mod.rs, builder/unknown.rs), codegen/unknown.rs, context.rs and the `bell` example are stubs, delegation or inline assembly without logic.
- In `run_thin`, the cached module's `data()` result is discarded, so it is not modelled; the `Arc` around the pool is modelled as one immutable value held by every job.
- Lto.RunThin: `qir_fatal_error_wrapper`'s formatted log text is abstracted to the call site and the `NulError`; the exact message strings are not reproduced.
- Buffers.Reinterpret: the `unsafe` pointer casts of lto.rs (lto.rs:42, 62-65) read memory in the host's byte order and require the byte pointer to be 4-byte aligned; the model fixes little-endian order, as on x86_64 and aarch64 hosts, and has no notion of alignment, so big-endian hosts and a misaligned payload are not modelled.
- Text.NewCString: the rejected text is kept as characters rather than as the UTF-8 byte vector `NulError` holds.
