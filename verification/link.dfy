/** Crate-type dispatch and rlib assembly of
    crates/rustc_codegen_qir/src/link.rs.

    For every requested crate type, in order: an executable is skipped
    when no code is generated and no metadata was asked for; a crate type
    the target cannot produce is a compiler bug; every module object must
    be writeable; then, if outputs are generated, an rlib is planned from
    the module objects and any other crate type is reported as unsupported
    while the loop goes on. Planning an rlib collects the object files in
    module order and reports each named, bundled static native library. */
module Link {
  import opened Core
  import opened Rustc
  import Backend

  /** The session and output settings `link` consults. */
  datatype LinkConfig = LinkConfig(
    crateTypes: seq<CrateType>,
    /** `-Z no-codegen`. */
    noCodegen: bool,
    /** `sess.opts.output_types.should_codegen()`. */
    sessionShouldCodegen: bool,
    /** Metadata is among the requested output types. */
    outputMetadata: bool,
    /** Crate types `invalid_output_for_target` rejects. */
    invalidForTarget: set<CrateType>,
    /** Paths `check_file_is_writeable` rejects. */
    notWriteable: set<Path>,
    targetTriple: string,
    /** `outputs.outputs.should_codegen()`. */
    outputsShouldCodegen: bool,
    /** The crate name `link` is given. */
    crateName: string,
    /** `out_filename` for a crate type and crate name. */
    outFilename: (CrateType, string) -> Path)

  /** A non-fatal error reported with `sess.err`. */
  datatype Diagnostic = CrateTypeNotSupported(crateType: CrateType) | NativeLibNotSupported(name: string)

  /** What `link_rlib` assembles: the output path and the object files. */
  datatype RlibPlan = RlibPlan(outFilename: Path, fileList: seq<Path>)

  /** The object file of one module, if it has one. */
  function ObjectOf(m: CompiledModule): seq<Path> {
    match m.objectFile
    case Some(p) => [p]
    case None => []
  }

  /** The object files of the modules that have one, in module order. */
  function ObjectFiles(modules: seq<CompiledModule>): (paths: seq<Path>)
    ensures |paths| <= |modules|
    ensures forall p :: p in paths ==> exists i :: 0 <= i < |modules| && modules[i].objectFile == Some(p)
    ensures forall i :: 0 <= i < |modules| && modules[i].objectFile.Some? ==> modules[i].objectFile.value in paths
    decreases |modules|
  {
    if |modules| == 0 then []
    else
      var rest := ObjectFiles(modules[1..]);
      assert forall i :: 1 <= i < |modules| ==> modules[i] == modules[1..][i - 1];
      ObjectOf(modules[0]) + rest
  }

  /** Collecting objects commutes with concatenating module lists, so the
      objects keep the modules' relative order. */
  lemma {:induction false} ObjectFilesAppend(a: seq<CompiledModule>, b: seq<CompiledModule>)
    ensures ObjectFiles(a + b) == ObjectFiles(a) + ObjectFiles(b)
    decreases |a|
  {
    if |a| > 0 {
      var ab := a + b;
      assert ab[0] == a[0] && ab[1..] == a[1..] + b;
      ObjectFilesAppend(a[1..], b);
      var head, restA, restB := ObjectOf(a[0]), ObjectFiles(a[1..]), ObjectFiles(b);
      assert ObjectFiles(ab) == head + (restA + restB);
      assert ObjectFiles(a) == head + restA;
      assert head + (restA + restB) == (head + restA) + restB;
    } else {
      assert a + b == b;
    }
  }

  /** When every module has an object, the file list is exactly their
      objects, position by position. */
  lemma {:induction false} ObjectFilesInModuleOrder(modules: seq<CompiledModule>)
    requires forall i :: 0 <= i < |modules| ==> modules[i].objectFile.Some?
    ensures |ObjectFiles(modules)| == |modules|
    ensures forall i :: 0 <= i < |modules| ==> ObjectFiles(modules)[i] == modules[i].objectFile.value
    decreases |modules|
  {
    if |modules| > 0 {
      ObjectFilesInModuleOrder(modules[1..]);
    }
  }

  /** The native libraries an rlib cannot take yet: static ones that are
      bundled (explicitly or by default) and carry a name. */
  predicate RejectedFromRlib(lib: NativeLib) {
    lib.kind.Static? && lib.kind.bundle != Some(false) && lib.name.Some?
  }

  /** The error `link_rlib` reports for one native library, if any. */
  function NativeLibError(lib: NativeLib): seq<Diagnostic> {
    var skipped :=
      match lib.kind
      case Static(bundle, _) => bundle == Some(false)
      case DynamicLib(_) => true
      case Framework(_) => true
      case RawDylib => true
      case LinkArg => true
      case Unspecified => true;
    if skipped then []
    else
      match lib.name
      case Some(name) => [NativeLibNotSupported(name)]
      case None => []
  }

  /** The errors `link_rlib` reports over the crate's native libraries, in order. */
  function NativeLibErrors(libs: seq<NativeLib>): (errors: seq<Diagnostic>)
    ensures |errors| <= |libs|
    ensures forall d :: d in errors ==> d.NativeLibNotSupported?
    decreases |libs|
  {
    if |libs| == 0 then [] else NativeLibError(libs[0]) + NativeLibErrors(libs[1..])
  }

  /** Exactly one error for a named bundled static library, none for any
      other library. */
  lemma NativeLibErrorExactly(lib: NativeLib)
    ensures NativeLibErrors([lib]) ==
      (if RejectedFromRlib(lib) then [NativeLibNotSupported(lib.name.value)] else [])
  {
    assert [lib][1..] == [];
  }

  /** Errors over a list of libraries are the errors of its parts, in order. */
  lemma {:induction false} NativeLibErrorsAppend(a: seq<NativeLib>, b: seq<NativeLib>)
    ensures NativeLibErrors(a + b) == NativeLibErrors(a) + NativeLibErrors(b)
    decreases |a|
  {
    if |a| > 0 {
      NativeLibErrorsAppend(a[1..], b);
      assert (a + b)[0] == a[0];
      assert (a + b)[1..] == a[1..] + b;
    } else {
      assert a + b == b;
    }
  }

  /** Every rejected library is reported, and every report names a rejected library. */
  lemma {:induction false} NativeLibErrorsComplete(libs: seq<NativeLib>)
    ensures forall i :: 0 <= i < |libs| && RejectedFromRlib(libs[i]) ==>
      NativeLibNotSupported(libs[i].name.value) in NativeLibErrors(libs)
    ensures forall d :: d in NativeLibErrors(libs) ==>
      exists i :: 0 <= i < |libs| && RejectedFromRlib(libs[i]) && d == NativeLibNotSupported(libs[i].name.value)
    decreases |libs|
  {
    if |libs| > 0 {
      NativeLibErrorsComplete(libs[1..]);
      NativeLibErrorExactly(libs[0]);
      assert libs == [libs[0]] + libs[1..];
      NativeLibErrorsAppend([libs[0]], libs[1..]);
      forall d | d in NativeLibErrors(libs)
        ensures exists i :: 0 <= i < |libs| && RejectedFromRlib(libs[i]) && d == NativeLibNotSupported(libs[i].name.value)
      {
        if d !in NativeLibError(libs[0]) {
          var i :| 0 <= i < |libs[1..]| && RejectedFromRlib(libs[1..][i]) && d == NativeLibNotSupported(libs[1..][i].name.value);
          assert libs[i + 1] == libs[1..][i];
        }
      }
      forall i | 0 <= i < |libs| && RejectedFromRlib(libs[i])
        ensures NativeLibNotSupported(libs[i].name.value) in NativeLibErrors(libs)
      {
        if i > 0 {
          assert libs[i] == libs[1..][i - 1];
        }
      }
    }
  }

  /** `link_rlib`: plan the rlib from the module objects and report the
      native libraries it cannot take. */
  function LinkRlib(results: CodegenResults, outFilename: Path): (r: (RlibPlan, seq<Diagnostic>))
    ensures r.0.outFilename == outFilename
    ensures forall i :: 0 <= i < |results.modules| && results.modules[i].objectFile.Some? ==>
      results.modules[i].objectFile.value in r.0.fileList
    ensures forall p :: p in r.0.fileList ==>
      exists i :: 0 <= i < |results.modules| && results.modules[i].objectFile == Some(p)
    ensures forall d :: d in r.1 <==>
      exists i :: 0 <= i < |results.crateInfo.usedLibraries| && RejectedFromRlib(results.crateInfo.usedLibraries[i])
        && d == NativeLibNotSupported(results.crateInfo.usedLibraries[i].name.value)
  {
    NativeLibErrorsComplete(results.crateInfo.usedLibraries);
    (RlibPlan(outFilename, ObjectFiles(results.modules)), NativeLibErrors(results.crateInfo.usedLibraries))
  }

  /** The first path in `paths` that is not writeable, if any: the object
      whose writeability check fails first. */
  function FirstNotWriteable(paths: seq<Path>, notWriteable: set<Path>): (r: Option<Path>)
    ensures r.None? <==> forall i :: 0 <= i < |paths| ==> paths[i] !in notWriteable
    ensures r.Some? ==> r.value in notWriteable
    ensures r.Some? ==> exists i :: 0 <= i < |paths| && paths[i] == r.value
                                    && forall k :: 0 <= k < i ==> paths[k] !in notWriteable
    decreases |paths|
  {
    if |paths| == 0 then None
    else if paths[0] in notWriteable then Some(paths[0])
    else
      var rest := FirstNotWriteable(paths[1..], notWriteable);
      assert forall i :: 1 <= i < |paths| ==> paths[i] == paths[1..][i - 1];
      assert rest.Some? ==> exists i :: 0 <= i < |paths| && paths[i] == rest.value
                                        && forall k :: 0 <= k < i ==> paths[k] !in notWriteable by {
        if rest.Some? {
          var j :| 0 <= j < |paths[1..]| && paths[1..][j] == rest.value
                   && forall k :: 0 <= k < j ==> paths[1..][k] !in notWriteable;
          assert paths[j + 1] == rest.value;
          forall k | 0 <= k < j + 1 ensures paths[k] !in notWriteable {
            if k > 0 { assert paths[k] == paths[1..][k - 1]; }
          }
        }
      }
      rest
  }

  /** True when some module's object is not writeable. */
  predicate HasUnwriteableObject(cfg: LinkConfig, results: CodegenResults) {
    exists i :: 0 <= i < |results.modules| && results.modules[i].objectFile.Some?
                && results.modules[i].objectFile.value in cfg.notWriteable
  }

  /** What one iteration of `link`'s loop does with a crate type. */
  datatype Step = Skipped | Aborted(abort: Abort) | Linked(errors: seq<Diagnostic>, rlib: Option<RlibPlan>)

  /** True when `link` skips an executable because nothing is generated. */
  predicate SkipsExecutable(cfg: LinkConfig) {
    (cfg.noCodegen || !cfg.sessionShouldCodegen) && !cfg.outputMetadata
  }

  /** One iteration of `link`'s loop. */
  function LinkStep(cfg: LinkConfig, results: CodegenResults, ct: CrateType): (s: Step)
    ensures s.Skipped? <==> ct == Executable && SkipsExecutable(cfg)
    ensures !s.Skipped? && ct in cfg.invalidForTarget ==> s.Aborted? && s.abort.Bug?
    ensures !s.Skipped? && ct !in cfg.invalidForTarget && HasUnwriteableObject(cfg, results) ==>
      s.Aborted? && s.abort.NotWriteable? && s.abort.path in cfg.notWriteable
      && s.abort.path in ObjectFiles(results.modules)
    ensures s.Aborted? && s.abort.NotWriteable? ==>
      Some(s.abort.path) == FirstNotWriteable(ObjectFiles(results.modules), cfg.notWriteable)
    ensures !s.Skipped? && ct !in cfg.invalidForTarget && !HasUnwriteableObject(cfg, results) ==> s.Linked?
    ensures s.Linked? && cfg.outputsShouldCodegen && ct == Rlib ==>
      s.rlib == Some(RlibPlan(cfg.outFilename(Rlib, cfg.crateName), ObjectFiles(results.modules)))
      && s.errors == NativeLibErrors(results.crateInfo.usedLibraries)
    ensures s.Linked? && cfg.outputsShouldCodegen && ct != Rlib ==>
      s.rlib.None? && s.errors == [CrateTypeNotSupported(ct)]
    ensures s.Linked? && !cfg.outputsShouldCodegen ==> s == Linked([], None)
  {
    if SkipsExecutable(cfg) && ct == Executable then Skipped
    else if ct in cfg.invalidForTarget then
      Aborted(Bug("invalid output type `" + CrateTypeDebug(ct) + "` for target os `" + cfg.targetTriple + "`"))
    else
      match FirstNotWriteable(ObjectFiles(results.modules), cfg.notWriteable)
      case Some(p) => Aborted(NotWriteable(p))
      case None =>
        if !cfg.outputsShouldCodegen then Linked([], None)
        else
          match ct
          case Rlib =>
            var (plan, errors) := LinkRlib(results, cfg.outFilename(ct, cfg.crateName));
            Linked(errors, Some(plan))
          case _ => Linked([CrateTypeNotSupported(ct)], None)
  }

  /** Everything `link` reported and planned, and the abort that ended it, if any. */
  datatype LinkReport = LinkReport(errors: seq<Diagnostic>, rlibs: seq<RlibPlan>, abort: Option<Abort>)

  /** `link`'s loop over the crate types: continue past skipped and
      reported crate types, stop at the first abort. */
  function LinkCrateTypes(cfg: LinkConfig, results: CodegenResults, cts: seq<CrateType>): (r: LinkReport)
    ensures r.abort.None? <==> forall i :: 0 <= i < |cts| ==> !LinkStep(cfg, results, cts[i]).Aborted?
    ensures |r.rlibs| <= |cts|
    decreases |cts|
  {
    if |cts| == 0 then LinkReport([], [], None)
    else
      var rest := LinkCrateTypes(cfg, results, cts[1..]);
      assert forall i :: 1 <= i < |cts| ==> cts[i] == cts[1..][i - 1];
      match LinkStep(cfg, results, cts[0])
      case Skipped => rest
      case Aborted(a) => LinkReport([], [], Some(a))
      case Linked(errors, rlib) =>
        var planned := match rlib case Some(p) => [p] case None => [];
        LinkReport(errors + rest.errors, planned + rest.rlibs, rest.abort)
  }

  /** The run stops with the abort of the first crate type whose step aborts. */
  lemma {:induction false} LinkCrateTypesFirstAbort(cfg: LinkConfig, results: CodegenResults, cts: seq<CrateType>)
    ensures var r := LinkCrateTypes(cfg, results, cts);
      r.abort.Some? ==>
        exists i :: 0 <= i < |cts| && LinkStep(cfg, results, cts[i]) == Aborted(r.abort.value)
                    && (forall k :: 0 <= k < i ==> !LinkStep(cfg, results, cts[k]).Aborted?)
    decreases |cts|
  {
    var r := LinkCrateTypes(cfg, results, cts);
    if |cts| > 0 && r.abort.Some? {
      LinkCrateTypesCons(cfg, results, cts);
      var step := LinkStep(cfg, results, cts[0]);
      if step.Aborted? {
        assert step == Aborted(r.abort.value);
      } else {
        assert r.abort == LinkCrateTypes(cfg, results, cts[1..]).abort;
        LinkCrateTypesFirstAbort(cfg, results, cts[1..]);
        var j :| 0 <= j < |cts[1..]| && LinkStep(cfg, results, cts[1..][j]) == Aborted(r.abort.value)
                 && (forall k :: 0 <= k < j ==> !LinkStep(cfg, results, cts[1..][k]).Aborted?);
        assert cts[j + 1] == cts[1..][j];
        forall k | 0 <= k < j + 1
          ensures !LinkStep(cfg, results, cts[k]).Aborted?
        {
          if k > 0 { assert cts[k] == cts[1..][k - 1]; }
        }
      }
    }
  }

  /** What a single step contributes to the loop's report. */
  function StepReport(s: Step): LinkReport {
    match s
    case Skipped => LinkReport([], [], None)
    case Aborted(a) => LinkReport([], [], Some(a))
    case Linked(errors, rlib) => LinkReport(errors, if rlib.Some? then [rlib.value] else [], None)
  }

  /** Running on after the part reported by `first`: an abort in `first` ends
      the run there; otherwise the errors and plans of `rest` follow those of
      `first` and the run ends as `rest` ends. */
  function Then(first: LinkReport, rest: LinkReport): LinkReport {
    if first.abort.Some? then first
    else LinkReport(first.errors + rest.errors, first.rlibs + rest.rlibs, rest.abort)
  }

  /** The loop over one crate type reports exactly what its step does. */
  lemma LinkOneCrateType(cfg: LinkConfig, results: CodegenResults, ct: CrateType)
    ensures LinkCrateTypes(cfg, results, [ct]) == StepReport(LinkStep(cfg, results, ct))
  {
    assert [ct][1..] == [];
  }

  /** One loop iteration: the first crate type's step, then the rest. */
  lemma LinkCrateTypesCons(cfg: LinkConfig, results: CodegenResults, cts: seq<CrateType>)
    requires |cts| > 0
    ensures LinkCrateTypes(cfg, results, cts)
         == Then(StepReport(LinkStep(cfg, results, cts[0])), LinkCrateTypes(cfg, results, cts[1..]))
  {
    var rest := LinkCrateTypes(cfg, results, cts[1..]);
    match LinkStep(cfg, results, cts[0])
    case Skipped =>
      assert [] + rest.errors == rest.errors && [] + rest.rlibs == rest.rlibs;
    case Aborted(_) =>
    case Linked(_, rlib) =>
      assert (if rlib.Some? then [rlib.value] else []) == (match rlib case Some(p) => [p] case None => []);
  }

  lemma ThenAssociative(x: LinkReport, y: LinkReport, z: LinkReport)
    ensures Then(Then(x, y), z) == Then(x, Then(y, z))
  {
    if x.abort.None? && y.abort.None? {
      assert (x.errors + y.errors) + z.errors == x.errors + (y.errors + z.errors);
      assert (x.rlibs + y.rlibs) + z.rlibs == x.rlibs + (y.rlibs + z.rlibs);
    }
  }

  /** The run over `a + b` is the run over `a` followed by the run over `b`:
      it stops where `a`'s run stops, and otherwise reports `a`'s errors and
      plans, then `b`'s, in crate-type order, ending as `b`'s run ends. */
  lemma {:induction false} LinkCrateTypesAppend(cfg: LinkConfig, results: CodegenResults, a: seq<CrateType>, b: seq<CrateType>)
    ensures LinkCrateTypes(cfg, results, a + b) == Then(LinkCrateTypes(cfg, results, a), LinkCrateTypes(cfg, results, b))
    decreases |a|
  {
    if |a| == 0 {
      assert a + b == b;
      var rb := LinkCrateTypes(cfg, results, b);
      assert [] + rb.errors == rb.errors && [] + rb.rlibs == rb.rlibs;
    } else {
      assert (a + b)[0] == a[0] && (a + b)[1..] == a[1..] + b;
      var head := StepReport(LinkStep(cfg, results, a[0]));
      LinkCrateTypesCons(cfg, results, a + b);
      LinkCrateTypesCons(cfg, results, a);
      LinkCrateTypesAppend(cfg, results, a[1..], b);
      ThenAssociative(head, LinkCrateTypes(cfg, results, a[1..]), LinkCrateTypes(cfg, results, b));
    }
  }

  /** `link`. */
  function Link(cfg: LinkConfig, results: CodegenResults): (r: LinkReport)
    ensures r.abort.None? <==> forall i :: 0 <= i < |cfg.crateTypes| ==> !LinkStep(cfg, results, cfg.crateTypes[i]).Aborted?
    ensures |r.rlibs| <= |cfg.crateTypes|
  {
    LinkCrateTypes(cfg, results, cfg.crateTypes)
  }

  /** A crate type `link` gets past without stopping: a skipped executable,
      or a crate type the target can produce while every object is writeable. */
  predicate Passes(cfg: LinkConfig, results: CodegenResults, ct: CrateType) {
    (ct == Executable && SkipsExecutable(cfg))
    || (ct !in cfg.invalidForTarget && !HasUnwriteableObject(cfg, results))
  }

  /** `link` runs to the end exactly when every requested crate type passes:
      an invalid crate type that is not skipped, or an unwriteable object
      met by any crate type that is not skipped, ends it. */
  lemma LinkAbortsExactly(cfg: LinkConfig, results: CodegenResults)
    ensures Link(cfg, results).abort.None? <==>
      forall i :: 0 <= i < |cfg.crateTypes| ==> Passes(cfg, results, cfg.crateTypes[i])
  {
  }

  /** Number of `Rlib` entries in `cts`. */
  function RlibCount(cts: seq<CrateType>): nat
    decreases |cts|
  {
    if |cts| == 0 then 0 else (if cts[0] == Rlib then 1 else 0) + RlibCount(cts[1..])
  }

  /** When the loop runs to the end and outputs are generated, every
      requested rlib is planned from the module objects in module order,
      and every other crate type that was not skipped is reported. */
  lemma {:induction false} LinkPlansEveryRlib(cfg: LinkConfig, results: CodegenResults, cts: seq<CrateType>)
    requires cfg.outputsShouldCodegen
    requires LinkCrateTypes(cfg, results, cts).abort.None?
    ensures var r := LinkCrateTypes(cfg, results, cts);
      && |r.rlibs| == RlibCount(cts)
      && (forall k :: 0 <= k < |r.rlibs| ==>
            r.rlibs[k] == RlibPlan(cfg.outFilename(Rlib, cfg.crateName), ObjectFiles(results.modules)))
      && (forall i :: 0 <= i < |cts| && cts[i] != Rlib && !LinkStep(cfg, results, cts[i]).Skipped? ==>
            CrateTypeNotSupported(cts[i]) in r.errors)
    decreases |cts|
  {
    if |cts| > 0 {
      LinkPlansEveryRlib(cfg, results, cts[1..]);
      var r := LinkCrateTypes(cfg, results, cts);
      var rest := LinkCrateTypes(cfg, results, cts[1..]);
      forall i | 0 <= i < |cts| && cts[i] != Rlib && !LinkStep(cfg, results, cts[i]).Skipped?
        ensures CrateTypeNotSupported(cts[i]) in r.errors
      {
        if i > 0 {
          assert cts[i] == cts[1..][i - 1];
        }
      }
    }
  }

  /** With codegen off and no metadata requested, a build of executables
      only does nothing at all. */
  lemma {:induction false} ExecutablesSkipped(cfg: LinkConfig, results: CodegenResults, cts: seq<CrateType>)
    requires SkipsExecutable(cfg)
    requires forall i :: 0 <= i < |cts| ==> cts[i] == Executable
    ensures LinkCrateTypes(cfg, results, cts) == LinkReport([], [], None)
    decreases |cts|
  {
    if |cts| > 0 {
      ExecutablesSkipped(cfg, results, cts[1..]);
    }
  }

  /** When outputs are not generated, `link` reports nothing and plans
      nothing; only an abort can come out of it. */
  lemma {:induction false} NoOutputsNoReports(cfg: LinkConfig, results: CodegenResults, cts: seq<CrateType>)
    requires !cfg.outputsShouldCodegen
    ensures LinkCrateTypes(cfg, results, cts).errors == []
    ensures LinkCrateTypes(cfg, results, cts).rlibs == []
    decreases |cts|
  {
    if |cts| > 0 {
      NoOutputsNoReports(cfg, results, cts[1..]);
    }
  }

  /** Objects emitted by `codegen` reach the rlib's file list in the order
      the modules were supplied, whatever order they were emitted in. */
  lemma EmittedObjectsInModuleOrder(
    tempObjectPath: string -> Path, modules: seq<ModuleCodegen>, compiled: seq<CompiledModule>)
    requires |compiled| == |modules|
    requires forall i :: 0 <= i < |modules| ==>
      compiled[i] == Backend.Codegen(tempObjectPath, modules[i], Backend.Written).value.0
    ensures |ObjectFiles(compiled)| == |modules|
    ensures forall i :: 0 <= i < |modules| ==> ObjectFiles(compiled)[i] == tempObjectPath(modules[i].name)
  {
    ObjectFilesInModuleOrder(compiled);
  }
}
