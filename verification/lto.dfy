/** Thin-LTO coordination (`run_thin` in crates/rustc_codegen_qir/src/lto.rs).

    Fresh modules and cached ones are moved into one shared pool: their
    buffers, kept apart by origin, and a single list of C-string names,
    fresh names first and cached work-product names after, each group in
    its input order. One thin job is made per name, holding the pool and
    that name's index. Merging itself is a no-op, so no work product is
    returned. A name with an embedded NUL aborts the whole call. */
module Lto {
  import opened Core
  import opened Text
  import opened Errors
  import opened Buffers
  import Rustc
  import Backend

  /** `SerializedModule<QirModuleBuffer>`: a cached module, from memory, an
      rlib, or a file. */
  datatype SerializedModule =
    | Local(buffer: QirModuleBuffer)
    | FromRlib(bytes: seq<Byte>)
    | FromUncompressedFile(bytes: seq<Byte>)

  /** `WorkProduct`: a cache entry keyed by the codegen unit's name. */
  datatype WorkProduct = WorkProduct(cguName: string, savedFiles: map<string, string>)

  /** `ThinShared`: the pool every job of one call shares. */
  datatype ThinShared = ThinShared(
    thinBuffers: seq<QirThinBuffer>,
    serializedModules: seq<SerializedModule>,
    moduleNames: seq<CString>)

  /** `ThinModule`: the pool and the index of this job's module in it. */
  datatype ThinModule = ThinModule(shared: ThinShared, idx: nat)

  /** `LtoModuleCodegen`; the fat variant is never built by this backend. */
  datatype LtoModuleCodegen = Thin(thinModule: ThinModule)

  /** Which loop of `run_thin` rejected a name. */
  datatype NameOrigin = FreshModule | CachedWorkProduct

  /** True when no name holds a NUL. */
  predicate AllEncodable(names: seq<string>) {
    forall k :: 0 <= k < |names| ==> NUL !in names[k]
  }

  /** The fatal error for a name that is not a valid C string, logged with
      the loop that found it and the `NulError` describing the name. */
  function NameError(origin: NameOrigin, name: string): FatalError
    requires NUL in name
  {
    var cause := NewCString(name).error;
    match origin
    case FreshModule => QirFatalError(CouldNotGetModuleName(cause))
    case CachedWorkProduct => QirFatalError(CouldNotGetCguName(cause))
  }

  /** One of `run_thin`'s loops: convert every name to a C string in order,
      stopping at the first name that holds a NUL. */
  function EncodeNames(names: seq<string>, origin: NameOrigin): (r: Result<seq<CString>, FatalError>)
    ensures r.Ok? <==> AllEncodable(names)
    ensures r.Ok? ==> r.value == names
    ensures forall i :: 0 <= i < |names| && NUL in names[i] && AllEncodable(names[..i]) ==>
      r == Err(NameError(origin, names[i]))
    decreases |names|
  {
    if |names| == 0 then Ok([])
    else
      match NewCString(names[0])
      case Err(e) => Err(NameError(origin, names[0]))
      case Ok(first) =>
        match EncodeNames(names[1..], origin)
        case Err(e) =>
          assert forall i :: 1 <= i <= |names| && AllEncodable(names[..i]) ==> AllEncodable(names[1..][..i - 1]) by {
            forall i | 1 <= i <= |names| && AllEncodable(names[..i])
              ensures AllEncodable(names[1..][..i - 1])
            {
              var tail, prefix := names[1..][..i - 1], names[..i];
              forall k | 0 <= k < |tail| ensures NUL !in tail[k] {
                assert tail[k] == prefix[k + 1];
              }
            }
          }
          Err(e)
        case Ok(rest) => Ok([first] + rest)
  }

  /** Names of the fresh modules, in input order. */
  function FreshNames(modules: seq<(string, QirThinBuffer)>): (names: seq<string>)
    ensures |names| == |modules|
    ensures forall i :: 0 <= i < |modules| ==> names[i] == modules[i].0
  {
    seq(|modules|, i requires 0 <= i < |modules| => modules[i].0)
  }

  /** Buffers of the fresh modules, in input order. */
  function FreshBuffers(modules: seq<(string, QirThinBuffer)>): (buffers: seq<QirThinBuffer>)
    ensures |buffers| == |modules|
    ensures forall i :: 0 <= i < |modules| ==> buffers[i] == modules[i].1
  {
    seq(|modules|, i requires 0 <= i < |modules| => modules[i].1)
  }

  /** Unit names of the cached work products, in input order. */
  function CachedNames(cached: seq<(SerializedModule, WorkProduct)>): (names: seq<string>)
    ensures |names| == |cached|
    ensures forall j :: 0 <= j < |cached| ==> names[j] == cached[j].1.cguName
  {
    seq(|cached|, j requires 0 <= j < |cached| => cached[j].1.cguName)
  }

  /** Serialized cached modules, in input order. */
  function CachedModules(cached: seq<(SerializedModule, WorkProduct)>): (sms: seq<SerializedModule>)
    ensures |sms| == |cached|
    ensures forall j :: 0 <= j < |cached| ==> sms[j] == cached[j].0
  {
    seq(|cached|, j requires 0 <= j < |cached| => cached[j].0)
  }

  /** One thin job per pool name, job `i` pointing at name `i`. */
  function ThinJobs(shared: ThinShared): (jobs: seq<LtoModuleCodegen>)
    ensures |jobs| == |shared.moduleNames|
    ensures forall i :: 0 <= i < |jobs| ==> jobs[i] == Thin(ThinModule(shared, i))
  {
    seq(|shared.moduleNames|, i requires 0 <= i < |shared.moduleNames| => Thin(ThinModule(shared, i)))
  }

  /** `run_thin`. */
  function RunThin(modules: seq<(string, QirThinBuffer)>, cached: seq<(SerializedModule, WorkProduct)>)
    : (r: Result<(seq<LtoModuleCodegen>, seq<WorkProduct>), FatalError>)
    ensures r.Ok? <==> AllEncodable(FreshNames(modules)) && AllEncodable(CachedNames(cached))
    ensures r.Ok? ==> |r.value.0| == |modules| + |cached| && r.value.1 == []
    ensures r.Ok? ==> forall i :: 0 <= i < |r.value.0| ==>
      && r.value.0[i].thinModule.idx == i
      && r.value.0[i].thinModule.shared.moduleNames == FreshNames(modules) + CachedNames(cached)
      && r.value.0[i].thinModule.shared.thinBuffers == FreshBuffers(modules)
      && r.value.0[i].thinModule.shared.serializedModules == CachedModules(cached)
  {
    match EncodeNames(FreshNames(modules), FreshModule)
    case Err(e) => Err(e)
    case Ok(freshNames) =>
      match EncodeNames(CachedNames(cached), CachedWorkProduct)
      case Err(e) => Err(e)
      case Ok(cachedNames) =>
        var shared := ThinShared(FreshBuffers(modules), CachedModules(cached), freshNames + cachedNames);
        Ok((ThinJobs(shared), []))
  }

  /** All jobs of a successful call share one pool. */
  lemma OnePool(modules: seq<(string, QirThinBuffer)>, cached: seq<(SerializedModule, WorkProduct)>, i: nat, j: nat)
    requires RunThin(modules, cached).Ok?
    requires i < |RunThin(modules, cached).value.0| && j < |RunThin(modules, cached).value.0|
    ensures RunThin(modules, cached).value.0[i].thinModule.shared
         == RunThin(modules, cached).value.0[j].thinModule.shared
  {}

  /** Job `i` names fresh module `i`, and job `|modules| + j` names cached
      work product `j`: the pool keeps fresh before cached, each in input order. */
  lemma JobNames(modules: seq<(string, QirThinBuffer)>, cached: seq<(SerializedModule, WorkProduct)>)
    requires RunThin(modules, cached).Ok?
    ensures var jobs := RunThin(modules, cached).value.0;
      && (forall i :: 0 <= i < |modules| ==>
            jobs[i].thinModule.shared.moduleNames[jobs[i].thinModule.idx] == modules[i].0
            && jobs[i].thinModule.shared.thinBuffers[i] == modules[i].1)
      && (forall j :: 0 <= j < |cached| ==>
            jobs[|modules| + j].thinModule.shared.moduleNames[jobs[|modules| + j].thinModule.idx] == cached[j].1.cguName
            && jobs[|modules| + j].thinModule.shared.serializedModules[j] == cached[j].0)
  {
    var jobs := RunThin(modules, cached).value.0;
    var names := FreshNames(modules) + CachedNames(cached);
    forall j | 0 <= j < |cached|
      ensures jobs[|modules| + j].thinModule.shared.moduleNames[jobs[|modules| + j].thinModule.idx] == cached[j].1.cguName
    {
      assert names[|modules| + j] == CachedNames(cached)[j];
    }
  }

  /** A NUL in the first offending fresh name aborts the call with that
      name's error, whatever the cached entries hold. */
  lemma FreshNameRejected(modules: seq<(string, QirThinBuffer)>, cached: seq<(SerializedModule, WorkProduct)>, i: nat)
    requires i < |modules| && NUL in modules[i].0
    requires forall k :: 0 <= k < i ==> NUL !in modules[k].0
    ensures RunThin(modules, cached) == Err(NameError(FreshModule, modules[i].0))
  {
    var names := FreshNames(modules);
    assert AllEncodable(names[..i]) by {
      forall k | 0 <= k < i ensures NUL !in names[..i][k] {
        assert names[..i][k] == modules[k].0;
      }
    }
  }

  /** With every fresh name valid, the first cached name holding a NUL
      aborts the call with that name's error; no job list survives. */
  lemma CachedNameRejected(modules: seq<(string, QirThinBuffer)>, cached: seq<(SerializedModule, WorkProduct)>, j: nat)
    requires AllEncodable(FreshNames(modules))
    requires j < |cached| && NUL in cached[j].1.cguName
    requires forall k :: 0 <= k < j ==> NUL !in cached[k].1.cguName
    ensures RunThin(modules, cached) == Err(NameError(CachedWorkProduct, cached[j].1.cguName))
  {
    var names := CachedNames(cached);
    assert AllEncodable(names[..j]) by {
      forall k | 0 <= k < j ensures NUL !in names[..j][k] {
        assert names[..j][k] == cached[k].1.cguName;
      }
    }
  }

  /** Modules prepared with `prepare_thin` and merged with nothing cached
      give one job per module, job `i` naming module `i` and holding its payload. */
  lemma PreparedModulesKeepNames(modules: seq<Rustc.ModuleCodegen>, prepared: seq<(string, QirThinBuffer)>)
    requires |prepared| == |modules|
    requires forall i :: 0 <= i < |modules| ==>
      Backend.PrepareThin(modules[i]).Ok? && prepared[i] == Backend.PrepareThin(modules[i]).value
    requires forall i :: 0 <= i < |modules| ==> NUL !in modules[i].name
    ensures RunThin(prepared, []).Ok?
    ensures var jobs := RunThin(prepared, []).value.0;
      |jobs| == |modules|
      && forall i :: 0 <= i < |modules| ==>
           jobs[i].thinModule.shared.moduleNames[i] == modules[i].name
           && jobs[i].thinModule.shared.thinBuffers[i].Data() == modules[i].moduleLlvm
  {
    assert AllEncodable(FreshNames(prepared));
    assert CachedNames([]) == [];
  }
}
