/** Target-triple resolution of the QIR backend
    (crates/rustc_codegen_qir/src/lib.rs, `target_override`).

    A triple is accepted when it splits on `-` into exactly three segments
    and the third names a QIR profile; the first two segments are not
    inspected. Anything else is "not this backend's target", reported as
    `None` rather than an error. */
module Target {
  import opened Core
  import opened Text

  /** `QIR_ARCH`. */
  const QIR_ARCH: string := "qir"

  /** The separator between triple segments. */
  const DASH: char := '-'

  /** `QirProfile`: the closed set of supported QIR profiles. */
  datatype QirProfile = Base

  /** The tag a profile is written as (`#[serde(rename = "base")]`). */
  function ProfileTag(p: QirProfile): string {
    match p
    case Base => "base"
  }

  /** The error serde reports for a tag naming no variant. */
  datatype SerdeError = UnknownVariant(variant: string)

  /** `QirProfile::deserialize` over a string deserializer: the profile
      whose tag is exactly `raw`, if there is one. */
  function DeserializeProfile(raw: string): (r: Result<QirProfile, SerdeError>)
    ensures r.Ok? ==> ProfileTag(r.value) == raw
    ensures r.Err? ==> forall p: QirProfile :: ProfileTag(p) != raw
  {
    if raw == "base" then Ok(Base) else Err(UnknownVariant(raw))
  }

  /** Every profile reads back from its own tag. */
  lemma ProfileRoundTrip(p: QirProfile)
    ensures DeserializeProfile(ProfileTag(p)) == Ok(p)
  {}

  /** `TargetTriple`: a plain triple, or a JSON target description that carries one. */
  datatype TargetTriple =
    | TargetTriple(triple: string)
    | TargetJson(pathForRustdoc: Path, triple: string, contents: string)

  /** The part of `TargetOptions` the backend sets or leaves at rustc's defaults. */
  datatype TargetOptions = TargetOptions(
    os: string,
    vendor: string,
    cpu: string,
    maxAtomicWidth: Option<nat>,
    dynamicLinking: bool)

  /** `TargetOptions::default()`. */
  const DEFAULT_OPTIONS: TargetOptions :=
    TargetOptions("none", "unknown", "generic", None, false)

  /** rustc's `Target` descriptor. */
  datatype Target = Target(
    arch: string,
    dataLayout: string,
    pointerWidth: nat,
    llvmTarget: string,
    options: TargetOptions)

  /** The widest atomic access rustc allows on `t`: the cap if one is set,
      otherwise the pointer width. */
  function MaxAtomicWidth(t: Target): nat {
    t.options.maxAtomicWidth.UnwrapOr(t.pointerWidth)
  }

  /** `generate_qir_target_options`: atomics capped at width 0, dynamic
      linking on, every other option at its default. */
  function GenerateQirTargetOptions(): (o: TargetOptions)
    ensures o.maxAtomicWidth == Some(0)
    ensures o.dynamicLinking
    ensures o.(maxAtomicWidth := DEFAULT_OPTIONS.maxAtomicWidth,
               dynamicLinking := DEFAULT_OPTIONS.dynamicLinking) == DEFAULT_OPTIONS
  {
    DEFAULT_OPTIONS.(maxAtomicWidth := Some(0), dynamicLinking := true)
  }

  /** `arch-vendor-profile`. */
  function TripleOf(arch: string, vendor: string, profile: string): string {
    arch + [DASH] + vendor + [DASH] + profile
  }

  /** The triples this backend owns, described without `split`: two
      dash-free segments of any content, empty ones included, then the
      profile tag. */
  ghost predicate IsQirTriple(t: string) {
    exists arch: string, vendor: string ::
      DASH !in arch && DASH !in vendor && t == TripleOf(arch, vendor, ProfileTag(Base))
  }

  /** Three segments joined with dashes form a triple. */
  lemma JoinThree(arch: string, vendor: string, profile: string)
    ensures Join([arch, vendor, profile], DASH) == TripleOf(arch, vendor, profile)
  {
    var segments := [arch, vendor, profile];
    assert segments[1..][1..] == [profile];
    assert Join(segments[1..], DASH) == vendor + [DASH] + profile;
    assert Join(segments, DASH) == arch + [DASH] + (vendor + [DASH] + profile);
  }

  /** The segments of a triple built from dash-free parts are those parts. */
  lemma SplitTriple(arch: string, vendor: string, profile: string)
    requires DASH !in arch && DASH !in vendor && DASH !in profile
    ensures Split(TripleOf(arch, vendor, profile), DASH) == [arch, vendor, profile]
  {
    SplitJoin([arch, vendor, profile], DASH);
    JoinThree(arch, vendor, profile);
  }

  /** The `split`-based test in the source and the shape-based description agree. */
  lemma QirTripleShape(t: string)
    ensures IsQirTriple(t) <==> (|Split(t, DASH)| == 3 && Split(t, DASH)[2] == ProfileTag(Base))
  {
    var parts := Split(t, DASH);
    if |parts| == 3 && parts[2] == ProfileTag(Base) {
      JoinSplit(t, DASH);
      assert parts == [parts[0], parts[1], parts[2]];
      JoinThree(parts[0], parts[1], parts[2]);
      assert DASH !in parts[0] && DASH !in parts[1];
      assert t == TripleOf(parts[0], parts[1], ProfileTag(Base));
    }
    if IsQirTriple(t) {
      var arch: string, vendor: string :|
        DASH !in arch && DASH !in vendor && t == TripleOf(arch, vendor, ProfileTag(Base));
      SplitTriple(arch, vendor, ProfileTag(Base));
    }
  }

  /** The body shared by both versions of `target_override`: split the
      triple, require three segments and a known profile, and describe a
      64-bit little-endian `qir` target with the given options. */
  function Resolve(triple: TargetTriple, options: TargetOptions): (r: Option<Target>)
    ensures r.Some? <==> IsQirTriple(triple.triple)
    ensures r.Some? ==> r.value.arch == "qir" && r.value.dataLayout == "e" && r.value.pointerWidth == 64
    ensures r.Some? ==> r.value.llvmTarget == "qir-unknown-base" && r.value.options == options
  {
    QirTripleShape(triple.triple);
    var parts := Split(triple.triple, DASH);
    if |parts| != 3 then None
    else
      var rawProfile := parts[2];
      match DeserializeProfile(rawProfile)
      case Err(_) => None
      case Ok(_) => Some(Target(QIR_ARCH, "e", 64, QIR_ARCH + "-unknown-" + rawProfile, options))
  }

  /** `QirCodegenBackend::target_override`: the QIR target with atomics
      disabled and dynamic linking allowed, for exactly the QIR triples. */
  function TargetOverride(triple: TargetTriple): (r: Option<Target>)
    ensures r.Some? <==> IsQirTriple(triple.triple)
    ensures r.Some? ==> r.value.llvmTarget == "qir-unknown-base" && r.value.pointerWidth == 64
    ensures r.Some? ==> r.value.options.maxAtomicWidth == Some(0) && r.value.options.dynamicLinking
    ensures r.Some? ==> MaxAtomicWidth(r.value) == 0
  {
    Resolve(triple, GenerateQirTargetOptions())
  }

  /** A triple whose dash count is not two has a segment count other than
      three, so it is never this backend's target. */
  lemma {:induction false} WrongSegmentCountRejected(triple: TargetTriple, options: TargetOptions)
    requires Count(triple.triple, DASH) != 2
    ensures Resolve(triple, options).None?
  {
    QirTripleShape(triple.triple);
  }

  /** Splitting a triple with dash-free arch and vendor gives those two
      segments followed by the segments of the profile part. */
  lemma SplitTripleTail(arch: string, vendor: string, profile: string)
    requires DASH !in arch && DASH !in vendor
    ensures Split(TripleOf(arch, vendor, profile), DASH) == [arch, vendor] + Split(profile, DASH)
  {
    SplitAfterSegment(vendor, DASH, profile);
    assert TripleOf(arch, vendor, profile) == arch + [DASH] + (vendor + [DASH] + profile);
    SplitAfterSegment(arch, DASH, vendor + [DASH] + profile);
  }

  /** Only the profile segment decides: the architecture and vendor
      segments are ignored. */
  lemma ArchAndVendorIgnored(arch: string, vendor: string, arch': string, vendor': string, profile: string)
    requires DASH !in arch && DASH !in vendor && DASH !in arch' && DASH !in vendor'
    ensures TargetOverride(TargetTriple(TripleOf(arch, vendor, profile)))
         == TargetOverride(TargetTriple(TripleOf(arch', vendor', profile)))
  {
    SplitTripleTail(arch, vendor, profile);
    SplitTripleTail(arch', vendor', profile);
    var p, p' := Split(TripleOf(arch, vendor, profile), DASH), Split(TripleOf(arch', vendor', profile), DASH);
    assert |p| == |p'|;
    assert |p| == 3 ==> p[2] == p'[2];
  }

  /** The base QIR triple is accepted, with the profile carried into the LLVM target. */
  lemma BaseTripleAccepted()
    ensures TargetOverride(TargetTriple("qir-unknown-base"))
         == Some(Target("qir", "e", 64, "qir-unknown-base", GenerateQirTargetOptions()))
  {
    var t := "qir-unknown-base";
    assert DASH !in "qir" && DASH !in "unknown";
    assert t == TripleOf("qir", "unknown", ProfileTag(Base));
    assert IsQirTriple(t);
  }

  /** Empty segments still count: `--base` has three segments and is accepted. */
  lemma EmptySegmentsCount()
    ensures TargetOverride(TargetTriple("--base")).Some?
  {
    assert "--base" == TripleOf("", "", "base");
    SplitTriple("", "", "base");
  }

  /** A profile segment that itself holds a dash makes four or more
      segments, which is never this backend's target. */
  lemma {:induction false} ExtraSegmentRejected(arch: string, vendor: string, profile: string, rest: string)
    requires DASH !in arch && DASH !in vendor && DASH !in profile
    ensures TargetOverride(TargetTriple(TripleOf(arch, vendor, profile + [DASH] + rest))).None?
  {
    var t := TripleOf(arch, vendor, profile + [DASH] + rest);
    SplitAfterSegment(profile, DASH, rest);
    SplitAfterSegment(vendor, DASH, profile + [DASH] + rest);
    SplitAfterSegment(arch, DASH, vendor + [DASH] + (profile + [DASH] + rest));
    assert t == arch + [DASH] + (vendor + [DASH] + (profile + [DASH] + rest));
    assert |Split(t, DASH)| >= 4;
  }

  /** A four-segment host triple is not this backend's target. */
  lemma HostTripleRejected()
    ensures TargetOverride(TargetTriple("x86_64-unknown-linux-gnu")).None?
  {
    assert "x86_64-unknown-linux-gnu" == TripleOf("x86_64", "unknown", "linux" + [DASH] + "gnu");
    ExtraSegmentRejected("x86_64", "unknown", "linux", "gnu");
  }

  /** A trailing dash adds a fourth, empty, segment. */
  lemma TrailingDashRejected()
    ensures TargetOverride(TargetTriple("qir-unknown-base-")).None?
  {
    assert "qir-unknown-base-" == TripleOf("qir", "unknown", "base" + [DASH] + "");
    ExtraSegmentRejected("qir", "unknown", "base", "");
  }

  /** Three dash-free segments whose last one names no profile are rejected. */
  lemma UnknownProfileSegmentRejected(arch: string, vendor: string, profile: string, options: TargetOptions)
    requires DASH !in arch && DASH !in vendor && DASH !in profile
    requires profile != ProfileTag(Base)
    ensures Resolve(TargetTriple(TripleOf(arch, vendor, profile)), options).None?
  {
    SplitTriple(arch, vendor, profile);
    QirTripleShape(TripleOf(arch, vendor, profile));
  }

  /** A three-segment triple with an unknown profile is not this backend's target. */
  lemma UnknownProfileRejected()
    ensures TargetOverride(TargetTriple("qir-unknown-nope")).None?
  {
    assert DASH !in "qir" && DASH !in "unknown" && DASH !in "nope";
    assert "qir-unknown-nope" == TripleOf("qir", "unknown", "nope");
    UnknownProfileSegmentRejected("qir", "unknown", "nope", GenerateQirTargetOptions());
  }
}
