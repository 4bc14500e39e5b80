/**
  The records of `lib/types/message.ts` and the artifact record and closed
  artifact-type enumeration of `lib/types/artifacts.ts`.

  Dates are abstracted to `Time`, a millisecond count; ids are plain strings
  supplied by the caller (the source does not promise uniqueness).
 */
module Types {
  import opened Wrappers

  type Time = nat

  /* ---------------- messages ---------------- */

  datatype MessageRole = User | Assistant | System

  /** The wire spelling of each role. */
  function RoleName(role: MessageRole): string {
    match role
    case User => "user"
    case Assistant => "assistant"
    case System => "system"
  }

  /** Reads a role back from its wire spelling; any other string is not a
      role. */
  function ParseRole(name: string): (r: Option<MessageRole>)
    ensures r.Some? <==> name in {"user", "assistant", "system"}
    ensures r.Some? ==> RoleName(r.value) == name
  {
    if name == "user" then Some(User)
    else if name == "assistant" then Some(Assistant)
    else if name == "system" then Some(System)
    else None
  }

  /** Every role reads back from its wire spelling. */
  lemma RoleRoundTrip(role: MessageRole)
    ensures ParseRole(RoleName(role)) == Some(role)
  {
  }

  /** Metadata of one attached file; `mimeType` is the source's `type`. */
  datatype FileAttachment = FileAttachment(
    id: string,
    name: string,
    size: nat,
    mimeType: string,
    url: Option<string>,
    uploadedAt: Time)

  /** One chat turn; `attachments` and `artifactId` are optional fields. */
  datatype Message = Message(
    id: string,
    role: MessageRole,
    content: string,
    timestamp: Time,
    attachments: Option<seq<FileAttachment>>,
    artifactId: Option<string>)

  /* ---------------- artifacts ---------------- */

  datatype ArtifactType =
    | PricingAnalysis
    | ValueBasedModel
    | CompetitiveMatrix
    | ElasticityChart
    | SegmentationMap
    | WaterfallChart
    | MarkdownReport
    | DataTable

  /** The wire spelling of each artifact type. */
  function ArtifactTypeName(t: ArtifactType): string {
    match t
    case PricingAnalysis => "pricing-analysis"
    case ValueBasedModel => "value-based-model"
    case CompetitiveMatrix => "competitive-matrix"
    case ElasticityChart => "elasticity-chart"
    case SegmentationMap => "segmentation-map"
    case WaterfallChart => "waterfall-chart"
    case MarkdownReport => "markdown-report"
    case DataTable => "data-table"
  }

  const ArtifactTypeNames: set<string> := {
    "pricing-analysis", "value-based-model", "competitive-matrix",
    "elasticity-chart", "segmentation-map", "waterfall-chart",
    "markdown-report", "data-table"
  }

  /** Reads an artifact type back from its wire spelling. */
  function ParseArtifactType(name: string): (r: Option<ArtifactType>)
    ensures r.Some? <==> name in ArtifactTypeNames
    ensures r.Some? ==> ArtifactTypeName(r.value) == name
  {
    if name == "pricing-analysis" then Some(PricingAnalysis)
    else if name == "value-based-model" then Some(ValueBasedModel)
    else if name == "competitive-matrix" then Some(CompetitiveMatrix)
    else if name == "elasticity-chart" then Some(ElasticityChart)
    else if name == "segmentation-map" then Some(SegmentationMap)
    else if name == "waterfall-chart" then Some(WaterfallChart)
    else if name == "markdown-report" then Some(MarkdownReport)
    else if name == "data-table" then Some(DataTable)
    else None
  }

  /** The enumeration is closed: each type reads back from its name. */
  lemma ArtifactTypeRoundTrip(t: ArtifactType)
    ensures ParseArtifactType(ArtifactTypeName(t)) == Some(t)
  {
  }

  /** The artifact payload is opaque (`unknown`); the only payload this core
      builds is the empty object `{}`. */
  datatype ArtifactData = EmptyObject | Opaque

  datatype Artifact = Artifact(
    id: string,
    kind: ArtifactType,
    title: string,
    description: Option<string>,
    data: ArtifactData,
    createdAt: Time,
    updatedAt: Time)

  /* ---------------- file validation constants ---------------- */

  datatype FileValidation = FileValidation(
    maxSize: nat,
    allowedTypes: seq<string>,
    maxFiles: nat)

  const DefaultFileValidation: FileValidation := FileValidation(
    10 * 1024 * 1024,
    [
      "application/pdf",
      "application/vnd.ms-excel",
      "application/vnd.openxmlformats-officedocument.spreadsheetml.sheet",
      "text/csv",
      "image/png",
      "image/jpeg",
      "image/jpg"
    ],
    5)

  /** Whether a MIME type is on a validation's allow-list. */
  predicate TypeAllowed(v: FileValidation, mimeType: string) {
    mimeType in v.allowedTypes
  }

  /** The default limits: 10 MiB, five files, and seven distinct allowed MIME
      types, among them both JPEG spellings and not `application/zip`. */
  lemma DefaultFileValidationValues()
    ensures DefaultFileValidation.maxSize == 10485760
    ensures DefaultFileValidation.maxFiles == 5
    ensures |DefaultFileValidation.allowedTypes| == 7
    ensures forall i, j :: 0 <= i < j < 7 ==>
      DefaultFileValidation.allowedTypes[i] != DefaultFileValidation.allowedTypes[j]
    ensures TypeAllowed(DefaultFileValidation, "image/jpeg")
    ensures TypeAllowed(DefaultFileValidation, "image/jpg")
    ensures TypeAllowed(DefaultFileValidation, "text/csv")
    ensures !TypeAllowed(DefaultFileValidation, "application/zip")
  {
  }
}
