/** The tables of the pipeline's database: status enumerations with their
    stored strings, and one record per row with the column defaults. Row
    ids are positions: the row at index `i` has id `i + 1`. */
module Models {
  import opened Wrappers
  import opened Calendar
  import Connector

  // ------------------------------------------------------------- enums

  datatype DocumentStatus = New | Fetched | Processed | Error

  function DocumentStatusValue(s: DocumentStatus): string {
    match s
    case New => "new"
    case Fetched => "fetched"
    case Processed => "processed"
    case Error => "error"
  }

  /** `DocumentStatus(v)`: `None` where Python raises `ValueError`. */
  function ParseDocumentStatus(v: string): (r: Option<DocumentStatus>)
    ensures r.Some? <==> v in {"new", "fetched", "processed", "error"}
  {
    if v == "new" then Some(New)
    else if v == "fetched" then Some(Fetched)
    else if v == "processed" then Some(Processed)
    else if v == "error" then Some(Error)
    else None
  }

  lemma DocumentStatusRoundTrip(s: DocumentStatus, v: string)
    ensures ParseDocumentStatus(DocumentStatusValue(s)) == Some(s)
    ensures ParseDocumentStatus(v) == Some(s) ==> DocumentStatusValue(s) == v
  {
  }

  datatype TextStatus = Pending | Extracted | OcrQueued | OcrDone | Failed

  function TextStatusValue(s: TextStatus): string {
    match s
    case Pending => "pending"
    case Extracted => "extracted"
    case OcrQueued => "ocr_queued"
    case OcrDone => "ocr_done"
    case Failed => "failed"
  }

  function ParseTextStatus(v: string): (r: Option<TextStatus>)
    ensures r.Some? <==> v in {"pending", "extracted", "ocr_queued", "ocr_done", "failed"}
  {
    if v == "pending" then Some(Pending)
    else if v == "extracted" then Some(Extracted)
    else if v == "ocr_queued" then Some(OcrQueued)
    else if v == "ocr_done" then Some(OcrDone)
    else if v == "failed" then Some(Failed)
    else None
  }

  lemma TextStatusRoundTrip(s: TextStatus, v: string)
    ensures ParseTextStatus(TextStatusValue(s)) == Some(s)
    ensures ParseTextStatus(v) == Some(s) ==> TextStatusValue(s) == v
  {
  }

  datatype CaseStatus = Proposed | Approved | UnknownStatus

  function CaseStatusValue(s: CaseStatus): string {
    match s
    case Proposed => "proposed"
    case Approved => "approved"
    case UnknownStatus => "unknown"
  }

  function ParseCaseStatus(v: string): (r: Option<CaseStatus>)
    ensures r.Some? <==> v in {"proposed", "approved", "unknown"}
  {
    if v == "proposed" then Some(Proposed)
    else if v == "approved" then Some(Approved)
    else if v == "unknown" then Some(UnknownStatus)
    else None
  }

  lemma CaseStatusRoundTrip(s: CaseStatus, v: string)
    ensures ParseCaseStatus(CaseStatusValue(s)) == Some(s)
    ensures ParseCaseStatus(v) == Some(s) ==> CaseStatusValue(s) == v
  {
  }

  datatype Confidence = High | Medium | Low

  function ConfidenceValue(c: Confidence): string {
    match c
    case High => "high"
    case Medium => "medium"
    case Low => "low"
  }

  function ParseConfidence(v: string): (r: Option<Confidence>)
    ensures r.Some? <==> v in {"high", "medium", "low"}
  {
    if v == "high" then Some(High)
    else if v == "medium" then Some(Medium)
    else if v == "low" then Some(Low)
    else None
  }

  lemma ConfidenceRoundTrip(c: Confidence, v: string)
    ensures ParseConfidence(ConfidenceValue(c)) == Some(c)
    ensures ParseConfidence(v) == Some(c) ==> ConfidenceValue(c) == v
  {
  }

  // -------------------------------------------------------------- rows

  /** A `sources` row (timestamps of creation and update left out). */
  datatype SourceRow = SourceRow(
    municipality: string,
    platform: string,
    baseUrl: string,
    enabled: bool,
    config: Option<Connector.Config>,
    lastSuccessAt: Option<DateTime>,
    lastError: Option<string>,
    consecutiveFailures: nat)

  /** `Source(municipality=..., platform=..., base_url=..., config_json=...)`
      with the column defaults. */
  function NewSource(municipality: string, platform: string, baseUrl: string, config: Option<Connector.Config>)
    : (s: SourceRow)
    ensures s.enabled && s.consecutiveFailures == 0 && s.lastSuccessAt == None && s.lastError == None
    ensures s.municipality == municipality && s.platform == platform && s.baseUrl == baseUrl && s.config == config
  {
    SourceRow(municipality, platform, baseUrl, true, config, None, None, 0)
  }

  /** The configuration a connector receives: `config or {}`. */
  function ConnectorConfig(s: SourceRow): Connector.Config {
    s.config.GetOr(Connector.EmptyConfig)
  }

  /** A `documents` row. */
  datatype DocumentRow = DocumentRow(
    sourceId: nat,
    externalId: string,
    docType: string,
    title: string,
    body: Option<string>,
    meetingDate: Option<DateTime>,
    publishedAt: Option<DateTime>,
    sourceUrl: string,
    status: DocumentStatus,
    contentHash: Option<string>,
    triageScore: Option<real>,
    triageCategories: Option<seq<string>>,
    triageReason: Option<string>)

  /** The row that discovery inserts for a reference: status "new", no hash
      and no triage results. */
  function NewDocument(sourceId: nat, ref: Connector.DocumentRef): (d: DocumentRow)
    ensures d.sourceId == sourceId && d.externalId == ref.externalId && d.sourceUrl == ref.sourceUrl
    ensures d.docType == ref.docType && d.title == ref.title && d.body == Some(ref.body)
    ensures d.meetingDate == ref.meetingDate && d.publishedAt == ref.publishedAt
    ensures d.status == New && d.contentHash == None
    ensures d.triageScore == None && d.triageCategories == None && d.triageReason == None
  {
    DocumentRow(sourceId, ref.externalId, ref.docType, ref.title, Some(ref.body), ref.meetingDate, ref.publishedAt,
                ref.sourceUrl, New, None, None, None, None)
  }

  /** A `files` row (`mime` and `created_at` left out). */
  datatype FileRow = FileRow(
    documentId: nat,
    url: string,
    fileType: string,
    bytes: Option<nat>,
    storagePath: Option<string>,
    textStatus: TextStatus,
    textContent: Option<string>,
    fetchedAt: Option<DateTime>)

  /** `File(document_id=..., url=..., file_type="pdf", text_status="pending")`. */
  function NewFile(documentId: nat, url: string): (f: FileRow)
    ensures f.documentId == documentId && f.url == url && f.fileType == "pdf"
    ensures f.textStatus == Pending && f.storagePath == None && f.bytes == None && f.textContent == None
    ensures f.fetchedAt == None
  {
    FileRow(documentId, url, "pdf", None, None, Pending, None, None)
  }

  /** A `cases` row. `entitiesJson` is the stored `json.dumps(entities)`,
      `municipalities` and `location` the values stored as JSON. */
  datatype CaseRow = CaseRow(
    primaryCategory: string,
    headline: string,
    summaryMd: string,
    status: CaseStatus,
    confidence: Confidence,
    confidenceReason: Option<string>,
    municipalities: seq<string>,
    entitiesJson: string,
    location: string,
    updatedAt: DateTime)

  /** A case with the column defaults for status and confidence. */
  function DefaultCase(primaryCategory: string, headline: string, summaryMd: string, now: DateTime): (c: CaseRow)
    ensures c.status == UnknownStatus && c.confidence == Medium
    ensures c.primaryCategory == primaryCategory && c.headline == headline && c.summaryMd == summaryMd
  {
    CaseRow(primaryCategory, headline, summaryMd, UnknownStatus, Medium, None, [], "", "", now)
  }

  /** The JSON payload of a case event. */
  datatype Payload = DocumentPayload(documentId: nat) | DescriptionPayload(description: string)

  datatype CaseEventRow = CaseEventRow(caseId: nat, eventType: string, eventTime: Option<DateTime>, payload: Payload)

  datatype EvidenceRow = EvidenceRow(
    caseId: nat,
    fileId: Option<nat>,
    documentId: Option<nat>,
    page: Option<int>,
    snippet: string,
    sourceUrl: string)

  datatype UsageRow = UsageRow(
    documentId: Option<nat>,
    model: string,
    stage: string,
    promptTokens: nat,
    completionTokens: nat,
    estimatedCostEur: real)
}
