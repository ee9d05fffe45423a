/**
 * The persisted entities: tickets with their status vocabulary, the mailbox
 * settings and the polling settings, together with the JSON rendering the
 * read API serves and the ticket identifier format.
 */
module Models {
  import opened Common
  import opened Text
  import opened Time

  // ----- vocabularies -----

  /** Where a ticket is in its lifecycle. Only New, PendingApproval, Approved,
      Rejected and Sent are ever written; Analyzed is declared and unused. */
  datatype TicketStatus = New | Analyzed | PendingApproval | Approved | Rejected | Sent {
    /** The text stored in the status column and served by the API. */
    function Value(): string {
      match this
      case New => "new"
      case Analyzed => "analyzed"
      case PendingApproval => "pending_approval"
      case Approved => "approved"
      case Rejected => "rejected"
      case Sent => "sent"
    }
  }

  const StatusValues: set<string> := {"new", "analyzed", "pending_approval", "approved", "rejected", "sent"}

  function StatusFromValue(s: string): Option<TicketStatus> {
    if s == "new" then Some(New)
    else if s == "analyzed" then Some(Analyzed)
    else if s == "pending_approval" then Some(PendingApproval)
    else if s == "approved" then Some(Approved)
    else if s == "rejected" then Some(Rejected)
    else if s == "sent" then Some(Sent)
    else None
  }

  /** A status column holds exactly one of six texts, each naming one status. */
  lemma StatusValueRoundTrip(st: TicketStatus, s: string)
    ensures StatusFromValue(st.Value()) == Some(st)
    ensures st.Value() in StatusValues
    ensures StatusFromValue(s).Some? <==> s in StatusValues
    ensures StatusFromValue(s).Some? ==> StatusFromValue(s).value.Value() == s
  {
  }

  /** A status reads back from its text. */
  lemma StatusRoundTrip(st: TicketStatus)
    ensures StatusFromValue(st.Value()) == Some(st)
  {
    StatusValueRoundTrip(st, "");
  }

  /** The six status texts are distinct. */
  lemma StatusValuesDistinct(a: TicketStatus, b: TicketStatus)
    ensures a.Value() == b.Value() <==> a == b
  {
    StatusValueRoundTrip(a, "");
    StatusValueRoundTrip(b, "");
  }

  /** The categories the classifier is told to choose from. */
  datatype TicketCategory = Billing | Technical | LoginAccess | FeatureRequest | GeneralInquiry | OtherCategory {
    function Value(): string {
      match this
      case Billing => "Billing"
      case Technical => "Technical"
      case LoginAccess => "Login / Access"
      case FeatureRequest => "Feature Request"
      case GeneralInquiry => "General Inquiry"
      case OtherCategory => "Other"
    }
  }

  datatype TicketUrgency = Low | Medium | High {
    function Value(): string {
      match this
      case Low => "Low"
      case Medium => "Medium"
      case High => "High"
    }
  }

  // ----- tickets -----

  /**
   * One row of the tickets table. The classifier's fields hold whatever JSON
   * value it returned (JNull for NULL); `id` and `createdAt` are assigned by
   * the database on insert and are None on a ticket not yet stored.
   */
  datatype Ticket = Ticket(
    id: Option<nat>,
    ticketId: string,
    senderEmail: string,
    senderName: Option<string>,
    emailSubject: string,
    emailBody: string,
    receivedAt: DateTime,
    status: TicketStatus,
    category: Json,
    urgency: Json,
    summary: Json,
    fixSteps: Json,
    aiResponse: Json,
    confidence: Json,
    escalationRequired: Json,
    approvedResponse: Option<string>,
    approvedBy: Option<string>,
    approvedAt: Option<DateTime>,
    rejectedReason: Option<string>,
    sentAt: Option<DateTime>,
    createdAt: Option<DateTime>,
    updatedAt: Option<DateTime>)

  /** A ticket built from the given columns, every other column at its declared
      default: status "new", escalation false, everything else NULL. */
  function NewTicket(ticketId: string, senderEmail: string, senderName: Option<string>,
                     subject: string, body: string, receivedAt: DateTime): (t: Ticket)
    ensures t.ticketId == ticketId && t.senderEmail == senderEmail && t.senderName == senderName
    ensures t.emailSubject == subject && t.emailBody == body && t.receivedAt == receivedAt
    ensures t.status == New && t.escalationRequired == JBool(false)
    ensures Unclassified(t) && Undecided(t) && t.id.None? && t.createdAt.None? && t.updatedAt.None?
  {
    Ticket(None, ticketId, senderEmail, senderName, subject, body, receivedAt, New,
           JNull, JNull, JNull, JNull, JNull, JNull, JBool(false),
           None, None, None, None, None, None, None)
  }

  predicate Unclassified(t: Ticket) {
    t.category == JNull && t.urgency == JNull && t.summary == JNull && t.fixSteps == JNull
    && t.aiResponse == JNull && t.confidence == JNull
  }

  /** No reviewer decision and no dispatch recorded yet. */
  predicate Undecided(t: Ticket) {
    t.approvedResponse.None? && t.approvedBy.None? && t.approvedAt.None? && t.rejectedReason.None? && t.sentAt.None?
  }

  /**
   * What every write path keeps true of a stored ticket: an approved or sent
   * ticket carries the approved reply, and a sent ticket its dispatch time.
   */
  predicate DecisionRecorded(t: Ticket) {
    && (t.status == Approved || t.status == Sent ==> t.approvedResponse.Some? && t.approvedAt.Some?)
    && (t.status == Sent ==> t.sentAt.Some?)
  }

  // ----- the API rendering -----

  /** The 22 columns of the tickets table, in declaration order. */
  datatype Column =
    | IdColumn | TicketIdColumn | SenderEmailColumn | SenderNameColumn
    | EmailSubjectColumn | EmailBodyColumn | ReceivedAtColumn | StatusColumn
    | CategoryColumn | UrgencyColumn | SummaryColumn | FixStepsColumn
    | AiResponseColumn | ConfidenceColumn | EscalationRequiredColumn | ApprovedResponseColumn
    | ApprovedByColumn | ApprovedAtColumn | RejectedReasonColumn | SentAtColumn
    | CreatedAtColumn | UpdatedAtColumn
  {
    /** The key the read API serves the column under: the column name. */
    function Key(): string {
      match this
      case IdColumn => "id"
      case TicketIdColumn => "ticket_id"
      case SenderEmailColumn => "sender_email"
      case SenderNameColumn => "sender_name"
      case EmailSubjectColumn => "email_subject"
      case EmailBodyColumn => "email_body"
      case ReceivedAtColumn => "received_at"
      case StatusColumn => "status"
      case CategoryColumn => "category"
      case UrgencyColumn => "urgency"
      case SummaryColumn => "summary"
      case FixStepsColumn => "fix_steps"
      case AiResponseColumn => "ai_response"
      case ConfidenceColumn => "confidence"
      case EscalationRequiredColumn => "escalation_required"
      case ApprovedResponseColumn => "approved_response"
      case ApprovedByColumn => "approved_by"
      case ApprovedAtColumn => "approved_at"
      case RejectedReasonColumn => "rejected_reason"
      case SentAtColumn => "sent_at"
      case CreatedAtColumn => "created_at"
      case UpdatedAtColumn => "updated_at"
    }

    /** What this column of `t` holds. */
    function Of(t: Ticket): Content {
      match this
      case IdColumn => Value(NullableNat(t.id))
      case TicketIdColumn => Value(JStr(t.ticketId))
      case SenderEmailColumn => Value(JStr(t.senderEmail))
      case SenderNameColumn => Value(NullableStr(t.senderName))
      case EmailSubjectColumn => Value(JStr(t.emailSubject))
      case EmailBodyColumn => Value(JStr(t.emailBody))
      case ReceivedAtColumn => Moment(Some(t.receivedAt))
      case StatusColumn => Label(t.status)
      case CategoryColumn => Value(t.category)
      case UrgencyColumn => Value(t.urgency)
      case SummaryColumn => Value(t.summary)
      case FixStepsColumn => Value(t.fixSteps)
      case AiResponseColumn => Value(t.aiResponse)
      case ConfidenceColumn => Value(t.confidence)
      case EscalationRequiredColumn => Value(t.escalationRequired)
      case ApprovedResponseColumn => Value(NullableStr(t.approvedResponse))
      case ApprovedByColumn => Value(NullableStr(t.approvedBy))
      case ApprovedAtColumn => Moment(t.approvedAt)
      case RejectedReasonColumn => Value(NullableStr(t.rejectedReason))
      case SentAtColumn => Moment(t.sentAt)
      case CreatedAtColumn => Moment(t.createdAt)
      case UpdatedAtColumn => Moment(t.updatedAt)
    }
  }

  /** A column's content before rendering: a JSON value, a status, or a timestamp. */
  datatype Content = Value(json: Json) | Label(status: TicketStatus) | Moment(at: Option<DateTime>)

  /** How the read API writes a column's content: timestamps as ISO-8601 text or null. */
  function Rendered(v: Content): Json {
    match v
    case Value(j) => j
    case Label(st) => JStr(st.Value())
    case Moment(o) => Timestamp(o)
  }

  const Columns: set<Column> := {
    IdColumn, TicketIdColumn, SenderEmailColumn, SenderNameColumn,
    EmailSubjectColumn, EmailBodyColumn, ReceivedAtColumn, StatusColumn,
    CategoryColumn, UrgencyColumn, SummaryColumn, FixStepsColumn,
    AiResponseColumn, ConfidenceColumn, EscalationRequiredColumn, ApprovedResponseColumn,
    ApprovedByColumn, ApprovedAtColumn, RejectedReasonColumn, SentAtColumn,
    CreatedAtColumn, UpdatedAtColumn}

  lemma EveryColumn()
    ensures forall c: Column :: c in Columns
  {
    forall c: Column
      ensures c in Columns
    {
      match c
      case IdColumn =>
      case TicketIdColumn =>
      case SenderEmailColumn =>
      case SenderNameColumn =>
      case EmailSubjectColumn =>
      case EmailBodyColumn =>
      case ReceivedAtColumn =>
      case StatusColumn =>
      case CategoryColumn =>
      case UrgencyColumn =>
      case SummaryColumn =>
      case FixStepsColumn =>
      case AiResponseColumn =>
      case ConfidenceColumn =>
      case EscalationRequiredColumn =>
      case ApprovedResponseColumn =>
      case ApprovedByColumn =>
      case ApprovedAtColumn =>
      case RejectedReasonColumn =>
      case SentAtColumn =>
      case CreatedAtColumn =>
      case UpdatedAtColumn =>
    }
  }

  /** No two columns share a key. */
  lemma KeysDistinct()
    ensures forall a: Column, b: Column :: a.Key() == b.Key() ==> a == b
  {
  }

  function NullableNat(o: Option<nat>): Json {
    if o.Some? then JNum(o.value) else JNull
  }

  function NullableStr(o: Option<string>): Json {
    if o.Some? then JStr(o.value) else JNull
  }

  /** A timestamp column: its ISO-8601 text, or null when unset. */
  function Timestamp(o: Option<DateTime>): Json {
    if o.Some? then JStr(IsoFormat(o.value)) else JNull
  }

  /** The ticket as the read API serves it: one entry per column. The JSON
      object writes each entry under its column's `Key()`, and KeysDistinct
      makes that naming unambiguous, so the object is modelled keyed by column. */
  function ToDict(t: Ticket): map<Column, Json> {
    map c: Column :: Rendered(c.Of(t))
  }

  /** A rendering with an entry for every column. */
  predicate Complete(d: map<Column, Json>) {
    forall c: Column :: c in d
  }

  /** A rendering holds exactly the 22 columns. */
  lemma ToDictKeys(t: Ticket)
    ensures Complete(ToDict(t))
    ensures ToDict(t).Keys == Columns
  {
    EveryColumn();
  }

  function AsStr(j: Json): Option<string> {
    if j.JStr? then Some(j.s) else None
  }

  function AsNullableStr(j: Json): Option<Option<string>> {
    if j == JNull then Some(None) else if j.JStr? then Some(Some(j.s)) else None
  }

  function AsNullableNat(j: Json): Option<Option<nat>> {
    if j == JNull then Some(None) else if j.JNum? && j.n >= 0 then Some(Some(j.n as nat)) else None
  }

  function AsTimestamp(j: Json): Option<Option<DateTime>> {
    if j == JNull then Some(None)
    else if j.JStr? then (match ParseIso(j.s) case Some(d) => Some(Some(d)) case None => None)
    else None
  }

  /** The email and identity columns of a rendering. */
  function ReadEnvelope(d: map<Column, Json>): Option<(Option<nat>, string, string, Option<string>, string, string, DateTime)>
    requires Complete(d)
  {
    var id :- AsNullableNat(d[IdColumn]);
    var ticketId :- AsStr(d[TicketIdColumn]);
    var senderEmail :- AsStr(d[SenderEmailColumn]);
    var senderName :- AsNullableStr(d[SenderNameColumn]);
    var subject :- AsStr(d[EmailSubjectColumn]);
    var body :- AsStr(d[EmailBodyColumn]);
    var received :- AsTimestamp(d[ReceivedAtColumn]);
    var receivedAt :- received;
    Some((id, ticketId, senderEmail, senderName, subject, body, receivedAt))
  }

  /** The reviewer's and the dispatcher's columns of a rendering. */
  function ReadDecision(d: map<Column, Json>): Option<(Option<string>, Option<string>, Option<DateTime>, Option<string>, Option<DateTime>)>
    requires Complete(d)
  {
    var approvedResponse :- AsNullableStr(d[ApprovedResponseColumn]);
    var approvedBy :- AsNullableStr(d[ApprovedByColumn]);
    var approvedAt :- AsTimestamp(d[ApprovedAtColumn]);
    var rejectedReason :- AsNullableStr(d[RejectedReasonColumn]);
    var sentAt :- AsTimestamp(d[SentAtColumn]);
    Some((approvedResponse, approvedBy, approvedAt, rejectedReason, sentAt))
  }

  /** The status and the row's own timestamps in a rendering. */
  function ReadStamps(d: map<Column, Json>): Option<(TicketStatus, Option<DateTime>, Option<DateTime>)>
    requires Complete(d)
  {
    var statusText :- AsStr(d[StatusColumn]);
    var status :- StatusFromValue(statusText);
    var createdAt :- AsTimestamp(d[CreatedAtColumn]);
    var updatedAt :- AsTimestamp(d[UpdatedAtColumn]);
    Some((status, createdAt, updatedAt))
  }

  /** Reads a ticket back from its API rendering; None when a key is missing or ill-typed. */
  function FromDict(d: map<Column, Json>): Option<Ticket> {
    if !Complete(d) then None
    else
      var e :- ReadEnvelope(d);
      var k :- ReadDecision(d);
      var m :- ReadStamps(d);
      Some(Ticket(e.0, e.1, e.2, e.3, e.4, e.5, e.6, m.0,
                  d[CategoryColumn], d[UrgencyColumn], d[SummaryColumn], d[FixStepsColumn], d[AiResponseColumn],
                  d[ConfidenceColumn], d[EscalationRequiredColumn],
                  k.0, k.1, k.2, k.3, k.4, m.1, m.2))
  }

  lemma TimestampRoundTrip(o: Option<DateTime>)
    ensures AsTimestamp(Timestamp(o)) == Some(o)
  {
    if o.Some? {
      IsoRoundTrip(o.value);
    }
  }

  lemma EnvelopeFromCells(d: map<Column, Json>, t: Ticket)
    requires Complete(d)
    requires d[IdColumn] == NullableNat(t.id)
    requires d[TicketIdColumn] == JStr(t.ticketId)
    requires d[SenderEmailColumn] == JStr(t.senderEmail)
    requires d[SenderNameColumn] == NullableStr(t.senderName)
    requires d[EmailSubjectColumn] == JStr(t.emailSubject)
    requires d[EmailBodyColumn] == JStr(t.emailBody)
    requires d[ReceivedAtColumn] == Timestamp(Some(t.receivedAt))
    ensures ReadEnvelope(d) == Some((t.id, t.ticketId, t.senderEmail, t.senderName, t.emailSubject, t.emailBody, t.receivedAt))
  {
    TimestampRoundTrip(Some(t.receivedAt));
  }

  lemma DecisionFromCells(d: map<Column, Json>, t: Ticket)
    requires Complete(d)
    requires d[ApprovedResponseColumn] == NullableStr(t.approvedResponse)
    requires d[ApprovedByColumn] == NullableStr(t.approvedBy)
    requires d[ApprovedAtColumn] == Timestamp(t.approvedAt)
    requires d[RejectedReasonColumn] == NullableStr(t.rejectedReason)
    requires d[SentAtColumn] == Timestamp(t.sentAt)
    ensures ReadDecision(d) == Some((t.approvedResponse, t.approvedBy, t.approvedAt, t.rejectedReason, t.sentAt))
  {
    TimestampRoundTrip(t.approvedAt);
    TimestampRoundTrip(t.sentAt);
  }

  lemma StampsFromCells(d: map<Column, Json>, t: Ticket)
    requires Complete(d)
    requires d[StatusColumn] == JStr(t.status.Value())
    requires d[CreatedAtColumn] == Timestamp(t.createdAt)
    requires d[UpdatedAtColumn] == Timestamp(t.updatedAt)
    ensures ReadStamps(d) == Some((t.status, t.createdAt, t.updatedAt))
  {
    StatusRoundTrip(t.status);
    TimestampRoundTrip(t.createdAt);
    TimestampRoundTrip(t.updatedAt);
  }

  /** A complete rendering of `t`'s columns reads back as `t`. */
  lemma FromCells(d: map<Column, Json>, t: Ticket)
    requires Complete(d)
    requires d[IdColumn] == NullableNat(t.id)
    requires d[TicketIdColumn] == JStr(t.ticketId)
    requires d[SenderEmailColumn] == JStr(t.senderEmail)
    requires d[SenderNameColumn] == NullableStr(t.senderName)
    requires d[EmailSubjectColumn] == JStr(t.emailSubject)
    requires d[EmailBodyColumn] == JStr(t.emailBody)
    requires d[ReceivedAtColumn] == Timestamp(Some(t.receivedAt))
    requires d[StatusColumn] == JStr(t.status.Value())
    requires d[CategoryColumn] == t.category
    requires d[UrgencyColumn] == t.urgency
    requires d[SummaryColumn] == t.summary
    requires d[FixStepsColumn] == t.fixSteps
    requires d[AiResponseColumn] == t.aiResponse
    requires d[ConfidenceColumn] == t.confidence
    requires d[EscalationRequiredColumn] == t.escalationRequired
    requires d[ApprovedResponseColumn] == NullableStr(t.approvedResponse)
    requires d[ApprovedByColumn] == NullableStr(t.approvedBy)
    requires d[ApprovedAtColumn] == Timestamp(t.approvedAt)
    requires d[RejectedReasonColumn] == NullableStr(t.rejectedReason)
    requires d[SentAtColumn] == Timestamp(t.sentAt)
    requires d[CreatedAtColumn] == Timestamp(t.createdAt)
    requires d[UpdatedAtColumn] == Timestamp(t.updatedAt)
    ensures FromDict(d) == Some(t)
  {
    EnvelopeFromCells(d, t);
    DecisionFromCells(d, t);
    StampsFromCells(d, t);
  }

  /** The identity and sender columns of a rendering. */
  lemma SenderCells(t: Ticket)
    ensures ToDict(t)[IdColumn] == NullableNat(t.id)
    ensures ToDict(t)[TicketIdColumn] == JStr(t.ticketId)
    ensures ToDict(t)[SenderEmailColumn] == JStr(t.senderEmail)
    ensures ToDict(t)[SenderNameColumn] == NullableStr(t.senderName)
  {
  }

  /** The message columns and the status of a rendering. */
  lemma MessageCells(t: Ticket)
    ensures ToDict(t)[EmailSubjectColumn] == JStr(t.emailSubject)
    ensures ToDict(t)[EmailBodyColumn] == JStr(t.emailBody)
    ensures ToDict(t)[ReceivedAtColumn] == Timestamp(Some(t.receivedAt))
    ensures ToDict(t)[StatusColumn] == JStr(t.status.Value())
  {
  }

  /** The first classifier columns of a rendering, and when the row was created. */
  lemma TriageCells(t: Ticket)
    ensures ToDict(t)[CategoryColumn] == t.category
    ensures ToDict(t)[UrgencyColumn] == t.urgency
    ensures ToDict(t)[SummaryColumn] == t.summary
    ensures ToDict(t)[CreatedAtColumn] == Timestamp(t.createdAt)
  {
  }

  /** The remaining classifier columns of a rendering, and when the row last changed. */
  lemma AnalysisCells(t: Ticket)
    ensures ToDict(t)[FixStepsColumn] == t.fixSteps
    ensures ToDict(t)[AiResponseColumn] == t.aiResponse
    ensures ToDict(t)[ConfidenceColumn] == t.confidence
    ensures ToDict(t)[UpdatedAtColumn] == Timestamp(t.updatedAt)
  {
  }

  /** The escalation flag and the reviewer's columns of a rendering. */
  lemma ReviewCells(t: Ticket)
    ensures ToDict(t)[EscalationRequiredColumn] == t.escalationRequired
    ensures ToDict(t)[ApprovedResponseColumn] == NullableStr(t.approvedResponse)
    ensures ToDict(t)[ApprovedByColumn] == NullableStr(t.approvedBy)
    ensures ToDict(t)[ApprovedAtColumn] == Timestamp(t.approvedAt)
  {
  }

  /** The rejection and dispatch columns of a rendering. */
  lemma OutcomeCells(t: Ticket)
    ensures ToDict(t)[RejectedReasonColumn] == NullableStr(t.rejectedReason)
    ensures ToDict(t)[SentAtColumn] == Timestamp(t.sentAt)
  {
  }

  /** The API rendering loses nothing: every column can be read back from it. */
  lemma ToDictRoundTrip(t: Ticket)
    ensures FromDict(ToDict(t)) == Some(t)
  {
    ToDictKeys(t);
    SenderCells(t);
    MessageCells(t);
    TriageCells(t);
    AnalysisCells(t);
    ReviewCells(t);
    OutcomeCells(t);
    FromCells(ToDict(t), t);
  }

  /** Consequently two tickets with the same rendering are the same ticket. */
  lemma ToDictInjective(t: Ticket, u: Ticket)
    requires ToDict(t) == ToDict(u)
    ensures t == u
  {
    ToDictRoundTrip(t);
    ToDictRoundTrip(u);
  }

  // ----- ticket identifiers -----

  /** The first eight characters of a version-4 uuid's text, upper-cased: its
      top 32 bits as hexadecimal digits. */
  function UuidPrefix(uuid: nat): string {
    Render(uuid, 16, 32)[..8]
  }

  /** "TKT-" + the UTC date as YYYYMMDD + "-" + eight upper-case hex digits. */
  function TicketId(now: DateTime, uuid: nat): (s: string)
    ensures |s| == 21
  {
    "TKT-" + DateStamp(now) + "-" + UuidPrefix(uuid)
  }

  /** The parts of an identifier: the four-digit year, month, day and the hex suffix. */
  datatype TicketIdParts = TicketIdParts(year: nat, month: nat, day: nat, suffix: string)

  predicate IsHexSuffix(s: string) {
    |s| == 8 && forall i :: 0 <= i < 8 ==> IsDigit(s[i], 16)
  }

  function ParseTicketId(s: string): (r: Option<TicketIdParts>)
    ensures r.Some? ==> IsHexSuffix(r.value.suffix)
  {
    if |s| != 21 || s[..4] != "TKT-" || s[12] != '-' || !IsHexSuffix(s[13..]) then None
    else
      match (Parse(s[4..8], 10), Parse(s[8..10], 10), Parse(s[10..12], 10))
      case (Some(y), Some(m), Some(d)) => Some(TicketIdParts(y, m, d, s[13..]))
      case _ => None
  }

  /** An identifier carries the date it was minted on and the uuid's prefix. */
  lemma TicketIdRoundTrip(now: DateTime, uuid: nat)
    ensures ParseTicketId(TicketId(now, uuid)) == Some(TicketIdParts(now.year, now.month, now.day, UuidPrefix(uuid)))
  {
    var s := TicketId(now, uuid);
    var stamp := DateStamp(now);
    assert s[..4] == "TKT-" && s[4..12] == stamp && s[12] == '-' && s[13..] == UuidPrefix(uuid);
    assert s[4..8] == Render(now.year, 10, 4);
    assert s[8..10] == Render(now.month, 10, 2);
    assert s[10..12] == Render(now.day, 10, 2);
    ParseRender(now.year, 10, 4);
    ParseRender(now.month, 10, 2);
    ParseRender(now.day, 10, 2);
  }

  /** Conversely, every text ParseTicketId accepts has the minted shape. */
  lemma ParseTicketIdShape(s: string)
    requires ParseTicketId(s).Some?
    ensures var p := ParseTicketId(s).value;
            s == "TKT-" + Render(p.year, 10, 4) + Render(p.month, 10, 2) + Render(p.day, 10, 2) + "-" + p.suffix
  {
    var p := ParseTicketId(s).value;
    assert Parse(s[4..8], 10) == Some(p.year);
    assert Parse(s[8..10], 10) == Some(p.month);
    assert Parse(s[10..12], 10) == Some(p.day);
    RenderParse(s[4..8], 10);
    RenderParse(s[8..10], 10);
    RenderParse(s[10..12], 10);
    assert s == s[..4] + s[4..8] + s[8..10] + s[10..12] + [s[12]] + s[13..];
  }

  /** Identifiers minted on different days, or from uuids with different
      prefixes, differ; only a shared day and prefix can collide. */
  lemma TicketIdDistinct(d1: DateTime, u1: nat, d2: DateTime, u2: nat)
    requires TicketId(d1, u1) == TicketId(d2, u2)
    ensures d1.year == d2.year && d1.month == d2.month && d1.day == d2.day
    ensures UuidPrefix(u1) == UuidPrefix(u2)
  {
    TicketIdRoundTrip(d1, u1);
    TicketIdRoundTrip(d2, u2);
  }

  // ----- settings -----

  /** The ten mailbox settings an operator enters. */
  datatype EmailSettings = EmailSettings(
    imapServer: string, imapPort: int, imapUsername: string, imapPassword: string,
    smtpServer: string, smtpPort: int, smtpUsername: string, smtpPassword: string,
    fromEmail: string, fromName: string)

  /** One row of the mailbox settings table. */
  datatype EmailConfig = EmailConfig(settings: EmailSettings, isActive: bool)

  const DefaultImapPort: int := 993
  const DefaultSmtpPort: int := 587
  const DefaultFromName: string := "InfinityWork Support Team"

  /** A freshly created settings row is active. */
  function NewEmailConfig(s: EmailSettings): (c: EmailConfig)
    ensures c.isActive && c.settings == s
  {
    EmailConfig(s, true)
  }

  /** One row of the polling settings table. */
  datatype SchedulerConfig = SchedulerConfig(
    autoFetchEnabled: bool, fetchIntervalMinutes: int, lastFetchAt: Option<DateTime>, lastFetchCount: int)

  /** A row created with every column at its declared default. */
  const DefaultSchedulerConfig: SchedulerConfig := SchedulerConfig(false, 5, None, 0)

  /** The columns of the polling settings table; there is no is_active among them. */
  const SchedulerConfigColumns: set<string> := {
    "id", "auto_fetch_enabled", "fetch_interval_minutes", "last_fetch_at", "last_fetch_count",
    "created_at", "updated_at"}
}
