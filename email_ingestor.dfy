/**
 * Mailbox ingestion: each unread message becomes a ticket, is classified, and
 * is marked as seen; failures are collected per message instead of aborting.
 */
module EmailIngestor {
  import opened Common
  import opened Text
  import opened Time
  import opened Models
  import opened Store
  import opened AiProcessor

  // ----- header and body decoding -----

  /** One piece of an RFC 2047 header as the header decoder splits it: plain
      text, or encoded bytes with the charset it names. */
  datatype HeaderPart = Plain(text: string) | Encoded(data: seq<byte>, charset: Option<string>)

  /**
   * The byte decoders of the runtime: strict decoding in a named charset
   * (None when the bytes are invalid in it or the charset is unknown), and
   * UTF-8 decoding that replaces invalid bytes.
   */
  datatype Codecs = Codecs(decode: (seq<byte>, string) -> Option<string>, lossyUtf8: seq<byte> -> string)

  /** Decoding with a fallback: the named charset (UTF-8 when none is named),
      and lossy UTF-8 when that fails. */
  function DecodeBytes(codecs: Codecs, data: seq<byte>, charset: Option<string>): string {
    var cs := if charset.Some? && charset.value != "" then charset.value else "utf-8";
    match codecs.decode(data, cs)
    case Some(s) => s
    case None => codecs.lossyUtf8(data)
  }

  function DecodePart(codecs: Codecs, p: HeaderPart): string {
    match p
    case Plain(text) => text
    case Encoded(data, charset) => DecodeBytes(codecs, data, charset)
  }

  function DecodedParts(codecs: Codecs, parts: seq<HeaderPart>): (r: seq<string>)
    ensures |r| == |parts|
    ensures forall i :: 0 <= i < |parts| ==> r[i] == DecodePart(codecs, parts[i])
  {
    if parts == [] then [] else DecodedParts(codecs, parts[..|parts| - 1]) + [DecodePart(codecs, parts[|parts| - 1])]
  }

  /** The text of a header: its decoded pieces joined by single spaces; empty when absent. */
  function HeaderText(codecs: Codecs, header: Option<seq<HeaderPart>>): (r: string)
    ensures header.None? ==> r == ""
    ensures header.Some? && |header.value| == 1 ==> r == DecodePart(codecs, header.value[0])
  {
    if header.None? then "" else Join(DecodedParts(codecs, header.value), " ")
  }

  /** Each decoded piece can be recovered from the header text, as long as no
      piece contains a space; a header of plain pieces keeps their text. */
  lemma HeaderTextSplits(codecs: Codecs, parts: seq<HeaderPart>)
    requires |parts| > 0
    requires forall i :: 0 <= i < |parts| ==> ' ' !in DecodePart(codecs, parts[i])
    ensures Split(HeaderText(codecs, Some(parts)), ' ') == DecodedParts(codecs, parts)
  {
    SplitJoin(DecodedParts(codecs, parts), ' ');
  }

  /** A header that is a single plain piece reads as that piece. */
  lemma PlainHeaderText(codecs: Codecs, text: string)
    ensures HeaderText(codecs, Some([Plain(text)])) == text
  {
  }

  /** `decode_email_header`. */
  method DecodeEmailHeader(codecs: Codecs, header: Option<seq<HeaderPart>>) returns (r: string)
    ensures r == HeaderText(codecs, header)
  {
    if header.None? {
      return "";
    }
    var parts := header.value;
    var decoded: seq<string> := [];
    for i := 0 to |parts|
      invariant decoded == DecodedParts(codecs, parts[..i])
    {
      assert parts[..i + 1] == parts[..i] + [parts[i]];
      var text: string;
      match parts[i] {
        case Plain(t) =>
          text := t;
        case Encoded(data, charset) =>
          var cs := if charset.Some? && charset.value != "" then charset.value else "utf-8";
          var strict := codecs.decode(data, cs);
          if strict.Some? {
            text := strict.value;
          } else {
            text := codecs.lossyUtf8(data);
          }
      }
      decoded := decoded + [text];
    }
    assert parts[..|parts|] == parts;
    r := Join(decoded, " ");
  }

  /** One part of a multipart message, as the tree walk visits it. */
  datatype MimePart = MimePart(contentType: string, disposition: string, payload: Option<seq<byte>>, charset: Option<string>)

  /** A message body: a single payload, or the parts of a multipart message in walk order. */
  datatype Body = Single(payload: Option<seq<byte>>, charset: Option<string>) | Multipart(parts: seq<MimePart>)

  /** A text/plain part that is not marked as an attachment. */
  predicate IsBodyPart(p: MimePart) {
    p.contentType == "text/plain" && !Contains(p.disposition, "attachment")
  }

  /** The index of the first body part, if any. */
  function FirstBodyPart(parts: seq<MimePart>): (r: Option<nat>)
    ensures r.Some? ==> r.value < |parts| && IsBodyPart(parts[r.value])
    ensures r.Some? ==> forall j :: 0 <= j < r.value ==> !IsBodyPart(parts[j])
    ensures r.None? <==> forall j :: 0 <= j < |parts| ==> !IsBodyPart(parts[j])
  {
    if parts == [] then None
    else if IsBodyPart(parts[0]) then Some(0)
    else
      match FirstBodyPart(parts[1..])
      case None => None
      case Some(i) => Some(i + 1)
  }

  /** A payload's text; nothing when the payload is absent or empty. */
  function PayloadText(codecs: Codecs, payload: Option<seq<byte>>, charset: Option<string>): string {
    if payload.Some? && |payload.value| > 0 then DecodeBytes(codecs, payload.value, charset) else ""
  }

  /** The plain-text body: the single payload, or the first body part's payload,
      stripped of surrounding whitespace. */
  function EmailBody(codecs: Codecs, body: Body): (r: string)
    ensures body.Single? && (body.payload.None? || body.payload.value == []) ==> r == ""
    ensures body.Multipart? && FirstBodyPart(body.parts).None? ==> r == ""
  {
    match body
    case Single(payload, charset) => Strip(PayloadText(codecs, payload, charset))
    case Multipart(parts) =>
      match FirstBodyPart(parts)
      case Some(i) => Strip(PayloadText(codecs, parts[i].payload, parts[i].charset))
      case None => ""
  }

  /** A body never starts or ends with whitespace. */
  lemma EmailBodyStripped(codecs: Codecs, body: Body)
    ensures var r := EmailBody(codecs, body);
            r == [] || (!IsSpace(r[0]) && !IsSpace(r[|r| - 1]))
  {
  }

  /** Only the first body part counts: when it is empty the body is empty,
      whatever later parts hold; attachments and other types are skipped. */
  lemma FirstBodyPartDecides(codecs: Codecs, parts: seq<MimePart>, i: nat)
    requires i < |parts| && IsBodyPart(parts[i])
    requires forall j :: 0 <= j < i ==> !IsBodyPart(parts[j])
    ensures EmailBody(codecs, Multipart(parts)) == Strip(PayloadText(codecs, parts[i].payload, parts[i].charset))
  {
    var first := FirstBodyPart(parts);
    assert first.Some?;
    assert first.value == i;
  }

  /** `get_email_body`: the walk stops at the first body part. */
  method GetEmailBody(codecs: Codecs, body: Body) returns (r: string)
    ensures r == EmailBody(codecs, body)
  {
    var text := "";
    match body {
      case Single(payload, charset) =>
        if payload.Some? && |payload.value| > 0 {
          text := DecodeBytes(codecs, payload.value, charset);
        }
      case Multipart(parts) =>
        var i := 0;
        while i < |parts|
          invariant 0 <= i <= |parts|
          invariant forall j :: 0 <= j < i ==> !IsBodyPart(parts[j])
          invariant text == ""
        {
          var part := parts[i];
          if part.contentType == "text/plain" && !Contains(part.disposition, "attachment") {
            var payload := part.payload;
            if payload.Some? && |payload.value| > 0 {
              text := DecodeBytes(codecs, payload.value, part.charset);
            }
            FirstBodyPartDecides(codecs, parts, i);
            break;
          }
          i := i + 1;
        }
    }
    r := Strip(text);
  }

  // ----- ingestion -----

  /** What fetching and parsing one message yields. */
  datatype RawEmail = RawEmail(
    senderEmail: string,               // the address part of From
    senderName: seq<HeaderPart>,       // the display-name part of From, as header pieces
    subject: Option<seq<HeaderPart>>,  // None when the message has no Subject header
    body: Body,
    date: Option<DateTime>)            // None when the Date header is missing or unparsable

  /**
   * One unread message and everything the outside world does while it is
   * handled: the fetch, the clock and the uuid drawn for it, the outcome of
   * the two commits, the classifier's reply and the outcome of marking it seen.
   */
  datatype Arrival = Arrival(
    uid: nat, fetched: Result<RawEmail, string>, now: DateTime, uuid: nat,
    insertCommit: Outcome, reply: Reply, updateCommit: Outcome, flagSeen: Outcome)

  /** The IMAP session: whether connecting, logging in, selecting INBOX and the
      search succeeded, and the unread messages in the order the search returned them. */
  datatype Inbox = Inbox(session: Outcome, unseen: seq<Arrival>)

  /** One entry of the error list: a message that failed, or the session. */
  datatype Problem = MessageFailed(uid: nat, error: string) | ConnectionFailed(error: string) {
    /** The text the error list shows for it: which kind of failure, then the
        exception's own text at the end. */
    function Text(): (r: string)
      ensures this.MessageFailed? ==> |r| > |MessageErrorPrefix| && r[..|MessageErrorPrefix|] == MessageErrorPrefix
      ensures this.ConnectionFailed? ==> |r| >= |ConnectionErrorPrefix| && r[..|ConnectionErrorPrefix|] == ConnectionErrorPrefix
                                         && r[|ConnectionErrorPrefix|..] == error
      ensures |r| >= |error| && r[|r| - |error|..] == error
    {
      match this
      case MessageFailed(uid, e) => MessageErrorPrefix + Show(uid) + ": " + e
      case ConnectionFailed(e) => ConnectionErrorPrefix + e
    }
  }

  const MessageErrorPrefix: string := "Error processing message "
  const ConnectionErrorPrefix: string := "IMAP connection error: "

  /** The two texts of the error list, and a failed message is never reported
      as if the session had failed. */
  lemma ProblemTexts(p: Problem, q: Problem)
    ensures p.MessageFailed? ==> p.Text() == "Error processing message " + Show(p.uid) + ": " + p.error
    ensures p.ConnectionFailed? ==> p.Text() == "IMAP connection error: " + p.error
    ensures p.MessageFailed? && q.ConnectionFailed? ==> p.Text() != q.Text()
  {
    if p.MessageFailed? && q.ConnectionFailed? {
      assert p.Text()[0] == MessageErrorPrefix[0] != ConnectionErrorPrefix[0] == q.Text()[0];
    }
  }

  /** The dictionary the ingestion returns; `errors` in the order they occurred. */
  datatype FetchResult = FetchResult(processed: nat, errors: seq<Problem>, ticketsCreated: seq<string>) {
    function ErrorTexts(): (r: seq<string>)
      ensures |r| == |errors|
      ensures forall i :: 0 <= i < |errors| ==> r[i] == errors[i].Text()
    {
      seq(|errors|, i requires 0 <= i < |errors| => errors[i].Text())
    }
  }

  /** The subject's text, "No Subject" when the message has no Subject header. */
  function SubjectText(codecs: Codecs, subject: Option<seq<HeaderPart>>): (r: string)
    ensures subject.None? ==> r == "No Subject"
  {
    HeaderText(codecs, Some(subject.GetOr([Plain("No Subject")])))
  }

  /** The ticket a fetched message becomes before classification. */
  function Draft(codecs: Codecs, m: RawEmail, a: Arrival): (t: Ticket)
    ensures t.status == New && t.ticketId == TicketId(a.now, a.uuid)
  {
    NewTicket(TicketId(a.now, a.uuid), m.senderEmail, Some(HeaderText(codecs, Some(m.senderName))),
              SubjectText(codecs, m.subject), EmailBody(codecs, m.body), m.date.GetOr(a.now))
  }

  /** The ticket with the classifier's fields copied onto it and its status moved
      to pending approval. The classifier's approval_status is not copied. */
  function Classified(t: Ticket, c: map<string, Json>): (r: Ticket)
    ensures r.status == PendingApproval
    ensures r.id == t.id && r.ticketId == t.ticketId && r.createdAt == t.createdAt
  {
    t.(category := Get(c, CategoryKey), urgency := Get(c, UrgencyKey), summary := Get(c, SummaryKey),
       fixSteps := Get(c, FixStepsKey), aiResponse := Get(c, ResponseKey), confidence := Get(c, ConfidenceKey),
       escalationRequired := GetOrDefault(c, EscalationKey, JBool(false)),
       status := PendingApproval)
  }

  /** The state the loop carries from one message to the next. */
  datatype Progress = Progress(table: TicketTable, result: FetchResult, flagged: seq<nat>)

  function Failed(p: Progress, uid: nat, e: string): Progress {
    p.(result := p.result.(errors := p.result.errors + [MessageFailed(uid, e)]))
  }

  /** Inserting a draft and committing its classification, as one table change. */
  function Recorded(table: TicketTable, draft: Ticket, c: map<string, Json>, now: DateTime): (r: Result<TicketTable, string>)
    requires table.Valid()
    ensures r.Ok? ==> r.value.Valid()
  {
    match table.Insert(draft, now)
    case Err(e) => Err(e)
    case Ok(inserted) =>
      UpdateValid(inserted, Classified(inserted.rows[draft.ticketId], c), now);
      Ok(inserted.Update(Classified(inserted.rows[draft.ticketId], c), now))
  }

  /** A draft is refused, changing nothing, exactly when its identifier is taken ... */
  lemma RecordedRefused(table: TicketTable, draft: Ticket, c: map<string, Json>, now: DateTime)
    requires table.Valid()
    ensures var r := Recorded(table, draft, c, now);
            && (r.Ok? <==> draft.ticketId !in table.rows)
            && (r.Err? ==> r.error == UniqueViolation)
  {
  }

  /** ... and otherwise stored, under the next id, with the classification
      copied onto it, the rest of the table left as it was. */
  lemma RecordedStored(table: TicketTable, draft: Ticket, c: map<string, Json>, now: DateTime)
    requires table.Valid() && draft.status == New && draft.ticketId !in table.rows
    ensures var r := Recorded(table, draft, c, now);
            && r.Ok?
            && r.value.rows == table.rows[draft.ticketId := StoredRow(table, draft, c, now)]
            && r.value.order == table.order + [draft.ticketId] && r.value.nextId == table.nextId + 1
  {
    var inserted := table.Insert(draft, now).value;
    var added := draft.(id := Some(table.nextId), createdAt := Some(now));
    assert inserted.rows[draft.ticketId] == added;
    assert Classified(added, c).(updatedAt := Some(now)) == StoredRow(table, draft, c, now);
  }

  /** The row a recorded draft becomes. */
  function StoredRow(table: TicketTable, draft: Ticket, c: map<string, Json>, now: DateTime): Ticket {
    Classified(draft.(id := Some(table.nextId), createdAt := Some(now)), c).(updatedAt := Some(now))
  }

  /** Storing one fetched message, given its draft ticket and its classification:
      insert and commit, copy the classification and commit, mark the message seen. */
  function Record(p: Progress, a: Arrival, draft: Ticket, c: map<string, Json>): (r: Progress)
    requires p.table.Valid()
    ensures r.table.Valid()
  {
    match p.table.Insert(draft, a.now)
    case Err(e) => Failed(p, a.uid, e)
    case Ok(inserted) =>
      if a.insertCommit.Fail? then Failed(p, a.uid, a.insertCommit.error)
      else if a.updateCommit.Fail? then Failed(p.(table := inserted), a.uid, a.updateCommit.error)
      else
        UpdateValid(inserted, Classified(inserted.rows[draft.ticketId], c), a.now);
        var done := Progress(inserted.Update(Classified(inserted.rows[draft.ticketId], c), a.now),
                             p.result.(processed := p.result.processed + 1,
                                       ticketsCreated := p.result.ticketsCreated + [draft.ticketId]),
                             p.flagged);
        if a.flagSeen.Fail? then Failed(done, a.uid, a.flagSeen.error)
        else done.(flagged := done.flagged + [a.uid])
  }

  /** Handling one unread message. */
  function Step(codecs: Codecs, apiKey: Option<string>, p: Progress, a: Arrival): (r: Progress)
    requires p.table.Valid()
    ensures r.table.Valid()
  {
    match a.fetched
    case Err(e) => Failed(p, a.uid, e)
    case Ok(m) => Record(p, a, Draft(codecs, m, a), Classification(apiKey, a.reply))
  }

  /** The messages handled in order, each with the state the previous ones left. */
  function Ingest(codecs: Codecs, apiKey: Option<string>, start: Progress, arrivals: seq<Arrival>): (r: Progress)
    requires start.table.Valid()
    ensures r.table.Valid()
  {
    if arrivals == [] then start
    else Step(codecs, apiKey, Ingest(codecs, apiKey, start, arrivals[..|arrivals| - 1]), arrivals[|arrivals| - 1])
  }

  /** `fetch_and_process_emails`: a session failure is reported as one error. */
  function FetchAndProcess(codecs: Codecs, apiKey: Option<string>, table: TicketTable, inbox: Inbox): (r: Progress)
    requires table.Valid()
    ensures r.table.Valid()
    ensures inbox.session.Fail? ==> r.table == table && r.result.errors == [ConnectionFailed(inbox.session.error)] && r.flagged == []
  {
    var start := Progress(table, FetchResult(0, [], []), []);
    if inbox.session.Fail? then Progress(table, FetchResult(0, [ConnectionFailed(inbox.session.error)], []), [])
    else Ingest(codecs, apiKey, start, inbox.unseen)
  }

  // ----- what ingestion guarantees -----

  /** Storing a message changes no row that was already stored. */
  lemma RecordKeepsRows(p: Progress, a: Arrival, draft: Ticket, c: map<string, Json>)
    requires p.table.Valid()
    ensures var r := Record(p, a, draft, c);
            forall k :: k in p.table.rows ==> k in r.table.rows && r.table.rows[k] == p.table.rows[k]
  {
    match p.table.Insert(draft, a.now)
    case Err(_) =>
    case Ok(inserted) =>
      if a.insertCommit.Pass? && a.updateCommit.Pass? {
        var updated := inserted.Update(Classified(inserted.rows[draft.ticketId], c), a.now);
        assert Record(p, a, draft, c).table == updated;
      }
  }

  /** Storing a message either creates its ticket and counts it, or records one
      error; it marks the message seen only after its ticket was created, and a
      created ticket holds the draft with the classification copied onto it. */
  lemma RecordOutcome(p: Progress, a: Arrival, draft: Ticket, c: map<string, Json>)
    requires p.table.Valid() && draft.status == New
    ensures var r := Record(p, a, draft, c);
            var created := a.insertCommit.Pass? && a.updateCommit.Pass? && draft.ticketId !in p.table.rows;
            && r.result.processed == p.result.processed + (if created then 1 else 0)
            && r.result.ticketsCreated == p.result.ticketsCreated + (if created then [draft.ticketId] else [])
            && r.result.errors[..|p.result.errors|] == p.result.errors
            && |r.result.errors| == |p.result.errors| + (if created && a.flagSeen.Pass? then 0 else 1)
            && r.flagged == p.flagged + (if created && a.flagSeen.Pass? then [a.uid] else [])
            && (created ==> draft.ticketId in r.table.rows && r.table.rows[draft.ticketId] == StoredRow(p.table, draft, c, a.now))
            && (forall k :: k in r.table.rows && k !in p.table.rows ==>
                  k == draft.ticketId && r.table.rows[k].status == (if created then PendingApproval else New))
  {
    var r := Record(p, a, draft, c);
    if draft.ticketId in p.table.rows {
      assert r == Failed(p, a.uid, UniqueViolation);
    } else {
      var inserted := p.table.Insert(draft, a.now).value;
      if a.insertCommit.Fail? {
        assert r == Failed(p, a.uid, a.insertCommit.error);
      } else if a.updateCommit.Fail? {
        assert r == Failed(p.(table := inserted), a.uid, a.updateCommit.error);
        assert inserted.rows[draft.ticketId].status == New;
      } else {
        assert r.table == inserted.Update(Classified(inserted.rows[draft.ticketId], c), a.now);
      }
    }
  }

  /** The error a stored message adds, when it adds one: the taken identifier,
      the failed insert commit, the failed classification commit, or the failed
      seen flag, each reported under the message's uid. */
  lemma RecordErrors(p: Progress, a: Arrival, draft: Ticket, c: map<string, Json>)
    requires p.table.Valid()
    ensures var r := Record(p, a, draft, c);
            var e := p.result.errors;
            && (draft.ticketId in p.table.rows ==> r.result.errors == e + [MessageFailed(a.uid, UniqueViolation)])
            && (draft.ticketId !in p.table.rows && a.insertCommit.Fail? ==>
                  r.result.errors == e + [MessageFailed(a.uid, a.insertCommit.error)])
            && (draft.ticketId !in p.table.rows && a.insertCommit.Pass? && a.updateCommit.Fail? ==>
                  r.result.errors == e + [MessageFailed(a.uid, a.updateCommit.error)])
            && (draft.ticketId !in p.table.rows && a.insertCommit.Pass? && a.updateCommit.Pass? ==>
                  r.result.errors == e + (if a.flagSeen.Fail? then [MessageFailed(a.uid, a.flagSeen.error)] else []))
  {
  }

  /** A step that creates a ticket makes it from the message's draft and the
      classifier's answer to it; a message that could not be fetched only adds an error. */
  lemma StepOutcome(codecs: Codecs, apiKey: Option<string>, p: Progress, a: Arrival)
    requires p.table.Valid()
    ensures a.fetched.Err? ==> Step(codecs, apiKey, p, a) == Failed(p, a.uid, a.fetched.error)
    ensures a.fetched.Ok? ==>
              Step(codecs, apiKey, p, a) == Record(p, a, Draft(codecs, a.fetched.value, a), Classification(apiKey, a.reply))
              && Draft(codecs, a.fetched.value, a).status == New
  {
  }

  /** The bookkeeping ingestion keeps relative to the table it started from:
      old rows untouched, every created ticket new and awaiting approval, listed
      once, and every other new row a ticket whose classification was never
      committed; processed counts the created tickets; no more messages are
      marked seen than tickets were created (RecordOutcome gives the per-message
      fact: a message is marked seen only after its ticket was created). */
  predicate Accounted(start: TicketTable, r: Progress) {
    && (forall k :: k in start.rows ==> k in r.table.rows && r.table.rows[k] == start.rows[k])
    && (forall k :: k in r.result.ticketsCreated ==> k in r.table.rows && k !in start.rows && r.table.rows[k].status == PendingApproval)
    && (forall k :: k in r.table.rows && k !in start.rows && k !in r.result.ticketsCreated ==> r.table.rows[k].status == New)
    && (forall i, j :: 0 <= i < j < |r.result.ticketsCreated| ==> r.result.ticketsCreated[i] != r.result.ticketsCreated[j])
    && r.result.processed == |r.result.ticketsCreated|
    && |r.flagged| <= r.result.processed
  }

  lemma RecordAccounted(start: TicketTable, p: Progress, a: Arrival, draft: Ticket, c: map<string, Json>)
    requires p.table.Valid() && draft.status == New && Accounted(start, p)
    ensures Accounted(start, Record(p, a, draft, c))
  {
    var r := Record(p, a, draft, c);
    RecordKeepsRows(p, a, draft, c);
    RecordOutcome(p, a, draft, c);
    var created := a.insertCommit.Pass? && a.updateCommit.Pass? && draft.ticketId !in p.table.rows;
    if created {
      var n := |p.result.ticketsCreated|;
      assert r.result.ticketsCreated == p.result.ticketsCreated + [draft.ticketId];
      assert draft.ticketId !in p.result.ticketsCreated;
      forall i, j | 0 <= i < j < |r.result.ticketsCreated|
        ensures r.result.ticketsCreated[i] != r.result.ticketsCreated[j]
      {
        if j == n {
          assert r.result.ticketsCreated[i] == p.result.ticketsCreated[i];
        }
      }
    }
  }

  lemma StepAccounted(codecs: Codecs, apiKey: Option<string>, start: TicketTable, p: Progress, a: Arrival)
    requires p.table.Valid() && Accounted(start, p)
    ensures Accounted(start, Step(codecs, apiKey, p, a))
  {
    StepOutcome(codecs, apiKey, p, a);
    if a.fetched.Ok? {
      RecordAccounted(start, p, a, Draft(codecs, a.fetched.value, a), Classification(apiKey, a.reply));
    }
  }

  lemma {:induction false} IngestAccounted(codecs: Codecs, apiKey: Option<string>, start: Progress, arrivals: seq<Arrival>)
    requires start.table.Valid() && Accounted(start.table, start)
    ensures Accounted(start.table, Ingest(codecs, apiKey, start, arrivals))
  {
    if arrivals != [] {
      IngestAccounted(codecs, apiKey, start, arrivals[..|arrivals| - 1]);
      StepAccounted(codecs, apiKey, start.table, Ingest(codecs, apiKey, start, arrivals[..|arrivals| - 1]), arrivals[|arrivals| - 1]);
    }
  }

  /** Every message is either counted as processed or reported as an error
      (a message whose ticket was created but could not be marked seen is both). */
  lemma {:induction false} IngestReportsEveryMessage(codecs: Codecs, apiKey: Option<string>, start: Progress, arrivals: seq<Arrival>)
    requires start.table.Valid()
    ensures var r := Ingest(codecs, apiKey, start, arrivals);
            && r.result.processed - start.result.processed + |r.result.errors| - |start.result.errors| >= |arrivals|
            && r.result.processed - start.result.processed <= |arrivals|
            && |r.result.errors| - |start.result.errors| <= |arrivals|
  {
    if arrivals != [] {
      var init := arrivals[..|arrivals| - 1];
      var a := arrivals[|arrivals| - 1];
      var p := Ingest(codecs, apiKey, start, init);
      IngestReportsEveryMessage(codecs, apiKey, start, init);
      StepOutcome(codecs, apiKey, p, a);
      if a.fetched.Ok? {
        RecordOutcome(p, a, Draft(codecs, a.fetched.value, a), Classification(apiKey, a.reply));
      }
    }
  }

  /** What one run of the ingestion returns and leaves behind. A session
      failure changes nothing and reports exactly one error. Otherwise old
      rows are untouched, each created ticket is new and awaits approval, the
      count of processed messages is the number of tickets created, no message
      goes unreported, and no more messages are marked seen than tickets were created. */
  lemma FetchAndProcessOutcome(codecs: Codecs, apiKey: Option<string>, table: TicketTable, inbox: Inbox)
    requires table.Valid()
    ensures var r := FetchAndProcess(codecs, apiKey, table, inbox);
            && Accounted(table, r)
            && (inbox.session.Fail? ==> r.table == table && r.result.processed == 0 && r.flagged == []
                                        && r.result.errors == [ConnectionFailed(inbox.session.error)])
            && (inbox.session.Pass? ==> r.result.processed + |r.result.errors| >= |inbox.unseen|
                                        && r.result.processed <= |inbox.unseen| && |r.result.errors| <= |inbox.unseen|)
  {
    var start := Progress(table, FetchResult(0, [], []), []);
    if inbox.session.Pass? {
      IngestAccounted(codecs, apiKey, start, inbox.unseen);
      IngestReportsEveryMessage(codecs, apiKey, start, inbox.unseen);
    }
  }

  /** Escalated at low confidence in category Other, as every degraded classification is. */
  predicate EscalatedOther(t: Ticket) {
    t.escalationRequired == JBool(true) && t.category == JStr("Other") && t.confidence == JStr("Low")
  }

  predicate AllEscalated(r: Progress) {
    forall k :: k in r.result.ticketsCreated ==> k in r.table.rows && EscalatedOther(r.table.rows[k])
  }

  lemma RecordKeepsEscalated(p: Progress, a: Arrival, draft: Ticket, c: map<string, Json>, e: string)
    requires p.table.Valid() && draft.status == New && DegradedWith(c, e) && AllEscalated(p)
    ensures AllEscalated(Record(p, a, draft, c))
  {
    var r := Record(p, a, draft, c);
    RecordKeepsRows(p, a, draft, c);
    RecordOutcome(p, a, draft, c);
    var row := StoredRow(p.table, draft, c, a.now);
    assert row.escalationRequired == c[EscalationKey] && row.category == c[CategoryKey] && row.confidence == c[ConfidenceKey];
    forall k | k in r.result.ticketsCreated
      ensures k in r.table.rows && EscalatedOther(r.table.rows[k])
    {
      if k !in p.result.ticketsCreated {
        assert k == draft.ticketId;
      }
    }
  }

  /** Without an API key every ticket the ingestion creates escalates, with
      category Other and low confidence. */
  lemma {:induction false} NoKeyTicketsEscalate(codecs: Codecs, apiKey: Option<string>, start: Progress, arrivals: seq<Arrival>)
    requires start.table.Valid() && !HasApiKey(apiKey) && start.result.ticketsCreated == []
    ensures AllEscalated(Ingest(codecs, apiKey, start, arrivals))
  {
    if arrivals != [] {
      var init := arrivals[..|arrivals| - 1];
      var a := arrivals[|arrivals| - 1];
      var p := Ingest(codecs, apiKey, start, init);
      NoKeyTicketsEscalate(codecs, apiKey, start, init);
      StepOutcome(codecs, apiKey, p, a);
      if a.fetched.Ok? {
        NoKeyDegraded();
        RecordKeepsEscalated(p, a, Draft(codecs, a.fetched.value, a), Classification(apiKey, a.reply), "OpenAI API key not configured");
      }
    }
  }

  // ----- the imperative handlers -----

  /** The database half of one iteration: store the draft, copy the
      classification, commit, count, mark seen. */
  method RecordMessage(db: Database, results: FetchResult, flagged: seq<nat>, a: Arrival, ticket: Ticket, aiResult: map<string, Json>)
    returns (results': FetchResult, flagged': seq<nat>)
    requires db.Valid()
    modifies db
    ensures db.Valid()
    ensures Progress(db.tickets, results', flagged') == Record(Progress(old(db.tickets), results, flagged), a, ticket, aiResult)
    ensures db.emailConfigs == old(db.emailConfigs) && db.schedulerConfigs == old(db.schedulerConfigs)
  {
    results', flagged' := results, flagged;
    var ticketId := ticket.ticketId;
    var inserted := db.tickets.Insert(ticket, a.now);
    if inserted.Err? {
      results' := results'.(errors := results'.errors + [MessageFailed(a.uid, inserted.error)]);
      return;
    }
    if a.insertCommit.Fail? {
      results' := results'.(errors := results'.errors + [MessageFailed(a.uid, a.insertCommit.error)]);
      return;
    }
    db.tickets := inserted.value;
    var stored := db.tickets.rows[ticketId];
    stored := stored.(category := Get(aiResult, CategoryKey), urgency := Get(aiResult, UrgencyKey),
                      summary := Get(aiResult, SummaryKey), fixSteps := Get(aiResult, FixStepsKey),
                      aiResponse := Get(aiResult, ResponseKey), confidence := Get(aiResult, ConfidenceKey),
                      escalationRequired := GetOrDefault(aiResult, EscalationKey, JBool(false)),
                      status := PendingApproval);
    if a.updateCommit.Fail? {
      results' := results'.(errors := results'.errors + [MessageFailed(a.uid, a.updateCommit.error)]);
      return;
    }
    assert stored == Classified(inserted.value.rows[ticketId], aiResult);
    UpdateValid(db.tickets, stored, a.now);
    db.tickets := db.tickets.Update(stored, a.now);

    results' := results'.(processed := results'.processed + 1, ticketsCreated := results'.ticketsCreated + [ticketId]);
    if a.flagSeen.Fail? {
      results' := results'.(errors := results'.errors + [MessageFailed(a.uid, a.flagSeen.error)]);
    } else {
      flagged' := flagged' + [a.uid];
    }
  }

  /** One iteration of the ingestion loop. */
  method HandleMessage(db: Database, codecs: Codecs, apiKey: Option<string>, results: FetchResult, flagged: seq<nat>, a: Arrival)
    returns (results': FetchResult, flagged': seq<nat>)
    requires db.Valid()
    modifies db
    ensures db.Valid()
    ensures Progress(db.tickets, results', flagged') == Step(codecs, apiKey, Progress(old(db.tickets), results, flagged), a)
    ensures db.emailConfigs == old(db.emailConfigs) && db.schedulerConfigs == old(db.schedulerConfigs)
  {
    if a.fetched.Err? {
      return results.(errors := results.errors + [MessageFailed(a.uid, a.fetched.error)]), flagged;
    }
    var m := a.fetched.value;
    var senderName := DecodeEmailHeader(codecs, Some(m.senderName));
    var subject := DecodeEmailHeader(codecs, Some(if m.subject.Some? then m.subject.value else [Plain("No Subject")]));
    var body := GetEmailBody(codecs, m.body);
    var receivedAt := if m.date.Some? then m.date.value else a.now;
    var ticket := NewTicket(TicketId(a.now, a.uuid), m.senderEmail, Some(senderName), subject, body, receivedAt);
    assert ticket == Draft(codecs, m, a);
    var aiResult := AnalyzeEmail(apiKey, a.reply);
    results', flagged' := RecordMessage(db, results, flagged, a, ticket, aiResult);
  }

  /**
   * `fetch_and_process_emails`. The inbox stands for the IMAP session opened
   * with the active settings; `flagged` lists the uids marked as seen.
   */
  method FetchAndProcessEmails(db: Database, codecs: Codecs, apiKey: Option<string>, inbox: Inbox)
    returns (results: FetchResult, flagged: seq<nat>)
    requires db.Valid()
    modifies db
    ensures db.Valid()
    ensures Progress(db.tickets, results, flagged) == FetchAndProcess(codecs, apiKey, old(db.tickets), inbox)
    ensures db.emailConfigs == old(db.emailConfigs) && db.schedulerConfigs == old(db.schedulerConfigs)
  {
    results, flagged := FetchResult(0, [], []), [];
    if inbox.session.Fail? {
      results := results.(errors := results.errors + [ConnectionFailed(inbox.session.error)]);
      return;
    }
    ghost var start := Progress(db.tickets, results, flagged);
    var messages := inbox.unseen;
    for i := 0 to |messages|
      invariant db.Valid()
      invariant Progress(db.tickets, results, flagged) == Ingest(codecs, apiKey, start, messages[..i])
      invariant db.emailConfigs == old(db.emailConfigs) && db.schedulerConfigs == old(db.schedulerConfigs)
    {
      assert messages[..i + 1][..i] == messages[..i];
      results, flagged := HandleMessage(db, codecs, apiKey, results, flagged, messages[i]);
    }
    assert messages[..|messages|] == messages;
  }

  // ----- manual tickets -----

  /** The draft of a ticket entered by hand: sender name "Test User", received
      now, the subject and body as typed. */
  function TestDraft(senderEmail: string, subject: string, body: string, now: DateTime, uuid: nat): (t: Ticket)
    ensures t.status == New
  {
    NewTicket(TicketId(now, uuid), senderEmail, Some(TestUser), subject, body, now)
  }

  const TestUser: string := "Test User"

  /** A manual ticket is stored, awaiting approval, with what was typed, the
      classifier's fields copied onto it and nothing else changed. It fails,
      changing nothing, exactly when its identifier is already taken. */
  lemma TestTicketOutcome(table: TicketTable, senderEmail: string, subject: string, body: string,
                          now: DateTime, uuid: nat, c: map<string, Json>)
    requires table.Valid()
    ensures var r := Recorded(table, TestDraft(senderEmail, subject, body, now, uuid), c, now);
            var id := TicketId(now, uuid);
            && (r.Err? <==> id in table.rows)
            && (r.Err? ==> r.error == UniqueViolation)
            && (r.Ok? ==>
                  var t := r.value.rows[id];
                  && t.ticketId == id && t.status == PendingApproval
                  && t.senderEmail == senderEmail && t.senderName == Some(TestUser)
                  && t.emailSubject == subject && t.emailBody == body && t.receivedAt == now
                  && t == StoredRow(table, TestDraft(senderEmail, subject, body, now, uuid), c, now)
                  && t.category == Get(c, CategoryKey) && t.urgency == Get(c, UrgencyKey)
                  && t.summary == Get(c, SummaryKey) && t.fixSteps == Get(c, FixStepsKey)
                  && t.aiResponse == Get(c, ResponseKey) && t.confidence == Get(c, ConfidenceKey)
                  && t.escalationRequired == GetOrDefault(c, EscalationKey, JBool(false))
                  && r.value.rows.Keys == table.rows.Keys + {id}
                  && forall k :: k in table.rows ==> r.value.rows[k] == table.rows[k])
  {
    var draft := TestDraft(senderEmail, subject, body, now, uuid);
    var id := TicketId(now, uuid);
    assert draft.ticketId == id && draft.senderName == Some(TestUser);
    RecordedRefused(table, draft, c, now);
    if id !in table.rows {
      RecordedStored(table, draft, c, now);
      var row := StoredRow(table, draft, c, now);
      assert row.ticketId == id && row.status == PendingApproval;
      assert row.category == Get(c, CategoryKey) && row.urgency == Get(c, UrgencyKey);
      assert row.summary == Get(c, SummaryKey) && row.fixSteps == Get(c, FixStepsKey);
      assert row.aiResponse == Get(c, ResponseKey) && row.confidence == Get(c, ConfidenceKey);
      assert row.escalationRequired == GetOrDefault(c, EscalationKey, JBool(false));
    }
  }

  /** Inserting a draft, copying the classification onto the stored row and committing. */
  method StoreClassified(db: Database, ticket: Ticket, aiResult: map<string, Json>, now: DateTime)
    returns (r: Result<Ticket, string>)
    requires db.Valid()
    modifies db
    ensures db.Valid()
    ensures var expected := Recorded(old(db.tickets), ticket, aiResult, now);
            && (expected.Err? ==> db.tickets == old(db.tickets) && r == Err(expected.error))
            && (expected.Ok? ==> db.tickets == expected.value && r == Ok(db.tickets.rows[ticket.ticketId]))
    ensures db.emailConfigs == old(db.emailConfigs) && db.schedulerConfigs == old(db.schedulerConfigs)
  {
    var inserted := db.tickets.Insert(ticket, now);
    if inserted.Err? {
      return Err(inserted.error);
    }
    db.tickets := inserted.value;
    var stored := db.tickets.rows[ticket.ticketId];
    stored := Classified(stored, aiResult);
    UpdateValid(db.tickets, stored, now);
    db.tickets := db.tickets.Update(stored, now);
    r := Ok(db.tickets.rows[ticket.ticketId]);
  }

  /** `create_test_ticket`. A second insert of the same identifier raises, which
      is the Err result; otherwise the stored ticket is returned. */
  method CreateTestTicket(db: Database, senderEmail: string, subject: string, body: string,
                          now: DateTime, uuid: nat, apiKey: Option<string>, reply: Reply)
    returns (r: Result<Ticket, string>)
    requires db.Valid()
    modifies db
    ensures db.Valid()
    ensures var expected := Recorded(old(db.tickets), TestDraft(senderEmail, subject, body, now, uuid), Classification(apiKey, reply), now);
            && (expected.Err? ==> db.tickets == old(db.tickets) && r == Err(expected.error))
            && (expected.Ok? ==> db.tickets == expected.value && r == Ok(db.tickets.rows[TicketId(now, uuid)]))
    ensures db.emailConfigs == old(db.emailConfigs) && db.schedulerConfigs == old(db.schedulerConfigs)
  {
    var ticket := NewTicket(TicketId(now, uuid), senderEmail, Some(TestUser), subject, body, now);
    var aiResult := AnalyzeEmail(apiKey, reply);
    r := StoreClassified(db, ticket, aiResult, now);
  }
}
