# Support-desk auto-responder: a verified model of the ticket lifecycle

This project models, in Dafny, the core of the InfinityWork support-desk
auto-responder: a service that reads unread support mail, turns every message
into a ticket, has a hosted language model classify it and draft a reply, and
sends that reply only after an operator has approved it.

The model follows a ticket through its whole life:

- **Ingestion** (`EmailIngestor`). Each unread message is decoded (headers with
  a lossy UTF-8 fallback, the first plain-text body part, whitespace stripped).
  It is stored as a `new` ticket with a `TKT-YYYYMMDD-XXXXXXXX` identifier. The
  classification is copied onto it, it moves to `pending_approval`, and the
  message is marked seen. Failures are collected per message; a failed IMAP
  session is one error.
- **Classification** (`AiProcessor`). The model's JSON reply is completed with
  defaults for missing fields. A missing API key, an undecodable reply or any
  other failure each give a fixed degraded classification instead of an
  exception.
- **Review** (`App`). Approval, rejection, the dashboard counters, the
  status-filtered listings, the JSON read API, the mailbox-settings upsert and
  the manual fetch.
- **Dispatch** (`MailSender`). The reply mail ("Re: " subject, "name <address>"
  sender, plain text plus an HTML copy with `<br>` line breaks). The guarded
  per-ticket send, which marks the ticket `sent`, and the batch send over every
  approved ticket.
- **Polling** (`Scheduler`). The periodic job's gate, the polling settings, and
  the job table with its running flag.

The outside world is passed in as parameters:

- the classifier's reply: `CallFailed`, `BadJson` or `JsonObject`;
- the mailbox: a session outcome and a sequence of arrivals, each carrying the
  outcome of every step taken on it;
- the SMTP relay: a function from mail to outcome;
- the charset decoders;
- the clock and the uuid drawn for each ticket.

The database is one `Database` object holding three tables. The handlers are
methods that modify it. Each one is proved equal to a specification function,
and the properties are proved about those functions. The tickets table is a
value, `TicketTable`, with an integrity invariant (`Valid`) that every write
path keeps.

Modules, in dependency order:

| module | file | covers |
|---|---|---|
| `Common` | `common.dfy` | `Option`, `Result`, `Outcome`, bytes, JSON values |
| `Text` | `text.dfy` | fixed-width digits, `str.strip`, `join`/`split`, `in` |
| `Time` | `time.dfy` | datetimes, `isoformat()`, `strftime("%Y%m%d")` |
| `Models` | `models.dfy` | the entities, `to_dict`, the ticket identifier |
| `Store` | `store.dfy` | the tables and the database object |
| `AiProcessor` | `ai_processor.dfy` | the classifier |
| `EmailIngestor` | `email_ingestor.dfy` | decoding, ingestion, manual tickets |
| `MailSender` | `mail_sender.dfy` | composition and dispatch |
| `Scheduler` | `scheduler.dfy` | the polling job and the job table |
| `App` | `app.dfy` | the HTTP handlers of `main.py` |

Where the code and its design description disagree, the model follows the code:

- Approval and rejection do not check the ticket's prior status.
- The classifier's own `approval_status`, when it sends one, is kept.
- The HTML reply body is not escaped: only `\n` becomes `<br>`.

## Model

| member | source | states |
|---|---|---|
| Models.StatusValueRoundTrip | models.py:6-12 | the status column holds one of exactly six texts, and each text names exactly one status |
| Models.StatusRoundTrip | models.py:6-12 | a status reads back from its stored text |
| Models.StatusValuesDistinct | models.py:6-12 | two statuses have the same text exactly when they are the same status |
| Models.NewTicket | models.py:30-57 | a fresh ticket is `new` with escalation false; every classifier, decision and dispatch column is null; id and created_at are not yet assigned |
| Models.NewEmailConfig | models.py:99 | a newly created mailbox settings row is active and holds the given settings |
| Models.KeysDistinct | models.py:60-83 | no two columns of the rendering share a key |
| Models.ToDictKeys | models.py:59-83 | a rendered ticket has exactly the 22 columns |
| Models.ToDict | models.py:59-83 | the rendering, one entry per column: its keys are stated by ToDictKeys, its cells by the *Cells lemmas, and ToDictRoundTrip shows it loses nothing |
| Models.TimestampRoundTrip | models.py:67 | a null timestamp renders as null, a present one as ISO text that parses back to it |
| Models.SenderCells | models.py:61-64 | the rendering copies id, ticket_id, sender_email and sender_name unchanged (null stays null) |
| Models.MessageCells | models.py:65-68 | the rendering copies subject and body, writes received_at as ISO text and the status as its text |
| Models.TriageCells | models.py:69-82 | the rendering copies category, urgency and summary, and writes created_at as ISO text or null |
| Models.AnalysisCells | models.py:72-82 | the rendering copies fix_steps, ai_response and confidence, and writes updated_at as ISO text or null |
| Models.ReviewCells | models.py:75-78 | the rendering copies escalation_required, approved_response and approved_by, and writes approved_at as ISO text or null |
| Models.OutcomeCells | models.py:79-80 | the rendering copies rejected_reason and writes sent_at as ISO text or null |
| Models.FromCells | models.py:59-83 | a complete rendering whose every column holds the ticket's value reads back as that ticket |
| Models.ToDictRoundTrip | models.py:59-83 | the rendering loses nothing: reading it back gives the ticket |
| Models.ToDictInjective | models.py:59-83 | two tickets with the same rendering are the same ticket |
| Models.TicketId | email_ingestor.py:60-64 | a ticket identifier is 21 characters long |
| Models.ParseTicketId | email_ingestor.py:64 | an accepted identifier's suffix is eight upper-case hexadecimal digits |
| Models.TicketIdRoundTrip | email_ingestor.py:60-64 | an identifier carries the UTC date it was minted on and the uuid's first eight hex digits |
| Models.ParseTicketIdShape | email_ingestor.py:64 | every accepted text is "TKT-", a zero-padded YYYYMMDD date, "-" and the suffix |
| Models.TicketIdDistinct | email_ingestor.py:60-64 | equal identifiers come from the same day and the same uuid prefix |
| Text.Render | email_ingestor.py:62-63 | a fixed-width rendering has exactly the width, all digits of the base |
| Text.ParseRender | email_ingestor.py:62-63 | a number that fits the width parses back from its rendering |
| Text.RenderParse | email_ingestor.py:62-63 | a digit string is the rendering of its own value at its own width |
| Text.Show | email_ingestor.py:141 | `str(n)` is a non-empty string of decimal digits |
| Text.ParseShow | email_ingestor.py:141 | `str(n)` parses back to n |
| Text.Strip | email_ingestor.py:57 | `strip()` is a slice of the input with whitespace only outside it, and it neither starts nor ends with whitespace |
| Text.StripIdempotent | email_ingestor.py:57 | stripping a stripped text changes nothing |
| Text.SplitJoin | email_ingestor.py:27 | parts without the separator are recovered by splitting what `join` wrote |
| Time.IsoRoundTrip | models.py:67 | `isoformat()` writes 19 characters, or 26 with microseconds, and parses back to the datetime |
| Time.DateStamp | email_ingestor.py:62 | `strftime("%Y%m%d")` is eight decimal digits |
| Store.TicketTable.Insert | email_ingestor.py:112-114 | an insert fails with the unique-constraint error (a stand-in text) exactly when the ticket_id is taken; otherwise it adds the row under the next id with the creation time, appends it to the order and keeps the invariant |
| Store.TicketTable.Update | models.py:57 | a commit whose row differs from the stored one replaces only that row and stamps its updated_at; a commit with no net change leaves the table as it was (no UPDATE is sent, so onupdate does not fire); order and counter are kept |
| Store.TicketTable.Find | main.py:65 | the lookup by ticket_id finds a row exactly when one is stored under that id, and then that row |
| Store.UpdateValid | email_ingestor.py:133 | an update that keeps the row's primary key keeps the table's invariant |
| Store.TicketTable.NewestFirst | main.py:29 | the listing has one entry per stored row |
| Store.EmptyTableValid | main.py:16 | the freshly created table satisfies the invariant and lists nothing |
| Store.NewestFirstComplete | main.py:29 | every stored ticket appears in the listing |
| Store.NewestFirstDistinct | main.py:29 | no ticket appears in the listing twice |
| Store.InsertHeadsListing | main.py:205 | a newly inserted ticket heads the listing, in front of the previous listing |
| Store.FirstActive | main.py:139 | `filter(is_active == True).first()` finds the first active row, and finds none exactly when no row is active |
| Store.ActiveConfig | main.py:104 | `filter(is_active == True).first()`: the first active settings row, which is absent exactly when no row is active |
| Store.Database.constructor | main.py:16 | a new schema has every table empty |
| AiProcessor.RequiredFieldsListed | ai_processor.py:158 | exactly eight required fields |
| AiProcessor.DefaultFor | ai_processor.py:159-166 | a missing field's default is False, "PENDING" or "Unknown" |
| AiProcessor.HasApiKey | ai_processor.py:118 | an API key counts only when it is set and not empty |
| AiProcessor.Filled | ai_processor.py:158-166 | the filled reply has the reply's keys plus the eight required ones; present keys keep their values, missing ones get False, "PENDING" or "Unknown" |
| AiProcessor.FilledIdempotent | ai_processor.py:158-166 | filling an already filled reply changes nothing |
| AiProcessor.FillMissing | ai_processor.py:159-166 | the loop adds exactly the missing listed fields, with their defaults, and keeps every present key |
| AiProcessor.FillRequiredFields | ai_processor.py:158-166 | the loop over the required fields computes the filled reply |
| AiProcessor.Degraded | ai_processor.py:119-129 | a fallback result has exactly the eight required keys and "error" |
| AiProcessor.DegradedShape | ai_processor.py:119-129 | a fallback result is category Other, urgency Medium, confidence Low, escalation true, approval PENDING, with the given error, summary, steps and reply |
| AiProcessor.NoKeyDegraded | ai_processor.py:118-129 | without an API key the result is degraded, with the "not configured" error and the "API key missing" summary |
| AiProcessor.ParseFailureDegraded | ai_processor.py:170-181 | an undecodable reply gives a degraded result whose error carries the decoder's message |
| AiProcessor.ErrorDegraded | ai_processor.py:182-193 | any other failure gives a degraded result whose error and summary both carry the exception's text |
| AiProcessor.DegradedClassification | ai_processor.py:115-193 | without a key or a decoded reply the result is always degraded, with the error naming the cause |
| AiProcessor.Classification | ai_processor.py:115-193 | every classification carries the eight required fields; ClassificationComplete and DegradedClassification state which result each path gives |
| AiProcessor.ReplyFieldsKept | ai_processor.py:156-168 | with a key and a decoded reply, every field of the reply is kept, "error" and "approval_status" included, and every added key is a required field set to its default |
| AiProcessor.ClassificationComplete | ai_processor.py:115-193 | every result carries the eight required fields, and carries "error" exactly when the analysis degraded or the model sent one |
| AiProcessor.AnalyzeEmail | ai_processor.py:115-193 | `analyze_email` returns the classification for the configured key and the model's reply |
| EmailIngestor.DecodedParts | email_ingestor.py:18-26 | one decoded text per header piece, in order, each bytes piece decoded with its charset or UTF-8 and the lossy fallback |
| EmailIngestor.HeaderText | email_ingestor.py:12-27 | an absent header gives "", and a header of one piece gives that piece decoded |
| EmailIngestor.HeaderTextSplits | email_ingestor.py:27 | the pieces are joined with single spaces in order: splitting gives them back when none contains a space |
| EmailIngestor.PlainHeaderText | email_ingestor.py:25-27 | a header of one plain piece decodes to that piece |
| EmailIngestor.DecodeEmailHeader | email_ingestor.py:12-27 | the loop computes the header text; an absent header gives "" |
| EmailIngestor.FirstBodyPart | email_ingestor.py:35-39 | the chosen part is the first text/plain part not marked as an attachment, and there is none exactly when no part qualifies |
| EmailIngestor.EmailBody | email_ingestor.py:30-57 | an absent or empty single payload, or a multipart message with no body part, gives an empty body |
| EmailIngestor.EmailBodyStripped | email_ingestor.py:57 | a body never starts or ends with whitespace |
| EmailIngestor.FirstBodyPartDecides | email_ingestor.py:34-47 | the first qualifying part alone decides the body, even when its payload is empty |
| EmailIngestor.GetEmailBody | email_ingestor.py:30-57 | the walk with its `break` computes the body |
| EmailIngestor.FetchResult.ErrorTexts | email_ingestor.py:141-145 | one error text per recorded problem, the i-th being the i-th problem's text |
| EmailIngestor.Problem.Text | email_ingestor.py:141-145 | a message failure's text starts "Error processing message ", a session failure's is "IMAP connection error: " and the exception's text; both end with the exception's text |
| EmailIngestor.ProblemTexts | email_ingestor.py:141-145 | the two texts in full, and a failed message is never shown as a session failure |
| EmailIngestor.SubjectText | email_ingestor.py:91 | a message without a Subject header gets the subject "No Subject" |
| EmailIngestor.Draft | email_ingestor.py:88-110 | a fetched message becomes a `new` ticket under an identifier minted from that moment's clock and uuid |
| EmailIngestor.Classified | email_ingestor.py:124-131 | copying the classification moves the ticket to pending_approval and keeps its identity |
| EmailIngestor.Recorded | email_ingestor.py:165-186 | inserting and classifying keeps the table's invariant |
| EmailIngestor.RecordedRefused | email_ingestor.py:165-166 | a draft is refused, with the unique-constraint error, exactly when its identifier is taken |
| EmailIngestor.RecordedStored | email_ingestor.py:165-186 | otherwise the draft is stored under the next id with the classification copied onto it, and nothing else changes |
| EmailIngestor.Record | email_ingestor.py:112-138 | storing one message keeps the table's invariant |
| EmailIngestor.Step | email_ingestor.py:83-142 | handling one message keeps the table's invariant |
| EmailIngestor.Ingest | email_ingestor.py:82-142 | handling the messages in turn keeps the table's invariant |
| EmailIngestor.RecordKeepsRows | email_ingestor.py:112-133 | storing a message changes no row already stored |
| EmailIngestor.RecordOutcome | email_ingestor.py:112-141 | a message either creates its ticket (counted, listed, pending approval, holding the classified draft) or adds one error; it is marked seen only after both commits; earlier errors stay |
| EmailIngestor.RecordErrors | email_ingestor.py:112-141 | the added error is reported under the message's uid and carries the unique-constraint text, the failed insert commit's, the failed classification commit's or the failed seen flag's; a fully stored and flagged message adds none |
| EmailIngestor.StepOutcome | email_ingestor.py:83-141 | a message that could not be fetched adds only its error; otherwise its `new` draft and its classification are stored |
| EmailIngestor.RecordAccounted | email_ingestor.py:112-141 | storing a message keeps the ingestion's bookkeeping |
| EmailIngestor.StepAccounted | email_ingestor.py:83-142 | handling a message keeps the ingestion's bookkeeping |
| EmailIngestor.IngestAccounted | email_ingestor.py:82-142 | after any number of messages, old rows are untouched, created tickets are new rows pending approval and listed once, other new rows are `new`, and processed counts the created tickets |
| EmailIngestor.IngestReportsEveryMessage | email_ingestor.py:82-142 | every message is counted as processed or reported as an error, and neither count exceeds the number of messages |
| EmailIngestor.FetchAndProcess | email_ingestor.py:67-147 | the ingestion keeps the table's invariant; a session failure changes nothing, marks nothing seen and reports the IMAP connection error alone |
| EmailIngestor.FetchAndProcessOutcome | email_ingestor.py:67-147 | a session failure changes nothing and reports exactly one error, the IMAP connection error with the session's text; otherwise the bookkeeping holds and no message goes unreported |
| EmailIngestor.RecordKeepsEscalated | email_ingestor.py:124-130 | storing a message with a degraded classification keeps every created ticket escalated, in category Other, at low confidence |
| EmailIngestor.NoKeyTicketsEscalate | email_ingestor.py:116-130 | without an API key every ticket the ingestion creates is escalated, in category Other, at low confidence |
| EmailIngestor.RecordMessage | email_ingestor.py:112-138 | the database half of one iteration computes the stored-message step and changes no other table |
| EmailIngestor.HandleMessage | email_ingestor.py:83-142 | one loop iteration computes the one-message step and changes no other table |
| EmailIngestor.FetchAndProcessEmails | email_ingestor.py:67-147 | the loop computes the ingestion over the inbox and changes no other table |
| EmailIngestor.TestDraft | email_ingestor.py:152-163 | a manual draft is a `new` ticket |
| EmailIngestor.TestTicketOutcome | email_ingestor.py:150-189 | a manual ticket fails, changing nothing, exactly when its identifier is taken; otherwise it is stored pending approval, from "Test User", with what was typed and the classifier's category, urgency, summary, fix_steps, response and confidence, escalation_required defaulting to false, and no other row changes |
| EmailIngestor.StoreClassified | email_ingestor.py:165-187 | inserting, classifying and committing returns the stored row, or the insert error with the table unchanged |
| EmailIngestor.CreateTestTicket | email_ingestor.py:150-189 | `create_test_ticket` stores the classified manual draft and returns it, or the insert error with the table unchanged |
| MailSender.Br | mail_sender.py:32 | the HTML body holds no newline |
| MailSender.UnbrBr | mail_sender.py:32 | turning `<br>` back into newlines recovers a text that does not itself contain "<br>" |
| MailSender.BrNotInjective | mail_sender.py:32 | with no escaping a typed "<br>" and a line break give the same HTML |
| MailSender.HtmlRoundTrip | mail_sender.py:32-33 | the HTML part is the body between `<html><body>` and `</body></html>`, reads back as the body, and holds no newline |
| MailSender.Compose | mail_sender.py:24-34 | the subject ends with the original one after four characters, and the HTML part holds no newline |
| MailSender.ComposeHeaders | mail_sender.py:24-43 | for every body: the subject is "Re: " and the original, the sender is "name <address>" from the settings, the recipient is the given one, the plain part is the text as typed, and the relay is reached with the settings' SMTP server, port, username and password |
| MailSender.ComposeCarriesText | mail_sender.py:32-33 | the HTML part is the text with its line breaks as `<br>`, nothing escaped, and reads back as the text when it held no "<br>" of its own |
| MailSender.SendEmail | mail_sender.py:22-48 | a send succeeds exactly when the relay accepts the composed mail; otherwise the error is the relay's text |
| MailSender.DispatchResult | mail_sender.py:53-69 | a send succeeds only for an approved ticket with a non-empty approved reply |
| MailSender.DispatchOnlyApproved | mail_sender.py:53-69 | a reply goes out only for an approved ticket with a non-empty approved reply, to its sender, carrying that reply; an unapproved ticket gets "Ticket is not approved" |
| MailSender.Dispatched | mail_sender.py:71-73 | a sent ticket is `sent` with its dispatch time, and keeps its decision columns consistent |
| MailSender.SentRow | mail_sender.py:71-74 | a failed send leaves the ticket as it was; a successful one marks it sent with sent_at the send's time, under the same ticket_id, and stamps updated_at whenever the ticket was not already sent |
| MailSender.DispatchChangesOnlyApproved | mail_sender.py:53-76 | a send changes a ticket exactly when it succeeds, and then only from approved to sent, with sent_at and updated_at set |
| MailSender.MarkSent | mail_sender.py:71-74 | a send keeps the table's keys and keying |
| MailSender.MarkSentChanges | mail_sender.py:71-74 | a send changes only the sent ticket's row |
| MailSender.SendApprovedTicket | mail_sender.py:51-76 | `send_approved_ticket_async` returns the guarded send's result and marks only that ticket sent, only on success |
| MailSender.ApprovedKeys | mail_sender.py:87-89 | the batch lists exactly the approved tickets, each once |
| MailSender.ApprovedAmong | mail_sender.py:87-89 | filtering a list of keys keeps exactly the approved ones, each once |
| MailSender.SendNext | mail_sender.py:92-100 | one batch step keeps the table's keys and keying |
| MailSender.SendAll | mail_sender.py:91-100 | the batch keeps the table's keys and keying |
| MailSender.SendAllSnoc | mail_sender.py:91-100 | one more ticket extends the batch by one step |
| MailSender.SendAllCounts | mail_sender.py:91-100 | sent plus failed is the number of listed tickets, and one error is listed per failure |
| MailSender.SendAllRows | mail_sender.py:91-92 | each listed ticket ends as its own send left it |
| MailSender.SendAllKeepsUnlisted | mail_sender.py:87-92 | a ticket outside the batch is untouched |
| MailSender.SendAllErrors | mail_sender.py:95-100 | each listed failure names a ticket of the batch and carries the text its own send failed with |
| MailSender.SendAllApprovedFailures | mail_sender.py:87-100 | no batch failure comes from the approval check: each is a missing reply or the relay's own error |
| MailSender.SendAllApprovedTickets | mail_sender.py:79-102 | the loop computes the batch over the approved tickets and changes no other table |
| Scheduler.NewSchedulerConfig | models.py:108-111 | a new polling row has no last fetch time, a last count of 0 and the given switch and interval |
| Scheduler.GetSchedulerConfig | scheduler.py:55-70 | the first stored row, or polling off every 5 minutes, never run, when no row is stored |
| Scheduler.ReportedDefaultsAreStored | scheduler.py:65-70 | the reported defaults are the declared ones, and the row start-up creates for an empty table |
| Scheduler.IsActiveIsNoColumn | models.py:104-113 | the polling settings table has no is_active column |
| Scheduler.ActiveSchedulerAsWritten | scheduler.py:22-24 | the lookup as written succeeds exactly when is_active is a declared column, and otherwise raises the AttributeError for it |
| Scheduler.ActiveScheduler | scheduler.py:22-24 | the intended lookup always succeeds and finds the first stored row, if any |
| Scheduler.JobPlan | scheduler.py:26-36 | a run ingests only on a stored row |
| Scheduler.JobPlanGate | scheduler.py:26-38 | the job ingests exactly when the lookup found a row with polling enabled and some mailbox configuration is active, and gives up exactly when the lookup raised |
| Scheduler.AsWrittenJobNeverIngests | scheduler.py:22-24 | as written, every run gives up with the AttributeError, whatever is stored |
| Scheduler.CorrectedJobIngests | scheduler.py:22-38 | with the intended lookup, the job ingests exactly when the first row enables polling and some mailbox configuration is active |
| Scheduler.Fetched | scheduler.py:40-41 | after a run the row records the time and the processed count and keeps its settings |
| Scheduler.AutoFetchEmailsJob | scheduler.py:16-52 | the job ingests and records time and count on its row only when the gate lets it through and its commit succeeds; otherwise nothing changes; it never raises |
| Scheduler.Scheduled | scheduler.py:73-86 | scheduling puts the polling job at the new interval under its id and leaves every other job as it was |
| Scheduler.RescheduleKeepsOneJob | scheduler.py:77-86 | repeated rescheduling keeps exactly one polling job, at the latest interval |
| Scheduler.JobScheduler.constructor | scheduler.py:14 | a new scheduler has no jobs and is not running |
| Scheduler.JobScheduler.UpdateSchedulerJob | scheduler.py:73-87 | remove then add: the job table becomes the scheduled one; the running flag is unchanged |
| Scheduler.JobScheduler.Start | scheduler.py:108-109 | after a start the scheduler runs, jobs unchanged |
| Scheduler.JobScheduler.Stop | scheduler.py:114-116 | after a stop the scheduler does not run, jobs unchanged |
| Scheduler.StartScheduler | scheduler.py:90-109 | start-up creates the disabled 5-minute row only when none exists, schedules the job only when the row enables it, and leaves the scheduler running |
| Scheduler.StopScheduler | scheduler.py:112-116 | shut-down leaves the scheduler stopped with its jobs |
| App.WithStatus | main.py:203-204 | the filtered listing holds exactly the tickets in that status, and is a subsequence of the list it filters, so their order is kept |
| App.CountStatus | main.py:33-36 | a counter never exceeds the number of tickets |
| App.DashboardStats | main.py:29-37 | the total is the number of stored tickets, and no counter exceeds it |
| App.CountsWithinTotal | main.py:31-37 | pending, approved, sent and rejected add up to at most the total |
| App.StatsWithinTotal | main.py:29-37 | over the stored tickets, the four counters add up to at most the total, which is the number of stored tickets |
| App.CountMatchesListing | main.py:33-36 | each counter equals the length of the listing filtered by that status |
| App.GetTickets | main.py:197-206 | one rendering per listed ticket, each with exactly the 22 columns |
| App.GetTicketsReadBack | main.py:206 | each rendering reads back as the listed ticket it renders |
| App.ListingContents | main.py:202-206 | with a status the listing holds exactly the stored tickets in it; without one (or an empty one) it holds every stored ticket; it holds nothing else |
| App.Listing | main.py:200-205 | the listing is a subsequence of the newest-first list, filtered to the status when a non-empty one is given and the whole list otherwise |
| App.GetTicket | main.py:209-214 | 404 "Ticket not found" exactly when the id is unknown; otherwise a rendering that reads back as the stored ticket |
| App.Approval | main.py:69-72 | approval sets status approved, the reply, the approver and the time, whatever the prior status |
| App.Rejection | main.py:88-89 | rejection sets status rejected and the reason |
| App.ApprovalChangesOnlyDecision | main.py:69-72 | approval changes no other column |
| App.RejectionChangesOnlyDecision | main.py:88-89 | rejection changes no other column; an earlier approved reply and sent_at stay |
| App.ApproveTicket | main.py:58-75 | an unknown id gives 404 and changes nothing; otherwise the approval, with approver defaulting to "Admin", is committed to that row alone, with updated_at stamped only when a column changed |
| App.RejectTicket | main.py:78-92 | an unknown id gives 404 and changes nothing; otherwise the rejection, with reason defaulting to "", is committed to that row alone, with updated_at stamped only when a column changed |
| App.RepeatedRejectionKeepsRow | main.py:88-90 | a commit leaves the table exactly as it was if and only if the ticket is already rejected with the same reason; any other rejection stamps updated_at |
| App.SendResponseChecks | main.py:97-113 | the checks run in order (unknown id 404, not approved 400, no active mailbox 400); the send happens only when all pass, and its failure text becomes a 500 |
| App.SendResponse | main.py:95-113 | the answer is a success only for a stored, approved ticket while some mailbox configuration is active |
| App.SendTicketResponse | main.py:95-113 | the handler answers as the checks say, and the table changes only through the guarded send |
| App.StatusTransitions | main.py:69 | approval and rejection apply from every status; a send changes a status only from approved to sent |
| App.SentTicketCanBeResent | main.py:69 | a sent ticket can be approved again and sent a second time |
| App.RejectedKeepsApprovedReply | main.py:88-90 | rejecting an approved ticket leaves its approved reply and time on it |
| App.CommandsKeepDecisionRecorded | main.py:69-90 | approve, reject and send keep an approved or sent ticket's reply, approval time and dispatch time present |
| App.FormSettings | main.py:126-136 | the saved settings are the form's, with IMAP port 993, SMTP port 587 and "InfinityWork Support Team" where left out |
| App.Upserted | main.py:139-167 | a save adds at most one row and always leaves an active one |
| App.UpsertedSettings | main.py:139-167 | after a save the active configuration holds exactly the saved settings; an active row is overwritten in place with nothing else changed, otherwise exactly one active row is added |
| App.SaveEmailSettings | main.py:125-168 | the handler performs the upsert and changes no other table |
| App.FetchEmails | main.py:171-178 | without an active mailbox 400 and nothing changes; otherwise the ingestion's report and its table |

## Left out

- IMAP, SMTP and the hosted model: each is an outcome passed in (`Inbox`, `Arrival`, the relay function, `Reply`), not a network call.
- The classifier's prompt text and the request it builds: the ticket fields only feed the prompt, so `AnalyzeEmail` takes the reply alone.
- Real charset codecs, RFC 5322 address parsing, MIME tree walking and date-header parsing: these are the `Codecs` functions and the fields of `RawEmail`.
- The clock and `uuid4`: each arrival carries its own time and uuid, and the caller passes the rest.
- Timezones: all datetimes are naive UTC, and `isoformat()` never writes an offset.
- JSON numbers are integers.
- A reply that decodes to a JSON array or string (not an object) is modelled as `CallFailed` only when it lacks one of the eight required names: then the `in` test or the assignment at ai_processor.py:159-166 raises, and line 182 turns that into the error fallback. An array or string that holds all eight names is not modelled. For such a reply, ai_processor.py:168 returns it unchanged, `ai_result.get` raises at email_ingestor.py:124 (or 177 in `create_test_ticket`), and the ticket stays `new` with a per-message error instead of getting a degraded classification.
- SQLAlchemy sessions: in ingestion a failed commit is an `Outcome`. Poisoning of the session after a failed flush is not modelled.
- Commit failures outside ingestion are not modelled: approve, reject, send, settings save, the two commits of `create_test_ticket` (email_ingestor.py:166 and 186, after which the exception propagates and, for the second, the row stays `new`), and the commit of `start_scheduler` (scheduler.py:100). `StoreClassified`, `CreateTestTicket` and `StartScheduler` have no such failure path.
- Store.UniqueViolation: the sources do not name a database backend, so the text of the duplicate-key error is a stand-in. The driver's real `str(e)` also names the exception class and appends the SQL and its parameters; the model only promises that this one fixed text is reported under the message's uid.
- Ties in `created_at`: the listing orders by insertion, which matches `created_at` descending only when no two tickets share a creation time.
- Store.TicketTable.NewestFirst: states the length only; which tickets appear and in what order is stated by NewestFirstComplete, NewestFirstDistinct and InsertHeadsListing.
- The JSON rendering is keyed by `Column` instead of by the key strings. `Column.Key()` gives each column's name and `KeysDistinct` shows the naming is unambiguous.
- The category and urgency vocabularies are declared (`TicketCategory`, `TicketUrgency`) but not enforced: the code copies whatever JSON the classifier returned. The column types are checked only at commit, where SQLAlchemy refuses, for example, a text for the Boolean escalation_required or a list for a Text column. The model does not decide which values the column types accept. Such a refusal is one way the classification commit fails, and that commit's outcome is the free `updateCommit` of each arrival, so the error path it takes (email_ingestor.py:133, 140-141) is covered but not tied to the value.
- The created_at and updated_at columns of the mailbox and polling settings tables (models.py:100-101, 112-113) are left out: nothing in the core reads them.
- The TLS upgrade (`start_tls=True`, mail_sender.py:42) is not a field of `Mail`: every mail is sent the same way.
- APScheduler timers, async execution, and concurrent manual and scheduled runs: only the job table and the running flag are modelled.
- Logging, and closing the database session at the end of the job.
- Scheduler.AutoFetchEmailsJob: takes the settings lookup's outcome as a parameter, so it covers both the lookup as written and the corrected one.
- HTML pages, templates, static files and redirects: the dashboard, ticket, settings and test-ticket pages and the 303 responses. Only the handlers' effects on the database and their error answers are modelled.
- The test-ticket endpoint only calls `create_test_ticket` and redirects, so it is modelled by `EmailIngestor.CreateTestTicket`.
- The relay is deterministic here: the same mail always gets the same outcome.

## Findings

| source | as written | input that shows it | evidently intended | confidence | as-written member | corrected member |
|---|---|---|---|---|---|---|
| scheduler.py:22-24 | the job looks up its settings with `filter(SchedulerConfig.is_active == True)`, but the polling settings table declares no `is_active` column (models.py:104-113); building the filter raises AttributeError, which the handler at scheduler.py:49 catches, so the run ends before ingesting | any stored state, for example one polling row with auto-fetch enabled and one active mailbox configuration: the job still gives up | take the first stored polling row, as `get_scheduler_config` and `start_scheduler` do, and ingest when it enables polling and a mailbox is configured | not executed | Scheduler.AsWrittenJobNeverIngests | Scheduler.CorrectedJobIngests |
