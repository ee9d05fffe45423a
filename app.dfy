/**
 * The operator's commands and the read API: dashboard counts, listings,
 * approval and rejection, sending a reply, saving the mailbox settings and a
 * manual fetch. Each handler reads and writes the shared database.
 */
module App {
  import opened Common
  import opened Time
  import opened Models
  import opened Store
  import opened EmailIngestor
  import opened MailSender

  /** An HTTPException: status code and detail text. */
  datatype HttpError = HttpError(status: int, detail: string)

  const TicketNotFound: HttpError := HttpError(404, "Ticket not found")
  const NotApproved: HttpError := HttpError(400, "Ticket must be approved before sending")
  const NoEmailConfig: HttpError := HttpError(400, "Email configuration not found")
  const NoEmailConfigForFetch: HttpError := HttpError(400, "Email configuration not found. Please configure email settings first.")

  // ----- dashboard and listings -----

  /** `a` is `b` with some elements left out, the rest in their order. */
  predicate Subsequence<T(==)>(a: seq<T>, b: seq<T>) {
    if a == [] then true
    else if b == [] then false
    else if a[0] == b[0] then Subsequence(a[1..], b[1..])
    else Subsequence(a, b[1..])
  }

  lemma {:induction false} SubsequenceOfItself<T>(a: seq<T>)
    ensures Subsequence(a, a)
  {
    if a != [] {
      SubsequenceOfItself(a[1..]);
    }
  }

  /** The tickets whose status column holds `status`, in their listed order. */
  function WithStatus(ts: seq<Ticket>, status: string): (r: seq<Ticket>)
    ensures |r| <= |ts| && Subsequence(r, ts)
    ensures forall i :: 0 <= i < |r| ==> r[i].status.Value() == status
    ensures forall t :: t in r <==> t in ts && t.status.Value() == status
  {
    if ts == [] then []
    else
      var rest := WithStatus(ts[1..], status);
      assert ts == [ts[0]] + ts[1..];
      if ts[0].status.Value() == status then [ts[0]] + rest else rest
  }

  /** How many of the tickets are in the given status. */
  function CountStatus(ts: seq<Ticket>, st: TicketStatus): (n: nat)
    ensures n <= |ts|
  {
    if ts == [] then 0 else (if ts[0].status == st then 1 else 0) + CountStatus(ts[1..], st)
  }

  /** The dashboard's counters. */
  datatype Stats = Stats(total: nat, pending: nat, approved: nat, sent: nat, rejected: nat)

  /** The counters over every stored ticket. */
  function DashboardStats(table: TicketTable): (s: Stats)
    requires table.Valid()
    ensures s.total == |table.order|
    ensures s.pending <= s.total && s.approved <= s.total && s.sent <= s.total && s.rejected <= s.total
  {
    var ts := table.NewestFirst();
    Stats(|ts|, CountStatus(ts, PendingApproval), CountStatus(ts, Approved), CountStatus(ts, Sent), CountStatus(ts, Rejected))
  }

  /** The four counted statuses are disjoint, so their counts never exceed the whole. */
  lemma {:induction false} CountsWithinTotal(ts: seq<Ticket>)
    ensures CountStatus(ts, PendingApproval) + CountStatus(ts, Approved) + CountStatus(ts, Sent) + CountStatus(ts, Rejected) <= |ts|
  {
    if ts != [] {
      CountsWithinTotal(ts[1..]);
    }
  }

  lemma StatsWithinTotal(table: TicketTable)
    requires table.Valid()
    ensures var s := DashboardStats(table);
            s.pending + s.approved + s.sent + s.rejected <= s.total && s.total == |table.order|
  {
    CountsWithinTotal(table.NewestFirst());
  }

  /** A dashboard counter agrees with the listing filtered by that status. */
  lemma {:induction false} CountMatchesListing(ts: seq<Ticket>, st: TicketStatus)
    ensures CountStatus(ts, st) == |WithStatus(ts, st.Value())|
  {
    if ts != [] {
      CountMatchesListing(ts[1..], st);
      StatusValuesDistinct(ts[0].status, st);
    }
  }

  /** The tickets `get_tickets` returns: newest first, restricted to one status when
      a non-empty status is given. */
  function Listing(table: TicketTable, status: Option<string>): (r: seq<Ticket>)
    requires table.Valid()
    ensures Subsequence(r, table.NewestFirst())
    ensures status.Some? && status.value != "" ==> forall i :: 0 <= i < |r| ==> r[i].status.Value() == status.value
    ensures (status.None? || status.value == "") ==> r == table.NewestFirst()
  {
    SubsequenceOfItself(table.NewestFirst());
    if status.Some? && status.value != "" then WithStatus(table.NewestFirst(), status.value) else table.NewestFirst()
  }

  /** `get_tickets`: the listed tickets rendered as dictionaries. */
  function GetTickets(table: TicketTable, status: Option<string>): (r: seq<map<Column, Json>>)
    requires table.Valid()
    ensures |r| == |Listing(table, status)|
    ensures forall i :: 0 <= i < |r| ==> r[i].Keys == Columns
  {
    var ts := Listing(table, status);
    var r := seq(|ts|, i requires 0 <= i < |ts| => ToDict(ts[i]));
    assert forall i :: 0 <= i < |r| ==> r[i] == ToDict(ts[i]);
    forall t: Ticket ensures ToDict(t).Keys == Columns { ToDictKeys(t); }
    r
  }

  /** Each returned dictionary reads back as the listed ticket it renders. */
  lemma GetTicketsReadBack(table: TicketTable, status: Option<string>)
    requires table.Valid()
    ensures var r := GetTickets(table, status);
            forall i :: 0 <= i < |r| ==> FromDict(r[i]) == Some(Listing(table, status)[i])
  {
    var ts := Listing(table, status);
    forall i | 0 <= i < |ts|
      ensures FromDict(ToDict(ts[i])) == Some(ts[i])
    {
      ToDictRoundTrip(ts[i]);
    }
  }

  /** With a status, the listing holds exactly the stored tickets in that status;
      without one (or with an empty one), it holds every stored ticket. */
  lemma ListingContents(table: TicketTable, status: Option<string>)
    requires table.Valid()
    ensures var ts := Listing(table, status);
            && (forall t :: t in ts ==> t.ticketId in table.rows && table.rows[t.ticketId] == t)
            && (status.Some? && status.value != "" ==>
                  forall k :: k in table.rows ==> (table.rows[k] in ts <==> table.rows[k].status.Value() == status.value))
            && (status.None? || status.value == "" ==> forall k :: k in table.rows ==> table.rows[k] in ts)
  {
    var all := table.NewestFirst();
    NewestFirstComplete(table);
    forall t | t in all
      ensures t.ticketId in table.rows && table.rows[t.ticketId] == t
    {
      var i :| 0 <= i < |all| && all[i] == t;
      assert all[i] == table.rows[table.order[|table.order| - 1 - i]];
    }
  }

  /** `get_ticket`. */
  function GetTicket(table: TicketTable, key: string): (r: Result<map<Column, Json>, HttpError>)
    ensures r.Err? <==> key !in table.rows
    ensures r.Err? ==> r.error == TicketNotFound
    ensures r.Ok? ==> FromDict(r.value) == Some(table.rows[key])
  {
    match table.Find(key)
    case None => Err(TicketNotFound)
    case Some(t) =>
      ToDictRoundTrip(t);
      Ok(ToDict(t))
  }

  // ----- decisions -----

  /** The reviewer's approval written onto a ticket, whatever its status. */
  function Approval(t: Ticket, responseText: string, approvedBy: string, now: DateTime): (r: Ticket)
    ensures r.status == Approved && r.approvedResponse == Some(responseText)
    ensures r.approvedBy == Some(approvedBy) && r.approvedAt == Some(now)
    ensures DecisionRecorded(r)
  {
    t.(status := Approved, approvedResponse := Some(responseText), approvedBy := Some(approvedBy), approvedAt := Some(now))
  }

  /** The reviewer's rejection written onto a ticket, whatever its status. */
  function Rejection(t: Ticket, reason: string): (r: Ticket)
    ensures r.status == Rejected && r.rejectedReason == Some(reason)
    ensures DecisionRecorded(r)
  {
    t.(status := Rejected, rejectedReason := Some(reason))
  }

  /** Approval touches only the status and the three approval columns. */
  lemma ApprovalChangesOnlyDecision(t: Ticket, responseText: string, approvedBy: string, now: DateTime)
    ensures var r := Approval(t, responseText, approvedBy, now);
            r.(status := t.status, approvedResponse := t.approvedResponse, approvedBy := t.approvedBy, approvedAt := t.approvedAt) == t
  {
  }

  /** Rejection touches only the status and the reason: an earlier approval and
      dispatch stay on the ticket. */
  lemma RejectionChangesOnlyDecision(t: Ticket, reason: string)
    ensures var r := Rejection(t, reason);
            && r.(status := t.status, rejectedReason := t.rejectedReason) == t
            && r.approvedResponse == t.approvedResponse && r.sentAt == t.sentAt
  {
  }

  /** `approve_ticket`; `approvedBy` defaults to "Admin". */
  method ApproveTicket(db: Database, key: string, responseText: string, approvedBy: Option<string>, now: DateTime)
    returns (r: Result<(), HttpError>)
    requires db.Valid()
    modifies db
    ensures db.Valid()
    ensures key !in old(db.tickets.rows) ==> r == Err(TicketNotFound) && db.tickets == old(db.tickets)
    ensures key in old(db.tickets.rows) ==>
              && r == Ok(())
              && db.tickets == old(db.tickets).Update(Approval(old(db.tickets.rows[key]), responseText, approvedBy.GetOr("Admin"), now), now)
    ensures db.emailConfigs == old(db.emailConfigs) && db.schedulerConfigs == old(db.schedulerConfigs)
  {
    var found := db.tickets.Find(key);
    if found.None? {
      return Err(TicketNotFound);
    }
    var ticket := found.value;
    ticket := ticket.(status := Approved, approvedResponse := Some(responseText),
                      approvedBy := Some(approvedBy.GetOr("Admin")), approvedAt := Some(now));
    UpdateValid(db.tickets, ticket, now);
    db.tickets := db.tickets.Update(ticket, now);
    r := Ok(());
  }

  /** `reject_ticket`; the reason defaults to "". */
  method RejectTicket(db: Database, key: string, reason: Option<string>, now: DateTime)
    returns (r: Result<(), HttpError>)
    requires db.Valid()
    modifies db
    ensures db.Valid()
    ensures key !in old(db.tickets.rows) ==> r == Err(TicketNotFound) && db.tickets == old(db.tickets)
    ensures key in old(db.tickets.rows) ==>
              && r == Ok(())
              && db.tickets == old(db.tickets).Update(Rejection(old(db.tickets.rows[key]), reason.GetOr("")), now)
    ensures db.emailConfigs == old(db.emailConfigs) && db.schedulerConfigs == old(db.schedulerConfigs)
  {
    var found := db.tickets.Find(key);
    if found.None? {
      return Err(TicketNotFound);
    }
    var ticket := found.value;
    ticket := ticket.(status := Rejected, rejectedReason := Some(reason.GetOr("")));
    UpdateValid(db.tickets, ticket, now);
    db.tickets := db.tickets.Update(ticket, now);
    r := Ok(());
  }

  /** Rejecting again with the stored reason assigns the values each column already
      holds: the flush sends no UPDATE, so updated_at keeps its value. Any other
      rejection changes a column and stamps updated_at. */
  lemma RepeatedRejectionKeepsRow(table: TicketTable, key: string, reason: string, now: DateTime)
    requires table.Valid() && key in table.rows
    ensures var after := table.Update(Rejection(table.rows[key], reason), now);
            && (after == table <==> table.rows[key].status == Rejected && table.rows[key].rejectedReason == Some(reason))
            && (after != table ==> after.rows[key].updatedAt == Some(now))
  {
  }

  // ----- sending a reply -----

  /** What `send_ticket_response` answers, its checks taken in order: the ticket
      exists, it is approved, a mailbox is configured; then the send itself. */
  function SendResponse(table: TicketTable, configs: seq<EmailConfig>, key: string, relay: Mail -> Outcome): (r: Result<(), HttpError>)
    ensures r.Ok? ==> key in table.rows && table.rows[key].status == Approved && ActiveConfig(configs).Some?
  {
    if key !in table.rows then Err(TicketNotFound)
    else if table.rows[key].status != Approved then Err(NotApproved)
    else match ActiveConfig(configs)
      case None => Err(NoEmailConfig)
      case Some(config) =>
        match DispatchResult(table.rows[key], config.settings, relay)
        case Success(_) => Ok(())
        case Failure(e) => Err(HttpError(500, e))
  }

  /** The send is attempted only when all three checks pass, and then its
      failure text is the error detail. */
  lemma SendResponseChecks(table: TicketTable, configs: seq<EmailConfig>, key: string, relay: Mail -> Outcome)
    ensures var r := SendResponse(table, configs, key, relay);
            && (key !in table.rows ==> r == Err(TicketNotFound))
            && (key in table.rows && table.rows[key].status != Approved ==> r == Err(NotApproved))
            && (key in table.rows && table.rows[key].status == Approved && ActiveConfig(configs).None? ==> r == Err(NoEmailConfig))
            && (key in table.rows && table.rows[key].status == Approved && ActiveConfig(configs).Some? ==>
                  var d := DispatchResult(table.rows[key], ActiveConfig(configs).value.settings, relay);
                  (r.Ok? <==> d.Success?) && (d.Failure? ==> r == Err(HttpError(500, d.error))))
  {
  }

  /** `send_ticket_response`. */
  method SendTicketResponse(db: Database, key: string, relay: Mail -> Outcome, now: DateTime)
    returns (r: Result<(), HttpError>)
    requires db.Valid()
    modifies db
    ensures db.Valid()
    ensures r == SendResponse(old(db.tickets), old(db.emailConfigs), key, relay)
    ensures key in old(db.tickets.rows) && old(db.tickets.rows[key]).status == Approved && ActiveConfig(old(db.emailConfigs)).Some?
            ==> db.tickets == MarkSent(old(db.tickets), key, Dispatcher(ActiveConfig(old(db.emailConfigs)).value.settings, relay), now)
    ensures !(key in old(db.tickets.rows) && old(db.tickets.rows[key]).status == Approved && ActiveConfig(old(db.emailConfigs)).Some?)
            ==> db.tickets == old(db.tickets)
    ensures db.emailConfigs == old(db.emailConfigs) && db.schedulerConfigs == old(db.schedulerConfigs)
  {
    var found := db.tickets.Find(key);
    if found.None? {
      return Err(TicketNotFound);
    }
    if found.value.status != Approved {
      return Err(NotApproved);
    }
    var config := ActiveConfig(db.emailConfigs);
    if config.None? {
      return Err(NoEmailConfig);
    }
    var result := SendApprovedTicket(db, key, config.value, relay, now);
    if result.Success? {
      r := Ok(());
    } else {
      r := Err(HttpError(500, result.error));
    }
  }

  // ----- which status changes the commands allow -----

  /** Approval and rejection apply from every status; a send changes a ticket only
      from Approved, to Sent. So every status, Rejected and Sent included, can be
      left for Approved or Rejected. */
  lemma StatusTransitions(t: Ticket, text: string, approver: string, reason: string, now: DateTime, s: EmailSettings, relay: Mail -> Outcome)
    ensures Approval(t, text, approver, now).status == Approved
    ensures Rejection(t, reason).status == Rejected
    ensures SentRow(t, Dispatcher(s, relay), now).status != t.status ==>
              t.status == Approved && SentRow(t, Dispatcher(s, relay), now).status == Sent
  {
    DispatchChangesOnlyApproved(t, s, relay, now);
  }

  /** A ticket already sent can be approved again and sent a second time. */
  lemma SentTicketCanBeResent(t: Ticket, text: string, approver: string, now: DateTime, s: EmailSettings, relay: Mail -> Outcome)
    requires t.status == Sent && text != ""
    requires relay(Compose(s, t.senderEmail, t.emailSubject, text)).Pass?
    ensures DispatchResult(Approval(t, text, approver, now), s, relay).Success?
  {
  }

  /** A rejection after an approval leaves the approved reply on the ticket. */
  lemma RejectedKeepsApprovedReply(t: Ticket, text: string, approver: string, reason: string, now: DateTime)
    ensures var r := Rejection(Approval(t, text, approver, now), reason);
            r.status == Rejected && r.approvedResponse == Some(text) && r.approvedAt == Some(now)
  {
  }

  /** Every command keeps each ticket's decision columns consistent with its status. */
  lemma CommandsKeepDecisionRecorded(t: Ticket, text: string, approver: string, reason: string, now: DateTime, s: EmailSettings, relay: Mail -> Outcome)
    requires DecisionRecorded(t)
    ensures DecisionRecorded(Approval(t, text, approver, now))
    ensures DecisionRecorded(Rejection(t, reason))
    ensures DecisionRecorded(SentRow(t, Dispatcher(s, relay), now))
  {
    DispatchChangesOnlyApproved(t, s, relay, now);
  }

  // ----- mailbox settings -----

  /** The settings form; the three fields with defaults may be left out. */
  datatype SettingsForm = SettingsForm(
    imapServer: string, imapPort: Option<int>, imapUsername: string, imapPassword: string,
    smtpServer: string, smtpPort: Option<int>, smtpUsername: string, smtpPassword: string,
    fromEmail: string, fromName: Option<string>)

  /** The submitted settings, with IMAP port 993, SMTP port 587 and the support
      team's name where the form left them out. */
  function FormSettings(f: SettingsForm): (s: EmailSettings)
    ensures s.imapPort == f.imapPort.GetOr(DefaultImapPort) && s.smtpPort == f.smtpPort.GetOr(DefaultSmtpPort)
    ensures s.fromName == f.fromName.GetOr(DefaultFromName)
    ensures s.imapServer == f.imapServer && s.imapUsername == f.imapUsername && s.imapPassword == f.imapPassword
    ensures s.smtpServer == f.smtpServer && s.smtpUsername == f.smtpUsername && s.smtpPassword == f.smtpPassword
    ensures s.fromEmail == f.fromEmail
  {
    EmailSettings(f.imapServer, f.imapPort.GetOr(DefaultImapPort), f.imapUsername, f.imapPassword,
                  f.smtpServer, f.smtpPort.GetOr(DefaultSmtpPort), f.smtpUsername, f.smtpPassword,
                  f.fromEmail, f.fromName.GetOr(DefaultFromName))
  }

  /** The settings table after a save: the first active row overwritten, or a new active row. */
  function Upserted(configs: seq<EmailConfig>, s: EmailSettings): (r: seq<EmailConfig>)
    ensures |configs| <= |r| <= |configs| + 1 && FirstActive(r).Some?
  {
    match FirstActive(configs)
    case Some(i) =>
      var r := configs[i := configs[i].(settings := s)];
      assert r[i].isActive;
      r
    case None =>
      var r := configs + [NewEmailConfig(s)];
      assert r[|configs|].isActive;
      r
  }

  /** After a save the active configuration holds exactly the saved settings;
      an active row is overwritten in place and nothing else changes, otherwise
      exactly one row is added. */
  lemma UpsertedSettings(configs: seq<EmailConfig>, s: EmailSettings)
    ensures ActiveConfig(Upserted(configs, s)) == Some(EmailConfig(s, true))
    ensures FirstActive(configs).Some? ==>
              && |Upserted(configs, s)| == |configs|
              && FirstActive(Upserted(configs, s)) == FirstActive(configs)
              && forall j :: 0 <= j < |configs| && j != FirstActive(configs).value ==> Upserted(configs, s)[j] == configs[j]
    ensures FirstActive(configs).None? ==>
              Upserted(configs, s) == configs + [EmailConfig(s, true)] && FirstActive(Upserted(configs, s)) == Some(|configs|)
  {
    var r := Upserted(configs, s);
    match FirstActive(configs)
    case Some(i) =>
      assert r[i].isActive;
      assert forall j :: 0 <= j < i ==> !r[j].isActive;
      FirstActiveAt(r, i);
    case None =>
      assert r[|configs|].isActive;
      assert forall j :: 0 <= j < |configs| ==> !r[j].isActive;
      FirstActiveAt(r, |configs|);
  }

  /** The first active row is the one before which no row is active. */
  lemma FirstActiveAt(configs: seq<EmailConfig>, i: nat)
    requires i < |configs| && configs[i].isActive
    requires forall j :: 0 <= j < i ==> !configs[j].isActive
    ensures FirstActive(configs) == Some(i)
  {
  }

  /** `save_email_settings`. */
  method SaveEmailSettings(db: Database, form: SettingsForm)
    modifies db
    ensures db.emailConfigs == Upserted(old(db.emailConfigs), FormSettings(form))
    ensures db.tickets == old(db.tickets) && db.schedulerConfigs == old(db.schedulerConfigs)
  {
    var s := FormSettings(form);
    var existing := FirstActive(db.emailConfigs);
    if existing.Some? {
      var i := existing.value;
      var config := db.emailConfigs[i];
      config := config.(settings := s);
      db.emailConfigs := db.emailConfigs[i := config];
    } else {
      db.emailConfigs := db.emailConfigs + [NewEmailConfig(s)];
    }
  }

  // ----- manual fetch -----

  /** `fetch_emails`: refused without an active mailbox configuration, otherwise
      the ingestion's report. */
  method FetchEmails(db: Database, codecs: Codecs, apiKey: Option<string>, inbox: Inbox)
    returns (r: Result<FetchResult, HttpError>)
    requires db.Valid()
    modifies db
    ensures db.Valid()
    ensures ActiveConfig(old(db.emailConfigs)).None? ==> r == Err(NoEmailConfigForFetch) && db.tickets == old(db.tickets)
    ensures ActiveConfig(old(db.emailConfigs)).Some? ==>
              var p := FetchAndProcess(codecs, apiKey, old(db.tickets), inbox);
              r == Ok(p.result) && db.tickets == p.table
    ensures db.emailConfigs == old(db.emailConfigs) && db.schedulerConfigs == old(db.schedulerConfigs)
  {
    var config := ActiveConfig(db.emailConfigs);
    if config.None? {
      return Err(NoEmailConfigForFetch);
    }
    var results, _ := FetchAndProcessEmails(db, codecs, apiKey, inbox);
    r := Ok(results);
  }
}
