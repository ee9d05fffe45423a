/**
 * Dispatch of approved replies over SMTP: the reply mail (plain text and an
 * HTML alternative), the per-ticket send with its preconditions, and the
 * batch send over every approved ticket.
 */
module MailSender {
  import opened Common
  import opened Text
  import opened Time
  import opened Models
  import opened Store

  // ----- the reply mail -----

  /** `body.replace('\n', '<br>')`. */
  function Br(s: string): (r: string)
    ensures '\n' !in r
  {
    if s == [] then ""
    else if s[0] == '\n' then "<br>" + Br(s[1..])
    else [s[0]] + Br(s[1..])
  }

  /** Reading line breaks back: every "<br>" becomes a newline. */
  function Unbr(s: string): string {
    if |s| >= 4 && s[..4] == "<br>" then "\n" + Unbr(s[4..])
    else if s == [] then ""
    else [s[0]] + Unbr(s[1..])
  }

  /** A prefix without '<' of a converted text is a prefix of the text itself. */
  lemma {:induction false} BrPrefix(s: string, p: string)
    requires '<' !in p && |p| <= |Br(s)| && Br(s)[..|p|] == p
    ensures |p| <= |s| && s[..|p|] == p
  {
    if p != [] {
      assert Br(s)[0] == p[0];
      assert s != [] && s[0] != '\n';
      assert Br(s) == [s[0]] + Br(s[1..]);
      assert Br(s[1..])[..|p| - 1] == p[1..];
      BrPrefix(s[1..], p[1..]);
      assert s[..|p|] == [s[0]] + s[1..][..|p| - 1];
    }
  }

  /** The conversion loses nothing for a text that does not itself contain "<br>". */
  lemma {:induction false} UnbrBr(s: string)
    requires !Contains(s, "<br>")
    ensures Unbr(Br(s)) == s
  {
    if s != [] {
      assert !Contains(s[1..], "<br>");
      UnbrBr(s[1..]);
      if s[0] == '\n' {
        var r := "<br>" + Br(s[1..]);
        assert r[..4] == "<br>" && r[4..] == Br(s[1..]);
      } else {
        var r := [s[0]] + Br(s[1..]);
        assert r[1..] == Br(s[1..]);
        if |r| >= 4 && r[..4] == "<br>" {
          assert Br(s[1..])[..3] == "br>";
          BrPrefix(s[1..], "br>");
          assert false;
        }
      }
    }
  }

  /** Two different texts can give the same HTML: a typed "<br>" and a line break. */
  lemma BrNotInjective()
    ensures Br("\n") == Br("<br>") && "\n" != "<br>"
  {
    assert Br("<br>") == "<br>" by {
      assert Br(">") == ">";
      assert Br("r>") == "r>";
      assert Br("br>") == "br>";
    }
  }

  /** A reply as it is handed to the SMTP relay. */
  datatype Mail = Mail(
    server: string, port: int, username: string, password: string,
    subject: string, from: string, to: string, plainBody: string, htmlBody: string)

  const HtmlOpen: string := "<html><body>"
  const HtmlClose: string := "</body></html>"

  /** The multipart/alternative reply: "Re: " and the original subject, the sender
      as "name <address>", the text as typed and an HTML copy with line breaks. */
  function Compose(s: EmailSettings, to: string, subject: string, body: string): (m: Mail)
    ensures |m.subject| >= 4 && m.subject[4..] == subject
    ensures '\n' !in m.htmlBody
  {
    Mail(s.smtpServer, s.smtpPort, s.smtpUsername, s.smtpPassword,
         "Re: " + subject, s.fromName + " <" + s.fromEmail + ">", to, body, HtmlOpen + Br(body) + HtmlClose)
  }

  /** The text a reader of the HTML part sees, with its line breaks. */
  function HtmlText(html: string): Option<string> {
    if |html| >= |HtmlOpen| + |HtmlClose| && html[..|HtmlOpen|] == HtmlOpen && html[|html| - |HtmlClose|..] == HtmlClose
    then Some(Unbr(html[|HtmlOpen|..|html| - |HtmlClose|]))
    else None
  }

  /** The HTML part reads back as the text it was made from, and holds no newline. */
  lemma HtmlRoundTrip(body: string)
    requires !Contains(body, "<br>")
    ensures HtmlText(HtmlOpen + Br(body) + HtmlClose) == Some(body)
    ensures '\n' !in HtmlOpen + Br(body) + HtmlClose
  {
    var html := HtmlOpen + Br(body) + HtmlClose;
    assert html[..|HtmlOpen|] == HtmlOpen;
    assert html[|html| - |HtmlClose|..] == HtmlClose;
    assert html[|HtmlOpen|..|html| - |HtmlClose|] == Br(body);
    UnbrBr(body);
  }

  /** For every reply: the subject is the original one after "Re: ", the sender
      is "name <address>" from the mailbox settings, the plain part is the text
      as typed, and the relay is reached with the mailbox's SMTP server, port
      and credentials. */
  lemma ComposeHeaders(s: EmailSettings, to: string, subject: string, body: string)
    ensures var m := Compose(s, to, subject, body);
            && m.subject == "Re: " + subject && m.subject[4..] == subject
            && m.from == s.fromName + " <" + s.fromEmail + ">" && m.to == to && m.plainBody == body
            && m.server == s.smtpServer && m.port == s.smtpPort
            && m.username == s.smtpUsername && m.password == s.smtpPassword
  {
  }

  /** The HTML part carries the approved text with its line breaks as "<br>" and
      no markup escaped, and reads back as that text when it held no "<br>" of its own. */
  lemma ComposeCarriesText(s: EmailSettings, to: string, subject: string, body: string)
    requires !Contains(body, "<br>")
    ensures var m := Compose(s, to, subject, body);
            && m.htmlBody == HtmlOpen + Br(body) + HtmlClose
            && HtmlText(m.htmlBody) == Some(body) && '\n' !in m.htmlBody
  {
    HtmlRoundTrip(body);
  }

  /** What `send_email_async` returns. */
  datatype SendResult = Success(message: string) | Failure(error: string)

  /** Sending one mail through the relay; any exception becomes a Failure with its text. */
  function SendEmail(relay: Mail -> Outcome, s: EmailSettings, to: string, subject: string, body: string): (r: SendResult)
    ensures r.Success? <==> relay(Compose(s, to, subject, body)).Pass?
    ensures r.Success? ==> r.message == "Email sent successfully"
    ensures r.Failure? ==> r.error == relay(Compose(s, to, subject, body)).error
  {
    match relay(Compose(s, to, subject, body))
    case Pass => Success("Email sent successfully")
    case Fail(e) => Failure(e)
  }

  // ----- one ticket -----

  /** What sending a ticket's approved reply returns: refused unless the ticket is
      approved and has a non-empty approved reply, otherwise the relay's verdict. */
  function DispatchResult(t: Ticket, s: EmailSettings, relay: Mail -> Outcome): (r: SendResult)
    ensures r.Success? ==> t.status == Approved && t.approvedResponse.Some? && t.approvedResponse.value != ""
  {
    if t.status != Approved then Failure("Ticket is not approved")
    else if t.approvedResponse.None? || t.approvedResponse.value == "" then Failure("No approved response found")
    else SendEmail(relay, s, t.senderEmail, t.emailSubject, t.approvedResponse.value)
  }

  /** A reply goes out only for an approved ticket with a non-empty approved
      reply, to the ticket's sender, carrying that reply; success is the relay
      accepting exactly that mail. */
  lemma DispatchOnlyApproved(t: Ticket, s: EmailSettings, relay: Mail -> Outcome)
    ensures var r := DispatchResult(t, s, relay);
            r.Success? <==>
              && t.status == Approved && t.approvedResponse.Some? && t.approvedResponse.value != ""
              && relay(Compose(s, t.senderEmail, t.emailSubject, t.approvedResponse.value)).Pass?
    ensures t.status != Approved ==> DispatchResult(t, s, relay) == Failure("Ticket is not approved")
  {
  }

  /** The ticket after a successful send. */
  function Dispatched(t: Ticket, now: DateTime): (r: Ticket)
    ensures r.status == Sent && r.sentAt == Some(now)
    ensures DecisionRecorded(t) && t.status == Approved ==> DecisionRecorded(r)
  {
    t.(status := Sent, sentAt := Some(now))
  }

  /** The per-ticket send of this module, as a function of the ticket. */
  function Dispatcher(s: EmailSettings, relay: Mail -> Outcome): Ticket -> SendResult {
    t => DispatchResult(t, s, relay)
  }

  /** A ticket after its send: marked sent when the send succeeded, as it was otherwise.
      updated_at is stamped only when marking it sent changes a column. */
  function SentRow(t: Ticket, send: Ticket -> SendResult, now: DateTime): (r: Ticket)
    ensures send(t).Failure? ==> r == t
    ensures send(t).Success? ==> r.status == Sent && r.sentAt == Some(now) && r.ticketId == t.ticketId
    ensures send(t).Success? && t.status != Sent ==> r.updatedAt == Some(now)
  {
    if send(t).Success? && Dispatched(t, now) != t then Dispatched(t, now).(updatedAt := Some(now)) else t
  }

  /** A send through this module changes a ticket only from approved to sent,
      with the time it went out. */
  lemma DispatchChangesOnlyApproved(t: Ticket, s: EmailSettings, relay: Mail -> Outcome, now: DateTime)
    ensures var r := SentRow(t, Dispatcher(s, relay), now);
            && (r != t <==> DispatchResult(t, s, relay).Success?)
            && (r != t ==> t.status == Approved && r.status == Sent && r.sentAt == Some(now) && r.updatedAt == Some(now))
            && (DecisionRecorded(t) ==> DecisionRecorded(r))
  {
  }

  /** Every row is stored under its own ticket_id (a part of the table's invariant). */
  predicate Keyed(table: TicketTable) {
    forall k :: k in table.rows ==> table.rows[k].ticketId == k
  }

  /** The table after sending the ticket stored under `key`. */
  function MarkSent(table: TicketTable, key: string, send: Ticket -> SendResult, now: DateTime): (r: TicketTable)
    requires Keyed(table) && key in table.rows
    ensures Keyed(r) && (forall k :: k in r.rows <==> k in table.rows)
  {
    if send(table.rows[key]).Success? then table.Update(Dispatched(table.rows[key], now), now) else table
  }

  /** Sending changes the sent ticket only. */
  lemma MarkSentChanges(table: TicketTable, key: string, send: Ticket -> SendResult, now: DateTime)
    requires Keyed(table) && key in table.rows
    ensures var r := MarkSent(table, key, send, now);
            && (forall k :: k in table.rows && k != key ==> r.rows[k] == table.rows[k])
            && r.rows[key] == SentRow(table.rows[key], send, now)
  {
  }

  /** `send_approved_ticket_async` for the row stored under `key`. */
  method SendApprovedTicket(db: Database, key: string, config: EmailConfig, relay: Mail -> Outcome, now: DateTime)
    returns (r: SendResult)
    requires db.Valid() && key in db.tickets.rows
    modifies db
    ensures db.Valid()
    ensures r == DispatchResult(old(db.tickets.rows[key]), config.settings, relay)
    ensures db.tickets == MarkSent(old(db.tickets), key, Dispatcher(config.settings, relay), now)
    ensures db.emailConfigs == old(db.emailConfigs) && db.schedulerConfigs == old(db.schedulerConfigs)
  {
    var ticket := db.tickets.rows[key];
    if ticket.status != Approved {
      return Failure("Ticket is not approved");
    }
    if ticket.approvedResponse.None? || ticket.approvedResponse.value == "" {
      return Failure("No approved response found");
    }
    r := SendEmail(relay, config.settings, ticket.senderEmail, ticket.emailSubject, ticket.approvedResponse.value);
    if r.Success? {
      ticket := ticket.(status := Sent, sentAt := Some(now));
      UpdateValid(db.tickets, ticket, now);
      db.tickets := db.tickets.Update(ticket, now);
    }
  }

  // ----- every approved ticket -----

  /** One entry of the batch's error list. */
  datatype SendError = SendError(ticketId: string, error: string)

  datatype BatchResult = BatchResult(sent: nat, failed: nat, errors: seq<SendError>)

  /** The approved tickets, in table order. */
  function ApprovedKeys(table: TicketTable): (r: seq<string>)
    requires table.Valid()
    ensures forall k :: k in r <==> k in table.rows && table.rows[k].status == Approved
    ensures forall i, j :: 0 <= i < j < |r| ==> r[i] != r[j]
  {
    ApprovedAmong(table, table.order)
  }

  function ApprovedAmong(table: TicketTable, keys: seq<string>): (r: seq<string>)
    requires forall i :: 0 <= i < |keys| ==> keys[i] in table.rows
    requires forall i, j :: 0 <= i < j < |keys| ==> keys[i] != keys[j]
    ensures forall k :: k in r <==> k in keys && table.rows[k].status == Approved
    ensures forall i, j :: 0 <= i < j < |r| ==> r[i] != r[j]
  {
    if keys == [] then []
    else
      var rest := ApprovedAmong(table, keys[..|keys| - 1]);
      var last := keys[|keys| - 1];
      assert forall i :: 0 <= i < |keys| - 1 ==> keys[i] != last;
      if table.rows[last].status == Approved then rest + [last] else rest
  }

  /** The table and the tallies part-way through the batch. */
  datatype Batch = Batch(table: TicketTable, result: BatchResult)

  /** Sending one more ticket of the batch and tallying the outcome. */
  function SendNext(b: Batch, key: string, send: Ticket -> SendResult, now: DateTime): (r: Batch)
    requires Keyed(b.table) && key in b.table.rows
    ensures Keyed(r.table) && (forall k :: k in r.table.rows <==> k in b.table.rows)
  {
    var result := send(b.table.rows[key]);
    var tally := if result.Success? then b.result.(sent := b.result.sent + 1)
                 else b.result.(failed := b.result.failed + 1, errors := b.result.errors + [SendError(key, result.error)]);
    Batch(MarkSent(b.table, key, send, now), tally)
  }

  /** Sending the listed tickets one after the other. */
  function SendAll(table: TicketTable, keys: seq<string>, send: Ticket -> SendResult, now: DateTime): (r: Batch)
    requires Keyed(table) && forall k :: k in keys ==> k in table.rows
    ensures Keyed(r.table) && (forall k :: k in r.table.rows <==> k in table.rows)
  {
    if keys == [] then Batch(table, BatchResult(0, 0, []))
    else SendNext(SendAll(table, keys[..|keys| - 1], send, now), keys[|keys| - 1], send, now)
  }

  lemma InInit<T>(s: seq<T>, x: T)
    requires x in s && x != s[|s| - 1]
    ensures x in s[..|s| - 1]
  {
    var j :| 0 <= j < |s| && s[j] == x;
    assert s[..|s| - 1][j] == x;
  }

  lemma TakeSnoc<T>(s: seq<T>, i: nat)
    requires i < |s|
    ensures s[..i + 1] == s[..i] + [s[i]]
  {
  }

  /** Sending one more ticket extends the batch by one step. */
  lemma SendAllSnoc(table: TicketTable, keys: seq<string>, key: string, send: Ticket -> SendResult, now: DateTime)
    requires Keyed(table) && key in table.rows && forall k :: k in keys ==> k in table.rows
    ensures SendAll(table, keys + [key], send, now) == SendNext(SendAll(table, keys, send, now), key, send, now)
  {
    assert (keys + [key])[..|keys|] == keys;
  }

  /** Every listed ticket is counted once, as sent or as failed, and each failure is listed. */
  lemma {:induction false} SendAllCounts(table: TicketTable, keys: seq<string>, send: Ticket -> SendResult, now: DateTime)
    requires Keyed(table) && forall k :: k in keys ==> k in table.rows
    ensures var b := SendAll(table, keys, send, now).result;
            b.sent + b.failed == |keys| && |b.errors| == b.failed
  {
    if keys != [] {
      SendAllCounts(table, keys[..|keys| - 1], send, now);
    }
  }

  /** Each listed ticket ends as its own send left it; tickets outside the batch are untouched. */
  lemma {:induction false} SendAllRows(table: TicketTable, keys: seq<string>, send: Ticket -> SendResult, now: DateTime)
    requires Keyed(table) && forall k :: k in keys ==> k in table.rows
    requires forall i, j :: 0 <= i < j < |keys| ==> keys[i] != keys[j]
    ensures var t := SendAll(table, keys, send, now).table;
            && (forall k :: k in table.rows && k !in keys ==> t.rows[k] == table.rows[k])
            && (forall k :: k in keys ==> t.rows[k] == SentRow(table.rows[k], send, now))
  {
    if keys != [] {
      var init := keys[..|keys| - 1];
      var key := keys[|keys| - 1];
      assert forall i, j :: 0 <= i < j < |init| ==> init[i] != init[j];
      assert key !in init;
      SendAllRows(table, init, send, now);
      var t := SendAll(table, init, send, now).table;
      var r := SendAll(table, keys, send, now).table;
      assert r == MarkSent(t, key, send, now);
      MarkSentChanges(t, key, send, now);
      forall k | k in keys
        ensures r.rows[k] == SentRow(table.rows[k], send, now)
      {
        if k != key {
          InInit(keys, k);
        }
      }
    }
  }

  /** A ticket not in the batch is left as it was. */
  lemma {:induction false} SendAllKeepsUnlisted(table: TicketTable, keys: seq<string>, send: Ticket -> SendResult, now: DateTime, k: string)
    requires Keyed(table) && forall k :: k in keys ==> k in table.rows
    requires k in table.rows && k !in keys
    ensures SendAll(table, keys, send, now).table.rows[k] == table.rows[k]
  {
    if keys != [] {
      SendAllKeepsUnlisted(table, keys[..|keys| - 1], send, now, k);
      MarkSentChanges(SendAll(table, keys[..|keys| - 1], send, now).table, keys[|keys| - 1], send, now);
    }
  }

  /** Each listed failure names a ticket of the batch and carries the text its own send failed with. */
  lemma {:induction false} SendAllErrors(table: TicketTable, keys: seq<string>, send: Ticket -> SendResult, now: DateTime)
    requires Keyed(table) && forall k :: k in keys ==> k in table.rows
    requires forall i, j :: 0 <= i < j < |keys| ==> keys[i] != keys[j]
    ensures var b := SendAll(table, keys, send, now).result;
            forall e :: e in b.errors ==> e.ticketId in keys && send(table.rows[e.ticketId]) == Failure(e.error)
  {
    if keys != [] {
      var init := keys[..|keys| - 1];
      var key := keys[|keys| - 1];
      assert forall i, j :: 0 <= i < j < |init| ==> init[i] != init[j];
      assert key !in init;
      SendAllErrors(table, init, send, now);
      SendAllKeepsUnlisted(table, init, send, now, key);
      var before := SendAll(table, init, send, now);
      var b := SendAll(table, keys, send, now).result;
      assert before.table.rows[key] == table.rows[key];
      var result := send(table.rows[key]);
      assert b == if result.Success? then before.result.(sent := before.result.sent + 1)
                  else before.result.(failed := before.result.failed + 1, errors := before.result.errors + [SendError(key, result.error)]);
      forall e | e in b.errors
        ensures e.ticketId in keys && send(table.rows[e.ticketId]) == Failure(e.error)
      {
        if e !in before.result.errors {
          assert e == SendError(key, result.error);
        }
      }
    }
  }

  /** Listed tickets are all approved, so no failure of the batch comes from the
      approval check: each is a missing reply or the relay's own error. */
  lemma SendAllApprovedFailures(table: TicketTable, s: EmailSettings, relay: Mail -> Outcome, now: DateTime)
    requires table.Valid()
    ensures var b := SendAll(table, ApprovedKeys(table), Dispatcher(s, relay), now).result;
            forall e :: e in b.errors ==>
              && e.ticketId in table.rows
              && var t := table.rows[e.ticketId];
              && t.status == Approved
              && (e.error == "No approved response found"
                  || (t.approvedResponse.Some? && relay(Compose(s, t.senderEmail, t.emailSubject, t.approvedResponse.value)) == Fail(e.error)))
  {
    SendAllErrors(table, ApprovedKeys(table), Dispatcher(s, relay), now);
  }

  /** `send_all_approved_tickets_async`. */
  method SendAllApprovedTickets(db: Database, config: EmailConfig, relay: Mail -> Outcome, now: DateTime)
    returns (results: BatchResult)
    requires db.Valid()
    modifies db
    ensures db.Valid()
    ensures Batch(db.tickets, results) == SendAll(old(db.tickets), ApprovedKeys(old(db.tickets)), Dispatcher(config.settings, relay), now)
    ensures db.emailConfigs == old(db.emailConfigs) && db.schedulerConfigs == old(db.schedulerConfigs)
  {
    results := BatchResult(0, 0, []);
    var approved := ApprovedKeys(db.tickets);
    ghost var start := db.tickets;
    ghost var send := Dispatcher(config.settings, relay);
    for i := 0 to |approved|
      invariant db.Valid() && forall k :: k in db.tickets.rows <==> k in start.rows
      invariant Batch(db.tickets, results) == SendAll(start, approved[..i], send, now)
      invariant db.emailConfigs == old(db.emailConfigs) && db.schedulerConfigs == old(db.schedulerConfigs)
    {
      var key := approved[i];
      TakeSnoc(approved, i);
      ghost var before := Batch(db.tickets, results);
      SendAllSnoc(start, approved[..i], key, send, now);
      var result := SendApprovedTicket(db, key, config, relay, now);
      assert result == send(before.table.rows[key]);
      if result.Success? {
        results := results.(sent := results.sent + 1);
      } else {
        results := results.(failed := results.failed + 1, errors := results.errors + [SendError(key, result.error)]);
      }
      assert Batch(db.tickets, results) == SendNext(before, key, send, now);
    }
    assert approved[..|approved|] == approved;
  }
}
