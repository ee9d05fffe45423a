/**
 * The database: the tickets table (a value with its integrity invariant) and
 * the three tables the handlers read and write, held by one mutable object.
 */
module Store {
  import opened Common
  import opened Time
  import opened Models

  /** The text reported when a ticket_id is inserted twice: a stand-in for the driver's
      message, which the sources do not fix. */
  const UniqueViolation: string := "UNIQUE constraint failed: tickets.ticket_id"

  /**
   * The tickets table: rows keyed by the unique ticket_id, the keys in insertion
   * order, and the next autoincrement value of the primary key.
   */
  datatype TicketTable = TicketTable(rows: map<string, Ticket>, order: seq<string>, nextId: nat) {

    /** Every row is listed once, is stored under its own ticket_id, and has an id
        the autoincrement counter has already passed. */
    ghost predicate Valid() {
      && (forall i :: 0 <= i < |order| ==> order[i] in rows)
      && (forall i, j :: 0 <= i < j < |order| ==> order[i] != order[j])
      && (forall k :: k in rows ==> k in order)
      && (forall k :: k in rows ==> rows[k].ticketId == k && rows[k].id.Some? && rows[k].id.value < nextId)
    }

    /** `query(Ticket).filter(Ticket.ticket_id == key).first()`. */
    function Find(key: string): (r: Option<Ticket>)
      ensures r.Some? <==> key in rows
      ensures r.Some? ==> r.value == rows[key]
    {
      if key in rows then Some(rows[key]) else None
    }

    /** `db.add(t); db.commit()`: the row gets the next id and the server's
        creation time, or the insert fails when the ticket_id is taken. */
    function Insert(t: Ticket, now: DateTime): (r: Result<TicketTable, string>)
      requires Valid()
      ensures r.Ok? <==> t.ticketId !in rows
      ensures r.Err? ==> r.error == UniqueViolation
      ensures r.Ok? ==> r.value.Valid()
      ensures r.Ok? ==> r.value.rows == rows[t.ticketId := t.(id := Some(nextId), createdAt := Some(now))]
      ensures r.Ok? ==> r.value.order == order + [t.ticketId] && r.value.nextId == nextId + 1
    {
      if t.ticketId in rows then Err(UniqueViolation)
      else
        var r := TicketTable(rows[t.ticketId := t.(id := Some(nextId), createdAt := Some(now))], order + [t.ticketId], nextId + 1);
        assert forall i :: 0 <= i < |order| ==> r.order[i] == order[i];
        Ok(r)
    }

    /** Committing the assigned columns of a stored row. When some column differs from
        the stored value, the UPDATE stamps updated_at (`onupdate=func.now()`); when
        none does, the flush has no net change, sends no UPDATE and the row is kept. */
    function Update(t: Ticket, now: DateTime): (r: TicketTable)
      requires t.ticketId in rows
      ensures r.order == order && r.nextId == nextId
      ensures t == rows[t.ticketId] ==> r == this
      ensures t != rows[t.ticketId] ==> r.rows == rows[t.ticketId := t.(updatedAt := Some(now))]
    {
      if t == rows[t.ticketId] then this
      else TicketTable(rows[t.ticketId := t.(updatedAt := Some(now))], order, nextId)
    }

    /** `order_by(created_at.desc())`: the most recently inserted row first. */
    function NewestFirst(): (r: seq<Ticket>)
      requires Valid()
      ensures |r| == |order|
    {
      seq(|order|, i requires 0 <= i < |order| => rows[order[|order| - 1 - i]])
    }
  }

  /** An update that keeps the row's primary key keeps the table's invariant. */
  lemma UpdateValid(table: TicketTable, t: Ticket, now: DateTime)
    requires table.Valid() && t.ticketId in table.rows && t.id == table.rows[t.ticketId].id
    ensures table.Update(t, now).Valid()
  {
  }

  const EmptyTable: TicketTable := TicketTable(map[], [], 1)

  lemma EmptyTableValid()
    ensures EmptyTable.Valid() && EmptyTable.NewestFirst() == []
  {
  }

  /** The listing shows every stored ticket ... */
  lemma NewestFirstComplete(table: TicketTable)
    requires table.Valid()
    ensures forall k :: k in table.rows ==> exists i :: 0 <= i < |table.NewestFirst()| && table.NewestFirst()[i] == table.rows[k]
  {
    var r := table.NewestFirst();
    var n := |table.order|;
    forall k | k in table.rows
      ensures exists i :: 0 <= i < |r| && r[i] == table.rows[k]
    {
      var p :| 0 <= p < n && table.order[p] == k;
      assert r[n - 1 - p] == table.rows[k];
    }
  }

  /** ... and each of them once. */
  lemma NewestFirstDistinct(table: TicketTable)
    requires table.Valid()
    ensures forall i, j :: 0 <= i < j < |table.NewestFirst()| ==> table.NewestFirst()[i].ticketId != table.NewestFirst()[j].ticketId
  {
    var r := table.NewestFirst();
    var n := |table.order|;
    forall i, j | 0 <= i < j < |r|
      ensures r[i].ticketId != r[j].ticketId
    {
      assert r[i].ticketId == table.order[n - 1 - i];
      assert r[j].ticketId == table.order[n - 1 - j];
    }
  }

  /** A newly inserted ticket heads the listing. */
  lemma InsertHeadsListing(table: TicketTable, t: Ticket, now: DateTime)
    requires table.Valid() && table.Insert(t, now).Ok?
    ensures var after := table.Insert(t, now).value;
            after.NewestFirst() == [after.rows[t.ticketId]] + table.NewestFirst()
  {
    var after := table.Insert(t, now).value;
    var n := |table.order|;
    assert after.order[n] == t.ticketId;
    forall i | 0 <= i < n
      ensures after.NewestFirst()[i + 1] == table.NewestFirst()[i]
    {
      assert after.order[n - 1 - i] == table.order[n - 1 - i];
      assert table.order[n - 1 - i] in table.rows && table.order[n - 1 - i] != t.ticketId;
    }
    assert after.NewestFirst() == [after.rows[t.ticketId]] + table.NewestFirst();
  }

  /** The index of the first active settings row, as `filter(is_active == True).first()` finds it. */
  function FirstActive(configs: seq<EmailConfig>): (r: Option<nat>)
    ensures r.Some? ==> r.value < |configs| && configs[r.value].isActive
    ensures r.Some? ==> forall j :: 0 <= j < r.value ==> !configs[j].isActive
    ensures r.None? <==> forall j :: 0 <= j < |configs| ==> !configs[j].isActive
  {
    if |configs| == 0 then None
    else if configs[0].isActive then Some(0)
    else
      match FirstActive(configs[1..])
      case None => None
      case Some(i) => Some(i + 1)
  }

  /** The first active settings row, if any. */
  function ActiveConfig(configs: seq<EmailConfig>): (r: Option<EmailConfig>)
    ensures r.None? <==> forall j :: 0 <= j < |configs| ==> !configs[j].isActive
    ensures r.Some? ==> r.value.isActive && r.value in configs
    ensures r.Some? ==> exists i :: 0 <= i < |configs| && configs[i] == r.value && forall j :: 0 <= j < i ==> !configs[j].isActive
  {
    match FirstActive(configs)
    case Some(i) => Some(configs[i])
    case None => None
  }

  /** The application's database: its three tables. */
  class Database {
    var tickets: TicketTable
    var emailConfigs: seq<EmailConfig>
    var schedulerConfigs: seq<SchedulerConfig>

    ghost predicate Valid()
      reads this
    {
      tickets.Valid()
    }

    /** A freshly created schema: every table empty. */
    constructor ()
      ensures Valid() && tickets == EmptyTable && emailConfigs == [] && schedulerConfigs == []
    {
      tickets := EmptyTable;
      emailConfigs := [];
      schedulerConfigs := [];
    }
  }
}
