/**
 * Periodic polling of the mailbox: the job that runs ingestion when polling is
 * enabled and a mailbox is configured, the stored polling settings, and the
 * job table with its running flag.
 */
module Scheduler {
  import opened Common
  import opened Time
  import opened Models
  import opened Store
  import opened EmailIngestor

  // ----- the polling settings -----

  /** A row created with only these two columns given: the others take their defaults. */
  function NewSchedulerConfig(autoFetchEnabled: bool, fetchIntervalMinutes: int): (c: SchedulerConfig)
    ensures c.lastFetchAt.None? && c.lastFetchCount == 0
    ensures c.autoFetchEnabled == autoFetchEnabled && c.fetchIntervalMinutes == fetchIntervalMinutes
  {
    DefaultSchedulerConfig.(autoFetchEnabled := autoFetchEnabled, fetchIntervalMinutes := fetchIntervalMinutes)
  }

  /** `get_scheduler_config`: the four settings of the first stored row, or
      polling off every 5 minutes, never run, when no row is stored. */
  function GetSchedulerConfig(configs: seq<SchedulerConfig>): (r: SchedulerConfig)
    ensures |configs| > 0 ==> r == configs[0]
    ensures |configs| == 0 ==> !r.autoFetchEnabled && r.fetchIntervalMinutes == 5 && r.lastFetchAt.None? && r.lastFetchCount == 0
  {
    if |configs| > 0 then configs[0] else SchedulerConfig(false, 5, None, 0)
  }

  /** What the read reports for an empty table is exactly the row start-up
      creates for it, and the table's declared defaults. */
  lemma ReportedDefaultsAreStored()
    ensures GetSchedulerConfig([]) == NewSchedulerConfig(false, 5) == DefaultSchedulerConfig
    ensures GetSchedulerConfig([NewSchedulerConfig(false, 5)]) == GetSchedulerConfig([])
  {
  }

  // ----- the polling job -----

  /** The text of the AttributeError Python raises for an undeclared column. */
  function NoSuchColumn(column: string): string {
    "type object 'SchedulerConfig' has no attribute '" + column + "'"
  }

  /** `db.query(SchedulerConfig).filter(SchedulerConfig.is_active == True).first()`
      as written: building the filter reads a class attribute the table does not
      declare, which raises before any query runs. */
  function ActiveSchedulerAsWritten(configs: seq<SchedulerConfig>): (r: Result<Option<nat>, string>)
    ensures r.Ok? <==> "is_active" in SchedulerConfigColumns
    ensures r.Err? ==> r.error == NoSuchColumn("is_active")
  {
    if "is_active" in SchedulerConfigColumns then Ok(if |configs| > 0 then Some(0) else None)
    else Err(NoSuchColumn("is_active"))
  }

  lemma IsActiveIsNoColumn()
    ensures "is_active" !in SchedulerConfigColumns
  {
    assert "is_active"[3] != "id"[1];
  }

  /** The lookup the job evidently intends, the one `get_scheduler_config` and
      `start_scheduler` use: the first stored row. */
  function ActiveScheduler(configs: seq<SchedulerConfig>): (r: Result<Option<nat>, string>)
    ensures r.Ok? && (r.value.Some? <==> |configs| > 0) && (r.value.Some? ==> r.value.value == 0)
  {
    Ok(if |configs| > 0 then Some(0) else None)
  }

  /** A lookup names a stored row, if any. */
  predicate LookupInRange(lookup: Result<Option<nat>, string>, configs: seq<SchedulerConfig>) {
    lookup.Ok? && lookup.value.Some? ==> lookup.value.value < |configs|
  }

  /** What the job does: give up on an exception, skip, or ingest and record on the given row. */
  datatype Plan = Abort(error: string) | Skip | Run(row: nat)

  /** The job's gate, given the outcome of the settings lookup. */
  function JobPlan(lookup: Result<Option<nat>, string>, configs: seq<SchedulerConfig>, emailConfigs: seq<EmailConfig>): (r: Plan)
    requires LookupInRange(lookup, configs)
    ensures r.Run? ==> r.row < |configs|
  {
    match lookup
    case Err(e) => Abort(e)
    case Ok(None) => Skip
    case Ok(Some(i)) =>
      if !configs[i].autoFetchEnabled then Skip
      else if ActiveConfig(emailConfigs).None? then Skip
      else Run(i)
  }

  /** The job ingests exactly when the lookup found a row with polling enabled
      and there is an active mailbox configuration. */
  lemma JobPlanGate(lookup: Result<Option<nat>, string>, configs: seq<SchedulerConfig>, emailConfigs: seq<EmailConfig>)
    requires LookupInRange(lookup, configs)
    ensures JobPlan(lookup, configs, emailConfigs).Run? <==>
              && lookup.Ok? && lookup.value.Some? && configs[lookup.value.value].autoFetchEnabled
              && exists j :: 0 <= j < |emailConfigs| && emailConfigs[j].isActive
    ensures lookup.Err? <==> JobPlan(lookup, configs, emailConfigs).Abort?
  {
    if FirstActive(emailConfigs).None? {
      assert forall j :: 0 <= j < |emailConfigs| ==> !emailConfigs[j].isActive;
    } else {
      var i := FirstActive(emailConfigs).value;
      assert 0 <= i < |emailConfigs| && emailConfigs[i].isActive;
    }
  }

  /** As written, the job gives up on every run, whatever is stored: it never ingests. */
  lemma AsWrittenJobNeverIngests(configs: seq<SchedulerConfig>, emailConfigs: seq<EmailConfig>)
    ensures LookupInRange(ActiveSchedulerAsWritten(configs), configs)
    ensures JobPlan(ActiveSchedulerAsWritten(configs), configs, emailConfigs) == Abort(NoSuchColumn("is_active"))
  {
    IsActiveIsNoColumn();
  }

  /** With the first stored row as the lookup, the job ingests exactly when polling is
      enabled in that row and some mailbox configuration is active. */
  lemma CorrectedJobIngests(configs: seq<SchedulerConfig>, emailConfigs: seq<EmailConfig>)
    ensures LookupInRange(ActiveScheduler(configs), configs)
    ensures JobPlan(ActiveScheduler(configs), configs, emailConfigs).Run? <==>
              && |configs| > 0 && configs[0].autoFetchEnabled
              && exists j :: 0 <= j < |emailConfigs| && emailConfigs[j].isActive
  {
    JobPlanGate(ActiveScheduler(configs), configs, emailConfigs);
  }

  /** The settings row after a run that processed `count` messages. */
  function Fetched(c: SchedulerConfig, now: DateTime, count: nat): (r: SchedulerConfig)
    ensures r.lastFetchAt == Some(now) && r.lastFetchCount == count
    ensures r.autoFetchEnabled == c.autoFetchEnabled && r.fetchIntervalMinutes == c.fetchIntervalMinutes
  {
    c.(lastFetchAt := Some(now), lastFetchCount := count)
  }

  /** `auto_fetch_emails_job`, given the outcome of its settings lookup and of its
      last commit. It never raises: an exception ends the run, and changes not yet
      committed are dropped with the session. */
  method AutoFetchEmailsJob(db: Database, lookup: Result<Option<nat>, string>, codecs: Codecs, apiKey: Option<string>,
                            inbox: Inbox, now: DateTime, commit: Outcome)
    requires db.Valid() && LookupInRange(lookup, db.schedulerConfigs)
    modifies db
    ensures db.Valid()
    ensures db.emailConfigs == old(db.emailConfigs)
    ensures match JobPlan(lookup, old(db.schedulerConfigs), old(db.emailConfigs))
            case Run(i) =>
              var p := FetchAndProcess(codecs, apiKey, old(db.tickets), inbox);
              && db.tickets == p.table
              && db.schedulerConfigs == (if commit.Pass? then old(db.schedulerConfigs)[i := Fetched(old(db.schedulerConfigs)[i], now, p.result.processed)]
                                         else old(db.schedulerConfigs))
            case _ => db.tickets == old(db.tickets) && db.schedulerConfigs == old(db.schedulerConfigs)
  {
    if lookup.Err? {
      return;
    }
    if lookup.value.None? || !db.schedulerConfigs[lookup.value.value].autoFetchEnabled {
      return;
    }
    var row := lookup.value.value;
    var emailConfig := ActiveConfig(db.emailConfigs);
    if emailConfig.None? {
      return;
    }
    var result, _ := FetchAndProcessEmails(db, codecs, apiKey, inbox);
    var config := db.schedulerConfigs[row];
    config := config.(lastFetchAt := Some(now), lastFetchCount := result.processed);
    if commit.Pass? {
      db.schedulerConfigs := db.schedulerConfigs[row := config];
    }
  }

  // ----- the job table -----

  const FetchJobId: string := "auto_fetch_emails"
  const FetchJobName: string := "Auto Fetch Emails"

  /** A scheduled job: its display name and its interval. */
  datatype Job = Job(name: string, intervalMinutes: int)

  /** The polling job at the given interval, replacing any job with its id. */
  function Scheduled(jobs: map<string, Job>, intervalMinutes: int): (r: map<string, Job>)
    ensures FetchJobId in r && r[FetchJobId] == Job(FetchJobName, intervalMinutes)
    ensures forall id :: id != FetchJobId ==> (id in r <==> id in jobs)
    ensures forall id :: id in jobs && id != FetchJobId ==> r[id] == jobs[id]
  {
    jobs[FetchJobId := Job(FetchJobName, intervalMinutes)]
  }

  /** Rescheduling replaces the job rather than adding a second one: a table holding
      only the polling job still holds only it, at the latest interval. */
  lemma {:induction false} RescheduleKeepsOneJob(jobs: map<string, Job>, intervals: seq<int>)
    requires forall id :: id in jobs ==> id == FetchJobId
    requires |intervals| > 0
    ensures var r := Reschedule(jobs, intervals);
            && (forall id :: id in r ==> id == FetchJobId)
            && FetchJobId in r && r[FetchJobId] == Job(FetchJobName, intervals[|intervals| - 1])
  {
    if |intervals| > 1 {
      RescheduleKeepsOneJob(jobs, intervals[..|intervals| - 1]);
    }
  }

  /** Rescheduling at each interval in turn. */
  function Reschedule(jobs: map<string, Job>, intervals: seq<int>): map<string, Job> {
    if intervals == [] then jobs else Scheduled(Reschedule(jobs, intervals[..|intervals| - 1]), intervals[|intervals| - 1])
  }

  /** The in-process scheduler: its job table and whether it is running. */
  class JobScheduler {
    var jobs: map<string, Job>
    var running: bool

    constructor()
      ensures jobs == map[] && !running
    {
      jobs := map[];
      running := false;
    }

    /** `update_scheduler_job`: remove the polling job if present, then add it at the new interval. */
    method UpdateSchedulerJob(intervalMinutes: int)
      modifies this
      ensures jobs == Scheduled(old(jobs), intervalMinutes)
      ensures running == old(running)
    {
      if FetchJobId in jobs {
        jobs := jobs - {FetchJobId};
      }
      jobs := jobs[FetchJobId := Job(FetchJobName, intervalMinutes)];
    }

    /** `scheduler.start()`, guarded by the running flag. */
    method Start()
      modifies this
      ensures running && jobs == old(jobs)
    {
      if !running {
        running := true;
      }
    }

    /** `stop_scheduler`: shut down only when running. */
    method Stop()
      modifies this
      ensures !running && jobs == old(jobs)
    {
      if running {
        running := false;
      }
    }
  }

  /** `start_scheduler`: create the default settings row when none is stored,
      schedule the polling job when that row enables it, then start. */
  method StartScheduler(db: Database, scheduler: JobScheduler)
    modifies db, scheduler
    ensures db.schedulerConfigs == if |old(db.schedulerConfigs)| == 0 then [NewSchedulerConfig(false, 5)] else old(db.schedulerConfigs)
    ensures var c := db.schedulerConfigs[0];
            scheduler.jobs == if c.autoFetchEnabled then Scheduled(old(scheduler.jobs), c.fetchIntervalMinutes) else old(scheduler.jobs)
    ensures scheduler.running
    ensures db.tickets == old(db.tickets) && db.emailConfigs == old(db.emailConfigs)
  {
    if |db.schedulerConfigs| == 0 {
      db.schedulerConfigs := [NewSchedulerConfig(false, 5)];
    }
    var config := db.schedulerConfigs[0];
    if config.autoFetchEnabled {
      scheduler.UpdateSchedulerJob(config.fetchIntervalMinutes);
    }
    scheduler.Start();
  }

  /** `stop_scheduler`. */
  method StopScheduler(scheduler: JobScheduler)
    modifies scheduler
    ensures !scheduler.running && scheduler.jobs == old(scheduler.jobs)
  {
    scheduler.Stop();
  }
}
