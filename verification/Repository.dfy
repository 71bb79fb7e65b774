/**
 The run table and the settings table, the queries on them, and what each write
 makes of them.
 */
module Repository {
  import opened Results
  import Paths

  type Id = nat

  /** A point in time, in microseconds. */
  type Time = int

  const MINUTE: int := 60_000_000
  const HOUR: int := 60 * MINUTE
  const DAY: int := 24 * HOUR

  datatype Status =
    | Pending | Queued | Triaging | Collecting | Investigating | Generating | Posting
    | Done | Skipped | Failed
  {
    predicate Terminal() {
      Done? || Skipped? || Failed?
    }

    /** `_OPEN_STATUSES`: a run the webhook takes to be open. */
    predicate Open() {
      Queued? || Pending? || Collecting? || Generating? || Posting?
    }

    /** `_UNPRODUCTIVE_STATUSES`. */
    predicate Unproductive() {
      Done? || Failed?
    }
  }

  /** A row of the run table; a pull request is known by its number. */
  datatype Run = Run(
    key: string,
    createdAt: Time,
    manual: bool,
    status: Status,
    error: Option<string>,
    llm: bool,
    prOpened: bool,
    prNumber: Option<nat>,
    prSkip: Option<string>,
    prStatus: Option<string>,
    mergedAt: Option<Time>,
    notified: bool)
  {
    /** `pr_status` is neither `closed` nor `merged`; NULL counts as open. */
    predicate Blocking() {
      prOpened && prNumber.Some? && prStatus != Some("closed") && prStatus != Some("merged")
    }

    /** The same test as a bare SQL `NOT IN`: NULL satisfies neither it nor its
        negation, so a row without a status is dropped. */
    predicate ListedAsOpen() {
      prOpened && prNumber.Some? && prStatus.Some? && prStatus.value !in {"closed", "merged"}
    }

    predicate Merged() {
      prStatus == Some("merged") && mergedAt.Some?
    }

    /** A message is kept until another one replaces it. */
    function WithStatus(status: Status, error: Option<string>): Run {
      this.(status := status, error := if error.Some? then error else this.error)
    }

    function WithPr(number: Option<nat>, skip: Option<string>): Run {
      this.(prOpened := number.Some?, prNumber := number, prSkip := skip)
    }

    /** The first merge observed is the one that is stamped. */
    function WithPrStatus(status: string, now: Time): Run {
      this.(prStatus := Some(status), mergedAt := if status == "merged" && mergedAt.None? then Some(now) else mergedAt)
    }
  }

  datatype Db = Db(runs: map<Id, Run>, settings: map<string, string>)

  // ----- Writes

  function NewRun(key: string, now: Time, manual: bool): Run {
    Run(key, now, manual, Pending, None, false, false, None, None, None, None, false)
  }

  function CreateRun(db: Db, id: Id, key: string, now: Time, manual: bool): Db {
    db.(runs := db.runs[id := NewRun(key, now, manual)])
  }

  /** Every row write is a no-op when the row is gone. */
  function SetRow(db: Db, id: Id, run: Run): Db {
    if id in db.runs then db.(runs := db.runs[id := run]) else db
  }

  function SetSetting(db: Db, key: string, value: string): Db {
    db.(settings := db.settings[key := value])
  }

  function DeleteOlder(db: Db, cutoff: Time): Db {
    db.(runs := map id | id in db.runs && cutoff <= db.runs[id].createdAt :: db.runs[id])
  }

  // ----- Queries

  function GetSetting(db: Db, key: string): Option<string> {
    if key in db.settings then Some(db.settings[key]) else None
  }

  function Since(db: Db, since: Time): set<Id> {
    set id | id in db.runs && since <= db.runs[id].createdAt
  }

  function CountSince(db: Db, since: Time): nat {
    |Since(db, since)|
  }

  function OpenPrs(db: Db): set<Id> {
    set id | id in db.runs && db.runs[id].ListedAsOpen()
  }

  /** `find_open_run_by_dedup_key` finds something. */
  predicate HasOpenRun(db: Db, key: string) {
    exists id | id in db.runs :: db.runs[id].key == key && db.runs[id].status.Open()
  }

  /** `find_blocking_open_pr_run` finds something. */
  predicate HasBlockingPr(db: Db, key: string, exclude: Id) {
    exists id | id in db.runs && id != exclude :: db.runs[id].key == key && db.runs[id].Blocking()
  }

  /** `find_recent_unproductive_run` finds something. */
  predicate HasRecentUnproductive(db: Db, key: string, since: Time, exclude: Id) {
    exists id | id in db.runs && id != exclude ::
      && db.runs[id].key == key && !db.runs[id].prOpened
      && db.runs[id].status.Unproductive() && since <= db.runs[id].createdAt
  }

  /** The most recent merge for this key, if any, is still inside the grace window. */
  predicate WithinGrace(db: Db, key: string, exclude: Id, now: Time, grace: int) {
    exists id | id in db.runs && id != exclude ::
      db.runs[id].key == key && db.runs[id].Merged() && now < db.runs[id].mergedAt.value + grace
  }

  /** Asking about the most recently merged run is asking whether any merged run
      is inside its window. */
  lemma {:induction false} GraceByLatest(db: Db, key: string, exclude: Id, now: Time, grace: int, latest: Id)
    requires latest in db.runs && latest != exclude && db.runs[latest].key == key && db.runs[latest].Merged()
    requires forall id | id in db.runs && id != exclude && db.runs[id].key == key && db.runs[id].Merged() ::
      db.runs[id].mergedAt.value <= db.runs[latest].mergedAt.value
    ensures now < db.runs[latest].mergedAt.value + grace <==> WithinGrace(db, key, exclude, now, grace)
  {
  }

  // ----- What the writes mean for the queries

  /** A new run is found by the next lookup for its key, and neither another key's lookup
      nor any gate decides differently because of it. */
  lemma {:induction false} NewRunIsFound(db: Db, id: Id, key: string, now: Time, manual: bool)
    requires id !in db.runs
    ensures var after := CreateRun(db, id, key, now, manual);
      && HasOpenRun(after, key)
      && (forall k | k != key :: HasOpenRun(after, k) <==> HasOpenRun(db, k))
      && (forall k, x :: HasBlockingPr(after, k, x) <==> HasBlockingPr(db, k, x))
      && (forall k, since, x :: HasRecentUnproductive(after, k, since, x) <==> HasRecentUnproductive(db, k, since, x))
  {
    var after := CreateRun(db, id, key, now, manual);
    assert after.runs[id].key == key && after.runs[id].status.Open();
    assert !after.runs[id].Blocking() && !after.runs[id].status.Unproductive();
    assert forall j | j in db.runs :: j in after.runs && after.runs[j] == db.runs[j];
    hide CreateRun, Run.Blocking, Status.Open, Status.Unproductive;
  }

  /** And from the moment it is created the breaker counts it, once. */
  lemma {:induction false} NewRunIsCounted(db: Db, id: Id, key: string, now: Time, manual: bool, since: Time)
    requires id !in db.runs
    ensures CountSince(CreateRun(db, id, key, now, manual), since) == CountSince(db, since) + if since <= now then 1 else 0
  {
    var after := CreateRun(db, id, key, now, manual);
    if since <= now {
      assert Since(after, since) == Since(db, since) + {id};
    } else {
      assert Since(after, since) == Since(db, since);
    }
  }

  /** The row with its pull request columns overwritten. */
  function PrRecorded(db: Db, id: Id, number: Option<nat>, skip: Option<string>): Db {
    if id in db.runs then SetRow(db, id, db.runs[id].WithPr(number, skip)) else db
  }

  /** A recorded pull request holds up every other run of its key and no run of another
      key; a recorded reason takes the row out of the gate, whatever it named before. */
  lemma {:induction false} RecordedPrBlocks(db: Db, id: Id, number: Option<nat>, skip: Option<string>)
    requires id in db.runs && db.runs[id].prStatus != Some("closed") && db.runs[id].prStatus != Some("merged")
    ensures var after := PrRecorded(db, id, number, skip);
      var key := db.runs[id].key;
      && (number.Some? ==> forall x | x != id :: HasBlockingPr(after, key, x))
      && (number.None? ==> forall k, x ::
           (HasBlockingPr(after, k, x) <==> exists j | j in db.runs && j != x && j != id :: db.runs[j].key == k && db.runs[j].Blocking()))
      && (forall k, x | k != key || x == id :: HasBlockingPr(after, k, x) <==> HasBlockingPr(db, k, x))
      && (forall k :: HasOpenRun(after, k) <==> HasOpenRun(db, k))
  {
    var after := PrRecorded(db, id, number, skip);
    assert after.runs[id].Blocking() <==> number.Some?;
    assert forall j | j in db.runs && j != id :: after.runs[j] == db.runs[j];
  }

  function NotificationRecorded(db: Db, id: Id, notified: bool): Db {
    if id in db.runs then SetRow(db, id, db.runs[id].(notified := notified)) else db
  }

  /** Whether somebody was notified changes no decision: every query answers as before. */
  lemma {:induction false} NotificationsAreInvisible(db: Db, id: Id, notified: bool)
    ensures var after := NotificationRecorded(db, id, notified);
      && after.runs.Keys == db.runs.Keys
      && (forall k :: HasOpenRun(after, k) <==> HasOpenRun(db, k))
      && (forall k, x :: HasBlockingPr(after, k, x) <==> HasBlockingPr(db, k, x))
      && (forall k, since, x :: HasRecentUnproductive(after, k, since, x) <==> HasRecentUnproductive(db, k, since, x))
      && (forall k, x, now, grace :: WithinGrace(after, k, x, now, grace) <==> WithinGrace(db, k, x, now, grace))
      && OpenPrs(after) == OpenPrs(db) && (forall since :: CountSince(after, since) == CountSince(db, since))
  {
    var after := NotificationRecorded(db, id, notified);
    assert forall j | j in db.runs ::
      after.runs[j] == db.runs[j].(notified := after.runs[j].notified);
    forall since ensures CountSince(after, since) == CountSince(db, since) {
      assert Since(after, since) == Since(db, since);
    }
  }

  // ----- Settings with defaults

  /** The environment defaults, and `int()` as any partial reading of a string. */
  datatype Config = Config(
    maxRunsPerHour: int,
    backoffMinutes: int,
    retentionDays: int,
    parseInt: string -> Option<int>)

  const RUNS_PER_HOUR := "max_runs_per_hour"
  const BACKOFF_MINUTES := "patch_backoff_minutes"
  const GRACE_MINUTES := "post_merge_grace_minutes"
  const RETENTION_DAYS := "run_retention_days"
  const PROCESSING_MODE := "processing_mode"
  const DEFAULT_GRACE_MINUTES: int := 30

  function RunsCeiling(cfg: Config, db: Db): int {
    match GetSetting(db, RUNS_PER_HOUR)
    case None => cfg.maxRunsPerHour
    case Some(raw) =>
      if Paths.Strip(raw) == "" || cfg.parseInt(raw).None? then cfg.maxRunsPerHour else cfg.parseInt(raw).value
  }

  /** The runs-per-hour part of `check_cost_breaker`. */
  predicate CeilingReached(cfg: Config, db: Db, now: Time) {
    RunsCeiling(cfg, db) > 0 && CountSince(db, now - HOUR) >= RunsCeiling(cfg, db)
  }

  /** `int(setting) if setting else default`; none stands for the ValueError. */
  function IntOr(cfg: Config, setting: Option<string>, default: int): Option<int> {
    if setting.None? || setting.value == "" then Some(default) else cfg.parseInt(setting.value)
  }

  function Backoff(cfg: Config, db: Db): Option<int> {
    IntOr(cfg, GetSetting(db, BACKOFF_MINUTES), cfg.backoffMinutes)
  }

  function Grace(cfg: Config, db: Db): Option<int> {
    IntOr(cfg, GetSetting(db, GRACE_MINUTES), DEFAULT_GRACE_MINUTES)
  }

  function Retention(cfg: Config, db: Db): int {
    match GetSetting(db, RETENTION_DAYS)
    case None => cfg.retentionDays
    case Some(raw) => if cfg.parseInt(raw).None? then cfg.retentionDays else cfg.parseInt(raw).value
  }

  predicate ManualMode(db: Db) {
    GetSetting(db, PROCESSING_MODE) == Some("manual")
  }

  /** What is left when the pruner deletes what is older than `days`. */
  function Pruned(db: Db, now: Time, days: int): Db {
    DeleteOlder(db, now - days * DAY)
  }
}
