/**
 What the settings and the queries of the tables mean, on the columns themselves:
 which setting wins over which default, and which rows hold a run up.
 */
module Tables {
  import opened Results
  import opened Repository
  import opened Pipeline
  import opened World
  import opened DiffParser
  import opened DiffReading
  import Paths
  import RunRate
  import Scenarios
  import Spacing

  // ----- Settings

  /** The setting is there and reads as `n`. */
  predicate Reads(cfg: Config, settings: map<string, string>, key: string, n: int) {
    key in settings && cfg.parseInt(settings[key]) == Some(n)
  }

  /** The setting is not there, or does not read as a number. */
  predicate Unreadable(cfg: Config, settings: map<string, string>, key: string) {
    key in settings ==> cfg.parseInt(settings[key]).None?
  }

  /** The setting is there and not empty, and does not read as a number. */
  predicate Garbled(cfg: Config, settings: map<string, string>, key: string) {
    key in settings && settings[key] != "" && cfg.parseInt(settings[key]).None?
  }

  predicate Blank(settings: map<string, string>, key: string) {
    key in settings && Blanks(settings[key])
  }

  lemma {:induction false} BlankExactly(s: string)
    ensures Paths.Strip(s) == "" <==> Blanks(s)
  {
    hide Blanks;
    if Blanks(s) {
      AllIsStripped(s);
      assert Paths.Strip(s) == "";
    } else if Paths.Strip(s) == "" {
      NotBlank(s);
    }
  }

  lemma {:induction false} NotBlank(s: string)
    requires !Blanks(s)
    ensures Paths.Strip(s) != ""
    decreases |s|
  {
    var k :| 0 <= k < |s| && !(9 <= s[k] as int <= 13 || 28 <= s[k] as int <= 32);
    LeftKeeps(s, k);
    RightKeeps(StripLeft(s), s[k]);
  }

  lemma {:induction false} LeftKeeps(s: string, k: nat)
    requires k < |s| && !(9 <= s[k] as int <= 13 || 28 <= s[k] as int <= 32)
    ensures s[k] in StripLeft(s)
  {
    if IsSpace(s[0]) {
      LeftKeeps(s[1..], k - 1);
    }
  }

  lemma {:induction false} RightKeeps(s: string, c: char)
    requires c in s && !(9 <= c as int <= 13 || 28 <= c as int <= 32)
    ensures c in StripRight(s)
    decreases |s|
  {
    if IsSpace(s[|s| - 1]) {
      assert s == s[..|s| - 1] + [s[|s| - 1]];
      RightKeeps(s[..|s| - 1], c);
    }
  }

  /** The runs-per-hour ceiling: the setting if it is there, not blank and a number, and
      the default otherwise. */
  lemma {:induction false} CeilingExactly(cfg: Config, db: Db, n: int)
    ensures Reads(cfg, db.settings, "max_runs_per_hour", n) && !Blank(db.settings, "max_runs_per_hour") ==>
      RunsCeiling(cfg, db) == n
    ensures Unreadable(cfg, db.settings, "max_runs_per_hour") || Blank(db.settings, "max_runs_per_hour") ==>
      RunsCeiling(cfg, db) == cfg.maxRunsPerHour
  {
    hide Blanks;
    if "max_runs_per_hour" in db.settings {
      BlankExactly(db.settings["max_runs_per_hour"]);
    }
  }

  /** The breaker trips on runs, exactly: a positive ceiling, and at least that many rows
      created within the hour. */
  lemma {:induction false} TripsExactly(cfg: Config, db: Db, now: Time)
    ensures CeilingReached(cfg, db, now) <==>
      RunsCeiling(cfg, db) > 0
      && |set id | id in db.runs && now - 3_600_000_000 <= db.runs[id].createdAt| >= RunsCeiling(cfg, db)
  {
    assert (set id | id in db.runs && now - 3_600_000_000 <= db.runs[id].createdAt) == Since(db, now - HOUR);
    hide RunsCeiling;
  }

  /** The backoff window: no setting or an empty one leaves the default, a number is taken
      as it is, and anything else ends the run. */
  lemma {:induction false} BackoffExactly(cfg: Config, db: Db, n: int)
    ensures ("patch_backoff_minutes" in db.settings ==> db.settings["patch_backoff_minutes"] == "") ==>
      Backoff(cfg, db) == Some(cfg.backoffMinutes) && Window(cfg, db) == cfg.backoffMinutes * 60_000_000
    ensures Reads(cfg, db.settings, "patch_backoff_minutes", n) && db.settings["patch_backoff_minutes"] != "" ==>
      Backoff(cfg, db) == Some(n) && Window(cfg, db) == n * 60_000_000
    ensures Garbled(cfg, db.settings, "patch_backoff_minutes") ==> Backoff(cfg, db) == None
  {
  }

  /** The grace period, in the same way; its default is half an hour. */
  lemma {:induction false} GraceExactly(cfg: Config, db: Db, n: int)
    ensures ("post_merge_grace_minutes" in db.settings ==> db.settings["post_merge_grace_minutes"] == "") ==>
      Grace(cfg, db) == Some(30)
    ensures Reads(cfg, db.settings, "post_merge_grace_minutes", n) && db.settings["post_merge_grace_minutes"] != "" ==>
      Grace(cfg, db) == Some(n)
    ensures Garbled(cfg, db.settings, "post_merge_grace_minutes") ==> Grace(cfg, db) == None
  {
  }

  /** The retention: a number in the setting, and the default otherwise. */
  lemma {:induction false} RetentionExactly(cfg: Config, db: Db, n: int)
    ensures Reads(cfg, db.settings, "run_retention_days", n) ==> Retention(cfg, db) == n
    ensures Unreadable(cfg, db.settings, "run_retention_days") ==> Retention(cfg, db) == cfg.retentionDays
  {
  }

  /** What the pruner leaves: the rows of the last `days` days, as they are. */
  lemma {:induction false} PrunedExactly(db: Db, now: Time, days: int)
    ensures Pruned(db, now, days).settings == db.settings
    ensures forall id :: (id in Pruned(db, now, days).runs
      <==> id in db.runs && now - days * 86_400_000_000 <= db.runs[id].createdAt)
    ensures forall id | id in Pruned(db, now, days).runs :: Pruned(db, now, days).runs[id] == db.runs[id]
  {
  }

  /** The hourly bound for the ceiling that is configured: where the setting reads as `n`
      and nobody writes it, no hour sees `n` runs created and let through. */
  lemma {:induction false} ConfiguredHourIsBounded(cfg: Config, w: World, run: seq<Action>, n: int, a: Time)
    requires Initial(w) && Reads(cfg, w.db.settings, "max_runs_per_hour", n) && n > 0
    requires !Blank(w.db.settings, "max_runs_per_hour")
    requires forall i | 0 <= i < |run| && run[i].Put? :: run[i].setting != "max_runs_per_hour"
    ensures var past := End(cfg, w, run).past;
      |set id | id in past.passed && id in past.born && a <= past.born[id].at && past.passed[id] <= a + 3_600_000_000| <= n - 1
  {
    CeilingExactly(cfg, w.db, n);
    var past := End(cfg, w, run).past;
    assert (set id | id in past.passed && id in past.born && a <= past.born[id].at && past.passed[id] <= a + 3_600_000_000)
      == RunRate.Through(End(cfg, w, run), a);
    hide End, Initial, RunsCeiling, Blanks, RunRate.Through;
    RunRate.EveryHourIsBounded(cfg, w, run, n, a);
  }

  /** And `n - 1` are reached. */
  lemma {:induction false} ConfiguredBoundIsReached(cfg: Config, w: World, n: nat) returns (run: seq<Action>)
    requires Initial(w) && Reads(cfg, w.db.settings, "max_runs_per_hour", n) && n > 0
    requires !Blank(w.db.settings, "max_runs_per_hour")
    ensures forall i | 0 <= i < |run| && run[i].Put? :: run[i].setting != "max_runs_per_hour"
    ensures var past := End(cfg, w, run).past;
      |set id | id in past.passed && id in past.born && w.now <= past.born[id].at
        && past.passed[id] <= w.now + 3_600_000_000| == n - 1
  {
    CeilingExactly(cfg, w.db, n);
    run := Scenarios.Launches(n - 1);
    var past := End(cfg, w, run).past;
    assert (set id | id in past.passed && id in past.born && w.now <= past.born[id].at
        && past.passed[id] <= w.now + 3_600_000_000) == RunRate.Through(End(cfg, w, run), w.now);
    hide End, Initial, RunsCeiling, Blanks, RunRate.Through, Scenarios.Launches;
    Scenarios.TheBoundIsReached(cfg, w, n);
    forall i | 0 <= i < |run| && run[i].Put? ensures run[i].setting != "max_runs_per_hour" {
      assert run[i] in run && RunRate.LeavesCeiling(run[i]);
    }
  }

  // ----- Rows that hold a run up

  /** A row blocks the other runs of its key exactly when it has a pull request and its
      `pr_status` is neither `closed` nor `merged`; none counts as open. */
  lemma {:induction false} BlocksExactly(db: Db, key: string, exclude: Id)
    ensures HasBlockingPr(db, key, exclude) <==> exists id | id in db.runs && id != exclude ::
      && db.runs[id].key == key && db.runs[id].prOpened && db.runs[id].prNumber != None
      && (db.runs[id].prStatus == None || db.runs[id].prStatus.value !in {"closed", "merged"})
  {
    forall id | id in db.runs
      ensures db.runs[id].Blocking() <==> (db.runs[id].prOpened && db.runs[id].prNumber != None
        && (db.runs[id].prStatus == None || db.runs[id].prStatus.value !in {"closed", "merged"}))
    {
    }
    hide Run.Blocking;
  }

  /** A row counts for the backoff exactly when it ended `done` or `failed` without a
      pull request and was created since. */
  lemma {:induction false} BackoffCounts(db: Db, key: string, since: Time, exclude: Id)
    ensures HasRecentUnproductive(db, key, since, exclude) <==> exists id | id in db.runs && id != exclude ::
      && db.runs[id].key == key && !db.runs[id].prOpened && since <= db.runs[id].createdAt
      && db.runs[id].status in {Done, Failed}
  {
    forall id | id in db.runs ensures db.runs[id].status.Unproductive() <==> db.runs[id].status in {Done, Failed} {
    }
    hide Status.Unproductive;
  }

  /** A merge counts for the grace period while less than that has gone by since. */
  lemma {:induction false} GraceCounts(db: Db, key: string, exclude: Id, now: Time, grace: int)
    ensures WithinGrace(db, key, exclude, now, grace) <==> exists id | id in db.runs && id != exclude ::
      && db.runs[id].key == key && db.runs[id].prStatus == Some("merged") && db.runs[id].mergedAt.Some?
      && now - db.runs[id].mergedAt.value < grace
  {
    forall id | id in db.runs
      ensures db.runs[id].Merged() <==> db.runs[id].prStatus == Some("merged") && db.runs[id].mergedAt.Some?
    {
    }
    hide Run.Merged;
  }

  /** A run is a duplicate exactly while a run of its key has one of five statuses. */
  lemma {:induction false} DuplicateExactly(db: Db, key: string)
    ensures HasOpenRun(db, key) <==> exists id | id in db.runs ::
      db.runs[id].key == key && db.runs[id].status in {Queued, Pending, Collecting, Generating, Posting}
  {
    forall id | id in db.runs
      ensures db.runs[id].status.Open() <==> db.runs[id].status in {Queued, Pending, Collecting, Generating, Posting}
    {
    }
    hide Status.Open;
  }

  /** The mode is manual exactly when the setting says so. */
  lemma {:induction false} ManualExactly(db: Db)
    ensures ManualMode(db) <==> "processing_mode" in db.settings && db.settings["processing_mode"] == "manual"
  {
  }

  // ----- Writes

  /** A row with other columns than these stays as it is. */
  predicate SameElse(before: Run, after: Run) {
    && after.key == before.key && after.createdAt == before.createdAt && after.manual == before.manual
    && after.llm == before.llm && after.prOpened == before.prOpened && after.prNumber == before.prNumber
    && after.prSkip == before.prSkip && after.notified == before.notified
  }

  /** A status write replaces the status, and the message only by another one. */
  lemma {:induction false} StatusExactly(db: Db, id: Id, status: Status, error: Option<string>)
    ensures var after := SetStatus(db, id, status, error);
      && after.settings == db.settings && after.runs.Keys == db.runs.Keys
      && (forall j | j in db.runs && j != id :: after.runs[j] == db.runs[j])
      && (id in db.runs ==>
        var before, now := db.runs[id], after.runs[id];
        && now.status == status && (error.None? ==> now.error == before.error) && (error.Some? ==> now.error == error)
        && SameElse(before, now) && now.prStatus == before.prStatus && now.mergedAt == before.mergedAt)
  {
  }

  /** The row has this status of its pull request, where nothing counts as open. */
  predicate Has(run: Run, status: string) {
    run.prStatus == Some(status) || (status == "open" && (run.prStatus == None || run.prStatus == Some("")))
  }

  /** The row once its pull request was seen with this status: the first merge is stamped with
      the time it was seen, and no other. */
  predicate Seen(before: Run, after: Run, status: string, now: Time) {
    && SameElse(before, after) && after.status == before.status && after.error == before.error
    && after.prStatus == Some(status)
    && after.mergedAt == if before.mergedAt.Some? || status != "merged" then before.mergedAt else Some(now)
  }

  /** What GitHub says is written exactly when it differs from what the row has. */
  lemma {:induction false} PollExactly(w: World, id: Id, status: string)
    requires id in w.db.runs
    ensures Has(w.db.runs[id], status) ==> DoPoll(w, id, status) == w
    ensures !Has(w.db.runs[id], status) ==>
      var after := DoPoll(w, id, status);
      && after == w.(db := after.db) && after.db.settings == w.db.settings && after.db.runs.Keys == w.db.runs.Keys
      && (forall j | j in w.db.runs && j != id :: after.db.runs[j] == w.db.runs[j])
      && Seen(w.db.runs[id], after.db.runs[id], status, w.now)
  {
    var run := w.db.runs[id];
    assert Seen(run, run.WithPrStatus(status, w.now), status, w.now);
    hide Seen, Run.WithPrStatus;
  }

  /** The pipeline starts with the settings, holds back for recent runs, and asks the breaker
      as it is told. */
  predicate Fresh(t: Task, key: string, enforceBreaker: bool, env: Env) {
    t.pc == ReadSettings && t.key == key && t.env == env && t.enforceBreaker == enforceBreaker && t.enforceBackoff
  }

  /** The row of a new run. */
  predicate Blankly(run: Run, key: string, now: Time, manual: bool) {
    && run.key == key && run.createdAt == now && run.manual == manual && run.status == Pending && !run.llm
    && !run.prOpened && run.prNumber == None && run.prSkip == None && run.prStatus == None && run.mergedAt == None
    && !run.notified
  }

  /** An alert in manual mode inserts a pending row that is then parked as queued. */
  lemma {:induction false} ParkExactly(cfg: Config, w: World, id: Id, key: string, env: Env)
    requires id !in w.past.born
    ensures var v := Do(cfg, w, Receive(id, key, true));
      && id in v.db.runs && Blankly(v.db.runs[id], key, w.now, false) && Enabled(v, Park(id)) && !Enabled(v, Spawn(id, env))
      && var u := Do(cfg, v, Park(id));
        id in u.db.runs && u.db.runs[id].status == Queued && id !in u.inbox && u.tasks == w.tasks
  {
    hide Noted;
  }

  /** Otherwise its pipeline asks the breaker, and an operator's does not. */
  lemma {:induction false} LaunchExactly(cfg: Config, w: World, id: Id, key: string, manual: bool, env: Env)
    requires id !in w.past.born
    ensures var v := Do(cfg, w, if manual then Submit(id, key) else Receive(id, key, false));
      && id in v.db.runs && Blankly(v.db.runs[id], key, w.now, manual) && Enabled(v, Spawn(id, env)) && !Enabled(v, Park(id))
      && var u := Do(cfg, v, Spawn(id, env));
        u.db == v.db && id !in u.inbox && id in u.tasks && Fresh(u.tasks[id], key, !manual, env)
  {
    hide Noted;
  }

  /** A queued run, and no other, goes back to pending with a pipeline that does not ask it. */
  lemma {:induction false} DispatchExactly(cfg: Config, w: World, id: Id, env: Env)
    requires id in w.db.runs && id !in w.inbox
    ensures Enabled(w, Approve(id)) <==> w.db.runs[id].status == Queued
    ensures w.db.runs[id].status == Queued ==>
      var v := Do(cfg, w, Approve(id));
      && v.db == w.db && v.tasks == w.tasks && Enabled(v, Dispatch(id, env))
      && var u := Do(cfg, v, Dispatch(id, env));
        && id in u.db.runs && u.db.runs[id].status == Pending && SameElse(w.db.runs[id], u.db.runs[id])
        && id in u.tasks && Fresh(u.tasks[id], w.db.runs[id].key, false, env)
  {
    hide Noted;
  }
}
