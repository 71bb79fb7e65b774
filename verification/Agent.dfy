/**
 The agent as a program: the tables it holds, the repository's writes on them, and
 what happens to them while a coroutine is suspended.
 */
module Agent {
  import opened Results
  import opened Repository
  import opened Pipeline
  import opened World
  import W = World
  import R = Repository
  import opened Reachability
  import Lifecycle
  import OnePull

  class Agent {
    const cfg: Config
    var runs: map<Id, Run>
    var settings: map<string, string>
    var now: Time
    var tasks: map<Id, Task>
    var inbox: map<Id, Launch>
    var pulls: map<nat, Pull>
    var nextPull: nat
    var past: Past

    /** What everybody else does at each suspension to come. */
    var schedule: seq<seq<Action>>

    constructor (cfg: Config, settings: map<string, string>, now: Time, nextPull: nat, schedule: seq<seq<Action>>)
      ensures this.cfg == cfg && this.settings == settings && Initial(State()) && Valid()
    {
      this.cfg := cfg;
      this.settings := settings;
      this.now := now;
      this.nextPull := nextPull;
      this.schedule := schedule;
      runs, tasks, inbox, pulls := map[], map[], map[], map[];
      past := Past(map[], map[], map[], map[], {});
      new;
      Lifecycle.InitialInv(State());
    }

    function Database(): Db
      reads this
    {
      Db(runs, settings)
    }

    function State(): World
      reads this
    {
      World(Database(), now, tasks, inbox, pulls, nextPull, past)
    }

    ghost predicate Valid()
      reads this
    {
      Lifecycle.Inv(State())
    }

    // ----- The repository

    /** The row is new: its id is a fresh UUID. */
    method CreateRun(id: Id, key: string, manual: bool)
      requires id !in runs
      modifies this`runs
      ensures forall j | j in old(runs) :: j in runs && runs[j] == old(runs[j])
      ensures Database() == R.CreateRun(old(Database()), id, key, now, manual)
    {
      runs := runs[id := NewRun(key, now, manual)];
    }

    method UpdateStatus(id: Id, status: Status, error: Option<string>)
      modifies this`runs
      ensures Database() == SetStatus(old(Database()), id, status, error)
    {
      if id !in runs { return; }
      var run := runs[id].(status := status);
      if error.Some? {
        run := run.(error := error);
      }
      runs := runs[id := run];
    }

    method RecordPr(id: Id, number: Option<nat>, skip: Option<string>)
      modifies this`runs
      ensures Database() == PrRecorded(old(Database()), id, number, skip)
    {
      if id !in runs { return; }
      runs := runs[id := runs[id].(prOpened := number.Some?, prNumber := number, prSkip := skip)];
    }

    method RecordLlmResponse(id: Id)
      modifies this`runs
      ensures id !in old(runs) ==> runs == old(runs)
      ensures id in old(runs) ==> runs == old(runs)[id := old(runs)[id].(llm := true)]
    {
      if id !in runs { return; }
      runs := runs[id := runs[id].(llm := true)];
    }

    method RecordNotification(id: Id, notified: bool)
      modifies this`runs
      ensures Database() == NotificationRecorded(old(Database()), id, notified)
    {
      if id !in runs { return; }
      runs := runs[id := runs[id].(notified := notified)];
    }

    method UpdatePrStatus(id: Id, status: string)
      modifies this`runs
      ensures id !in old(runs) ==> runs == old(runs)
      ensures id in old(runs) ==> runs == old(runs)[id := old(runs)[id].WithPrStatus(status, now)]
    {
      if id !in runs { return; }
      var run := runs[id].(prStatus := Some(status));
      if status == "merged" && run.mergedAt.None? {
        run := run.(mergedAt := Some(now));
      }
      runs := runs[id := run];
    }

    method DeleteRunsOlderThan(days: int) returns (deleted: int)
      modifies this`runs
      ensures Database() == DeleteOlder(old(Database()), now - days * DAY)
      ensures deleted == |old(runs)| - |runs|
    {
      var cutoff := now - days * DAY;
      deleted := |runs|;
      runs := map id | id in runs && cutoff <= runs[id].createdAt :: runs[id];
      deleted := deleted - |runs|;
    }

    method SetSetting(key: string, value: string)
      modifies this`settings
      ensures Database() == R.SetSetting(old(Database()), key, value)
    {
      settings := settings[key := value];
    }

    /** `get_processing_mode`: anything but the two known values reads as autopilot. */
    method GetProcessingMode() returns (manual: bool)
      ensures manual == ManualMode(Database())
    {
      manual := PROCESSING_MODE in settings && settings[PROCESSING_MODE] == "manual";
    }

    /** `set_processing_mode`: any other mode is refused and nothing is written. */
    method SetProcessingMode(mode: string) returns (ok: bool)
      modifies this`settings
      ensures ok <==> mode == "autopilot" || mode == "manual"
      ensures Database() == if ok then R.SetSetting(old(Database()), PROCESSING_MODE, mode) else old(Database())
      ensures ok ==> (ManualMode(Database()) <==> mode == "manual")
    {
      ok := mode == "autopilot" || mode == "manual";
      if ok {
        SetSetting(PROCESSING_MODE, mode);
      }
    }

    // ----- What the others do

    method Insert(id: Id, key: string, manual: bool, launch: Launch)
      requires Valid() && id !in past.born
      modifies this`runs, this`inbox, this`past
      ensures State() == W.Insert(old(State()), id, key, manual, launch)
    {
      FreshRow(State(), id);
      CreateRun(id, key, manual);
      inbox := inbox[id := launch];
      past := past.(born := past.born[id := Birth(key, now)], statuses := past.statuses[id := [Pending]]);
    }

    method Park(id: Id)
      requires id in inbox
      modifies this`runs, this`inbox, this`past
      ensures State() == DoPark(old(State()), id)
    {
      var before := Database();
      UpdateStatus(id, Queued, Some("processing_mode=manual"));
      inbox := inbox - {id};
      past := past.(statuses := Noted(past.statuses, id, before, Database()));
    }

    method Spawn(id: Id, env: Env)
      requires id in inbox && inbox[id].ToSpawn?
      modifies this`tasks, this`inbox
      ensures State() == DoSpawn(old(State()), id, env)
    {
      tasks := tasks[id := NewTask(inbox[id].key, inbox[id].enforceBreaker, env)];
      inbox := inbox - {id};
    }

    /** The first session of `trigger_dispatch` has seen the row queued. */
    method Approve(id: Id)
      requires id in runs
      modifies this`inbox
      ensures State() == DoApprove(old(State()), id)
    {
      inbox := inbox[id := ToDispatch(runs[id].key)];
    }

    /** The second session of `trigger_dispatch`, and the pipeline it starts. */
    method Redispatch(id: Id, env: Env)
      requires id in inbox && inbox[id].ToDispatch?
      modifies this`runs, this`tasks, this`inbox, this`past
      ensures State() == DoDispatch(old(State()), id, env)
    {
      var before := Database();
      UpdateStatus(id, Pending, None);
      tasks := tasks[id := NewTask(inbox[id].key, false, env)];
      inbox := inbox - {id};
      past := past.(statuses := Noted(past.statuses, id, before, Database()));
    }

    /** What a session of run `id`, begun in `before`, leaves behind besides the tables. */
    method Settle(before: World, id: Id, next: Task)
      requires id in tasks && State() == before.(db := Database())
      requires Block(cfg, before.db, before.now, before.nextPull, id, before.tasks[id]) == After(Database(), next)
      modifies this`tasks, this`pulls, this`nextPull, this`past
      ensures State() == DoStep(cfg, before, id)
      ensures tasks == if next.pc == Ended then before.tasks - {id} else before.tasks[id := next]
    {
      hide Block, PastAfter;
      var t := tasks[id];
      past := PastAfter(before, id, After(Database(), next));
      tasks := if next.pc == Ended then tasks - {id} else tasks[id := next];
      if t.pc == OpenPr && next.pc == SavePr {
        pulls := pulls[nextPull := Pull(t.key, id, true)];
        nextPull := nextPull + 1;
      }
    }

    /** A session of somebody else's pipeline. */
    method StepOther(id: Id)
      requires id in tasks
      modifies this`runs, this`settings, this`tasks, this`pulls, this`nextPull, this`past
      ensures State() == DoStep(cfg, old(State()), id)
    {
      var before := State();
      var a := Block(cfg, before.db, now, nextPull, id, tasks[id]);
      runs, settings := a.db.runs, a.db.settings;
      hide Block;
      Settle(before, id, a.task);
    }

    /** One row of a poll tick, once GitHub has answered. */
    method PollRow(id: Id, status: string)
      requires id in runs
      modifies this`runs
      ensures State() == DoPoll(old(State()), id, status)
    {
      var run := runs[id];
      var had := if run.prStatus.Some? && run.prStatus.value != "" then run.prStatus.value else "open";
      if status != had {
        UpdatePrStatus(id, status);
      }
    }

    /** `_read_retention_days`. */
    method ReadRetentionDays() returns (days: int)
      ensures days == Retention(cfg, Database())
    {
      days := cfg.retentionDays;
      if RETENTION_DAYS in settings && cfg.parseInt(settings[RETENTION_DAYS]).Some? {
        days := cfg.parseInt(settings[RETENTION_DAYS]).value;
      }
    }

    method Perform(a: Action)
      requires Valid() && Enabled(State(), a)
      modifies this`runs, this`settings, this`now, this`tasks, this`inbox, this`pulls, this`nextPull, this`past
      ensures State() == Do(cfg, old(State()), a)
    {
      hide Block, DoStep, DoPoll, DeleteOlder, DoPark, DoSpawn, DoApprove, DoDispatch, W.Insert;
      match a
      case Tick(elapsed) => now := now + elapsed;
      case Receive(id, key, park) => Insert(id, key, false, if park then ToPark else ToSpawn(key, true));
      case Submit(id, key) => Insert(id, key, true, ToSpawn(key, false));
      case Park(id) => Park(id);
      case Spawn(id, env) => Spawn(id, env);
      case Approve(id) => Approve(id);
      case Dispatch(id, env) => Redispatch(id, env);
      case Step(id) => StepOther(id);
      case Close(number) => pulls := pulls[number := pulls[number].(open := false)];
      case Poll(id, status) => PollRow(id, status);
      case Prune(days) => var _ := DeleteRunsOlderThan(days);
      case Put(setting, value) => SetSetting(setting, value);
      case Crash => tasks, inbox := map[], map[];
    }

    /** A coroutine that owns the runs in `mine` is suspended, and others take their
        turn. It does not resume after a crash. */
    method Await(mine: set<Id>)
      requires Valid()
      modifies this
      ensures Valid() && Reaches(cfg, old(State()), State())
      ensures forall id | id in mine :: Kept(old(State()), State(), id)
      ensures NoPolls(old(schedule)) ==> NoPolls(schedule) && ListingsKept(old(State()), State())
      ensures old(schedule) == [] ==> State() == old(State()) && schedule == []
    {
      hide Lifecycle.Inv, Reaches, Do, Enabled, Kept, ListingsKept;
      ReachesItself(cfg, State());
      KeptByNothing(State());
      ListingsStay(State());
      if schedule == [] { return; }
      var actions := schedule[0];
      schedule := schedule[1..];
      for i := 0 to |actions|
        invariant Valid() && Reaches(cfg, old(State()), State())
        invariant forall id | id in mine :: Kept(old(State()), State(), id)
        invariant NoPolls(old(schedule)) ==> NoPolls(schedule) && NoPoll(actions) && ListingsKept(old(State()), State())
      {
        var a := actions[i];
        if Enabled(State(), a) && !Touches(a, mine) && !a.Crash? {
          ghost var before := State();
          OthersKeep(cfg, old(State()), before, a, mine);
          if NoPolls(old(schedule)) {
            ListingsAfter(cfg, before, a);
            ListingsOn(old(State()), before, Do(cfg, before, a));
          }
          Lifecycle.DoInv(cfg, before, a);
          Perform(a);
          ReachesByOne(cfg, before, a);
          ReachesOn(cfg, old(State()), before, State());
        }
      }
    }
  }

  /** The action is one that only the owner of the run takes. */
  predicate Touches(a: Action, mine: set<Id>) {
    match a
    case Receive(id, _, _) => id in mine
    case Submit(id, _) => id in mine
    case Park(id) => id in mine
    case Spawn(id, _) => id in mine
    case Approve(id) => id in mine
    case Dispatch(id, _) => id in mine
    case Step(id) => id in mine
    case _ => false
  }

  /** The run's pipeline and its handler are where they were, and a number that was
      not in use is still free. */
  ghost predicate Kept(before: World, after: World, id: Id) {
    && (id in before.tasks ==> id in after.tasks && after.tasks[id] == before.tasks[id])
    && (id in before.inbox ==> id in after.inbox && after.inbox[id] == before.inbox[id])
    && (id !in before.past.born ==> id !in after.past.born)
  }

  lemma {:induction false} KeptByNothing(w: World)
    ensures forall id :: Kept(w, w, id)
  {
  }

  lemma {:induction false} OthersKeep(cfg: Config, start: World, w: World, a: Action, mine: set<Id>)
    requires Lifecycle.Inv(w) && Enabled(w, a) && !Touches(a, mine) && !a.Crash?
    requires forall id | id in mine :: Kept(start, w, id)
    ensures forall id | id in mine :: Kept(start, Do(cfg, w, a), id)
  {
    forall id | id in mine ensures Kept(start, Do(cfg, w, a), id) {
      OneKept(cfg, w, a, id, mine);
    }
    hide Do, Enabled, Touches;
  }

  lemma {:induction false} OneKept(cfg: Config, w: World, a: Action, id: Id, mine: set<Id>)
    requires Lifecycle.Inv(w) && Enabled(w, a) && !Touches(a, mine) && !a.Crash? && id in mine
    ensures Kept(w, Do(cfg, w, a), id)
  {
    if id in w.tasks {
      assert Lifecycle.Ok(Lifecycle.ViewOf(w, id));
      Lifecycle.NotWaiting(Lifecycle.ViewOf(w, id));
    }
    hide Lifecycle.Inv, Lifecycle.Ok, Block, PastAfter, Pruned, Noted;
  }

  /** An id that has never been given to a run has no row. */
  lemma {:induction false} FreshRow(w: World, id: Id)
    requires Lifecycle.Inv(w) && id !in w.past.born
    ensures id !in w.db.runs
  {
    if id in w.db.runs {
      Lifecycle.RowFacts(w, id);
    }
    hide Lifecycle.Inv;
  }

  predicate NoPoll(actions: seq<Action>) {
    forall i | 0 <= i < |actions| :: !actions[i].Poll?
  }

  /** Nobody else polls. */
  predicate NoPolls(schedule: seq<seq<Action>>) {
    forall i | 0 <= i < |schedule| :: NoPoll(schedule[i])
  }

  /** The row that was loaded as `listed` is gone, or has the pull request and the
      status it had then. */
  predicate Listed(listed: Run, w: World, id: Id) {
    && listed.ListedAsOpen() && id in w.past.born
    && (id in w.db.runs ==>
        var run := w.db.runs[id];
        && run.prOpened && run.prNumber == listed.prNumber
        && run.prStatus == listed.prStatus && run.mergedAt == listed.mergedAt)
  }

  predicate ClosedPull(w: World, number: nat) {
    number in w.pulls && !w.pulls[number].open
  }

  /** Listed rows keep what the poller looks at, and closed pull requests stay closed. */
  ghost predicate ListingsKept(before: World, after: World) {
    && (forall listed, id | Listed(listed, before, id) :: Listed(listed, after, id))
    && (forall number | ClosedPull(before, number) :: ClosedPull(after, number))
  }

  lemma {:induction false} ListingsStay(w: World)
    ensures ListingsKept(w, w)
  {
  }

  lemma {:induction false} ListingsOn(a: World, b: World, c: World)
    requires ListingsKept(a, b) && ListingsKept(b, c)
    ensures ListingsKept(a, c)
  {
    hide Listed, ClosedPull;
  }

  lemma {:induction false} StepListed(cfg: Config, w: World, id: Id, listed: Run, j: Id)
    requires Lifecycle.Inv(w) && id in w.tasks && Listed(listed, w, j)
    ensures Listed(listed, DoStep(cfg, w, id), j)
  {
    var t := w.tasks[id];
    BlockIsLocal(cfg, w.db, w.now, w.nextPull, id, t);
    Lifecycle.BlockRow(cfg, w.db, w.now, w.nextPull, id, t);
    if id == j && id in w.db.runs {
      Lifecycle.TaskFacts(w, id);
      OnePull.RecordedStays(w.db.runs[id], t);
      Lifecycle.StatusStays(w.db.runs[id], t);
      Lifecycle.MergeStays(w.db.runs[id], t);
    }
    hide Block, RowAfter, EndedUnproductive, Noted, Lifecycle.Inv, Lifecycle.RowOk, Lifecycle.TaskRow;
  }

  lemma {:induction false} OneListed(cfg: Config, w: World, a: Action, listed: Run, j: Id)
    requires Lifecycle.Inv(w) && Enabled(w, a) && !a.Poll? && Listed(listed, w, j)
    ensures Listed(listed, Do(cfg, w, a), j)
  {
    if a.Step? {
      StepListed(cfg, w, a.id, listed, j);
    }
    hide Lifecycle.Inv, DoStep;
  }

  lemma {:induction false} OneClosed(cfg: Config, w: World, a: Action, number: nat)
    requires Lifecycle.Inv(w) && Enabled(w, a) && ClosedPull(w, number)
    ensures ClosedPull(Do(cfg, w, a), number)
  {
    assert number < w.nextPull;
    hide Block, PastAfter, Pruned, Noted, Lifecycle.Ok, Lifecycle.ViewOf;
  }

  lemma {:induction false} ListingsAfter(cfg: Config, w: World, a: Action)
    requires Lifecycle.Inv(w) && Enabled(w, a) && !a.Poll?
    ensures ListingsKept(w, Do(cfg, w, a))
  {
    hide Do, Enabled, Listed, ClosedPull, Lifecycle.Inv;
    forall listed, id | Listed(listed, w, id) ensures Listed(listed, Do(cfg, w, a), id) {
      OneListed(cfg, w, a, listed, id);
    }
    forall number | ClosedPull(w, number) ensures ClosedPull(Do(cfg, w, a), number) {
      OneClosed(cfg, w, a, number);
    }
  }
}
