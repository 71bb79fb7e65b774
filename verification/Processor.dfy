/**
 `process_alert` as a program over the agent's tables. Between two sessions the
 coroutine is suspended and anything can happen; every session it commits is the
 step the transition system allows it at that point.
 */
module Processor {
  import opened Results
  import opened Repository
  import opened Pipeline
  import opened World
  import opened Reachability
  import opened Agent
  import Lifecycle
  import Outcomes
  import Paths

  /** The pipeline keeps what it was started with. */
  predicate Same(t: Task, s: Task) {
    t.key == s.key && t.env == s.env && t.enforceBreaker == s.enforceBreaker && t.enforceBackoff == s.enforceBackoff
  }

  /** The row, if it is there, has a final status or waits to be dispatched. */
  ghost predicate Settles(runs: map<Id, Run>, id: Id) {
    id in runs ==> Lifecycle.Settled(runs[id].status)
  }

  /** The world a pipeline was started in, and whether it then has it for itself. */
  datatype Origin = Origin(world: World, alone: bool)

  /** World `w` has been reached from the origin, and a pipeline that was alone since
      is still on its way to where it was heading. */
  ghost predicate Along(cfg: Config, start: Origin, w: World, id: Id) {
    Reaches(cfg, start.world, w) && (start.alone ==> Outcomes.Ahead(cfg, w, id) == Outcomes.Ahead(cfg, start.world, id))
  }

  /** The pipeline of run `id`, started as `t` in world `start`, is about to run the
      session at `pc`; at `Ended` it is over, and its row is settled unless even
      writing `failed` raises. */
  ghost predicate At(a: Agent, start: Origin, id: Id, t: Task, pc: Pc)
    reads a
  {
    && a.Valid() && Along(a.cfg, start, a.State(), id) && (start.alone ==> a.schedule == [])
    && if pc == Ended then id !in a.tasks && (Fail !in t.env.raises ==> Settles(a.runs, id))
       else id in a.tasks && a.tasks[id].pc == pc && Same(a.tasks[id], t)
  }

  /** What happens in the next session depends on nothing but what the pipeline was
      started with. */
  ghost predicate Goes(t: Task, pc: Pc, next: Pc) {
    forall cfg, db, now, id, s: Task | s.pc == pc && Same(s, t) :: Next(cfg, db, now, id, s) == next
  }

  // ----- One session

  lemma {:induction false} StepReaches(cfg: Config, start: Origin, before: World, id: Id)
    requires Lifecycle.Inv(before) && Along(cfg, start, before, id) && id in before.tasks && before.tasks[id].pc != Ended
    ensures Lifecycle.Inv(DoStep(cfg, before, id)) && Along(cfg, start, DoStep(cfg, before, id), id)
  {
    assert Do(cfg, before, Step(id)) == DoStep(cfg, before, id);
    hide Lifecycle.Inv, Reaches, DoStep, Outcomes.Ahead;
    Lifecycle.DoInv(cfg, before, Step(id));
    ReachesByOne(cfg, before, Step(id));
    ReachesOn(cfg, start.world, before, DoStep(cfg, before, id));
    Outcomes.AheadUnfold(cfg, before, id);
  }

  lemma {:induction false} EndSettles(cfg: Config, before: World, id: Id)
    requires Lifecycle.Inv(before) && id in before.tasks && Fail !in before.tasks[id].env.raises
    ensures id !in DoStep(cfg, before, id).tasks ==> Settles(DoStep(cfg, before, id).db.runs, id)
  {
    assert Lifecycle.Ok(Lifecycle.ViewOf(before, id));
    Lifecycle.NotWaiting(Lifecycle.ViewOf(before, id));
    assert DoStep(cfg, before, id).inbox == before.inbox;
    hide Lifecycle.Inv, Lifecycle.Ok, DoStep, Lifecycle.Settled;
    Lifecycle.DoPlaced(cfg, before, Step(id), id);
  }

  /** The session ends, its changes committed, and the pipeline goes on at `next`. */
  method Leave(a: Agent, before: World, id: Id, next: Task, t: Task, ghost start: Origin)
    requires Lifecycle.Inv(before) && Along(a.cfg, start, before, id)
    requires id in a.tasks && a.State() == before.(db := a.Database()) && Same(next, t) && (start.alone ==> a.schedule == [])
    requires a.tasks[id].pc != Ended
    requires Same(a.tasks[id], t)
    requires Block(a.cfg, before.db, before.now, before.nextPull, id, before.tasks[id]) == After(a.Database(), next)
    modifies a`tasks, a`pulls, a`nextPull, a`past
    ensures At(a, start, id, t, next.pc)
  {
    hide Block, DoStep, Lifecycle.Inv, Along;
    assert id in before.tasks;
    StepReaches(a.cfg, start, before, id);
    if Fail !in before.tasks[id].env.raises {
      EndSettles(a.cfg, before, id);
    }
    a.Settle(before, id, next);
  }

  lemma {:induction false} AlongOn(cfg: Config, start: Origin, before: World, after: World, id: Id)
    requires Along(cfg, start, before, id) && Reaches(cfg, before, after) && (start.alone ==> after == before)
    ensures Along(cfg, start, after, id)
  {
    hide Reaches, Outcomes.Ahead;
    ReachesOn(cfg, start.world, before, after);
  }

  /** The session at `pc` has begun in world `before`, and has written nothing yet. */
  ghost predicate Inside(a: Agent, before: World, start: Origin, id: Id, t: Task, pc: Pc)
    reads a
  {
    && a.State() == before && Lifecycle.Inv(before) && Along(a.cfg, start, before, id)
    && (start.alone ==> a.schedule == [])
    && id in a.tasks && a.tasks[id].pc == pc && Same(a.tasks[id], t)
  }

  /** The others have their turn. */
  method Resume(a: Agent, id: Id, pc: Pc, t: Task, ghost start: Origin) returns (before: World, raises: bool)
    requires pc != Ended && At(a, start, id, t, pc)
    modifies a
    ensures Inside(a, before, start, id, t, pc)
    ensures id in old(a.tasks) && a.tasks[id] == old(a.tasks[id])
    ensures raises == (pc in t.env.raises)
  {
    hide Lifecycle.Inv, Along;
    ghost var first := a.State();
    a.Await({id});
    assert Kept(first, a.State(), id);
    AlongOn(a.cfg, start, first, a.State(), id);
    before := a.State();
    raises := a.tasks[id].pc in a.tasks[id].env.raises;
  }

  lemma {:induction false} BlockRaises(cfg: Config, w: World, id: Id, t: Task)
    requires t.pc in t.env.raises
    ensures Block(cfg, w.db, w.now, w.nextPull, id, t) == After(w.db, t.(pc := OnRaise(t.pc)))
  {
    hide Next, Commit, Window, OnRaise;
  }

  /** The session raises before it commits anything. */
  method Raise(a: Agent, before: World, id: Id, pc: Pc, t: Task, ghost start: Origin)
    requires Inside(a, before, start, id, t, pc) && pc in t.env.raises && pc != Ended
    modifies a`tasks, a`pulls, a`nextPull, a`past
    ensures At(a, start, id, t, OnRaise(pc))
  {
    BlockRaises(a.cfg, before, id, a.tasks[id]);
    hide Block, Lifecycle.Inv, Along, OnRaise, At;
    Leave(a, before, id, a.tasks[id].(pc := OnRaise(a.tasks[id].pc)), t, start);
  }

  /** The session at `pc` begins, after the others have had their turn, unless it raises
      before it commits anything. */
  method Enter(a: Agent, id: Id, pc: Pc, t: Task, ghost start: Origin) returns (before: World, raises: bool)
    requires pc != Ended && At(a, start, id, t, pc)
    modifies a
    ensures raises == (pc in t.env.raises)
    ensures raises ==> At(a, start, id, t, OnRaise(pc))
    ensures !raises ==> Inside(a, before, start, id, t, pc)
    ensures !raises ==> id in old(a.tasks) && id in a.tasks && a.tasks[id] == old(a.tasks[id])
  {
    hide At, OnRaise, Lifecycle.Inv, Along;
    before, raises := Resume(a, id, pc, t, start);
    if raises {
      Raise(a, before, id, pc, t, start);
    }
  }

  lemma {:induction false} GoesOn(s: Task, t: Task, pc: Pc, next: Pc)
    requires Goes(t, pc, next) && Same(s, t)
    ensures Goes(s, pc, next)
  {
    hide Next;
  }

  // ----- Sessions that write a status

  lemma {:induction false} BlockWrites(cfg: Config, w: World, id: Id, t: Task, status: Status, next: Pc)
    requires t.pc !in t.env.raises && StatusWritten(t.pc) == Some(status) && Goes(t, t.pc, next)
    ensures Block(cfg, w.db, w.now, w.nextPull, id, t)
      == After(SetStatus(w.db, id, status, Message(t.pc)), t.(pc := next))
  {
    assert t.pc != TripMode && t.pc != DedupGate && t.pc != OpenPr;
    assert Next(cfg, w.db, w.now, id, t) == next;
    hide Next, Window, StatusWritten, Message;
  }

  method WriteStatus(a: Agent, id: Id, pc: Pc, status: Status, error: Option<string>, next: Pc, t: Task, ghost start: Origin)
    returns (ok: bool)
    requires pc != Ended && At(a, start, id, t, pc)
    requires StatusWritten(pc) == Some(status) && Message(pc) == error && Goes(t, pc, next)
    modifies a
    ensures ok == (pc !in t.env.raises)
    ensures At(a, start, id, t, if ok then next else OnRaise(pc))
  {
    hide At, Next, Goes, StatusWritten, Message, OnRaise, Lifecycle.Inv, Along, Block, SetStatus;
    var before, raises := Enter(a, id, pc, t, start);
    if raises { return false; }
    a.UpdateStatus(id, status, error);
    GoesOn(a.tasks[id], t, pc, next);
    BlockWrites(a.cfg, before, id, a.tasks[id], status, next);
    Leave(a, before, id, a.tasks[id].(pc := next), t, start);
    return true;
  }

  // ----- Sessions that write other columns

  /** A session that writes no status and no setting. */
  predicate Records(pc: Pc) {
    StatusWritten(pc).None? && pc != TripMode && pc != DedupGate && pc != OpenPr
  }

  /** Where the sessions after a model result lead. */
  predicate LeadsTo(pc: Pc, next: Pc) {
    match pc
    case SaveLlm => next == Post
    case SavePr => next == Notify
    case SaveSkip => next == Notify
    case SaveApplyError => next == ApplyFailed
    case Notify => next == Finish
    case _ => false
  }

  lemma {:induction false} Onward(cfg: Config, w: World, id: Id, t: Task)
    ensures forall next | LeadsTo(t.pc, next) :: Next(cfg, w.db, w.now, id, t) == next
  {
    hide HasBlockingPr, HasRecentUnproductive, WithinGrace, CeilingReached, Backoff, Grace, Window;
  }

  lemma {:induction false} BlockRecords(cfg: Config, w: World, id: Id, t: Task, runs: map<Id, Run>, next: Pc)
    requires t.pc !in t.env.raises && Records(t.pc) && LeadsTo(t.pc, next)
    requires if id in w.db.runs then runs == w.db.runs[id := Record(w.db.runs[id], t)] else runs == w.db.runs
    ensures Block(cfg, w.db, w.now, w.nextPull, id, t) == After(Db(runs, w.db.settings), t.(pc := next))
  {
    Onward(cfg, w, id, t);
    hide Next, Window, StatusWritten, Message, Record;
  }

  /** A session that only reads, or writes columns that no property speaks of. */
  method ReadOnly(a: Agent, id: Id, pc: Pc, next: Pc, t: Task, ghost start: Origin) returns (ok: bool)
    requires pc.ReadSettings? || pc.SaveTriage? || pc.SaveContext? || pc.SaveInvestigation?
    requires At(a, start, id, t, pc) && Goes(t, pc, next)
    modifies a
    ensures At(a, start, id, t, if ok then next else Fail)
  {
    assert OnRaise(pc) == Fail;
    hide At, Next, Goes, OnRaise, Lifecycle.Inv, Along, Block;
    var before, raises := Enter(a, id, pc, t, start);
    if raises { return false; }
    GoesOn(a.tasks[id], t, pc, next);
    BlockPasses(a.cfg, before, id, a.tasks[id], next);
    Leave(a, before, id, a.tasks[id].(pc := next), t, start);
    return true;
  }

  lemma {:induction false} BlockPasses(cfg: Config, w: World, id: Id, t: Task, next: Pc)
    requires t.pc.ReadSettings? || t.pc.SaveTriage? || t.pc.SaveContext? || t.pc.SaveInvestigation?
    requires t.pc !in t.env.raises && Goes(t, t.pc, next)
    ensures Block(cfg, w.db, w.now, w.nextPull, id, t) == After(w.db, t.(pc := next))
  {
    assert Next(cfg, w.db, w.now, id, t) == next;
    hide Next, Window, Message;
    if id in w.db.runs {
      assert w.db.runs[id := w.db.runs[id]] == w.db.runs;
    }
  }

  lemma {:induction false} BlockSavesLlm(cfg: Config, w: World, id: Id, t: Task, runs: map<Id, Run>)
    requires t.pc == SaveLlm && SaveLlm !in t.env.raises
    requires if id in w.db.runs then runs == w.db.runs[id := w.db.runs[id].(llm := true)] else runs == w.db.runs
    ensures Block(cfg, w.db, w.now, w.nextPull, id, t) == After(Db(runs, w.db.settings), t.(pc := Post))
  {
    hide Next, Window, Block;
    BlockRecords(cfg, w, id, t, runs, Post);
  }

  lemma {:induction false} BlockNotifies(cfg: Config, w: World, id: Id, t: Task)
    requires t.pc == Notify && Notify !in t.env.raises
    ensures Block(cfg, w.db, w.now, w.nextPull, id, t)
      == After(NotificationRecorded(w.db, id, t.env.notified), t.(pc := Finish))
  {
    hide Next, Window, Block;
    BlockRecords(cfg, w, id, t, NotificationRecorded(w.db, id, t.env.notified).runs, Finish);
  }

  /** `record_llm_response`. */
  method SaveLlmResponse(a: Agent, id: Id, t: Task, ghost start: Origin) returns (ok: bool)
    requires At(a, start, id, t, SaveLlm)
    modifies a
    ensures At(a, start, id, t, if ok then Post else Fail)
  {
    assert OnRaise(SaveLlm) == Fail;
    hide At, Lifecycle.Inv, Along, Block, Next, OnRaise;
    var before, raises := Enter(a, id, SaveLlm, t, start);
    if raises { return false; }
    var run := a.tasks[id];
    a.RecordLlmResponse(id);
    BlockSavesLlm(a.cfg, before, id, run, a.runs);
    Leave(a, before, id, run.(pc := Post), t, start);
    return true;
  }

  /** What the run records about its pull request, and where it goes on. */
  predicate SavesPr(pc: Pc, number: Option<nat>, skip: Option<string>, next: Pc) {
    match pc
    case SavePr => number.Some? && skip == None && next == Notify
    case SaveSkip => number == None && skip == Some("no pull request") && next == Notify
    case SaveApplyError => number == None && skip == Some("patch verification failed") && next == ApplyFailed
    case _ => false
  }

  lemma {:induction false} BlockSavesPr(cfg: Config, w: World, id: Id, t: Task, number: Option<nat>, skip: Option<string>, next: Pc)
    requires t.pc !in t.env.raises && SavesPr(t.pc, number, skip, next)
    requires t.pc == SavePr ==> number == Some(t.pr)
    ensures Block(cfg, w.db, w.now, w.nextPull, id, t) == After(PrRecorded(w.db, id, number, skip), t.(pc := next))
  {
    hide Next, Window, Block;
    BlockRecords(cfg, w, id, t, PrRecorded(w.db, id, number, skip).runs, next);
  }

  /** `record_pr` with the number of the pull request, or with the reason for none. */
  method SavePullRequest(a: Agent, id: Id, pc: Pc, number: Option<nat>, skip: Option<string>, next: Pc, t: Task, ghost start: Origin)
    returns (ok: bool)
    requires At(a, start, id, t, pc)
    requires SavesPr(pc, number, skip, next)
    requires pc == SavePr ==> id in a.tasks && number == Some(a.tasks[id].pr)
    modifies a
    ensures At(a, start, id, t, if ok then next else OnRaise(pc))
  {
    assert pc != Ended;
    hide At, Lifecycle.Inv, Along, Block, Next, OnRaise, SavesPr, PrRecorded;
    var before, raises := Enter(a, id, pc, t, start);
    if raises { return false; }
    var run := a.tasks[id];
    a.RecordPr(id, number, skip);
    BlockSavesPr(a.cfg, before, id, run, number, skip, next);
    Leave(a, before, id, run.(pc := next), t, start);
    return true;
  }

  /** The notifier is called, and whether it succeeded is recorded. */
  method PostNotification(a: Agent, id: Id, t: Task, ghost start: Origin) returns (ok: bool)
    requires At(a, start, id, t, Notify)
    modifies a
    ensures At(a, start, id, t, if ok then Finish else Fail)
  {
    assert OnRaise(Notify) == Fail;
    hide At, Lifecycle.Inv, Along, Block, Next, OnRaise, NotificationRecorded;
    var before, raises := Enter(a, id, Notify, t, start);
    if raises { return false; }
    var run := a.tasks[id];
    a.RecordNotification(id, run.env.notified);
    BlockNotifies(a.cfg, before, id, run);
    Leave(a, before, id, run.(pc := Finish), t, start);
    return true;
  }

  // ----- The breaker

  /** `set_processing_mode` on a trip. */
  method TripToManual(a: Agent, id: Id, t: Task, ghost start: Origin) returns (ok: bool)
    requires At(a, start, id, t, TripMode)
    modifies a
    ensures At(a, start, id, t, if ok then TripQueue else Fail)
  {
    hide At, Lifecycle.Inv, Along, Block;
    var before, raises := Enter(a, id, TripMode, t, start);
    if raises { return false; }
    var known := a.SetProcessingMode("manual");
    BlockTrips(a.cfg, before, id, a.tasks[id]);
    Leave(a, before, id, a.tasks[id].(pc := TripQueue), t, start);
    return true;
  }

  lemma {:induction false} BlockTrips(cfg: Config, w: World, id: Id, t: Task)
    requires t.pc == TripMode && TripMode !in t.env.raises
    ensures Block(cfg, w.db, w.now, w.nextPull, id, t)
      == After(Repository.SetSetting(w.db, PROCESSING_MODE, "manual"), t.(pc := TripQueue))
  {
  }

  /** `_resolve_runs_ceiling`. */
  method ResolveRunsCeiling(a: Agent) returns (ceiling: int)
    ensures ceiling == RunsCeiling(a.cfg, a.Database())
  {
    if RUNS_PER_HOUR in a.settings {
      var raw := a.settings[RUNS_PER_HOUR];
      if Paths.Strip(raw) != "" && a.cfg.parseInt(raw).Some? {
        return a.cfg.parseInt(raw).value;
      }
    }
    return a.cfg.maxRunsPerHour;
  }

  /** `check_cost_breaker`: an error in it counts as not tripped. */
  method CheckCostBreaker(a: Agent, id: Id, t: Task, ghost start: Origin) returns (tripped: bool)
    requires At(a, start, id, t, Breaker)
    modifies a
    ensures At(a, start, id, t, if tripped then TripMode else DedupGate)
  {
    hide At, Lifecycle.Inv, Along, Block, CeilingReached;
    var before, raises := Enter(a, id, Breaker, t, start);
    if raises { return false; }
    var ceiling := ResolveRunsCeiling(a);
    tripped := false;
    if ceiling > 0 {
      var count := |set j | j in a.runs && a.now - HOUR <= a.runs[j].createdAt|;
      assert (set j | j in a.runs && a.now - HOUR <= a.runs[j].createdAt) == Since(before.db, before.now - HOUR);
      tripped := count >= ceiling;
    }
    assert tripped == CeilingReached(a.cfg, before.db, before.now) by {
      Ceiling(a.cfg, before.db, before.now);
    }
    tripped := tripped || a.tasks[id].env.overBudget;
    BlockChecks(a.cfg, before, id, a.tasks[id]);
    Leave(a, before, id, a.tasks[id].(pc := if tripped then TripMode else DedupGate), t, start);
  }

  lemma {:induction false} Ceiling(cfg: Config, db: Db, now: Time)
    ensures CeilingReached(cfg, db, now) <==> RunsCeiling(cfg, db) > 0 && |Since(db, now - HOUR)| >= RunsCeiling(cfg, db)
  {
    hide RunsCeiling;
  }

  lemma {:induction false} BlockChecks(cfg: Config, w: World, id: Id, t: Task)
    requires t.pc == Breaker && Breaker !in t.env.raises
    ensures Block(cfg, w.db, w.now, w.nextPull, id, t) == After(w.db, t.(
      pc := if CeilingReached(cfg, w.db, w.now) || t.env.overBudget then TripMode else DedupGate))
  {
    BlockReads(cfg, w, id, t);
    hide CeilingReached;
  }

  /** A session that writes nothing leaves the tables as they are. */
  lemma {:induction false} BlockReads(cfg: Config, w: World, id: Id, t: Task)
    requires t.pc == Breaker || t.pc == DedupGate || t.pc == BackoffGate || t.pc == GraceGate || t.pc == OpenPr
    ensures Commit(w.db, id, t) == w.db
  {
    if id in w.db.runs {
      assert w.db.runs[id := w.db.runs[id]] == w.db.runs;
    }
  }

  // ----- The gates

  /** What the pipeline does with the backoff setting it has read. */
  function AfterNoBlocker(t: Task, minutes: Option<int>): Pc {
    match minutes
    case None => Fail
    case Some(m) => if t.enforceBackoff && m > 0 then BackoffGate else GraceGate
  }

  lemma {:induction false} BlockDedups(cfg: Config, w: World, id: Id, t: Task)
    requires t.pc == DedupGate && DedupGate !in t.env.raises
    ensures Block(cfg, w.db, w.now, w.nextPull, id, t) == After(w.db, t.(
      window := Window(cfg, w.db),
      pc := if HasBlockingPr(w.db, t.key, id) then Skip else AfterNoBlocker(t, Backoff(cfg, w.db))))
  {
    BlockReads(cfg, w, id, t);
    hide HasBlockingPr, Backoff, Window;
  }

  /** `int(setting) if setting else default`. */
  method ReadInt(a: Agent, setting: string, default: int) returns (value: Option<int>)
    ensures value == IntOr(a.cfg, GetSetting(a.Database(), setting), default)
  {
    if setting in a.settings && a.settings[setting] != "" {
      return a.cfg.parseInt(a.settings[setting]);
    }
    return Some(default);
  }

  /** `find_blocking_open_pr_run` and the backoff setting, in one session. */
  method LookForOpenPr(a: Agent, id: Id, t: Task, ghost start: Origin)
    returns (ok: bool, blocked: bool, minutes: Option<int>)
    requires At(a, start, id, t, DedupGate)
    modifies a
    ensures At(a, start, id, t, if !ok then Fail else if blocked then Skip else AfterNoBlocker(t, minutes))
  {
    hide At, Lifecycle.Inv, Along, Block, HasBlockingPr;
    var before, raises := Enter(a, id, DedupGate, t, start);
    if raises { return false, false, None; }
    var run := a.tasks[id];
    blocked := HasBlockingPr(a.Database(), run.key, id);
    minutes := ReadInt(a, BACKOFF_MINUTES, a.cfg.backoffMinutes);
    BlockDedups(a.cfg, before, id, run);
    var window := match minutes case Some(m) => m * MINUTE case None => 0;
    Leave(a, before, id, run.(window := window, pc := if blocked then Skip else AfterNoBlocker(run, minutes)), t, start);
    return true, blocked, minutes;
  }

  lemma {:induction false} BlockBacksOff(cfg: Config, w: World, id: Id, t: Task)
    requires t.pc == BackoffGate && BackoffGate !in t.env.raises
    ensures Block(cfg, w.db, w.now, w.nextPull, id, t) == After(w.db, t.(
      pc := if HasRecentUnproductive(w.db, t.key, w.now - t.window, id) then Skip else GraceGate))
  {
    BlockReads(cfg, w, id, t);
    hide HasRecentUnproductive;
  }

  /** `find_recent_unproductive_run`. */
  method LookForRecentRun(a: Agent, id: Id, t: Task, ghost start: Origin) returns (ok: bool, recent: bool)
    requires At(a, start, id, t, BackoffGate)
    modifies a
    ensures At(a, start, id, t, if !ok then Fail else if recent then Skip else GraceGate)
  {
    hide At, Lifecycle.Inv, Along, Block, HasRecentUnproductive;
    var before, raises := Enter(a, id, BackoffGate, t, start);
    if raises { return false, false; }
    var run := a.tasks[id];
    recent := HasRecentUnproductive(a.Database(), run.key, a.now - run.window, id);
    BlockBacksOff(a.cfg, before, id, run);
    Leave(a, before, id, run.(pc := if recent then Skip else GraceGate), t, start);
    return true, recent;
  }

  /** `find_previous_merged_attempt`: the most recently merged run of the key. */
  method FindPreviousMergedAttempt(a: Agent, key: string, exclude: Id) returns (found: Option<Id>)
    ensures found.Some? ==> MergedFor(a.Database(), found.value, key, exclude)
    ensures found.Some? ==> forall j | MergedFor(a.Database(), j, key, exclude) ::
      a.runs[j].mergedAt.value <= a.runs[found.value].mergedAt.value
    ensures found.None? ==> forall j :: !MergedFor(a.Database(), j, key, exclude)
  {
    var ids := set j | j in a.runs && MergedFor(a.Database(), j, key, exclude);
    ghost var all := ids;
    found := None;
    while ids != {}
      invariant ids <= all
      invariant found.Some? ==> found.value in all
      invariant found.None? ==> ids == all
      invariant found.Some? ==> forall j | j in all && j !in ids ::
        a.runs[j].mergedAt.value <= a.runs[found.value].mergedAt.value
      decreases |ids|
    {
      var j :| j in ids;
      ids := ids - {j};
      if found.None? || a.runs[found.value].mergedAt.value < a.runs[j].mergedAt.value {
        found := Some(j);
      }
    }
    assert forall j | MergedFor(a.Database(), j, key, exclude) :: j in all;
  }

  predicate MergedFor(db: Db, id: Id, key: string, exclude: Id) {
    id in db.runs && id != exclude && db.runs[id].key == key && db.runs[id].Merged()
  }

  lemma {:induction false} BlockGrace(cfg: Config, w: World, id: Id, t: Task)
    requires t.pc == GraceGate && GraceGate !in t.env.raises
    ensures Block(cfg, w.db, w.now, w.nextPull, id, t) == After(w.db, t.(
      pc := AfterGrace(cfg, w.db, w.now, id, t)))
  {
    BlockReads(cfg, w, id, t);
    hide AfterGrace;
  }

  /** Asking the most recent merge is asking all of them. */
  lemma {:induction false} GraceByFound(db: Db, key: string, id: Id, now: Time, grace: int, found: Option<Id>)
    requires found.Some? ==> MergedFor(db, found.value, key, id)
    requires found.Some? ==> forall j | MergedFor(db, j, key, id) ::
      db.runs[j].mergedAt.value <= db.runs[found.value].mergedAt.value
    requires found.None? ==> forall j :: !MergedFor(db, j, key, id)
    ensures WithinGrace(db, key, id, now, grace)
      <==> found.Some? && now < db.runs[found.value].mergedAt.value + grace
  {
    if found.Some? {
      GraceByLatest(db, key, id, now, grace, found.value);
    } else {
      assert forall j | j in db.runs && j != id :: db.runs[j].key == key && db.runs[j].Merged() ==> MergedFor(db, j, key, id);
    }
  }

  /** The grace setting, the last merge and `is_within_grace_window`, in one session. */
  method LookForRecentMerge(a: Agent, id: Id, t: Task, ghost start: Origin)
    returns (ok: bool, within: bool)
    requires At(a, start, id, t, GraceGate)
    modifies a
    ensures At(a, start, id, t, if !ok then Fail else if within then Skip else AfterGates(t.env))
  {
    hide At, Lifecycle.Inv, Along, Block, WithinGrace;
    var before, raises := Enter(a, id, GraceGate, t, start);
    if raises { return false, false; }
    var run := a.tasks[id];
    var previous := FindPreviousMergedAttempt(a, run.key, id);
    var minutes := ReadInt(a, GRACE_MINUTES, DEFAULT_GRACE_MINUTES);
    BlockGrace(a.cfg, before, id, run);
    if minutes.None? {
      Leave(a, before, id, run.(pc := Fail), t, start);
      return false, false;
    }
    GraceByFound(before.db, run.key, id, before.now, minutes.value * MINUTE, previous);
    within := previous.Some? && a.now < a.runs[previous.value].mergedAt.value + minutes.value * MINUTE;
    Leave(a, before, id, run.(pc := if within then Skip else AfterGates(run.env)), t, start);
    return true, within;
  }

  // ----- Opening the pull request

  datatype Opening = Opened(number: nat) | NotApplicable | OpeningFailed

  function AfterOpening(r: Opening): Pc {
    match r
    case Opened(_) => SavePr
    case NotApplicable => SaveApplyError
    case OpeningFailed => SaveSkip
  }

  lemma {:induction false} BlockOpens(cfg: Config, w: World, id: Id, t: Task)
    requires t.pc == OpenPr && OpenPr !in t.env.raises
    ensures Block(cfg, w.db, w.now, w.nextPull, id, t) == After(w.db, t.(pc := AfterOpenPr(t.env.post), pr := w.nextPull))
  {
    BlockReads(cfg, w, id, t);
  }

  /** `open_pr`; an error other than a patch that does not apply is a reason to skip. */
  method OpenPullRequest(a: Agent, id: Id, t: Task, ghost start: Origin) returns (r: Opening)
    requires At(a, start, id, t, OpenPr)
    modifies a
    ensures At(a, start, id, t, AfterOpening(r))
    ensures r.Opened? ==> id in a.tasks && a.tasks[id].pr == r.number
  {
    hide At, Lifecycle.Inv, Along, Block;
    var before, raises := Enter(a, id, OpenPr, t, start);
    if raises { return OpeningFailed; }
    var run := a.tasks[id];
    r := match run.env.post
      case Opens => Opened(a.nextPull)
      case DoesNotApply => NotApplicable
      case _ => OpeningFailed;
    BlockOpens(a.cfg, before, id, run);
    LeaveOpening(a, before, id, run.(pc := AfterOpening(r), pr := a.nextPull), t, start);
  }

  method LeaveOpening(a: Agent, before: World, id: Id, next: Task, t: Task, ghost start: Origin)
    requires Lifecycle.Inv(before) && Along(a.cfg, start, before, id) && next.pc != Ended
    requires id in a.tasks && a.State() == before.(db := a.Database()) && Same(next, t) && (start.alone ==> a.schedule == [])
    requires a.tasks[id].pc != Ended
    requires Block(a.cfg, before.db, before.now, before.nextPull, id, before.tasks[id]) == After(a.Database(), next)
    modifies a`tasks, a`pulls, a`nextPull, a`past
    ensures At(a, start, id, t, next.pc) && id in a.tasks && a.tasks[id] == next
  {
    hide Block, DoStep, Lifecycle.Inv, Along;
    assert id in before.tasks;
    StepReaches(a.cfg, start, before, id);
    a.Settle(before, id, next);
  }

  // ----- The phases

  /** How a phase ends: with an exception, with the run's end, or in the next phase. */
  datatype Outcome = Raised | Stopped | Continues

  function Where(r: Outcome, next: Pc): Pc {
    match r case Raised => Fail case Stopped => Ended case Continues => next
  }

  lemma {:induction false} Straight(t: Task)
    ensures Goes(t, ReadSettings, if t.env.filtered then Skip else if t.enforceBreaker then Breaker else DedupGate)
    ensures Goes(t, Skip, Ended) && Goes(t, TripQueue, Ended) && Goes(t, ApplyFailed, Ended)
    ensures Goes(t, Finish, Ended) && Goes(t, Fail, Ended)
  {
    hide HasBlockingPr, HasRecentUnproductive, WithinGrace, CeilingReached, Backoff, Grace, Window;
  }

  lemma {:induction false} Branching(t: Task)
    ensures Goes(t, Triage, if t.env.triage.Triaged? then SaveTriage else Collect)
    ensures Goes(t, SaveTriage, if t.env.triage.Triaged? && t.env.triage.skip then Skip else Collect)
    ensures Goes(t, Collect, if t.env.collectRaises then Fail else SaveContext)
    ensures Goes(t, SaveContext,
      if t.env.suspended then Skip else if t.env.investigation.NoInvestigator? then Generate else Investigate)
  {
    hide HasBlockingPr, HasRecentUnproductive, WithinGrace, CeilingReached, Backoff, Grace, Window;
  }

  lemma {:induction false} Synthesis(t: Task)
    ensures Goes(t, Investigate, if t.env.investigation.Investigated? then SaveInvestigation else Generate)
    ensures Goes(t, SaveInvestigation, Generate)
    ensures Goes(t, Generate, if t.env.generateRaises then Fail else SaveLlm)
    ensures Goes(t, Post, if t.env.post.NothingToPost? then SaveSkip else OpenPr)
  {
    hide HasBlockingPr, HasRecentUnproductive, WithinGrace, CeilingReached, Backoff, Grace, Window;
  }

  /** The run is skipped. */
  method SkipRun(a: Agent, id: Id, t: Task, ghost start: Origin) returns (r: Outcome)
    requires At(a, start, id, t, Skip)
    modifies a
    ensures At(a, start, id, t, Where(r, Skip)) && !r.Continues?
  {
    Straight(t);
    hide At, Goes;
    var ok := WriteStatus(a, id, Skip, Skipped, Some("skipped"), Ended, t, start);
    return if ok then Stopped else Raised;
  }

  /** Settings, filter and breaker. */
  method Begin(a: Agent, id: Id, t: Task, ghost start: Origin) returns (r: Outcome)
    requires At(a, start, id, t, ReadSettings)
    modifies a
    ensures At(a, start, id, t, Where(r, DedupGate))
  {
    Straight(t);
    hide At, Goes;
    var env, enforce := t.env, t.enforceBreaker;
    var ok := ReadOnly(a, id, ReadSettings, if env.filtered then Skip else if enforce then Breaker else DedupGate, t, start);
    if !ok { return Raised; }
    if env.filtered {
      r := SkipRun(a, id, t, start);
      return r;
    }
    if enforce {
      var tripped := CheckCostBreaker(a, id, t, start);
      if tripped {
        ok := TripToManual(a, id, t, start);
        if !ok { return Raised; }
        ok := WriteStatus(a, id, TripQueue, Queued, Some("cost breaker"), Ended, t, start);
        return if ok then Stopped else Raised;
      }
    }
    return Continues;
  }

  /** The open pull request, the backoff and the grace period. */
  method CheckHistory(a: Agent, id: Id, t: Task, ghost start: Origin) returns (r: Outcome)
    requires At(a, start, id, t, DedupGate)
    modifies a
    ensures At(a, start, id, t, Where(r, AfterGates(t.env)))
  {
    hide At;
    var ok, blocked, minutes := LookForOpenPr(a, id, t, start);
    if !ok { return Raised; }
    if blocked {
      r := SkipRun(a, id, t, start);
      return r;
    }
    if minutes.None? { return Raised; }
    if t.enforceBackoff && minutes.value > 0 {
      var recent;
      ok, recent := LookForRecentRun(a, id, t, start);
      if !ok { return Raised; }
      if recent {
        r := SkipRun(a, id, t, start);
        return r;
      }
    }
    var within;
    ok, within := LookForRecentMerge(a, id, t, start);
    if !ok { return Raised; }
    if within {
      r := SkipRun(a, id, t, start);
      return r;
    }
    return Continues;
  }

  /** The patcher is there, and triage, if it runs, lets the alert through. */
  method RunTriage(a: Agent, id: Id, t: Task, ghost start: Origin) returns (r: Outcome)
    requires At(a, start, id, t, AfterGates(t.env))
    modifies a
    ensures At(a, start, id, t, Where(r, Collect))
  {
    Branching(t);
    hide At, Goes;
    var env := t.env;
    if !env.patcher {
      r := SkipRun(a, id, t, start);
      return r;
    }
    if !env.triage.NoTriage? {
      var ok := WriteStatus(a, id, Pc.Triage, Triaging, None, if env.triage.Triaged? then SaveTriage else Collect, t, start);
      if !ok { return Raised; }
      if env.triage.Triaged? {
        ok := ReadOnly(a, id, SaveTriage, if env.triage.skip then Skip else Collect, t, start);
        if !ok { return Raised; }
        if env.triage.skip {
          r := SkipRun(a, id, t, start);
          return r;
        }
      }
    }
    return Continues;
  }

  /** Context is collected, and the run ends here if the delivery is suspended. */
  method CollectContext(a: Agent, id: Id, t: Task, ghost start: Origin) returns (r: Outcome)
    requires At(a, start, id, t, Collect)
    modifies a
    ensures At(a, start, id, t, Where(r, if t.env.investigation.NoInvestigator? then Generate else Investigate))
  {
    Branching(t);
    hide At, Goes;
    var env := t.env;
    var ok := WriteStatus(a, id, Collect, Collecting, None, if env.collectRaises then Fail else SaveContext, t, start);
    if !ok || env.collectRaises { return Raised; }
    ok := ReadOnly(a, id, SaveContext, if env.suspended then Skip else if env.investigation.NoInvestigator? then Generate else Investigate,
                   t, start);
    if !ok { return Raised; }
    if env.suspended {
      r := SkipRun(a, id, t, start);
      return r;
    }
    return Continues;
  }

  /** Investigation, whose errors are swallowed, then synthesis, whose errors are not. */
  method Synthesize(a: Agent, id: Id, t: Task, ghost start: Origin) returns (r: Outcome)
    requires At(a, start, id, t, if t.env.investigation.NoInvestigator? then Generate else Investigate)
    modifies a
    ensures At(a, start, id, t, Where(r, Post)) && !r.Stopped?
  {
    Synthesis(t);
    hide At, Goes;
    var env := t.env;
    var ok;
    if !env.investigation.NoInvestigator? {
      ok := WriteStatus(a, id, Investigate, Investigating, None,
                        if env.investigation.Investigated? then SaveInvestigation else Generate, t, start);
      if !ok { return Raised; }
      if env.investigation.Investigated? {
        ok := ReadOnly(a, id, SaveInvestigation, Generate, t, start);
        if !ok { return Raised; }
      }
    }
    ok := WriteStatus(a, id, Generate, Generating, None, if env.generateRaises then Fail else SaveLlm, t, start);
    if !ok || env.generateRaises { return Raised; }
    ok := SaveLlmResponse(a, id, t, start);
    return if ok then Continues else Raised;
  }

  /** The pull request, or the reason there is none. */
  method PostPatch(a: Agent, id: Id, t: Task, ghost start: Origin) returns (r: Outcome)
    requires At(a, start, id, t, Post)
    modifies a
    ensures At(a, start, id, t, Where(r, Notify))
  {
    Synthesis(t);
    Straight(t);
    hide At, Goes;
    var nothing := t.env.post.NothingToPost?;
    var ok := WriteStatus(a, id, Post, Posting, None, if nothing then SaveSkip else OpenPr, t, start);
    if !ok { return Raised; }
    var skip := true;
    if !nothing {
      var opening := OpenPullRequest(a, id, t, start);
      match opening
      case Opened(number) =>
        ok := SavePullRequest(a, id, SavePr, Some(number), None, Notify, t, start);
        skip := !ok;
      case NotApplicable =>
        ok := SavePullRequest(a, id, SaveApplyError, None, Some("patch verification failed"), ApplyFailed, t, start);
        if !ok { return Raised; }
        ok := WriteStatus(a, id, ApplyFailed, Failed, Some("patch verification failed"), Ended, t, start);
        return if ok then Stopped else Raised;
      case OpeningFailed =>
    }
    if skip {
      ok := SavePullRequest(a, id, SaveSkip, None, Some("no pull request"), Notify, t, start);
      if !ok { return Raised; }
    }
    return Continues;
  }

  /** The `try` block. */
  method Attempt(a: Agent, id: Id, t: Task, ghost start: Origin) returns (raised: bool)
    requires At(a, start, id, t, ReadSettings)
    modifies a
    ensures At(a, start, id, t, if raised then Fail else Ended)
  {
    Straight(t);
    hide At, Goes;
    var r := Begin(a, id, t, start);
    if !r.Continues? { return r.Raised?; }
    r := CheckHistory(a, id, t, start);
    if !r.Continues? { return r.Raised?; }
    r := RunTriage(a, id, t, start);
    if !r.Continues? { return r.Raised?; }
    r := CollectContext(a, id, t, start);
    if !r.Continues? { return r.Raised?; }
    r := Synthesize(a, id, t, start);
    if !r.Continues? { return r.Raised?; }
    r := PostPatch(a, id, t, start);
    if !r.Continues? { return r.Raised?; }
    var ok := PostNotification(a, id, t, start);
    if !ok { return true; }
    ok := WriteStatus(a, id, Finish, Done, None, Ended, t, start);
    return !ok;
  }

  /** Where an undisturbed run is heading, when none of its sessions raises. */
  lemma {:induction false} AheadEnds(cfg: Config, w: World, id: Id)
    requires id in w.tasks && w.tasks[id].pc == ReadSettings
    ensures var t, end := w.tasks[id], Outcomes.Ahead(cfg, w, id).db;
      t.env.raises == {} && id in w.db.runs ==>
        id in end.runs && Outcomes.RunEnd(cfg, w.db, w.now, id, t, end.runs[id], w.nextPull)
  {
    hide Outcomes.Ahead, Outcomes.RunEnd, Outcomes.RunOut;
    var t := w.tasks[id];
    Outcomes.AheadIsRunOut(cfg, w, id);
    if t.env.raises == {} && id in w.db.runs {
      Outcomes.RowStays(cfg, w.db, w.now, w.nextPull, id, t);
      Outcomes.RunEndsExactly(cfg, w.db, w.now, w.nextPull, id, t);
    }
  }

  /** Whatever is interleaved with it and whichever of its sessions raise,
      `process_alert` ends, and what it has done is a run of the transition system.
      When nothing is interleaved it leaves the world its sessions lead to, and when
      none of them raises the row has the end that `RunEnd` says. */
  method ProcessAlert(a: Agent, id: Id)
    requires a.Valid() && id in a.tasks && a.tasks[id].pc == ReadSettings
    modifies a
    ensures a.Valid() && id !in a.tasks && Reaches(a.cfg, old(a.State()), a.State())
    ensures Fail !in old(a.tasks[id].env.raises) ==> Settles(a.runs, id)
    ensures old(a.schedule) == [] ==> a.State() == Outcomes.Ahead(a.cfg, old(a.State()), id)
    ensures old(a.schedule) == [] && old(a.tasks[id].env.raises) == {} && id in old(a.runs) ==>
      && id in a.runs
      && Outcomes.RunEnd(a.cfg, old(a.Database()), old(a.now), id, old(a.tasks[id]), a.runs[id], old(a.nextPull))
  {
    hide Outcomes.Ahead, Outcomes.RunEnd, Goes, Reaches, Lifecycle.Inv;
    ghost var start := Origin(a.State(), a.schedule == []);
    var t := a.tasks[id];
    ReachesItself(a.cfg, start.world);
    Straight(t);
    var raised := Attempt(a, id, t, start);
    if raised {
      var ok := WriteStatus(a, id, Fail, Failed, Some("processing failed"), Ended, t, start);
    }
    if start.alone {
      Outcomes.AheadUnfold(a.cfg, a.State(), id);
      AheadEnds(a.cfg, start.world, id);
    }
  }
}
