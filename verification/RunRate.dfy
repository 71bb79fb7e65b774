/**
 The runs-per-hour ceiling under every interleaving: rows are counted before the
 pipelines they belong to have passed the breaker, and pruning never removes a
 row that is still counted.
 */
module RunRate {
  import opened Results
  import opened Repository
  import opened Pipeline
  import opened World
  import Lifecycle

  /** The runs created at or after `a` that the breaker let through by `a + Hour`. */
  ghost function Through(w: World, a: Time): set<Id> {
    set id | id in w.past.passed && id in w.past.born && a <= w.past.born[id].at && w.past.passed[id] <= a + HOUR
  }

  /** A row that is gone was created more than a day ago. */
  ghost predicate PrunedAreOld(w: World) {
    forall id | id in w.past.born && id !in w.db.runs :: w.past.born[id].at < w.now - DAY
  }

  ghost predicate Bounded(w: World, ceiling: int) {
    && w.past.passed.Keys <= w.past.born.Keys
    && forall a :: |Through(w, a)| < ceiling
  }

  /** The setting has the value it had, as long as nobody writes it. */
  ghost predicate SameCeiling(before: World, after: World) {
    GetSetting(after.db, RUNS_PER_HOUR) == GetSetting(before.db, RUNS_PER_HOUR)
  }

  predicate LeavesCeiling(a: Action) {
    a.Put? ==> a.setting != RUNS_PER_HOUR
  }

  lemma {:induction false} CeilingStays(cfg: Config, w: World, a: Action)
    requires Enabled(w, a) && LeavesCeiling(a)
    ensures SameCeiling(w, Do(cfg, w, a))
    ensures RunsCeiling(cfg, Do(cfg, w, a).db) == RunsCeiling(cfg, w.db)
  {
    if a.Step? {
      var id := a.id;
      BlockIsLocal(cfg, w.db, w.now, w.nextPull, id, w.tasks[id]);
      hide Block, EndedUnproductive, Noted;
    }
  }

  /** A subset is no larger. */
  lemma {:induction false} Smaller(s: set<Id>, t: set<Id>)
    requires s <= t
    ensures |s| <= |t|
  {
    if s == {} {
    } else {
      var x :| x in s;
      Smaller(s - {x}, t - {x});
    }
  }

  /** Whoever passes now within an hour of `a` is counted, with everybody who passed
      within that hour before. */
  lemma {:induction false} ThroughAreCounted(cfg: Config, w: World, after: World, id: Id, a: Time)
    requires Lifecycle.Inv(w) && PrunedAreOld(w)
    requires after.past.born == w.past.born && after.past.passed == w.past.passed[id := w.now]
    requires id in w.past.born && a <= w.past.born[id].at && w.now <= a + HOUR
    ensures Through(after, a) <= Since(w.db, w.now - HOUR)
  {
    hide Lifecycle.Ok, Lifecycle.ViewOf;
    forall j | j in Through(after, a) ensures j in Since(w.db, w.now - HOUR) {
      if j in w.db.runs {
        Lifecycle.RowFacts(w, j);
      }
    }
  }

  /** What a session of the breaker that lets its run through changes of the past. */
  ghost predicate Passes(cfg: Config, w: World, id: Id) {
    && id in w.tasks && w.tasks[id].pc == Breaker && Breaker !in w.tasks[id].env.raises
    && Block(cfg, w.db, w.now, w.nextPull, id, w.tasks[id]).task.pc == DedupGate
  }

  lemma {:induction false} PassedBelow(cfg: Config, db: Db, now: Time, number: nat, id: Id, t: Task)
    requires t.pc == Breaker && Breaker !in t.env.raises && RunsCeiling(cfg, db) > 0
    requires Block(cfg, db, now, number, id, t).task.pc == DedupGate
    ensures |Since(db, now - HOUR)| < RunsCeiling(cfg, db)
  {
    hide Commit, RunsCeiling;
  }

  lemma {:induction false} PastOfStep(cfg: Config, w: World, id: Id)
    requires id in w.tasks
    ensures DoStep(cfg, w, id).past.born == w.past.born && DoStep(cfg, w, id).now == w.now
    ensures DoStep(cfg, w, id).db.runs.Keys == w.db.runs.Keys
    ensures DoStep(cfg, w, id).past.passed == if Passes(cfg, w, id) then w.past.passed[id := w.now] else w.past.passed
  {
    BlockIsLocal(cfg, w.db, w.now, w.nextPull, id, w.tasks[id]);
    hide Block, EndedUnproductive, Noted;
  }

  lemma {:induction false} StepBoundedAt(cfg: Config, w: World, after: World, id: Id, ceiling: int, a: Time)
    requires Lifecycle.Inv(w) && PrunedAreOld(w) && Bounded(w, ceiling) && id in w.past.born
    requires RunsCeiling(cfg, w.db) == ceiling > 0 && Passes(cfg, w, id)
    requires after.past.born == w.past.born && after.past.passed == w.past.passed[id := w.now]
    ensures |Through(after, a)| < ceiling
  {
    PassedBelow(cfg, w.db, w.now, w.nextPull, id, w.tasks[id]);
    hide Block, Lifecycle.Inv, RunsCeiling, PrunedAreOld, Since;
    if a <= w.past.born[id].at && w.now <= a + HOUR {
      ThroughAreCounted(cfg, w, after, id, a);
      Smaller(Through(after, a), Since(w.db, w.now - HOUR));
    } else {
      Smaller(Through(after, a), Through(w, a));
    }
  }

  lemma {:induction false} StepBounded(cfg: Config, w: World, id: Id, ceiling: int)
    requires Lifecycle.Inv(w) && PrunedAreOld(w) && Bounded(w, ceiling) && id in w.tasks
    requires RunsCeiling(cfg, w.db) == ceiling > 0
    ensures Bounded(DoStep(cfg, w, id), ceiling)
  {
    var after := DoStep(cfg, w, id);
    Lifecycle.TaskFacts(w, id);
    PastOfStep(cfg, w, id);
    hide Block, Lifecycle.Inv, DoStep, RunsCeiling, PrunedAreOld, Passes;
    forall a ensures |Through(after, a)| < ceiling {
      if Passes(cfg, w, id) {
        StepBoundedAt(cfg, w, after, id, ceiling, a);
      } else {
        assert Through(after, a) == Through(w, a);
      }
    }
  }

  lemma {:induction false} PastOfOther(cfg: Config, w: World, a: Action)
    requires Enabled(w, a) && !a.Step?
    ensures Do(cfg, w, a).past.passed == w.past.passed
    ensures forall id | id in w.past.born ::
      id in Do(cfg, w, a).past.born && Do(cfg, w, a).past.born[id] == w.past.born[id]
  {
  }

  lemma {:induction false} OtherBounded(cfg: Config, w: World, a: Action, ceiling: int)
    requires Bounded(w, ceiling) && Enabled(w, a) && !a.Step?
    ensures Bounded(Do(cfg, w, a), ceiling)
  {
    var after := Do(cfg, w, a);
    PastOfOther(cfg, w, a);
    hide Do, Enabled;
    forall b ensures |Through(after, b)| < ceiling {
      assert Through(after, b) == Through(w, b);
    }
  }

  lemma {:induction false} PrunedStayOld(cfg: Config, w: World, a: Action)
    requires Lifecycle.Inv(w) && PrunedAreOld(w) && Enabled(w, a)
    ensures PrunedAreOld(Do(cfg, w, a))
  {
    if a.Step? {
      PastOfStep(cfg, w, a.id);
      hide DoStep, Lifecycle.Inv;
    } else if a.Prune? {
      PruneIsOld(w, a.days);
    } else {
      hide Lifecycle.Inv;
    }
  }

  lemma {:induction false} PruneIsOld(w: World, days: int)
    requires Lifecycle.Inv(w) && PrunedAreOld(w) && days > 0
    ensures PrunedAreOld(w.(db := Pruned(w.db, w.now, days)))
  {
    hide Lifecycle.Inv;
    var after := w.(db := Pruned(w.db, w.now, days));
    forall id | id in w.past.born && id !in after.db.runs ensures w.past.born[id].at < w.now - DAY {
      if id in w.db.runs {
        Lifecycle.RowFacts(w, id);
      }
    }
  }

  ghost predicate RateInv(cfg: Config, w: World, ceiling: int) {
    Lifecycle.Inv(w) && PrunedAreOld(w) && Bounded(w, ceiling) && RunsCeiling(cfg, w.db) == ceiling
  }

  lemma {:induction false} RateToTheEnd(cfg: Config, w: World, run: seq<Action>, ceiling: int)
    requires RateInv(cfg, w, ceiling) && ceiling > 0
    requires forall i | 0 <= i < |run| :: LeavesCeiling(run[i])
    ensures RateInv(cfg, End(cfg, w, run), ceiling)
    decreases |run|
  {
    hide Lifecycle.Inv, PrunedAreOld, Bounded, Do, Enabled, RunsCeiling, LeavesCeiling, DoStep;
    if run != [] && Enabled(w, run[0]) {
      Lifecycle.DoInv(cfg, w, run[0]);
      PrunedStayOld(cfg, w, run[0]);
      CeilingStays(cfg, w, run[0]);
      OneBounded(cfg, w, run[0], ceiling);
      RateToTheEnd(cfg, Do(cfg, w, run[0]), run[1..], ceiling);
    }
  }

  lemma {:induction false} OneBounded(cfg: Config, w: World, a: Action, ceiling: int)
    requires RateInv(cfg, w, ceiling) && ceiling > 0 && Enabled(w, a)
    ensures Bounded(Do(cfg, w, a), ceiling)
  {
    hide Lifecycle.Inv, PrunedAreOld, Bounded, RunsCeiling, DoStep;
    if a.Step? {
      StepBounded(cfg, w, a.id, ceiling);
    } else {
      OtherBounded(cfg, w, a, ceiling);
    }
  }

  /** With a fixed positive ceiling, in every reachable state and for every hour, fewer
      runs than the ceiling were both created and let through within that hour,
      whatever was interleaved: handlers, other pipelines, pruning, crashes. */
  lemma {:induction false} EveryHourIsBounded(cfg: Config, w: World, run: seq<Action>, ceiling: int, a: Time)
    requires Initial(w) && RunsCeiling(cfg, w.db) == ceiling > 0
    requires forall i | 0 <= i < |run| :: LeavesCeiling(run[i])
    ensures |Through(End(cfg, w, run), a)| <= ceiling - 1
  {
    Lifecycle.InitialInv(w);
    assert forall b :: Through(w, b) == {};
    assert RateInv(cfg, w, ceiling);
    hide Lifecycle.Inv, PrunedAreOld, End, Through, LeavesCeiling, RunsCeiling;
    RateToTheEnd(cfg, w, run, ceiling);
  }

  /** Past the breaker: between the first gate and the last session. */
  predicate Inside(pc: Pc) {
    3 <= Left(pc) <= 19
  }

  /** No enforced pipeline is past the breaker without having been let through. */
  ghost predicate NobodySlipsBy(w: World) {
    forall id | id in w.tasks && w.tasks[id].enforceBreaker && Breaker !in w.tasks[id].env.raises ::
      Inside(w.tasks[id].pc) ==> id in w.past.passed
  }

  lemma {:induction false} WayIn(cfg: Config, db: Db, now: Time, number: nat, id: Id, t: Task)
    requires !Inside(t.pc) && Inside(Block(cfg, db, now, number, id, t).task.pc)
    requires t.enforceBreaker && Breaker !in t.env.raises
    ensures t.pc == Breaker && Block(cfg, db, now, number, id, t).task.pc == DedupGate
  {
    hide Commit, CeilingReached, Window, HasBlockingPr, HasRecentUnproductive, WithinGrace, Backoff, Grace;
    if t.pc in t.env.raises {
      OutsideStays(t.pc);
    }
  }

  lemma {:induction false} OutsideStays(pc: Pc)
    requires !Inside(pc) && pc != Breaker
    ensures !Inside(OnRaise(pc))
  {
  }

  lemma {:induction false} StepSlips(cfg: Config, w: World, id: Id)
    requires NobodySlipsBy(w) && id in w.tasks
    ensures NobodySlipsBy(DoStep(cfg, w, id))
  {
    var t := w.tasks[id];
    PastOfStep(cfg, w, id);
    Lifecycle.BlockEnv(cfg, w.db, w.now, w.nextPull, id, t);
    Lifecycle.BlockTask(cfg, w.db, w.now, w.nextPull, id, t);
    var next := Block(cfg, w.db, w.now, w.nextPull, id, t).task;
    if t.enforceBreaker && Breaker !in t.env.raises && !Inside(t.pc) && Inside(next.pc) {
      WayIn(cfg, w.db, w.now, w.nextPull, id, t);
    }
    TasksOfStep(cfg, w, id);
    hide Block, DoStep, Inside;
  }

  lemma {:induction false} TasksOfStep(cfg: Config, w: World, id: Id)
    requires id in w.tasks
    ensures var next := Block(cfg, w.db, w.now, w.nextPull, id, w.tasks[id]).task;
      DoStep(cfg, w, id).tasks == if next.pc == Ended then w.tasks - {id} else w.tasks[id := next]
  {
    hide Block, EndedUnproductive, Noted;
  }

  /** In every reachable state, whoever has to pass the breaker and is inside was let
      through by it, unless the breaker itself failed. */
  lemma {:induction false} TheBreakerIsTheOnlyWayIn(cfg: Config, w: World, run: seq<Action>)
    requires NobodySlipsBy(w)
    ensures NobodySlipsBy(End(cfg, w, run))
    decreases |run|
  {
    hide NobodySlipsBy, Do, Enabled;
    if run != [] && Enabled(w, run[0]) {
      OneSlips(cfg, w, run[0]);
      TheBreakerIsTheOnlyWayIn(cfg, Do(cfg, w, run[0]), run[1..]);
    }
  }

  lemma {:induction false} OneSlips(cfg: Config, w: World, a: Action)
    requires NobodySlipsBy(w) && Enabled(w, a)
    ensures NobodySlipsBy(Do(cfg, w, a))
  {
    if a.Step? {
      StepSlips(cfg, w, a.id);
    } else {
      assert !Inside(ReadSettings);
      hide Inside, DoStep;
    }
  }

  // ----- After a trip

  predicate LeavesMode(a: Action) {
    a.Put? ==> a.setting != PROCESSING_MODE
  }

  /** A session writes no mode but manual. */
  lemma {:induction false} StepStaysManual(cfg: Config, w: World, id: Id)
    requires id in w.tasks && ManualMode(w.db)
    ensures ManualMode(DoStep(cfg, w, id).db)
  {
    hide Next, Window, RowAfter, PastAfter;
  }

  lemma {:induction false} OneStaysManual(cfg: Config, w: World, a: Action)
    requires Enabled(w, a) && ManualMode(w.db) && LeavesMode(a)
    ensures ManualMode(Do(cfg, w, a).db)
  {
    if a.Step? {
      StepStaysManual(cfg, w, a.id);
    }
    hide DoStep;
  }

  /** Once the mode is manual, tripped or set, it stays manual until an operator writes
      another one, whatever runs end, crash or are dispatched in between. */
  lemma {:induction false} ManualUntilWritten(cfg: Config, w: World, run: seq<Action>)
    requires ManualMode(w.db) && forall i | 0 <= i < |run| :: LeavesMode(run[i])
    ensures ManualMode(End(cfg, w, run).db)
    decreases |run|
  {
    hide Do, Enabled, ManualMode, LeavesMode;
    if run != [] && Enabled(w, run[0]) {
      OneStaysManual(cfg, w, run[0]);
      ManualUntilWritten(cfg, Do(cfg, w, run[0]), run[1..]);
    }
  }
}
