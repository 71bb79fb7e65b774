/**
 The post-firing backoff over whole runs of the agent: two runs of one alert that
 both passed the gate and ended without a pull request are more than one window
 apart, and skipped runs in between change nothing.
 */
module Spacing {
  import opened Results
  import opened Repository
  import opened Pipeline
  import opened World
  import opened OnePr
  import RunRate
  import Lifecycle

  // ----- Skipped rows do not count

  /** A row that was skipped, as every reachable skipped row is. */
  predicate SkippedRow(run: Run) {
    run.status == Skipped && Lifecycle.Undecided(run)
  }

  /** `after` is `before` with any number of skipped rows added. */
  ghost predicate SkipsAdded(before: Db, after: Db) {
    && after.settings == before.settings
    && (forall id | id in before.runs :: id in after.runs && after.runs[id] == before.runs[id])
    && (forall id | id in after.runs && id !in before.runs :: SkippedRow(after.runs[id]))
  }

  lemma {:induction false} SkipsAreInvisible(before: Db, after: Db, key: string, exclude: Id, since: Time, now: Time, grace: int)
    requires SkipsAdded(before, after)
    ensures HasBlockingPr(after, key, exclude) <==> HasBlockingPr(before, key, exclude)
    ensures HasRecentUnproductive(after, key, since, exclude) <==> HasRecentUnproductive(before, key, since, exclude)
    ensures WithinGrace(after, key, exclude, now, grace) <==> WithinGrace(before, key, exclude, now, grace)
    ensures HasOpenRun(after, key) <==> HasOpenRun(before, key)
  {
  }

  /** No gate decides differently because of runs that were only skipped, so the
      window does not roll forward with every firing. */
  lemma {:induction false} SkipsChangeNoDecision(cfg: Config, before: Db, after: Db, now: Time, id: Id, t: Task)
    requires SkipsAdded(before, after) && (t.pc == DedupGate || t.pc == BackoffGate || t.pc == GraceGate)
    ensures Next(cfg, after, now, id, t) == Next(cfg, before, now, id, t)
  {
    var minutes := match Grace(cfg, before) case Some(m) => m case None => 0;
    SkipsAreInvisible(before, after, t.key, id, now - t.window, now, minutes * MINUTE);
    assert Grace(cfg, after) == Grace(cfg, before) && Backoff(cfg, after) == Backoff(cfg, before);
    hide HasBlockingPr, HasRecentUnproductive, WithinGrace, Grace, Backoff, SkipsAdded;
  }

  // ----- The window counts from the creation of a run

  /** A run that was created more than a window ago holds nobody up, however recently
      it ended: whatever its row becomes, the gate decides as if it were not there. */
  lemma {:induction false} OldRunsHoldNobodyUp(db: Db, id: Id, run: Run, key: string, since: Time, exclude: Id)
    requires id in db.runs && run.createdAt == db.runs[id].createdAt < since
    ensures HasRecentUnproductive(SetRow(db, id, run), key, since, exclude)
      <==> exists j | j in db.runs && j != id && j != exclude ::
        && db.runs[j].key == key && !db.runs[j].prOpened
        && db.runs[j].status.Unproductive() && since <= db.runs[j].createdAt
  {
    var after := SetRow(db, id, run);
    assert forall j | j in db.runs && j != id :: after.runs[j] == db.runs[j];
  }

  /** A run that took longer than the window has just failed, and its alert fires again:
      the gate is open. */
  lemma {:induction false} LongRunIsFollowedAtOnce()
    ensures var window := 15 * MINUTE;
      var ended := NewRun("a", 0, false).WithStatus(Failed, Some("processing failed"));
      var db := Db(map[0 := ended, 1 := NewRun("a", window + 1, false)], map[]);
      ended.status.Unproductive() && !HasRecentUnproductive(db, "a", window + 1 - window, 1)
  {
  }

  // ----- The invariant

  /** A run that ended without a pull request is finished for good: nothing works on
      it, and its row, while it is there, still says so. */
  predicate Finished(w: World, id: Id) {
    && id in w.past.born && id !in w.tasks && id !in w.inbox
    && (id in w.db.runs ==> w.db.runs[id].status.Unproductive() && !w.db.runs[id].prOpened)
  }

  ghost predicate AllFinished(w: World) {
    forall id | id in w.past.spent :: Finished(w, id)
  }

  /** A row that has been pruned is out of every window. */
  ghost predicate PrunedAreOut(w: World, window: int) {
    forall id | id in w.past.spent && id in w.past.born && id !in w.db.runs :: w.past.born[id].at < w.now - window
  }

  /** Past the gate, a run is never queued and never handed out again. */
  predicate PastTheGate(w: World, id: Id) {
    && id in w.past.born && id !in w.inbox
    && (id in w.tasks ==> Left(w.tasks[id].pc) <= 17)
    && (id in w.db.runs ==> w.db.runs[id].status != Queued)
  }

  ghost predicate AllPast(w: World) {
    forall id | id in w.past.gated :: PastTheGate(w, id)
  }

  ghost predicate WindowsAre(w: World, window: int) {
    forall id | id in w.tasks && w.tasks[id].pc == BackoffGate :: w.tasks[id].window == window
  }

  /** `late` passed the gate more than a window after `early` was created. */
  predicate After(past: Past, early: Id, late: Id, window: int) {
    early in past.born && late in past.gated && past.gated[late] - past.born[early].at > window
  }

  predicate SameKey(past: Past, x: Id, y: Id) {
    x in past.born && y in past.born && past.born[x].key == past.born[y].key
  }

  /** Whoever is at work has passed the gate after every run of its alert that has
      ended without a pull request. */
  ghost predicate LiveAfterSpent(w: World, window: int) {
    forall y, x | y in w.tasks && y in w.past.gated && x in w.past.spent && SameKey(w.past, x, y) ::
      After(w.past, x, y, window)
  }

  /** The two runs are more than a window apart, one way or the other. */
  predicate Apart(past: Past, x: Id, y: Id, window: int) {
    After(past, x, y, window) || After(past, y, x, window)
  }

  ghost predicate Spaced(past: Past, window: int) {
    forall x, y | x in past.spent && y in past.spent && x in past.gated && y in past.gated && x != y && SameKey(past, x, y) ::
      Apart(past, x, y, window)
  }

  ghost predicate SpacingInv(cfg: Config, w: World, window: int) {
    && Lifecycle.Inv(w) && SingleTasks(w) && AllFinished(w) && PrunedAreOut(w, window) && AllPast(w)
    && WindowsAre(w, window) && LiveAfterSpent(w, window) && Spaced(w.past, window)
    && Window(cfg, w.db) == window
  }

  /** Nobody changes the backoff setting, and rows stay for at least one window. */
  predicate Steady(cfg: Config, w: World, a: Action, window: int) {
    && (a.Put? ==> a.setting != BACKOFF_MINUTES)
    && (a.Prune? ==> a.days * DAY >= window)
  }

  predicate AllSteady(cfg: Config, w: World, run: seq<Action>, window: int)
    decreases |run|
  {
    run == [] || !Enabled(w, run[0])
    || (Steady(cfg, w, run[0], window) && AllSteady(cfg, Do(cfg, w, run[0]), run[1..], window))
  }

  // ----- One session

  /** The session lets the run through the gate. */
  predicate Gates(cfg: Config, w: World, id: Id) {
    && id in w.tasks && w.tasks[id].pc == BackoffGate
    && Block(cfg, w.db, w.now, w.nextPull, id, w.tasks[id]).task.pc == GraceGate
  }

  /** The session ends the run without a pull request. */
  predicate Spends(cfg: Config, w: World, id: Id) {
    id in w.tasks && var a := Block(cfg, w.db, w.now, w.nextPull, id, w.tasks[id]);
    EndedUnproductive(a.db, id, a.task.pc)
  }

  lemma {:induction false} StepPast(cfg: Config, w: World, id: Id)
    requires id in w.tasks
    ensures var after := DoStep(cfg, w, id);
      && after.past.born == w.past.born && after.now == w.now && after.inbox == w.inbox
      && after.past.gated == (if Gates(cfg, w, id) then w.past.gated[id := w.now] else w.past.gated)
      && after.past.spent == (if Spends(cfg, w, id) then w.past.spent + {id} else w.past.spent)
  {
    hide Block, EndedUnproductive, Noted;
  }

  lemma {:induction false} GateFindsNothing(cfg: Config, db: Db, now: Time, number: nat, id: Id, t: Task)
    requires t.pc == BackoffGate && Block(cfg, db, now, number, id, t).task.pc == GraceGate
    ensures !HasRecentUnproductive(db, t.key, now - t.window, id)
  {
    hide Commit, Window, HasRecentUnproductive;
  }

  lemma {:induction false} WindowSet(cfg: Config, db: Db, now: Time, number: nat, id: Id, t: Task)
    requires Block(cfg, db, now, number, id, t).task.pc == BackoffGate
    ensures t.pc == DedupGate && Block(cfg, db, now, number, id, t).task.window == Window(cfg, db)
  {
    NextIsSuccessor(cfg, db, now, id, t);
    OnlyFromDedup(t.pc);
    hide Commit, Window, Next, Follows, OnRaise;
  }

  lemma {:induction false} OnlyFromDedup(pc: Pc)
    ensures Follows(pc, BackoffGate) ==> pc == DedupGate
    ensures OnRaise(pc) != BackoffGate
  {
  }

  /** A run that passes now does so more than a window after every spent run. */
  lemma {:induction false} GatedAfter(cfg: Config, w: World, after: Past, id: Id, x: Id, window: int)
    requires SpacingInv(cfg, w, window) && Gates(cfg, w, id) && x in w.past.spent && SameKey(w.past, x, id)
    requires after.born == w.past.born && after.gated == w.past.gated[id := w.now]
    ensures After(after, x, id, window)
  {
    GateFindsNothing(cfg, w.db, w.now, w.nextPull, id, w.tasks[id]);
    assert Finished(w, x);
    Lifecycle.TaskFacts(w, id);
    if x in w.db.runs {
      Lifecycle.RowFacts(w, x);
    }
    hide Block, Lifecycle.Inv;
  }

  /** Only a run with a live pipeline can end, so it had not ended before. */
  lemma {:induction false} LiveIsNotSpent(w: World, id: Id)
    requires AllFinished(w) && id in w.tasks
    ensures id !in w.past.spent
  {
  }

  lemma {:induction false} OtherKey(w: World, id: Id, y: Id)
    requires Lifecycle.Inv(w) && SingleTasks(w) && id in w.tasks && y in w.tasks && SameKey(w.past, id, y)
    ensures id == y
  {
    Lifecycle.TaskFacts(w, id);
    Lifecycle.TaskFacts(w, y);
    hide Lifecycle.Inv;
  }

  /** A run whose pipeline ends is no longer at work, and the others still are. */
  lemma {:induction false} StepTasks(cfg: Config, w: World, id: Id)
    requires id in w.tasks
    ensures DoStep(cfg, w, id).tasks.Keys <= w.tasks.Keys
    ensures Spends(cfg, w, id) ==> id !in DoStep(cfg, w, id).tasks
  {
    hide Block, Noted;
  }

  /** Every run that has ended is a window older than the gate `id` has passed. */
  ghost predicate AfterSpent(past: Past, id: Id, window: int) {
    id in past.gated ==> forall x | x in past.spent && SameKey(past, x, id) :: After(past, x, id, window)
  }

  lemma {:induction false} SpacedWhenSpent(before: Past, after: Past, id: Id, window: int)
    requires Spaced(before, window) && AfterSpent(before, id, window)
    requires after.born == before.born && after.gated == before.gated && after.spent == before.spent + {id}
    ensures Spaced(after, window)
  {
    forall x, y | x in after.spent && y in after.spent && x in after.gated && y in after.gated && x != y && SameKey(after, x, y)
      ensures Apart(after, x, y, window)
    {
      if x in before.spent && y in before.spent {
        assert Apart(before, x, y, window);
      } else if x in before.spent {
        assert After(before, x, id, window);
      } else {
        assert SameKey(before, y, id) && After(before, y, id, window);
      }
    }
  }

  lemma {:induction false} SpacedWhenGated(before: Past, after: Past, id: Id, at: Time, window: int)
    requires Spaced(before, window) && id !in before.spent
    requires after.born == before.born && after.gated == before.gated[id := at] && after.spent == before.spent
    ensures Spaced(after, window)
  {
    forall x, y | x in after.spent && y in after.spent && x in after.gated && y in after.gated && x != y && SameKey(after, x, y)
      ensures Apart(after, x, y, window)
    {
      assert Apart(before, x, y, window);
    }
  }

  lemma {:induction false} SpacedStays(before: Past, after: Past, window: int)
    requires Spaced(before, window)
    requires after.born == before.born && after.gated == before.gated && after.spent == before.spent
    ensures Spaced(after, window)
  {
    assert forall x, y :: SameKey(after, x, y) <==> SameKey(before, x, y);
    assert forall x, y :: Apart(after, x, y, window) <==> Apart(before, x, y, window);
  }

  lemma {:induction false} StepSpaced(cfg: Config, w: World, id: Id, window: int)
    requires SpacingInv(cfg, w, window) && id in w.tasks
    ensures Spaced(DoStep(cfg, w, id).past, window)
  {
    var after := DoStep(cfg, w, id).past;
    StepPast(cfg, w, id);
    LiveIsNotSpent(w, id);
    assert AfterSpent(w.past, id, window);
    if Spends(cfg, w, id) {
      SpendsIsNotGate(cfg, w, id);
      hide *;
      SpacedWhenSpent(w.past, after, id, window);
    } else if Gates(cfg, w, id) {
      hide *;
      SpacedWhenGated(w.past, after, id, w.now, window);
    } else {
      hide *;
      SpacedStays(w.past, after, window);
    }
  }

  lemma {:induction false} LiveWhenGated(cfg: Config, w: World, after: World, id: Id, window: int)
    requires SpacingInv(cfg, w, window) && Gates(cfg, w, id) && after.tasks.Keys <= w.tasks.Keys
    requires after.past.born == w.past.born && after.past.gated == w.past.gated[id := w.now]
    requires after.past.spent == w.past.spent
    ensures LiveAfterSpent(after, window)
  {
    hide Gates, SingleTasks, AllFinished, Lifecycle.Inv, Spaced;
    forall y, x | y in after.tasks && y in after.past.gated && x in after.past.spent && SameKey(after.past, x, y)
      ensures After(after.past, x, y, window)
    {
      if y == id {
        GatedAfter(cfg, w, after.past, id, x, window);
      } else {
        assert After(w.past, x, y, window);
      }
    }
  }

  lemma {:induction false} LiveWhenSpent(cfg: Config, w: World, after: World, id: Id, window: int)
    requires SpacingInv(cfg, w, window) && id in w.tasks
    requires after.tasks.Keys <= w.tasks.Keys && id !in after.tasks
    requires after.past.born == w.past.born && after.past.gated == w.past.gated
    requires after.past.spent == w.past.spent + {id}
    ensures LiveAfterSpent(after, window)
  {
    hide SingleTasks, AllFinished, Lifecycle.Inv, Spaced;
    forall y, x | y in after.tasks && y in after.past.gated && x in after.past.spent && SameKey(after.past, x, y)
      ensures After(after.past, x, y, window)
    {
      if x == id {
        OtherKey(w, id, y);
      } else {
        assert After(w.past, x, y, window);
      }
    }
  }

  lemma {:induction false} LiveStays(w: World, after: World, window: int)
    requires LiveAfterSpent(w, window) && after.tasks.Keys <= w.tasks.Keys
    requires after.past.born == w.past.born && after.past.gated == w.past.gated && after.past.spent == w.past.spent
    ensures LiveAfterSpent(after, window)
  {
    forall y, x | y in after.tasks && y in after.past.gated && x in after.past.spent && SameKey(after.past, x, y)
      ensures After(after.past, x, y, window)
    {
      assert After(w.past, x, y, window);
    }
  }

  lemma {:induction false} StepLive(cfg: Config, w: World, id: Id, window: int)
    requires SpacingInv(cfg, w, window) && id in w.tasks
    ensures LiveAfterSpent(DoStep(cfg, w, id), window)
  {
    var after := DoStep(cfg, w, id);
    StepPast(cfg, w, id);
    StepTasks(cfg, w, id);
    if Spends(cfg, w, id) {
      SpendsIsNotGate(cfg, w, id);
      hide *;
      LiveWhenSpent(cfg, w, after, id, window);
    } else if Gates(cfg, w, id) {
      hide *;
      LiveWhenGated(cfg, w, after, id, window);
    } else {
      assert LiveAfterSpent(w, window);
      hide *;
      LiveStays(w, after, window);
    }
  }

  lemma {:induction false} SpendsIsNotGate(cfg: Config, w: World, id: Id)
    requires Spends(cfg, w, id)
    ensures !Gates(cfg, w, id)
  {
    hide Block;
  }

  /** What ended before is untouched: the session is another run's. */
  lemma {:induction false} StillFinished(cfg: Config, w: World, id: Id, x: Id)
    requires id in w.tasks && x != id && Finished(w, x)
    ensures Finished(DoStep(cfg, w, id), x)
  {
    BlockIsLocal(cfg, w.db, w.now, w.nextPull, id, w.tasks[id]);
    hide Block, EndedUnproductive, Noted;
  }

  lemma {:induction false} NowFinished(cfg: Config, w: World, id: Id)
    requires Lifecycle.Inv(w) && Spends(cfg, w, id)
    ensures Finished(DoStep(cfg, w, id), id)
  {
    StepPast(cfg, w, id);
    StepTasks(cfg, w, id);
    Lifecycle.TaskFacts(w, id);
    SpentRow(cfg, w, id);
    StepDb(cfg, w, id);
    hide DoStep, Block, Gates, Spends, Lifecycle.Inv;
  }

  lemma {:induction false} StepFinished(cfg: Config, w: World, id: Id)
    requires Lifecycle.Inv(w) && AllFinished(w) && id in w.tasks
    ensures AllFinished(DoStep(cfg, w, id))
  {
    var after := DoStep(cfg, w, id);
    StepPast(cfg, w, id);
    LiveIsNotSpent(w, id);
    hide DoStep, Gates, Spends, Lifecycle.Inv, Finished;
    forall x | x in after.past.spent ensures Finished(after, x) {
      if x != id {
        StillFinished(cfg, w, id, x);
      } else {
        NowFinished(cfg, w, id);
      }
    }
  }

  lemma {:induction false} SpentRow(cfg: Config, w: World, id: Id)
    requires Spends(cfg, w, id)
    ensures var db := Block(cfg, w.db, w.now, w.nextPull, id, w.tasks[id]).db;
      id in db.runs && db.runs[id].status.Unproductive() && !db.runs[id].prOpened
  {
    hide Block;
  }

  lemma {:induction false} StepDb(cfg: Config, w: World, id: Id)
    requires id in w.tasks
    ensures DoStep(cfg, w, id).db == Block(cfg, w.db, w.now, w.nextPull, id, w.tasks[id]).db
  {
    hide Block, EndedUnproductive, Noted;
  }

  lemma {:induction false} StepGated(cfg: Config, w: World, id: Id)
    requires Lifecycle.Inv(w) && AllPast(w) && id in w.tasks
    ensures AllPast(DoStep(cfg, w, id))
  {
    var after := DoStep(cfg, w, id);
    StepPast(cfg, w, id);
    StepTasks(cfg, w, id);
    Lifecycle.TaskFacts(w, id);
    BlockIsLocal(cfg, w.db, w.now, w.nextPull, id, w.tasks[id]);
    StepDb(cfg, w, id);
    if id in w.past.gated || Gates(cfg, w, id) {
      GatedStays(cfg, w, id);
    }
    StepOthers(cfg, w, id);
    hide DoStep, Block, Gates, Spends, Lifecycle.Inv;
    forall x | x in after.past.gated ensures PastTheGate(after, x) {
      if x != id {
        assert PastTheGate(w, x);
      }
    }
  }

  lemma {:induction false} StepOthers(cfg: Config, w: World, id: Id)
    requires id in w.tasks
    ensures forall j | j in DoStep(cfg, w, id).tasks && j != id :: DoStep(cfg, w, id).tasks[j] == w.tasks[j]
    ensures id in DoStep(cfg, w, id).tasks ==>
      DoStep(cfg, w, id).tasks[id] == Block(cfg, w.db, w.now, w.nextPull, id, w.tasks[id]).task
  {
    hide Block, EndedUnproductive, Noted;
  }

  /** A pipeline past the gate stays past it, and writes no `queued`. */
  lemma {:induction false} GatedStays(cfg: Config, w: World, id: Id)
    requires Lifecycle.Inv(w) && AllPast(w) && id in w.tasks && (id in w.past.gated || Gates(cfg, w, id))
    ensures var a := Block(cfg, w.db, w.now, w.nextPull, id, w.tasks[id]);
      Left(a.task.pc) <= 17 && (id in a.db.runs ==> a.db.runs[id].status != Queued)
  {
    var t := w.tasks[id];
    assert t.pc != Ended by {
      Lifecycle.TaskFacts(w, id);
    }
    Lifecycle.BlockRow(cfg, w.db, w.now, w.nextPull, id, t);
    BlockIsLocal(cfg, w.db, w.now, w.nextPull, id, t);
    BlocksEnd(cfg, w.db, w.now, w.nextPull, id, t);
    assert Left(BackoffGate) == 18 && Left(GraceGate) == 17 && Left(TripQueue) == 20;
    if id in w.db.runs {
      OneStatus(w, id);
      Lifecycle.StatusEdges(t.pc, w.db.runs[id].status);
      Lifecycle.RowStatus(w.db.runs[id], t);
      Lifecycle.NotQueuedAtWork(t.pc, w.db.runs[id].status);
    }
    hide Block, RowAfter, Left, Lifecycle.Inv, Lifecycle.StatusThen, Lifecycle.StatusAt, Lifecycle.Edge;
  }

  lemma {:induction false} OneStatus(w: World, id: Id)
    requires Lifecycle.Inv(w) && id in w.tasks && id in w.db.runs
    ensures Lifecycle.StatusAt(w.tasks[id].pc, w.db.runs[id].status)
  {
    Lifecycle.TaskFacts(w, id);
    hide Lifecycle.Inv, Lifecycle.StatusAt, Lifecycle.RowOk;
  }

  lemma {:induction false} StepWindows(cfg: Config, w: World, id: Id, window: int)
    requires WindowsAre(w, window) && Window(cfg, w.db) == window && id in w.tasks
    ensures WindowsAre(DoStep(cfg, w, id), window) && Window(cfg, DoStep(cfg, w, id).db) == window
  {
    StepOthers(cfg, w, id);
    StepDb(cfg, w, id);
    BlockIsLocal(cfg, w.db, w.now, w.nextPull, id, w.tasks[id]);
    SettingStays(w.db, Block(cfg, w.db, w.now, w.nextPull, id, w.tasks[id]).db, id);
    if Block(cfg, w.db, w.now, w.nextPull, id, w.tasks[id]).task.pc == BackoffGate {
      WindowSet(cfg, w.db, w.now, w.nextPull, id, w.tasks[id]);
    }
    StepTasks(cfg, w, id);
    hide DoStep, Block;
  }

  lemma {:induction false} SettingStays(before: Db, after: Db, id: Id)
    requires OnlyRow(before, after, id)
    ensures GetSetting(after, BACKOFF_MINUTES) == GetSetting(before, BACKOFF_MINUTES)
  {
  }

  lemma {:induction false} StepPruned(cfg: Config, w: World, id: Id, window: int)
    requires PrunedAreOut(w, window) && id in w.tasks
    ensures PrunedAreOut(DoStep(cfg, w, id), window)
  {
    StepPast(cfg, w, id);
    RunRate.PastOfStep(cfg, w, id);
    if Spends(cfg, w, id) {
      SpentRow(cfg, w, id);
      StepDb(cfg, w, id);
    }
    hide DoStep, Gates, Spends, Block;
  }

  lemma {:induction false} StepSpacing(cfg: Config, w: World, id: Id, window: int)
    requires SpacingInv(cfg, w, window) && id in w.tasks
    ensures SpacingInv(cfg, DoStep(cfg, w, id), window)
  {
    var after := DoStep(cfg, w, id);
    StepFinished(cfg, w, id);
    StepGated(cfg, w, id);
    StepWindows(cfg, w, id, window);
    StepLive(cfg, w, id, window);
    StepSpaced(cfg, w, id, window);
    Lifecycle.DoInv(cfg, w, Step(id));
    SingleAfter(cfg, w, Step(id));
    StepPruned(cfg, w, id, window);
    hide DoStep, Alone, Lifecycle.Inv, SingleTasks, AllFinished, AllPast, WindowsAre, LiveAfterSpent, Spaced, PrunedAreOut, Window;
  }

  // ----- The other actions

  lemma {:induction false} OtherFinished(cfg: Config, w: World, a: Action, x: Id)
    requires Enabled(w, a) && !a.Step? && Finished(w, x)
    ensures Finished(Do(cfg, w, a), x)
  {
    hide DoStep;
  }

  lemma {:induction false} OtherGated(cfg: Config, w: World, a: Action, x: Id)
    requires Enabled(w, a) && !a.Step? && PastTheGate(w, x)
    ensures PastTheGate(Do(cfg, w, a), x)
  {
    hide DoStep, Left;
  }

  /** No other action changes what the history says of gates and endings. */
  lemma {:induction false} OtherPast(cfg: Config, w: World, a: Action)
    requires Enabled(w, a) && !a.Step?
    ensures Do(cfg, w, a).past.gated == w.past.gated && Do(cfg, w, a).past.spent == w.past.spent
    ensures forall id | id in w.past.born ::
      id in Do(cfg, w, a).past.born && Do(cfg, w, a).past.born[id] == w.past.born[id]
  {
    hide DoStep, Pruned;
  }

  lemma {:induction false} OtherAll(cfg: Config, w: World, a: Action)
    requires AllFinished(w) && AllPast(w) && Enabled(w, a) && !a.Step?
    ensures AllFinished(Do(cfg, w, a)) && AllPast(Do(cfg, w, a))
  {
    OtherPast(cfg, w, a);
    hide Do, Enabled, Finished, PastTheGate;
    forall x | x in w.past.spent ensures Finished(Do(cfg, w, a), x) {
      OtherFinished(cfg, w, a, x);
    }
    forall x | x in w.past.gated ensures PastTheGate(Do(cfg, w, a), x) {
      OtherGated(cfg, w, a, x);
    }
  }

  lemma {:induction false} OtherSpaced(cfg: Config, w: World, a: Action, window: int)
    requires AllFinished(w) && AllPast(w) && Spaced(w.past, window) && Enabled(w, a) && !a.Step?
    ensures Spaced(Do(cfg, w, a).past, window)
  {
    OtherPast(cfg, w, a);
    var after := Do(cfg, w, a).past;
    hide Do, Enabled;
    forall x, y | x in after.spent && y in after.spent && x in after.gated && y in after.gated && x != y && SameKey(after, x, y)
      ensures Apart(after, x, y, window)
    {
      assert Finished(w, x) && Finished(w, y);
      assert Apart(w.past, x, y, window);
    }
  }

  /** Nobody past the gate is given a new pipeline. */
  lemma {:induction false} NewTasksAreNotGated(cfg: Config, w: World, a: Action, y: Id)
    requires AllPast(w) && Enabled(w, a) && !a.Step? && y in w.past.gated
    ensures y in Do(cfg, w, a).tasks ==> y in w.tasks
  {
    assert PastTheGate(w, y);
    hide DoStep, Pruned, Left;
  }

  lemma {:induction false} OtherLive(cfg: Config, w: World, a: Action, window: int)
    requires AllFinished(w) && AllPast(w) && LiveAfterSpent(w, window) && Enabled(w, a) && !a.Step?
    ensures LiveAfterSpent(Do(cfg, w, a), window)
  {
    OtherPast(cfg, w, a);
    var after := Do(cfg, w, a);
    hide Do, Enabled;
    forall y, x | y in after.tasks && y in after.past.gated && x in after.past.spent && SameKey(after.past, x, y)
      ensures After(after.past, x, y, window)
    {
      NewTasksAreNotGated(cfg, w, a, y);
      assert Finished(w, x) && PastTheGate(w, y);
      assert After(w.past, x, y, window);
    }
  }

  lemma {:induction false} OtherWindows(cfg: Config, w: World, a: Action, window: int)
    requires WindowsAre(w, window) && Window(cfg, w.db) == window && Enabled(w, a) && !a.Step? && Steady(cfg, w, a, window)
    ensures WindowsAre(Do(cfg, w, a), window) && Window(cfg, Do(cfg, w, a).db) == window
  {
    hide DoStep;
  }

  lemma {:induction false} PruneOut(w: World, days: int, window: int)
    requires Lifecycle.Inv(w) && PrunedAreOut(w, window) && days * DAY >= window
    ensures PrunedAreOut(w.(db := Pruned(w.db, w.now, days)), window)
  {
    hide Lifecycle.Inv;
    var after := w.(db := Pruned(w.db, w.now, days));
    forall id | id in w.past.spent && id in w.past.born && id !in after.db.runs
      ensures w.past.born[id].at < w.now - window
    {
      if id in w.db.runs {
        Lifecycle.RowFacts(w, id);
      }
    }
  }

  lemma {:induction false} OtherPruned(cfg: Config, w: World, a: Action, window: int)
    requires Lifecycle.Inv(w) && AllFinished(w) && PrunedAreOut(w, window)
    requires Enabled(w, a) && !a.Step? && Steady(cfg, w, a, window)
    ensures PrunedAreOut(Do(cfg, w, a), window)
  {
    if a.Prune? {
      PruneOut(w, a.days, window);
    } else {
      assert forall id | id in w.past.spent :: Finished(w, id);
      hide DoStep, Lifecycle.Inv, Steady;
    }
  }

  lemma {:induction false} DoSpacing(cfg: Config, w: World, a: Action, window: int)
    requires SpacingInv(cfg, w, window) && Enabled(w, a) && Alone(w, a) && Steady(cfg, w, a, window)
    ensures SpacingInv(cfg, Do(cfg, w, a), window)
  {
    if a.Step? {
      hide SpacingInv, DoStep;
      StepSpacing(cfg, w, a.id, window);
    } else {
      hide DoStep, Alone, Lifecycle.Inv, SingleTasks, AllFinished, AllPast, WindowsAre, LiveAfterSpent, Spaced,
        PrunedAreOut, Window, Do, Enabled, Steady;
      Lifecycle.DoInv(cfg, w, a);
      SingleAfter(cfg, w, a);
      OtherAll(cfg, w, a);
      OtherSpaced(cfg, w, a, window);
      OtherLive(cfg, w, a, window);
      OtherWindows(cfg, w, a, window);
      OtherPruned(cfg, w, a, window);
    }
  }

  lemma {:induction false} SpacingToTheEnd(cfg: Config, w: World, run: seq<Action>, window: int)
    requires SpacingInv(cfg, w, window) && NoOverlap(cfg, w, run) && AllSteady(cfg, w, run, window)
    ensures SpacingInv(cfg, End(cfg, w, run), window)
    decreases |run|
  {
    hide Do, Enabled, SpacingInv, Alone, Steady;
    if run != [] && Enabled(w, run[0]) {
      DoSpacing(cfg, w, run[0], window);
      SpacingToTheEnd(cfg, Do(cfg, w, run[0]), run[1..], window);
    }
  }

  /** In every reachable state, of two runs of one alert that passed the gate and
      ended without a pull request, one passed it more than a window after the
      other was created. */
  lemma {:induction false} SpentRunsAreSpaced(cfg: Config, w: World, run: seq<Action>, window: int)
    requires Initial(w) && Window(cfg, w.db) == window
    requires NoOverlap(cfg, w, run) && AllSteady(cfg, w, run, window)
    ensures Spaced(End(cfg, w, run).past, window)
  {
    Lifecycle.InitialInv(w);
    assert SpacingInv(cfg, w, window) by {
      hide Lifecycle.Inv, Window;
    }
    hide End, NoOverlap, AllSteady, Initial, Spaced, Lifecycle.Inv, Window;
    SpacingToTheEnd(cfg, w, run, window);
  }

  // ----- Many runs of one alert

  /** Runs of one alert, oldest first, that passed the gate when they were created
      and ended without a pull request. */
  ghost predicate SpentInOrder(past: Past, ids: seq<Id>) {
    && (forall i | 0 <= i < |ids| ::
      && ids[i] in past.spent && ids[i] in past.gated && ids[i] in past.born
      && past.gated[ids[i]] == past.born[ids[i]].at)
    && (forall i, j | 0 <= i < j < |ids| ::
      ids[i] != ids[j] && SameKey(past, ids[i], ids[j]) && past.born[ids[i]].at <= past.born[ids[j]].at)
  }

  /** `k` of them span at least `k - 1` windows. */
  lemma {:induction false} SpentRunsSpan(past: Past, ids: seq<Id>, window: int)
    requires Spaced(past, window) && window >= 0 && SpentInOrder(past, ids) && ids != []
    ensures past.born[ids[|ids| - 1]].at - past.born[ids[0]].at >= (|ids| - 1) * window
  {
    if |ids| > 1 {
      var k := |ids| - 1;
      SpentRunsSpan(past, ids[..k], window);
      assert ids[..k][0] == ids[0] && ids[..k][k - 1] == ids[k - 1];
      assert Apart(past, ids[k - 1], ids[k], window);
      assert k * window == (k - 1) * window + window;
    }
  }
}
