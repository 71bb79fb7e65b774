/**
 What follows from the poller's bare `NOT IN`: it never sees a row whose status
 it has not written itself, so a row that starts without a status keeps blocking
 its alert for as long as it exists, and the post-merge grace period never begins.
 */
module Blindness {
  import opened Results
  import opened Repository
  import opened Pipeline
  import opened World
  import opened OnePr
  import OnePull
  import Lifecycle

  /** The poller asks about exactly those blocking rows that already have a status. */
  lemma {:induction false} ListedExactly(run: Run)
    ensures run.ListedAsOpen() <==> run.Blocking() && run.prStatus.Some?
  {
  }

  ghost predicate NoStatuses(w: World) {
    forall id | id in w.db.runs :: w.db.runs[id].prStatus.None?
  }

  lemma {:induction false} StepWritesNoStatus(cfg: Config, w: World, id: Id)
    requires NoStatuses(w) && id in w.tasks
    ensures NoStatuses(DoStep(cfg, w, id))
  {
    BlockIsLocal(cfg, w.db, w.now, w.nextPull, id, w.tasks[id]);
    Lifecycle.BlockRow(cfg, w.db, w.now, w.nextPull, id, w.tasks[id]);
    if id in w.db.runs {
      Lifecycle.StatusStays(w.db.runs[id], w.tasks[id]);
    }
    hide Block, RowAfter, EndedUnproductive, Noted;
  }

  lemma {:induction false} NoStatusIsEverWritten(cfg: Config, w: World, a: Action)
    requires NoStatuses(w) && Enabled(w, a)
    ensures !a.Poll? && NoStatuses(Do(cfg, w, a))
  {
    if a.Step? {
      StepWritesNoStatus(cfg, w, a.id);
    }
    hide DoStep;
  }

  /** From an empty database the poller never has a row to ask about, and no grace
      window ever opens. */
  lemma {:induction false} ThePollerIsBlind(cfg: Config, w: World, run: seq<Action>, key: string, id: Id, now: Time, grace: int)
    requires NoStatuses(w)
    ensures var after := End(cfg, w, run);
      NoStatuses(after) && OpenPrs(after.db) == {} && !WithinGrace(after.db, key, id, now, grace)
    decreases |run|
  {
    hide Do, Enabled;
    if run != [] && Enabled(w, run[0]) {
      hide NoStatuses, WithinGrace, OpenPrs;
      NoStatusIsEverWritten(cfg, w, run[0]);
      ThePollerIsBlind(cfg, Do(cfg, w, run[0]), run[1..], key, id, now, grace);
    }
  }

  /** The row blocks its key, unless it has been pruned. */
  ghost predicate BlocksWhileThere(w: World, id: Id, key: string) {
    id in w.past.born && (id in w.db.runs ==> BlocksKey(w.db, id, key))
  }

  lemma {:induction false} StepStaysBlocked(cfg: Config, w: World, id: Id, j: Id, key: string)
    requires Lifecycle.Inv(w) && id in w.tasks && BlocksWhileThere(w, j, key)
    ensures BlocksWhileThere(DoStep(cfg, w, id), j, key)
  {
    BlockIsLocal(cfg, w.db, w.now, w.nextPull, id, w.tasks[id]);
    Lifecycle.BlockRow(cfg, w.db, w.now, w.nextPull, id, w.tasks[id]);
    if id == j && id in w.db.runs {
      Lifecycle.TaskFacts(w, id);
      OnePull.RecordedStays(w.db.runs[id], w.tasks[id]);
    }
    hide Block, RowAfter, EndedUnproductive, Noted, Lifecycle.Inv, Lifecycle.TaskRow, Lifecycle.RowOk;
  }

  lemma {:induction false} StaysBlocked(cfg: Config, w: World, a: Action, j: Id, key: string)
    requires Lifecycle.Inv(w) && NoStatuses(w) && Enabled(w, a) && BlocksWhileThere(w, j, key)
    ensures BlocksWhileThere(Do(cfg, w, a), j, key)
  {
    if a.Step? {
      StepStaysBlocked(cfg, w, a.id, j, key);
    }
    if a.Prune? && j in Pruned(w.db, w.now, a.days).runs && j in w.db.runs {
      OnePull.PruneKeeps(w, j, a.days);
    }
    if a.Prune? {
      PrunedAreRows(w.db, w.now, a.days);
    }
    hide DoStep, Lifecycle.Inv, Pruned;
  }

  lemma {:induction false} PrunedAreRows(db: Db, now: Time, days: int)
    ensures Pruned(db, now, days).runs.Keys <= db.runs.Keys
  {
  }

  /** A recorded pull request blocks every later run of its alert until its row is
      pruned, also after it has been closed or merged on GitHub. */
  lemma {:induction false} BlockedUntilPruned(cfg: Config, w: World, run: seq<Action>, id: Id, key: string)
    requires Lifecycle.Inv(w) && NoStatuses(w) && BlocksWhileThere(w, id, key)
    ensures BlocksWhileThere(End(cfg, w, run), id, key)
    ensures var after := End(cfg, w, run); id in after.db.runs ==> forall j | j != id :: HasBlockingPr(after.db, key, j)
    decreases |run|
  {
    hide Do, Enabled, NoStatuses, Lifecycle.Inv;
    if run != [] && Enabled(w, run[0]) {
      hide BlocksWhileThere, HasBlockingPr;
      Lifecycle.DoInv(cfg, w, run[0]);
      NoStatusIsEverWritten(cfg, w, run[0]);
      StaysBlocked(cfg, w, run[0], id, key);
      BlockedUntilPruned(cfg, Do(cfg, w, run[0]), run[1..], id, key);
    }
  }
}
