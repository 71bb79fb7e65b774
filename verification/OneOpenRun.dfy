/**
 At most one run per alert in a status the webhook's lookup knows, when lookup and
 insert are one step and no pipeline uses the two statuses the lookup does not know.
 */
module OneOpenRun {
  import opened Results
  import opened Repository
  import opened Pipeline
  import opened World
  import Lifecycle

  /** Statuses between `queued` and the terminal ones that `_OPEN_STATUSES` leaves out. */
  predicate Unseen(s: Status) {
    s.Triaging? || s.Investigating?
  }

  /** The lookup misses exactly the runs that are being triaged or investigated. */
  lemma {:induction false} LookupMisses(db: Db, key: string)
    ensures (exists id | id in db.runs :: db.runs[id].key == key && !db.runs[id].status.Terminal())
      <==> (HasOpenRun(db, key) || exists id | id in db.runs :: db.runs[id].key == key && Unseen(db.runs[id].status))
  {
    assert forall s: Status :: !s.Terminal() <==> s.Open() || Unseen(s);
    if id :| id in db.runs && db.runs[id].key == key && !db.runs[id].status.Terminal() {
      assert db.runs[id].status.Open() || Unseen(db.runs[id].status);
    }
  }

  // ----- Exactly when at most one run of a key is unfinished

  predicate UnfinishedRow(db: Db, id: Id, key: string) {
    id in db.runs && db.runs[id].key == key && !db.runs[id].status.Terminal()
  }

  ghost predicate OneUnfinished(db: Db) {
    forall i, j, key | UnfinishedRow(db, i, key) && UnfinishedRow(db, j, key) :: i == j
  }

  /** The same of the statuses the lookup knows. */
  predicate OpenRow(db: Db, id: Id, key: string) {
    id in db.runs && db.runs[id].key == key && db.runs[id].status.Open()
  }

  ghost predicate OneOpen(db: Db) {
    forall i, j, key | OpenRow(db, i, key) && OpenRow(db, j, key) :: i == j
  }

  lemma {:induction false} UnfinishedCoversOpen(db: Db)
    requires OneUnfinished(db)
    ensures OneOpen(db)
  {
    forall i, j, key | OpenRow(db, i, key) && OpenRow(db, j, key) ensures i == j {
      assert UnfinishedRow(db, i, key) && UnfinishedRow(db, j, key);
    }
  }

  /** No manual run, and no insert unless the lookup of the same step finds nothing. */
  predicate LooksUp(w: World, a: Action) {
    match a
    case Receive(_, key, _) => !HasOpenRun(w.db, key)
    case Submit(_, _) => false
    case _ => true
  }

  predicate AllLookUp(cfg: Config, w: World, run: seq<Action>)
    decreases |run|
  {
    run == [] || !Enabled(w, run[0]) || (LooksUp(w, run[0]) && AllLookUp(cfg, Do(cfg, w, run[0]), run[1..]))
  }

  predicate HasUnseen(db: Db, key: string) {
    exists id | id in db.runs :: db.runs[id].key == key && Unseen(db.runs[id].status)
  }

  /** No alert arrives while a run of its key is being triaged or investigated. */
  predicate Timely(w: World, a: Action) {
    a.Receive? ==> !HasUnseen(w.db, a.key)
  }

  predicate AllTimely(cfg: Config, w: World, run: seq<Action>)
    decreases |run|
  {
    run == [] || !Enabled(w, run[0]) || (Timely(w, run[0]) && AllTimely(cfg, Do(cfg, w, run[0]), run[1..]))
  }

  /** Every state along the run has at most one unfinished row of each key. */
  ghost predicate AlwaysOne(cfg: Config, w: World, run: seq<Action>)
    decreases |run|
  {
    OneUnfinished(w.db) && (run == [] || !Enabled(w, run[0]) || AlwaysOne(cfg, Do(cfg, w, run[0]), run[1..]))
  }

  /** A run that a pipeline works on is unfinished. */
  lemma {:induction false} BusyIsUnfinished(run: Run, pc: Pc)
    requires Lifecycle.TaskRow(run, pc) && pc != Ended
    ensures !run.status.Terminal()
  {
  }

  lemma {:induction false} StepUnfinished(cfg: Config, w: World, id: Id, j: Id, key: string)
    requires Lifecycle.Inv(w) && id in w.tasks && UnfinishedRow(DoStep(cfg, w, id).db, j, key)
    ensures UnfinishedRow(w.db, j, key)
  {
    var t := w.tasks[id];
    BlockIsLocal(cfg, w.db, w.now, w.nextPull, id, t);
    Lifecycle.BlockRow(cfg, w.db, w.now, w.nextPull, id, t);
    Lifecycle.BlockTask(cfg, w.db, w.now, w.nextPull, id, t);
    if id == j && id in w.db.runs && t.pc !in t.env.raises {
      Lifecycle.TaskFacts(w, id);
      Lifecycle.KeepsIdentity(w.db.runs[id], t);
      BusyIsUnfinished(w.db.runs[id], t.pc);
    }
    hide Block, RowAfter, PastAfter, Lifecycle.Inv, Lifecycle.RowOk, Lifecycle.TaskRow, Follows, Status.Terminal;
  }

  /** A row its handler still works on is pending, or queued if it is to be dispatched. */
  lemma {:induction false} HandledStatus(w: World, id: Id)
    requires Lifecycle.Inv(w) && id in w.inbox
    ensures id in w.db.runs ==> w.db.runs[id].status == if w.inbox[id].ToDispatch? then Queued else Pending
  {
    assert Lifecycle.Ok(Lifecycle.ViewOf(w, id));
    hide Lifecycle.IsPath, Lifecycle.RowOk, Lifecycle.TaskOk;
  }

  /** A row that is unfinished afterwards was unfinished before, or is the one just
      inserted. */
  lemma {:induction false} UnfinishedBefore(cfg: Config, w: World, a: Action, j: Id, key: string)
    requires Lifecycle.Inv(w) && Enabled(w, a) && LooksUp(w, a) && UnfinishedRow(Do(cfg, w, a).db, j, key)
    ensures UnfinishedRow(w.db, j, key) || (a.Receive? && a.id == j && a.key == key)
  {
    if a.Step? {
      StepUnfinished(cfg, w, a.id, j, key);
    }
    if a.Park? || a.Dispatch? {
      HandledStatus(w, a.id);
    }
    hide DoStep, HasOpenRun, Lifecycle.Inv;
  }

  lemma {:induction false} NothingUnfinished(db: Db, key: string, id: Id)
    requires !HasOpenRun(db, key) && !HasUnseen(db, key)
    ensures !UnfinishedRow(db, id, key)
  {
    LookupMisses(db, key);
  }

  lemma {:induction false} OneStays(cfg: Config, w: World, a: Action)
    requires Lifecycle.Inv(w) && OneUnfinished(w.db) && Enabled(w, a) && LooksUp(w, a) && Timely(w, a)
    ensures OneUnfinished(Do(cfg, w, a).db)
  {
    hide Do, UnfinishedRow, Lifecycle.Inv, HasOpenRun, HasUnseen;
    var after := Do(cfg, w, a).db;
    forall i, j, key | UnfinishedRow(after, i, key) && UnfinishedRow(after, j, key) ensures i == j {
      UnfinishedBefore(cfg, w, a, i, key);
      UnfinishedBefore(cfg, w, a, j, key);
      if a.Receive? && a.key == key {
        NothingUnfinished(w.db, key, i);
        NothingUnfinished(w.db, key, j);
      }
    }
  }

  /** An alert that arrives too early makes a second unfinished run of its key. */
  lemma {:induction false} EarlyAlertBreaks(cfg: Config, w: World, a: Action)
    requires Lifecycle.Inv(w) && Enabled(w, a) && a.Receive? && HasUnseen(w.db, a.key)
    ensures !OneUnfinished(Do(cfg, w, a).db)
  {
    var j :| j in w.db.runs && w.db.runs[j].key == a.key && Unseen(w.db.runs[j].status);
    Lifecycle.RowFacts(w, j);
    hide Lifecycle.Inv;
    assert UnfinishedRow(Do(cfg, w, a).db, j, a.key) && UnfinishedRow(Do(cfg, w, a).db, a.id, a.key);
  }

  lemma {:induction false} AlwaysOneNow(cfg: Config, w: World, run: seq<Action>)
    requires AlwaysOne(cfg, w, run)
    ensures OneUnfinished(w.db)
  {
  }

  /** When every insert follows a lookup that found nothing, every state along the run
      has at most one unfinished run of each key if and only if no alert ever arrives
      while a run of its key is being triaged or investigated. */
  lemma {:induction false} OneUnfinishedExactly(cfg: Config, w: World, run: seq<Action>)
    requires Lifecycle.Inv(w) && OneUnfinished(w.db) && AllLookUp(cfg, w, run)
    ensures AlwaysOne(cfg, w, run) <==> AllTimely(cfg, w, run)
    decreases |run|
  {
    hide Do, Enabled, Lifecycle.Inv, OneUnfinished, LooksUp, HasUnseen;
    if run != [] && Enabled(w, run[0]) {
      var next := Do(cfg, w, run[0]);
      Lifecycle.DoInv(cfg, w, run[0]);
      if Timely(w, run[0]) {
        OneStays(cfg, w, run[0]);
        OneUnfinishedExactly(cfg, next, run[1..]);
      } else {
        EarlyAlertBreaks(cfg, w, run[0]);
        if AlwaysOne(cfg, next, run[1..]) {
          AlwaysOneNow(cfg, next, run[1..]);
        }
      }
    }
  }

  lemma {:induction false} AlwaysOneEnds(cfg: Config, w: World, run: seq<Action>)
    requires AlwaysOne(cfg, w, run)
    ensures OneUnfinished(End(cfg, w, run).db)
    decreases |run|
  {
    hide Do, Enabled, OneUnfinished;
    if run != [] && Enabled(w, run[0]) {
      AlwaysOneEnds(cfg, Do(cfg, w, run[0]), run[1..]);
    }
  }

  // ----- With both phases off

  /** The phases that write those statuses are switched off. */
  predicate Direct(env: Env) {
    env.triage.NoTriage? && env.investigation.NoInvestigator?
  }

  predicate StartsDirect(a: Action) {
    a.Spawn? || a.Dispatch? ==> Direct(a.env)
  }

  predicate OnTheDirectWay(t: Task) {
    Direct(t.env) && !t.pc.Triage? && !t.pc.SaveTriage? && !t.pc.Investigate? && !t.pc.SaveInvestigation?
  }

  ghost predicate AllDirect(w: World) {
    && (forall id | id in w.tasks :: OnTheDirectWay(w.tasks[id]))
    && (forall id | id in w.db.runs :: !Unseen(w.db.runs[id].status))
  }

  lemma {:induction false} StaysDirect(cfg: Config, db: Db, now: Time, number: nat, id: Id, t: Task)
    requires OnTheDirectWay(t)
    ensures OnTheDirectWay(Block(cfg, db, now, number, id, t).task)
  {
    hide Commit, CeilingReached, Window, HasBlockingPr, HasRecentUnproductive, WithinGrace, Backoff, Grace;
  }

  lemma {:induction false} WritesNothingUnseen(run: Run, t: Task)
    requires OnTheDirectWay(t) && !Unseen(run.status)
    ensures !Unseen(RowAfter(run, t).status)
  {
    Lifecycle.RowStatus(run, t);
    hide RowAfter;
  }

  lemma {:induction false} StepDirect(cfg: Config, w: World, id: Id)
    requires AllDirect(w) && id in w.tasks
    ensures AllDirect(DoStep(cfg, w, id))
  {
    var t := w.tasks[id];
    BlockIsLocal(cfg, w.db, w.now, w.nextPull, id, t);
    Lifecycle.BlockRow(cfg, w.db, w.now, w.nextPull, id, t);
    StaysDirect(cfg, w.db, w.now, w.nextPull, id, t);
    if id in w.db.runs {
      WritesNothingUnseen(w.db.runs[id], t);
    }
    hide Block, RowAfter, EndedUnproductive, Noted, OnTheDirectWay, Unseen;
  }

  lemma {:induction false} OthersDirect(cfg: Config, w: World, a: Action)
    requires AllDirect(w) && Enabled(w, a) && StartsDirect(a)
    ensures AllDirect(Do(cfg, w, a))
  {
    if a.Step? {
      StepDirect(cfg, w, a.id);
    }
    hide DoStep;
  }

  lemma {:induction false} DirectIsTimely(cfg: Config, w: World, run: seq<Action>)
    requires AllDirect(w) && forall i | 0 <= i < |run| :: StartsDirect(run[i])
    ensures AllTimely(cfg, w, run)
    decreases |run|
  {
    assert forall key :: !HasUnseen(w.db, key);
    hide Do, Enabled, AllDirect, HasUnseen, StartsDirect;
    if run != [] && Enabled(w, run[0]) {
      OthersDirect(cfg, w, run[0]);
      DirectIsTimely(cfg, Do(cfg, w, run[0]), run[1..]);
    }
  }

  ghost predicate OpenInv(w: World) {
    Lifecycle.Inv(w) && AllDirect(w) && OneUnfinished(w.db)
  }

  lemma {:induction false} DoOpen(cfg: Config, w: World, a: Action)
    requires OpenInv(w) && Enabled(w, a) && LooksUp(w, a) && StartsDirect(a)
    ensures OpenInv(Do(cfg, w, a))
  {
    assert forall key :: !HasUnseen(w.db, key);
    hide Do, Enabled, Lifecycle.Inv, AllDirect, LooksUp, StartsDirect, OneUnfinished, HasUnseen;
    Lifecycle.DoInv(cfg, w, a);
    OthersDirect(cfg, w, a);
    OneStays(cfg, w, a);
  }

  /** With triage and investigation off and every insert after a lookup that found
      nothing, at most one run of each key is unfinished in every reachable state, and
      so at most one is open: across parking, trips, dispatches, crashes and pruning. */
  lemma {:induction false} AtMostOneOpenRun(cfg: Config, w: World, run: seq<Action>)
    requires Initial(w) && AllLookUp(cfg, w, run) && forall i | 0 <= i < |run| :: StartsDirect(run[i])
    ensures AlwaysOne(cfg, w, run) && OneOpen(End(cfg, w, run).db)
  {
    Lifecycle.InitialInv(w);
    assert AllDirect(w) && OneUnfinished(w.db);
    hide Initial, AllLookUp, AlwaysOne, AllTimely, OneUnfinished, AllDirect, Lifecycle.Inv, End, StartsDirect, OneOpen;
    DirectIsTimely(cfg, w, run);
    OneUnfinishedExactly(cfg, w, run);
    AlwaysOneEnds(cfg, w, run);
    UnfinishedCoversOpen(End(cfg, w, run).db);
  }
}
