/**
 At most one open pull request per alert in the run table, when the pipelines of one
 alert do not overlap.
 */
module OnePr {
  import opened Results
  import opened Repository
  import opened Pipeline
  import opened World
  import Lifecycle

  /** No live pipeline works on this key. */
  predicate Free(w: World, key: string) {
    forall id | id in w.tasks :: w.tasks[id].key != key
  }

  /** The action starts no second pipeline for a key. */
  predicate Alone(w: World, a: Action)
    requires Enabled(w, a)
  {
    match a
    case Spawn(id, _) => Free(w, w.inbox[id].key)
    case Dispatch(id, _) => Free(w, w.inbox[id].key)
    case _ => true
  }

  predicate NoOverlap(cfg: Config, w: World, run: seq<Action>)
    decreases |run|
  {
    run == [] || !Enabled(w, run[0]) || (Alone(w, run[0]) && NoOverlap(cfg, Do(cfg, w, run[0]), run[1..]))
  }

  predicate BlocksKey(db: Db, id: Id, key: string) {
    id in db.runs && db.runs[id].key == key && db.runs[id].Blocking()
  }

  /** The pipeline is past the gate that looks for an open pull request, and may
      still record one. */
  predicate Guarded(pc: Pc) {
    6 <= Left(pc) <= 18
  }

  ghost predicate SingleTasks(w: World) {
    forall i, j | i in w.tasks && j in w.tasks && w.tasks[i].key == w.tasks[j].key :: i == j
  }

  /** While a pipeline is guarded, no other row of its key blocks. */
  ghost predicate GuardHolds(w: World) {
    forall i, j | i in w.tasks && Guarded(w.tasks[i].pc) && BlocksKey(w.db, j, w.tasks[i].key) :: i == j
  }

  ghost predicate OneBlocking(db: Db) {
    forall i, j, key | BlocksKey(db, i, key) && BlocksKey(db, j, key) :: i == j
  }

  ghost predicate OneInv(w: World) {
    Lifecycle.Inv(w) && SingleTasks(w) && GuardHolds(w) && OneBlocking(w.db)
  }

  // ----- How a row comes to block, and how a pipeline comes to be guarded

  lemma {:induction false} BlocksAfter(run: Run, t: Task)
    requires RowAfter(run, t).Blocking() && !run.Blocking()
    ensures t.pc == SavePr
  {
  }

  predicate Saves(w: World, a: Action, id: Id, key: string) {
    a == Step(id) && id in w.tasks && w.tasks[id].pc == SavePr && w.tasks[id].key == key
  }

  lemma {:induction false} StepBlocks(cfg: Config, w: World, id: Id, j: Id, key: string)
    requires Lifecycle.Inv(w) && id in w.tasks && BlocksKey(DoStep(cfg, w, id).db, j, key)
    ensures BlocksKey(w.db, j, key) || Saves(w, Step(id), j, key)
  {
    var t := w.tasks[id];
    BlockIsLocal(cfg, w.db, w.now, w.nextPull, id, t);
    Lifecycle.BlockRow(cfg, w.db, w.now, w.nextPull, id, t);
    hide Block, RowAfter, EndedUnproductive, Noted, Lifecycle.Inv;
    if j == id && id in w.db.runs && !BlocksKey(w.db, j, key) {
      Lifecycle.TaskFacts(w, id);
      Lifecycle.KeepsIdentity(w.db.runs[id], t);
      BlocksAfter(w.db.runs[id], t);
    }
  }

  /** A row only comes to block when its own pipeline records a pull request. */
  lemma {:induction false} OnlySavingBlocks(cfg: Config, w: World, a: Action, j: Id, key: string)
    requires Lifecycle.Inv(w) && Enabled(w, a) && BlocksKey(Do(cfg, w, a).db, j, key)
    ensures BlocksKey(w.db, j, key) || Saves(w, a, j, key)
  {
    if a.Step? {
      StepBlocks(cfg, w, a.id, j, key);
    }
    hide DoStep, Lifecycle.Inv;
  }

  lemma {:induction false} WayIn(cfg: Config, db: Db, now: Time, number: nat, id: Id, t: Task)
    requires !Guarded(t.pc) && Guarded(Block(cfg, db, now, number, id, t).task.pc)
    ensures !HasBlockingPr(db, t.key, id)
  {
    if t.pc in t.env.raises {
      OutsideStays(t.pc);
    }
    NextIsSuccessor(cfg, db, now, id, t);
    if !t.pc.DedupGate? {
      OnlyThroughTheGate(t.pc, Next(cfg, db, now, id, t));
    }
    hide Commit, CeilingReached, Window, HasBlockingPr, HasRecentUnproductive, WithinGrace, Backoff, Grace, OnRaise;
  }

  lemma {:induction false} OutsideStays(pc: Pc)
    requires !Guarded(pc)
    ensures !Guarded(OnRaise(pc))
  {
  }

  lemma {:induction false} OnlyThroughTheGate(pc: Pc, next: Pc)
    requires Follows(pc, next) && !Guarded(pc) && !pc.DedupGate?
    ensures !Guarded(next)
  {
  }

  /** Where a pipeline found after an action was before it. */
  predicate WasThere(cfg: Config, w: World, a: Action, id: Id, t: Task) {
    if a == Step(id) then id in w.tasks && t == Block(cfg, w.db, w.now, w.nextPull, id, w.tasks[id]).task
    else if a.Spawn? && a.id == id then id in w.inbox && w.inbox[id].ToSpawn? && t.pc == ReadSettings && t.key == w.inbox[id].key
    else if a.Dispatch? && a.id == id then
      id in w.inbox && w.inbox[id].ToDispatch? && t.pc == ReadSettings && t.key == w.inbox[id].key
    else id in w.tasks && t == w.tasks[id]
  }

  lemma {:induction false} TasksAfter(cfg: Config, w: World, a: Action, id: Id)
    requires Enabled(w, a) && id in Do(cfg, w, a).tasks
    ensures WasThere(cfg, w, a, id, Do(cfg, w, a).tasks[id])
  {
    hide Block, EndedUnproductive, Noted;
  }

  lemma {:induction false} KeyStays(cfg: Config, w: World, id: Id)
    requires id in w.tasks
    ensures Block(cfg, w.db, w.now, w.nextPull, id, w.tasks[id]).task.key == w.tasks[id].key
  {
    hide Next, Commit, Window, OnRaise;
  }

  // ----- The invariant

  lemma {:induction false} SingleAfter(cfg: Config, w: World, a: Action)
    requires SingleTasks(w) && Enabled(w, a) && Alone(w, a)
    ensures SingleTasks(Do(cfg, w, a))
  {
    hide Do, Block;
    var after := Do(cfg, w, a);
    forall i, j | i in after.tasks && j in after.tasks && after.tasks[i].key == after.tasks[j].key ensures i == j {
      TasksAfter(cfg, w, a, i);
      TasksAfter(cfg, w, a, j);
      if a.Step? && a.id in w.tasks {
        KeyStays(cfg, w, a.id);
      }
    }
  }

  lemma {:induction false} GuardAfter(cfg: Config, w: World, a: Action, i: Id, j: Id)
    requires OneInv(w) && Enabled(w, a)
    requires i in Do(cfg, w, a).tasks && Guarded(Do(cfg, w, a).tasks[i].pc)
    requires BlocksKey(Do(cfg, w, a).db, j, Do(cfg, w, a).tasks[i].key)
    ensures i == j
  {
    hide Do, Block, BlocksKey, Guarded, Lifecycle.Inv;
    var t := Do(cfg, w, a).tasks[i];
    TasksAfter(cfg, w, a, i);
    OnlySavingBlocks(cfg, w, a, j, t.key);
    NotGuardedAtFirst();
    if a == Step(i) {
      KeyStays(cfg, w, i);
      if !Guarded(w.tasks[i].pc) && i != j {
        WayIn(cfg, w.db, w.now, w.nextPull, i, w.tasks[i]);
        BlockingIsFound(w.db, j, t.key, i);
      }
    }
  }

  lemma {:induction false} NotGuardedAtFirst()
    ensures !Guarded(ReadSettings) && Guarded(SavePr)
  {
  }

  lemma {:induction false} BlockingIsFound(db: Db, j: Id, key: string, i: Id)
    requires BlocksKey(db, j, key) && i != j
    ensures HasBlockingPr(db, key, i)
  {
  }

  lemma {:induction false} OneAfter(cfg: Config, w: World, a: Action, i: Id, j: Id, key: string)
    requires OneInv(w) && Enabled(w, a)
    requires BlocksKey(Do(cfg, w, a).db, i, key) && BlocksKey(Do(cfg, w, a).db, j, key)
    ensures i == j
  {
    hide Do, BlocksKey, Guarded, Lifecycle.Inv;
    OnlySavingBlocks(cfg, w, a, i, key);
    OnlySavingBlocks(cfg, w, a, j, key);
    NotGuardedAtFirst();
  }

  lemma {:induction false} DoOne(cfg: Config, w: World, a: Action)
    requires OneInv(w) && Enabled(w, a) && Alone(w, a)
    ensures OneInv(Do(cfg, w, a))
  {
    hide Do, BlocksKey, Guarded, Lifecycle.Inv, SingleTasks, Alone;
    var after := Do(cfg, w, a);
    Lifecycle.DoInv(cfg, w, a);
    SingleAfter(cfg, w, a);
    assert GuardHolds(after) by {
      forall i, j | i in after.tasks && Guarded(after.tasks[i].pc) && BlocksKey(after.db, j, after.tasks[i].key)
        ensures i == j
      {
        GuardAfter(cfg, w, a, i, j);
      }
    }
    assert OneBlocking(after.db) by {
      forall i, j, key | BlocksKey(after.db, i, key) && BlocksKey(after.db, j, key) ensures i == j {
        OneAfter(cfg, w, a, i, j, key);
      }
    }
  }

  /** In every reachable state at most one row of each key has a pull request that is
      neither closed nor merged, whatever triggered the runs. */
  lemma {:induction false} AtMostOneOpenPr(cfg: Config, w: World, run: seq<Action>)
    requires OneInv(w) && NoOverlap(cfg, w, run)
    ensures OneInv(End(cfg, w, run))
    ensures OneBlocking(End(cfg, w, run).db)
    decreases |run|
  {
    hide Do, Enabled, Lifecycle.Inv, SingleTasks, GuardHolds, OneBlocking, Alone;
    if run != [] && Enabled(w, run[0]) {
      DoOne(cfg, w, run[0]);
      AtMostOneOpenPr(cfg, Do(cfg, w, run[0]), run[1..]);
    }
  }

  lemma {:induction false} InitialOne(w: World)
    requires Initial(w)
    ensures OneInv(w)
  {
    Lifecycle.InitialInv(w);
    hide Lifecycle.Inv;
  }
}
