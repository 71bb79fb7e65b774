/**
 Several operators dispatch one queued run at the same time: each has seen the row
 queued, so each sets it to pending and starts a pipeline, and the pipelines share
 the row. What survives that, and what does not.
 */
module Dispatchers {
  import opened Results
  import opened Repository
  import opened Pipeline
  import opened Scenarios
  import World
  import Lifecycle

  /** The row's pipelines, those that have ended included, and the numbers of the
      pull requests they have opened. */
  datatype Crew = Crew(db: Db, now: Time, nextPull: nat, tasks: seq<Task>, numbers: seq<nat>)

  /** One operator's second session, one session of a pipeline, or anything outside. */
  datatype Turn = Join(env: Env) | Session(i: nat) | Elsewhere(db: Db, now: Time, nextPull: nat)

  /** What happens outside leaves the status of the row alone; the row may be pruned. */
  predicate Possible(c: Crew, id: Id, turn: Turn) {
    match turn
    case Join(_) => true
    case Session(i) => i < |c.tasks| && c.tasks[i].pc != Ended
    case Elsewhere(db, _, _) => id in db.runs ==> id in c.db.runs && db.runs[id].status == c.db.runs[id].status
  }

  function Take(cfg: Config, c: Crew, id: Id, key: string, turn: Turn): Crew
    requires Possible(c, id, turn)
  {
    match turn
    case Join(env) => c.(db := World.SetStatus(c.db, id, Pending, None), tasks := c.tasks + [NewTask(key, false, env)])
    case Session(i) =>
      var a := Block(cfg, c.db, c.now, c.nextPull, id, c.tasks[i]);
      var opens := c.tasks[i].pc == OpenPr && a.task.pc == SavePr;
      Crew(a.db, c.now, c.nextPull + if opens then 1 else 0, c.tasks[i := a.task],
        c.numbers + if opens then [c.nextPull] else [])
    case Elsewhere(db, now, nextPull) => c.(db := db, now := now, nextPull := nextPull)
  }

  predicate AllPossible(cfg: Config, c: Crew, id: Id, key: string, run: seq<Turn>)
    decreases |run|
  {
    run == [] || (Possible(c, id, run[0]) && AllPossible(cfg, Take(cfg, c, id, key, run[0]), id, key, run[1..]))
  }

  function EndOf(cfg: Config, c: Crew, id: Id, key: string, run: seq<Turn>): Crew
    requires AllPossible(cfg, c, id, key, run)
    decreases |run|
  {
    if run == [] then c else EndOf(cfg, Take(cfg, c, id, key, run[0]), id, key, run[1..])
  }

  // ----- What survives

  /** The session neither trips the breaker nor is the last one failing to be written. */
  predicate Dispatched(t: Task) {
    !t.enforceBreaker && Fail !in t.env.raises && t.pc != Breaker && t.pc != TripMode && t.pc != TripQueue
  }

  /** The status a row can have once the pipeline at `pc` was the last to write it. */
  predicate WrittenAt(pc: Pc, s: Status) {
    if pc == Ended then s.Terminal() else Lifecycle.StatusAt(pc, s)
  }

  /** Some pipeline wrote the status last, and is where that status puts it. */
  predicate SomeoneWrote(c: Crew, id: Id) {
    id in c.db.runs ==> exists i | 0 <= i < |c.tasks| :: WrittenAt(c.tasks[i].pc, c.db.runs[id].status)
  }

  predicate CrewOk(c: Crew, id: Id) {
    (forall i | 0 <= i < |c.tasks| :: Dispatched(c.tasks[i])) && SomeoneWrote(c, id)
  }

  predicate LastWritesSucceed(run: seq<Turn>) {
    forall i | 0 <= i < |run| && run[i].Join? :: Fail !in run[i].env.raises
  }

  /** A pipeline that writes a status is afterwards where that status puts it, whoever
      wrote before; and one that does not write carries on from the status it was at. */
  lemma {:induction false} WritesItsOwn(pc: Pc, next: Pc, s: Status)
    requires Follows(pc, next) && pc != Ended && pc != Breaker && pc != TripMode && pc != TripQueue
    ensures StatusWritten(pc).Some? ==> WrittenAt(next, StatusWritten(pc).value)
    ensures StatusWritten(pc).None? && WrittenAt(pc, s) ==> WrittenAt(next, s)
  {
  }

  lemma {:induction false} RaisesWhereItIs(pc: Pc, s: Status)
    requires pc != Ended && pc != Fail && WrittenAt(pc, s)
    ensures WrittenAt(OnRaise(pc), s)
  {
  }

  lemma {:induction false} StaysDispatched(cfg: Config, db: Db, now: Time, number: nat, id: Id, t: Task)
    requires Dispatched(t) && t.pc != Ended
    ensures Dispatched(Block(cfg, db, now, number, id, t).task)
  {
    NextIsSuccessor(cfg, db, now, id, t);
    hide Commit, Next, Window;
  }

  lemma {:induction false} RowAfterBlock(cfg: Config, db: Db, now: Time, number: nat, id: Id, t: Task)
    requires Dispatched(t)
    ensures var a := Block(cfg, db, now, number, id, t);
      && a.db.runs.Keys == db.runs.Keys && a.db.settings == db.settings
      && (id in db.runs ==> a.db.runs[id] == if t.pc in t.env.raises then db.runs[id] else RowAfter(db.runs[id], t))
      && (forall j | j in db.runs && j != id :: a.db.runs[j] == db.runs[j])
      && a.task.pc == if t.pc in t.env.raises then OnRaise(t.pc) else Next(cfg, db, now, id, t)
  {
    hide RowAfter, Next, Window;
  }

  lemma {:induction false} SessionKeeps(cfg: Config, c: Crew, id: Id, key: string, i: nat)
    requires CrewOk(c, id) && Possible(c, id, Session(i))
    ensures CrewOk(Take(cfg, c, id, key, Session(i)), id)
  {
    var t, after := c.tasks[i], Take(cfg, c, id, key, Session(i));
    assert Dispatched(t);
    StaysDispatched(cfg, c.db, c.now, c.nextPull, id, t);
    RowAfterBlock(cfg, c.db, c.now, c.nextPull, id, t);
    NextIsSuccessor(cfg, c.db, c.now, id, t);
    assert forall j | 0 <= j < |c.tasks| && j != i :: after.tasks[j] == c.tasks[j];
    if id in c.db.runs {
      var w :| 0 <= w < |c.tasks| && WrittenAt(c.tasks[w].pc, c.db.runs[id].status);
      var s, next := c.db.runs[id].status, after.tasks[i].pc;
      Lifecycle.RowStatus(c.db.runs[id], t);
      if t.pc in t.env.raises {
        if w == i {
          RaisesWhereItIs(t.pc, s);
        }
        assert WrittenAt(after.tasks[w].pc, after.db.runs[id].status);
      } else {
        WritesItsOwn(t.pc, next, s);
        if StatusWritten(t.pc).Some? {
          assert WrittenAt(after.tasks[i].pc, after.db.runs[id].status);
        } else {
          assert WrittenAt(after.tasks[w].pc, after.db.runs[id].status);
        }
      }
    }
    hide Block, WrittenAt, RowAfter, Follows, Dispatched;
  }

  lemma {:induction false} JoinKeeps(cfg: Config, c: Crew, id: Id, key: string, env: Env)
    requires (forall i | 0 <= i < |c.tasks| :: Dispatched(c.tasks[i])) && Fail !in env.raises
    ensures CrewOk(Take(cfg, c, id, key, Join(env)), id)
  {
    var after := Take(cfg, c, id, key, Join(env));
    assert after.tasks[|c.tasks|] == NewTask(key, false, env);
    assert id in after.db.runs ==> WrittenAt(after.tasks[|c.tasks|].pc, after.db.runs[id].status);
  }

  lemma {:induction false} TurnKeeps(cfg: Config, c: Crew, id: Id, key: string, turn: Turn)
    requires CrewOk(c, id) && Possible(c, id, turn) && (turn.Join? ==> Fail !in turn.env.raises)
    ensures CrewOk(Take(cfg, c, id, key, turn), id)
  {
    hide Dispatched, WrittenAt;
    match turn
    case Join(env) => JoinKeeps(cfg, c, id, key, env);
    case Session(i) => SessionKeeps(cfg, c, id, key, i);
    case Elsewhere(_, _, _) =>
  }

  lemma {:induction false} RunKeeps(cfg: Config, c: Crew, id: Id, key: string, run: seq<Turn>)
    requires CrewOk(c, id) && AllPossible(cfg, c, id, key, run) && LastWritesSucceed(run)
    ensures CrewOk(EndOf(cfg, c, id, key, run), id)
    decreases |run|
  {
    if run != [] {
      hide CrewOk, Take, Possible;
      TurnKeeps(cfg, c, id, key, run[0]);
      RunKeeps(cfg, Take(cfg, c, id, key, run[0]), id, key, run[1..]);
    }
  }

  /** No run is lost: however many operators dispatch it, and however their pipelines
      and everything else are interleaved, once all pipelines have ended the row is
      finished or has been pruned. */
  lemma {:induction false} NoSharedRunIsLost(cfg: Config, c: Crew, id: Id, key: string, env: Env, run: seq<Turn>)
    requires c.tasks == [] && AllPossible(cfg, c, id, key, [Join(env)] + run)
    requires Fail !in env.raises && LastWritesSucceed(run)
    ensures var end := EndOf(cfg, c, id, key, [Join(env)] + run);
      (forall i | 0 <= i < |end.tasks| :: end.tasks[i].pc == Ended) && id in end.db.runs ==> end.db.runs[id].status.Terminal()
  {
    var all, joined := [Join(env)] + run, Take(cfg, c, id, key, Join(env));
    assert all[0] == Join(env) && all[1..] == run;
    JoinKeeps(cfg, c, id, key, env);
    hide Take, Possible;
    RunKeeps(cfg, joined, id, key, run);
  }

  /** No pipeline touches another row or a setting. */
  lemma {:induction false} OthersUntouched(cfg: Config, c: Crew, id: Id, key: string, turn: Turn)
    requires CrewOk(c, id) && Possible(c, id, turn) && !turn.Elsewhere?
    ensures var after := Take(cfg, c, id, key, turn).db;
      && after.settings == c.db.settings && after.runs.Keys == c.db.runs.Keys
      && forall j | j in c.db.runs && j != id :: after.runs[j] == c.db.runs[j]
  {
    if turn.Session? {
      assert Dispatched(c.tasks[turn.i]);
      RowAfterBlock(cfg, c.db, c.now, c.nextPull, id, c.tasks[turn.i]);
      hide Block, Dispatched, SomeoneWrote;
    }
  }

  function SessionsLeft(tasks: seq<Task>): nat {
    if tasks == [] then 0 else SessionsLeft(tasks[..|tasks| - 1]) + Left(tasks[|tasks| - 1].pc)
  }

  function Joins(run: seq<Turn>): nat {
    if run == [] then 0 else (if run[0].Join? then 1 else 0) + Joins(run[1..])
  }

  function Sessions(run: seq<Turn>): nat {
    if run == [] then 0 else (if run[0].Session? then 1 else 0) + Sessions(run[1..])
  }

  lemma {:induction false} LeftFalls(tasks: seq<Task>, i: nat, t: Task)
    requires i < |tasks| && Left(t.pc) < Left(tasks[i].pc)
    ensures SessionsLeft(tasks[i := t]) < SessionsLeft(tasks)
    decreases |tasks|
  {
    hide Left;
    var n := |tasks| - 1;
    if i < n {
      LeftFalls(tasks[..n], i, t);
      assert tasks[i := t][..n] == tasks[..n][i := t];
    } else {
      assert tasks[i := t][..n] == tasks[..n];
    }
  }

  /** However the pipelines are interleaved, each operator adds at most 23 sessions. */
  lemma {:induction false} SharedSessionsAreBounded(cfg: Config, c: Crew, id: Id, key: string, run: seq<Turn>)
    requires AllPossible(cfg, c, id, key, run)
    ensures Sessions(run) + SessionsLeft(EndOf(cfg, c, id, key, run).tasks) <= SessionsLeft(c.tasks) + 23 * Joins(run)
    decreases |run|
  {
    if run != [] {
      var next := Take(cfg, c, id, key, run[0]);
      if run[0].Join? {
        assert next.tasks[..|c.tasks|] == c.tasks;
      } else if run[0].Session? {
        BlocksEnd(cfg, c.db, c.now, c.nextPull, id, c.tasks[run[0].i]);
        hide Block, Left;
        LeftFalls(c.tasks, run[0].i, next.tasks[run[0].i]);
      }
      hide Left, Block;
      SharedSessionsAreBounded(cfg, next, id, key, run[1..]);
    }
  }

  // ----- What does not: one run, two pull requests

  /** The sessions of a pipeline that nothing skips and nobody triages, in order. */
  function NextOf(pc: Pc): Pc {
    match pc
    case ReadSettings => DedupGate
    case DedupGate => GraceGate
    case GraceGate => Pc.Collect
    case Collect => SaveContext
    case SaveContext => Pc.Generate
    case Generate => SaveLlm
    case SaveLlm => Pc.Post
    case Post => OpenPr
    case OpenPr => SavePr
    case SavePr => Notify
    case Notify => Finish
    case _ => Ended
  }

  predicate OnTheWay(pc: Pc) {
    pc in {ReadSettings, DedupGate, GraceGate, Pc.Collect, SaveContext, Pc.Generate, SaveLlm, Pc.Post, OpenPr, SavePr,
      Notify, Finish, Ended}
  }

  /** Pipeline `i` of run 0 has come from `start` to `pc`, and nothing else has happened. */
  ghost predicate Advanced(start: Crew, c: Crew, i: nat, pc: Pc) {
    && c.db.settings == map[] && c.db.runs.Keys == {0} && OnTheWay(pc)
    && i < |c.tasks| == |start.tasks| && (forall j | 0 <= j < |c.tasks| && j != i :: c.tasks[j] == start.tasks[j])
    && c.tasks[i].pc == pc && c.tasks[i].env == PatchEnv() && c.tasks[i].enforceBackoff && !c.tasks[i].enforceBreaker
    && (Left(pc) >= Left(OpenPr) ==> c.nextPull == start.nextPull && c.numbers == start.numbers)
    && (Left(pc) < Left(OpenPr) ==> c.nextPull == start.nextPull + 1 && c.tasks[i].pr == start.nextPull)
    && (Left(pc) < Left(OpenPr) ==> c.numbers == start.numbers + [start.nextPull])
    && (Left(pc) < Left(SavePr) ==> c.db.runs[0].prOpened && c.db.runs[0].prNumber == Some(start.nextPull))
    && (pc == Ended ==> c.db.runs[0].status == Done)
  }

  lemma {:induction false} GoesOn(db: Db, now: Time, t: Task)
    requires db.settings == map[] && db.runs.Keys == {0}
    requires t.env == PatchEnv() && t.enforceBackoff && !t.enforceBreaker && OnTheWay(t.pc)
    ensures Next(QUIET, db, now, 0, t) == NextOf(t.pc)
  {
    GatesAreOpen(db, now, t);
    hide HasBlockingPr, HasRecentUnproductive, WithinGrace, CeilingReached, Backoff, Grace, Window;
  }

  lemma {:induction false} TaskAfterBlock(cfg: Config, db: Db, now: Time, number: nat, id: Id, t: Task)
    requires t.pc !in t.env.raises
    ensures var next := Block(cfg, db, now, number, id, t).task;
      && next.pc == Next(cfg, db, now, id, t) && next.env == t.env && next.enforceBackoff == t.enforceBackoff
      && next.enforceBreaker == t.enforceBreaker && next.pr == if t.pc == OpenPr then number else t.pr
  {
    hide Next, Window, Commit;
  }

  /** What the row is after the session at `pc`, as far as it matters here. */
  lemma {:induction false} RowOnTheWay(run: Run, t: Task)
    requires OnTheWay(t.pc) && t.pc != Ended
    ensures var after := RowAfter(run, t);
      && (t.pc == SavePr ==> after.prOpened && after.prNumber == Some(t.pr))
      && (t.pc != SavePr ==> after.prOpened == run.prOpened && after.prNumber == run.prNumber)
      && (t.pc == Finish ==> after.status == Done)
    ensures Left(NextOf(t.pc)) < Left(t.pc) && OnTheWay(NextOf(t.pc))
    ensures NextOf(t.pc) == SavePr <==> t.pc == OpenPr
    ensures Left(NextOf(t.pc)) >= Left(OpenPr) <==> Left(t.pc) > Left(OpenPr)
    ensures Left(NextOf(t.pc)) < Left(SavePr) <==> Left(t.pc) <= Left(SavePr)
    ensures t.pc == OpenPr || Left(t.pc) != Left(OpenPr)
    ensures t.pc == SavePr || Left(t.pc) != Left(SavePr)
    ensures NextOf(t.pc) == Ended <==> t.pc == Finish
    ensures Left(SavePr) < Left(OpenPr)
  {
  }

  lemma {:induction false} OneOn(start: Crew, c: Crew, i: nat, pc: Pc)
    requires Advanced(start, c, i, pc) && pc != Ended
    ensures Possible(c, 0, Session(i)) && Advanced(start, Take(QUIET, c, 0, "a", Session(i)), i, NextOf(pc))
    ensures Left(NextOf(pc)) < Left(pc)
  {
    var t := c.tasks[i];
    GoesOn(c.db, c.now, t);
    RowAfterBlock(QUIET, c.db, c.now, c.nextPull, 0, t);
    TaskAfterBlock(QUIET, c.db, c.now, c.nextPull, 0, t);
    RowOnTheWay(c.db.runs[0], t);
    hide Next, Window, Block, Left, NextOf, OnTheWay, RowAfter;
  }

  /** The pipeline's sessions, up to its end. */
  function Alone(i: nat, pc: Pc): seq<Turn>
    requires OnTheWay(pc)
    decreases Left(pc)
  {
    if pc == Ended then [] else [Session(i)] + Alone(i, NextOf(pc))
  }

  lemma {:induction false} ToTheEnd(start: Crew, c: Crew, i: nat, pc: Pc)
    requires OnTheWay(pc) && Advanced(start, c, i, pc)
    ensures AllPossible(QUIET, c, 0, "a", Alone(i, pc))
    ensures Advanced(start, EndOf(QUIET, c, 0, "a", Alone(i, pc)), i, Ended)
    decreases Left(pc)
  {
    hide Advanced, Take, Possible, Left;
    if pc != Ended {
      OneOn(start, c, i, pc);
      AdvancedOnTheWay(start, Take(QUIET, c, 0, "a", Session(i)), i, NextOf(pc));
      ToTheEnd(start, Take(QUIET, c, 0, "a", Session(i)), i, NextOf(pc));
      var run := Alone(i, pc);
      assert run[0] == Session(i) && run[1..] == Alone(i, NextOf(pc));
    }
  }

  lemma {:induction false} AdvancedOnTheWay(start: Crew, c: Crew, i: nat, pc: Pc)
    requires Advanced(start, c, i, pc)
    ensures OnTheWay(pc)
  {
  }

  lemma {:induction false} OneAfterTheOther(cfg: Config, c: Crew, id: Id, key: string, run: seq<Turn>, more: seq<Turn>)
    requires AllPossible(cfg, c, id, key, run) && AllPossible(cfg, EndOf(cfg, c, id, key, run), id, key, more)
    ensures AllPossible(cfg, c, id, key, run + more)
    ensures EndOf(cfg, c, id, key, run + more) == EndOf(cfg, EndOf(cfg, c, id, key, run), id, key, more)
    decreases |run|
  {
    hide Take, Possible;
    if run == [] {
      assert run + more == more;
    } else {
      assert (run + more)[0] == run[0] && (run + more)[1..] == run[1..] + more;
      OneAfterTheOther(cfg, Take(cfg, c, id, key, run[0]), id, key, run[1..], more);
    }
  }

  /** A run that two operators have seen queued. */
  function SeenQueued(): Crew {
    Crew(Db(map[0 := NewRun("a", 0, false).WithStatus(Queued, Some("cost breaker"))], map[]), 0, 0, [], [])
  }

  /** One operator sets it to pending, and its pipeline runs to the end. */
  function OneDispatch(i: nat): seq<Turn> {
    [Join(PatchEnv())] + Alone(i, ReadSettings)
  }

  /** The turns of run 0 lead from `c` to `end`. */
  ghost predicate TurnsLead(c: Crew, run: seq<Turn>, end: Crew) {
    AllPossible(QUIET, c, 0, "a", run) && EndOf(QUIET, c, 0, "a", run) == end
  }

  lemma {:induction false} DispatchGives(c: Crew) returns (joined: Crew, end: Crew)
    requires c.db.settings == map[] && c.db.runs.Keys == {0}
    ensures joined.nextPull == c.nextPull && joined.numbers == c.numbers && |joined.tasks| == |c.tasks| + 1
    ensures TurnsLead(c, OneDispatch(|c.tasks|), end) && Advanced(joined, end, |c.tasks|, Ended)
  {
    joined := Take(QUIET, c, 0, "a", Join(PatchEnv()));
    assert Advanced(joined, joined, |c.tasks|, ReadSettings);
    var run := OneDispatch(|c.tasks|);
    assert run[0] == Join(PatchEnv()) && run[1..] == Alone(|c.tasks|, ReadSettings);
    hide Take, Advanced, Alone;
    ToTheEnd(joined, joined, |c.tasks|, ReadSettings);
    end := EndOf(QUIET, c, 0, "a", run);
  }

  lemma {:induction false} TurnsLeadOn(a: Crew, run: seq<Turn>, b: Crew, more: seq<Turn>, c: Crew)
    requires TurnsLead(a, run, b) && TurnsLead(b, more, c)
    ensures TurnsLead(a, run + more, c)
  {
    hide Take, Possible;
    OneAfterTheOther(QUIET, a, 0, "a", run, more);
  }

  /** The run is done, and its row names this pull request. */
  predicate DoneWith(c: Crew, number: nat) {
    0 in c.db.runs && c.db.runs[0].status == Done && c.db.runs[0].prNumber == Some(number)
  }

  /** Two operators, one after the other: the first pipeline opens a pull request and
      the run is done; the second operator, who had seen it queued, takes it up
      again, its pipeline passes every gate, since no gate looks at the run's own
      row, and opens another. The row names the second one only. */
  lemma {:induction false} TwoPullsForOneRun() returns (once: Crew, twice: Crew)
    ensures TurnsLead(SeenQueued(), OneDispatch(0), once) && DoneWith(once, 0)
    ensures TurnsLead(SeenQueued(), OneDispatch(0) + OneDispatch(1), twice) && DoneWith(twice, 1)
    ensures twice.numbers == [0, 1]
  {
    hide OneDispatch, TurnsLead;
    var first, second;
    first, once := DispatchGives(SeenQueued());
    assert |once.tasks| == 1;
    second, twice := DispatchGives(once);
    TurnsLeadOn(SeenQueued(), OneDispatch(0), once, OneDispatch(1), twice);
  }
}
