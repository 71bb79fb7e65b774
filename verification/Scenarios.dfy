/**
 Runs of the agent, given in full, that show where a property fails, that a bound is
 reached, and that a premise can be met.
 */
module Scenarios {
  import opened Results
  import opened Repository
  import opened Pipeline
  import opened World
  import opened Reachability
  import opened OneOpenRun
  import Lifecycle
  import OnePr
  import OnePull
  import Blindness
  import Processor
  import RunRate

  /** No ceiling, no backoff, no pruning, and no setting that reads as a number. */
  const QUIET: Config := Config(0, 0, 0, (s: string) => None)

  const EMPTY: World := World(Db(map[], map[]), 0, map[], map[], map[], 0, Past(map[], map[], map[], map[], {}))

  // ----- Runs put together

  /** The run leads from `a` to `b`, and every insert in it follows a lookup that found
      nothing. */
  ghost predicate Looked(a: World, run: seq<Action>, b: World) {
    Leads(QUIET, a, run, b) && AllLookUp(QUIET, a, run)
  }

  lemma {:induction false} LookedOn(a: World, run: seq<Action>, b: World, more: seq<Action>, c: World)
    requires Looked(a, run, b) && Looked(b, more, c)
    ensures Looked(a, run + more, c)
    decreases |run|
  {
    hide Do, Enabled, LooksUp;
    LeadsOn(QUIET, a, run, b, more, c);
    if run == [] {
      assert run + more == more;
    } else {
      assert (run + more)[0] == run[0] && (run + more)[1..] == run[1..] + more;
      LookedOn(Do(QUIET, a, run[0]), run[1..], b, more, c);
    }
  }

  lemma {:induction false} LookedOne(a: World, x: Action)
    requires Enabled(a, x) && LooksUp(a, x)
    ensures Looked(a, [x], Do(QUIET, a, x))
  {
    hide Do, Enabled, LooksUp;
    assert [x][0] == x && [x][1..] == [];
    var b := Do(QUIET, a, x);
    assert AllEnabled(QUIET, b, []) && End(QUIET, b, []) == b && AllLookUp(QUIET, b, []);
  }

  // ----- One pipeline at work

  /** Run 0 of alert "a" is about to run the session at `pc`. */
  ghost predicate Works(w: World, env: Env, enforce: bool, pc: Pc) {
    && w.db.settings == map[] && env.raises == {}
    && 0 in w.db.runs && w.db.runs[0].key == "a" && 0 in w.past.born
    && 0 in w.tasks && w.tasks[0].pc == pc && w.tasks[0].key == "a" && w.tasks[0].env == env
    && w.tasks[0].enforceBreaker == enforce && w.tasks[0].enforceBackoff
  }

  /** What one of its sessions leaves alone. */
  ghost predicate OnlyZero(w: World, v: World) {
    && v.db.runs.Keys == w.db.runs.Keys && (forall j | j in w.db.runs && j != 0 :: v.db.runs[j] == w.db.runs[j])
    && v.inbox == w.inbox && v.now == w.now && v.past.born == w.past.born
  }

  lemma {:induction false} OneSession(w: World, env: Env, enforce: bool, pc: Pc, next: Pc)
    requires Works(w, env, enforce, pc) && pc != TripMode && next != Ended
    requires Next(QUIET, w.db, w.now, 0, w.tasks[0]) == next
    ensures var v := Do(QUIET, w, Step(0));
      && Works(v, env, enforce, next) && OnlyZero(w, v) && v.db.runs[0] == RowAfter(w.db.runs[0], w.tasks[0])
      && (pc != OpenPr ==> v.pulls == w.pulls && v.nextPull == w.nextPull && v.tasks[0].pr == w.tasks[0].pr)
  {
    var t := w.tasks[0];
    BlockIsLocal(QUIET, w.db, w.now, w.nextPull, 0, t);
    Lifecycle.BlockRow(QUIET, w.db, w.now, w.nextPull, 0, t);
    Lifecycle.BlockEnv(QUIET, w.db, w.now, w.nextPull, 0, t);
    Lifecycle.KeepsIdentity(w.db.runs[0], t);
    SettingsStay(QUIET, w.db, w.now, w.nextPull, 0, t);
    hide RowAfter, Commit, Window, OnRaise, PastAfter, Next;
  }

  lemma {:induction false} SettingsStay(cfg: Config, db: Db, now: Time, number: nat, id: Id, t: Task)
    requires t.pc != TripMode
    ensures Block(cfg, db, now, number, id, t).db.settings == db.settings
  {
    hide RowAfter, Window, OnRaise, Next;
  }

  /** With nothing configured and no other run, every gate is open. */
  lemma {:induction false} GatesAreOpen(db: Db, now: Time, t: Task)
    requires db.settings == map[] && db.runs.Keys == {0} && t.enforceBackoff
    ensures t.pc == Breaker && !t.env.overBudget ==> Next(QUIET, db, now, 0, t) == DedupGate
    ensures t.pc == DedupGate ==> Next(QUIET, db, now, 0, t) == GraceGate
    ensures t.pc == GraceGate ==> Next(QUIET, db, now, 0, t) == AfterGates(t.env)
  {
    assert RunsCeiling(QUIET, db) == 0 && Backoff(QUIET, db) == Some(0) && Grace(QUIET, db) == Some(DEFAULT_GRACE_MINUTES);
  }

  function Steps(n: nat): seq<Action> {
    if n == 0 then [] else Steps(n - 1) + [Step(0)]
  }

  /** The run has come from `start` by `n` of its own sessions, and nothing else. */
  ghost predicate Came(start: World, n: nat, w: World, env: Env, pc: Pc, status: Status) {
    && Looked(start, Steps(n), w) && Works(w, env, true, pc) && OnlyZero(start, w)
    && w.db.runs[0].status == status
    && (Left(pc) > Left(SavePr) ==> w.pulls == start.pulls && w.nextPull == start.nextPull)
  }

  /** One more session. */
  lemma {:induction false} ComesOn(start: World, n: nat, w: World, env: Env, pc: Pc, status: Status, next: Pc)
    returns (v: World)
    requires Came(start, n, w, env, pc, status) && pc != TripMode && pc != OpenPr && pc != Ended && next != Ended
    requires Next(QUIET, w.db, w.now, 0, w.tasks[0]) == next
    ensures v == Do(QUIET, w, Step(0)) && Came(start, n + 1, v, env, next, Lifecycle.StatusThen(pc, status))
  {
    v := Do(QUIET, w, Step(0));
    OneSession(w, env, true, pc, next);
    NextIsSuccessor(QUIET, w.db, w.now, 0, w.tasks[0]);
    SuccessorsAreLower(pc);
    LookedOne(w, Step(0));
    LookedOn(start, Steps(n), w, [Step(0)], v);
    Lifecycle.RowStatus(w.db.runs[0], w.tasks[0]);
    hide Looked, Do, RowAfter, Next, Left, Follows, Lifecycle.StatusThen;
  }

  /** A session whose successor depends on the environment alone. */
  lemma {:induction false} Goes(start: World, n: nat, w: World, env: Env, pc: Pc, status: Status, next: Pc)
    returns (v: World)
    requires Came(start, n, w, env, pc, status) && pc != TripMode && pc != OpenPr && pc != Ended && next != Ended
    requires Processor.Goes(NewTask("a", true, env), pc, next)
    ensures Came(start, n + 1, v, env, next, Lifecycle.StatusThen(pc, status))
  {
    hide Looked, Next;
    v := ComesOn(start, n, w, env, pc, status, next);
  }

  /** A gate, while there is no other run. */
  lemma {:induction false} Passes(start: World, n: nat, w: World, env: Env, pc: Pc, next: Pc) returns (v: World)
    requires Came(start, n, w, env, pc, Pending) && start.db.runs.Keys == {0} && !env.overBudget
    requires (pc == Breaker && next == DedupGate) || (pc == DedupGate && next == GraceGate)
      || (pc == GraceGate && next == AfterGates(env))
    ensures Came(start, n + 1, v, env, next, Pending)
  {
    GatesAreOpen(w.db, w.now, w.tasks[0]);
    hide Looked, Next;
    v := ComesOn(start, n, w, env, pc, Pending, next);
  }

  /** Run 0 has been received, and its pipeline is about to begin. */
  function Started(env: Env): World {
    World(Db(map[0 := NewRun("a", 0, false)], map[]), 0, map[0 := NewTask("a", true, env)], map[], map[], 0,
      Past(map[0 := Birth("a", 0)], map[0 := [Pending]], map[], map[], {}))
  }

  const FIRST: seq<Action> := [Receive(0, "a", false)]

  lemma {:induction false} Starts(env: Env)
    ensures Looked(EMPTY, FIRST + [Spawn(0, env)], Started(env))
  {
    var received := Insert(EMPTY, 0, "a", false, ToSpawn("a", true));
    assert Do(QUIET, EMPTY, Receive(0, "a", false)) == received;
    LookedOne(EMPTY, Receive(0, "a", false));
    Spawns(env);
    LookedOne(received, Spawn(0, env));
    hide Looked, Insert, Do;
    LookedOn(EMPTY, FIRST, received, [Spawn(0, env)], Started(env));
  }

  lemma {:induction false} Spawns(env: Env)
    ensures var received := Insert(EMPTY, 0, "a", false, ToSpawn("a", true));
      Enabled(received, Spawn(0, env)) && Do(QUIET, received, Spawn(0, env)) == Started(env)
  {
  }

  lemma {:induction false} Begins(env: Env)
    requires env.raises == {}
    ensures Came(Started(env), 0, Started(env), env, ReadSettings, Pending)
  {
    assert Leads(QUIET, Started(env), [], Started(env)) && AllLookUp(QUIET, Started(env), []);
  }

  lemma {:induction false} FreshTask(env: Env)
    ensures NewTask("a", true, env).env == env && NewTask("a", true, env).enforceBreaker
    ensures Started(env).db.runs.Keys == {0}
  {
  }

  /** Past the gates, when nothing filters the alert and no budget is spent. */
  lemma {:induction false} PassesGates(env: Env) returns (w: World)
    requires env.raises == {} && !env.filtered && !env.overBudget
    ensures Came(Started(env), 4, w, env, AfterGates(env), Pending)
  {
    hide Came, Processor.Goes, NewTask, Started, AfterGates;
    Begins(env);
    FreshTask(env);
    Processor.Straight(NewTask("a", true, env));
    var start := Started(env);
    w := Goes(start, 0, start, env, ReadSettings, Pending, Breaker);
    w := Passes(start, 1, w, env, Breaker, DedupGate);
    w := Passes(start, 2, w, env, DedupGate, GraceGate);
    w := Passes(start, 3, w, env, GraceGate, AfterGates(env));
  }

  // ----- A run that is being triaged is not seen

  function TriageEnv(): Env {
    Env(false, false, true, Triaged(false), false, false, NoInvestigator, false, NothingToPost(""), false, {})
  }

  lemma {:induction false} ReachesTriage(env: Env) returns (w: World)
    requires env.raises == {} && !env.filtered && !env.overBudget && AfterGates(env) == Pc.Triage && env.triage.Triaged?
    ensures Came(Started(env), 5, w, env, SaveTriage, Triaging)
  {
    hide Came, Processor.Goes, NewTask, Started, AfterGates;
    FreshTask(env);
    Processor.Branching(NewTask("a", true, env));
    var v := PassesGates(env);
    w := Goes(Started(env), 4, v, env, Pc.Triage, Pending, SaveTriage);
  }

  /** The second alert arrives. */
  function Second(w: World): World {
    Insert(w, 1, "a", false, ToSpawn("a", true))
  }

  lemma {:induction false} SecondIsReceived(w: World)
    requires OnlyZero(Started(TriageEnv()), w) && Works(w, TriageEnv(), true, SaveTriage)
    requires w.db.runs[0].status == Triaging
    ensures Looked(w, [Receive(1, "a", false)], Second(w))
    ensures Works(Second(w), TriageEnv(), true, SaveTriage) && Second(w).db.runs[0].status == Triaging
    ensures OpenRow(Second(w).db, 1, "a")
  {
    assert w.past.born == map[0 := Birth("a", 0)] && w.db.runs.Keys == {0};
    assert LooksUp(w, Receive(1, "a", false));
    LookedOne(w, Receive(1, "a", false));
    assert Do(QUIET, w, Receive(1, "a", false)) == Second(w);
    hide Looked, Do, LooksUp;
  }

  /** The first run goes on to collect, and both are open. */
  lemma {:induction false} BothGoOn(w: World) returns (v: World)
    requires Works(w, TriageEnv(), true, SaveTriage) && w.db.runs[0].status == Triaging && OpenRow(w.db, 1, "a")
    ensures Looked(w, Steps(2), v) && OpenRow(v.db, 0, "a") && OpenRow(v.db, 1, "a")
  {
    hide Came, NewTask, Processor.Goes, Works, Started, OpenRow, Looked;
    var env := TriageEnv();
    FreshTask(env);
    Processor.Branching(NewTask("a", true, env));
    StartsHere(w, env);
    v := Goes(w, 0, w, env, SaveTriage, Triaging, Collect);
    v := Goes(w, 1, v, env, Collect, Triaging, SaveContext);
    BothAreOpen(w, v, env);
  }

  lemma {:induction false} StartsHere(w: World, env: Env)
    requires Works(w, env, true, SaveTriage) && w.db.runs[0].status == Triaging
    ensures Came(w, 0, w, env, SaveTriage, Triaging)
  {
    assert Leads(QUIET, w, [], w) && AllLookUp(QUIET, w, []);
  }

  lemma {:induction false} BothAreOpen(w: World, v: World, env: Env)
    requires Came(w, 2, v, env, SaveContext, Collecting) && OpenRow(w.db, 1, "a")
    ensures Looked(w, Steps(2), v) && OpenRow(v.db, 0, "a") && OpenRow(v.db, 1, "a")
  {
    hide Looked;
  }

  const TRIAGE_RUN: seq<Action> :=
    FIRST + [Spawn(0, TriageEnv())] + Steps(5) + [Receive(1, "a", false)] + Steps(2)

  /** With triage on, a second run of an alert is received while the first is being
      triaged, although every insert followed a lookup that found nothing; both end up
      in statuses the lookup knows. */
  lemma {:induction false} TriageHidesARun()
    ensures Initial(EMPTY) && AllLookUp(QUIET, EMPTY, TRIAGE_RUN)
    ensures !OneOpen(End(QUIET, EMPTY, TRIAGE_RUN).db)
  {
    var start := Started(TriageEnv());
    Starts(TriageEnv());
    var w := ReachesTriage(TriageEnv());
    SecondIsReceived(w);
    var v := BothGoOn(Second(w));
    assert Looked(start, Steps(5), w) && Initial(EMPTY);
    assert !OneOpen(v.db);
    assert TRIAGE_RUN == FIRST + [Spawn(0, TriageEnv())] + Steps(5) + [Receive(1, "a", false)] + Steps(2);
    hide Looked, OneOpen, Steps, Started, Initial;
    LookedOn(EMPTY, FIRST + [Spawn(0, TriageEnv())], start, Steps(5), w);
    LookedOn(EMPTY, FIRST + [Spawn(0, TriageEnv())] + Steps(5), w, [Receive(1, "a", false)], Second(w));
    LookedOn(EMPTY, FIRST + [Spawn(0, TriageEnv())] + Steps(5) + [Receive(1, "a", false)], Second(w), Steps(2), v);
    LookedIs(EMPTY, TRIAGE_RUN, v);
  }

  lemma {:induction false} LookedIs(a: World, run: seq<Action>, b: World)
    requires Looked(a, run, b)
    ensures AllLookUp(QUIET, a, run) && End(QUIET, a, run) == b
  {
  }

  // ----- A pull request that is closed keeps blocking

  function PatchEnv(): Env {
    Env(false, false, true, NoTriage, false, false, NoInvestigator, false, Opens, true, {})
  }

  predicate Plain(env: Env) {
    && env.raises == {} && !env.filtered && !env.overBudget && AfterGates(env) == Collect
    && !env.collectRaises && !env.suspended && env.investigation.NoInvestigator? && !env.generateRaises && env.post.Opens?
  }

  lemma {:induction false} ReachesOpenPr(env: Env) returns (w: World)
    requires Plain(env)
    ensures Came(Started(env), 9, w, env, OpenPr, Posting)
  {
    hide Came, Processor.Goes, NewTask, Started, AfterGates;
    FreshTask(env);
    Processor.Branching(NewTask("a", true, env));
    Processor.Synthesis(NewTask("a", true, env));
    SavedGoesOn(NewTask("a", true, env));
    var start := Started(env);
    w := PassesGates(env);
    w := Goes(start, 4, w, env, Collect, Pending, SaveContext);
    w := Goes(start, 5, w, env, SaveContext, Collecting, Pc.Generate);
    w := Goes(start, 6, w, env, Pc.Generate, Collecting, SaveLlm);
    w := Goes(start, 7, w, env, SaveLlm, Generating, Post);
    w := Goes(start, 8, w, env, Post, Generating, OpenPr);
  }

  lemma {:induction false} SavedGoesOn(t: Task)
    ensures Processor.Goes(t, SaveLlm, Post)
  {
    hide HasBlockingPr, HasRecentUnproductive, WithinGrace, CeilingReached, Backoff, Grace, Window;
  }

  lemma {:induction false} LookedStep(start: World, n: nat, w: World)
    requires Looked(start, Steps(n), w) && 0 in w.tasks
    ensures Looked(start, Steps(n + 1), Do(QUIET, w, Step(0)))
  {
    LookedOne(w, Step(0));
    hide Looked, Do;
    LookedOn(start, Steps(n), w, [Step(0)], Do(QUIET, w, Step(0)));
  }

  /** GitHub gives the pull request its number. */
  lemma {:induction false} OpensZero(w: World, env: Env)
    requires Works(w, env, true, OpenPr) && w.pulls == map[] && w.nextPull == 0 && env.post.Opens?
    ensures var v := Do(QUIET, w, Step(0));
      Works(v, env, true, SavePr) && v.pulls == map[0 := Pull("a", 0, true)] && v.tasks[0].pr == 0
  {
    Processor.BlockOpens(QUIET, w, 0, w.tasks[0]);
    hide Block, PastAfter, Left, Commit, Next;
  }

  /** And the run records it. */
  lemma {:induction false} RecordsZero(w: World, env: Env)
    requires Works(w, env, true, SavePr) && Lifecycle.Inv(w) && w.tasks[0].pr == 0
    ensures var v := Do(QUIET, w, Step(0));
      v.pulls == w.pulls && OnePr.BlocksKey(v.db, 0, "a") && v.db.runs[0].prNumber == Some(0)
  {
    Processor.Onward(QUIET, w, 0, w.tasks[0]);
    OneSession(w, env, true, SavePr, Notify);
    Lifecycle.TaskFacts(w, 0);
    OnePull.RecordsNow(w.db.runs[0], w.tasks[0]);
    hide Do, RowAfter, Next, Lifecycle.Inv, Lifecycle.RowOk, Lifecycle.TaskRow;
  }

  lemma {:induction false} AtOpening(env: Env, w: World)
    requires Came(Started(env), 9, w, env, OpenPr, Posting)
    ensures Looked(Started(env), Steps(9), w) && Works(w, env, true, OpenPr) && w.pulls == map[] && w.nextPull == 0
  {
    hide Looked, Works, Steps, NewTask;
    assert Left(OpenPr) > Left(SavePr);
  }

  /** From the empty database to the recorded pull request. */
  lemma {:induction false} PullIsRecorded(env: Env) returns (u: World)
    requires Plain(env)
    ensures Looked(EMPTY, FIRST + [Spawn(0, env)] + Steps(11), u)
    ensures u.pulls == map[0 := Pull("a", 0, true)]
    ensures OnePr.BlocksKey(u.db, 0, "a") && u.db.runs[0].prNumber == Some(0)
  {
    hide Looked, Came, Works, Lifecycle.Inv, Started, Do, Steps, OnePr.BlocksKey;
    var head, start := FIRST + [Spawn(0, env)], Started(env);
    Starts(env);
    Lifecycle.InitialInv(EMPTY);
    var w := ReachesOpenPr(env);
    AtOpening(env, w);
    HasTask(w, env, OpenPr);
    LookedStep(start, 9, w);
    OpensZero(w, env);
    var v := Do(QUIET, w, Step(0));
    LookedOn(EMPTY, head, start, Steps(10), v);
    LookedInv(EMPTY, head + Steps(10), v);
    HasTask(v, env, SavePr);
    LookedStep(start, 10, v);
    RecordsZero(v, env);
    u := Do(QUIET, v, Step(0));
    LookedOn(EMPTY, head, start, Steps(11), u);
  }

  lemma {:induction false} HasTask(w: World, env: Env, pc: Pc)
    requires Works(w, env, true, pc)
    ensures 0 in w.tasks
  {
  }

  const PATCH_RUN: seq<Action> := FIRST + [Spawn(0, PatchEnv())] + Steps(11) + [Close(0)]

  lemma {:induction false} ClosesZero(u: World)
    requires u.pulls == map[0 := Pull("a", 0, true)] && OnePr.BlocksKey(u.db, 0, "a")
    ensures Looked(u, [Close(0)], Do(QUIET, u, Close(0)))
    ensures var v := Do(QUIET, u, Close(0)); v.db == u.db && 0 in v.pulls && !v.pulls[0].open
  {
    LookedOne(u, Close(0));
    hide Looked;
  }

  /** After this run the pull request of run 0 is closed on GitHub, and still blocks. */
  lemma {:induction false} ClosedStillBlocks()
    ensures Initial(EMPTY) && Lifecycle.Inv(End(QUIET, EMPTY, PATCH_RUN))
    ensures var w := End(QUIET, EMPTY, PATCH_RUN);
      && Blindness.NoStatuses(w) && Blindness.BlocksWhileThere(w, 0, "a") && 0 in w.db.runs
      && w.db.runs[0].prNumber == Some(0) && 0 in w.pulls && !w.pulls[0].open
  {
    var u := PullIsRecorded(PatchEnv());
    ClosesZero(u);
    var v := Do(QUIET, u, Close(0));
    var head := FIRST + [Spawn(0, PatchEnv())] + Steps(11);
    assert PATCH_RUN == head + [Close(0)];
    Lifecycle.InitialInv(EMPTY);
    hide Looked, Lifecycle.Inv, Steps, Blindness.NoStatuses, End, Do;
    LookedOn(EMPTY, head, u, [Close(0)], v);
    LookedIs(EMPTY, PATCH_RUN, v);
    LookedInv(EMPTY, PATCH_RUN, v);
    Blindness.ThePollerIsBlind(QUIET, EMPTY, PATCH_RUN, "a", 0, 0, 0);
    Lifecycle.RowFacts(v, 0);
  }

  lemma {:induction false} LookedInv(a: World, run: seq<Action>, b: World)
    requires Looked(a, run, b) && Lifecycle.Inv(a)
    ensures Lifecycle.Inv(b)
  {
    hide Lifecycle.Inv;
    Lifecycle.EndInv(QUIET, a, run);
  }

  /** And it goes on blocking, whatever follows, until its row is pruned. */
  lemma {:induction false} ClosedBlocksOn(more: seq<Action>, j: Id)
    requires j != 0
    ensures var w := End(QUIET, End(QUIET, EMPTY, PATCH_RUN), more); 0 in w.db.runs ==> HasBlockingPr(w.db, "a", j)
  {
    hide Lifecycle.Inv, Blindness.NoStatuses, Blindness.BlocksWhileThere, End, HasBlockingPr;
    ClosedStillBlocks();
    Blindness.BlockedUntilPruned(QUIET, End(QUIET, EMPTY, PATCH_RUN), more, 0, "a");
  }

  // ----- The hourly bound is reached

  /** One run is received, spawned, and let through by the breaker. */
  function Launch(k: Id): seq<Action> {
    ([Receive(k, "a", false)] + [Spawn(k, PatchEnv())]) + ([Step(k)] + [Step(k)])
  }

  function Launches(k: nat): seq<Action> {
    if k == 0 then [] else Launches(k - 1) + Launch(k - 1)
  }

  /** Runs 0 to `k` - 1 have been created and let through at this very moment. */
  ghost predicate Launched(w: World, k: nat, settings: map<string, string>) {
    && w.db.settings == settings
    && (forall id: Id :: id in w.db.runs <==> id < k)
    && (forall id: Id :: id in w.past.born <==> id < k)
    && (forall id: Id :: id in w.past.passed <==> id < k)
    && (forall id: Id | id < k ::
      w.db.runs[id].createdAt == w.now && w.past.born[id].at == w.now && w.past.passed[id] == w.now)
  }

  lemma {:induction false} CountBelow(s: set<Id>, k: nat)
    requires forall id: Id :: id in s <==> id < k
    ensures |s| == k
  {
    if k == 0 {
      assert s == {};
    } else {
      CountBelow(s - {k - 1}, k - 1);
    }
  }

  function Entered(w: World, k: Id): World {
    DoSpawnIn(Insert(w, k, "a", false, ToSpawn("a", true)), k)
  }

  function DoSpawnIn(w: World, k: Id): World {
    if k in w.inbox && w.inbox[k].ToSpawn? then DoSpawn(w, k, PatchEnv()) else w
  }

  lemma {:induction false} LaunchEnters(cfg: Config, w: World, k: Id, settings: map<string, string>)
    requires Launched(w, k, settings)
    ensures Leads(cfg, w, [Receive(k, "a", false)] + [Spawn(k, PatchEnv())], Entered(w, k))
    ensures var v := Entered(w, k);
      && v.now == w.now && v.db.settings == settings && v.past.passed == w.past.passed
      && k in v.tasks && v.tasks[k] == NewTask("a", true, PatchEnv())
      && (forall id: Id :: id in v.db.runs <==> id < k + 1) && (forall id: Id :: id in v.past.born <==> id < k + 1)
      && (forall id: Id | id < k + 1 :: v.db.runs[id].createdAt == w.now && v.past.born[id].at == w.now)
  {
    var inserted := Insert(w, k, "a", false, ToSpawn("a", true));
    assert Do(cfg, w, Receive(k, "a", false)) == inserted;
    assert Enabled(inserted, Spawn(k, PatchEnv())) && Do(cfg, inserted, Spawn(k, PatchEnv())) == Entered(w, k);
    LeadsOne(cfg, w, Receive(k, "a", false));
    LeadsOne(cfg, inserted, Spawn(k, PatchEnv()));
    hide Leads, Do, NewTask;
    LeadsOn(cfg, w, [Receive(k, "a", false)], inserted, [Spawn(k, PatchEnv())], Entered(w, k));
  }

  lemma {:induction false} LeadsOne(cfg: Config, a: World, x: Action)
    requires Enabled(a, x)
    ensures Leads(cfg, a, [x], Do(cfg, a, x))
  {
    hide Do, Enabled;
    assert [x][0] == x && [x][1..] == [];
    assert AllEnabled(cfg, Do(cfg, a, x), []) && End(cfg, Do(cfg, a, x), []) == Do(cfg, a, x);
  }

  /** The two sessions up to the gates write nothing. */
  lemma {:induction false} ReadsSettings(cfg: Config, w: World, k: Id)
    requires k in w.tasks && w.tasks[k] == NewTask("a", true, PatchEnv())
    ensures var v := DoStep(cfg, w, k);
      && v.db == w.db && v.now == w.now && v.past.born == w.past.born && v.past.passed == w.past.passed
      && k in v.tasks && v.tasks[k] == NewTask("a", true, PatchEnv()).(pc := Breaker)
  {
    var t := w.tasks[k];
    Processor.Straight(t);
    Processor.BlockPasses(cfg, w, k, t, Breaker);
    hide Block, Noted, EndedUnproductive;
  }

  lemma {:induction false} IsLetThrough(cfg: Config, w: World, k: Id)
    requires k in w.tasks && w.tasks[k] == NewTask("a", true, PatchEnv()).(pc := Breaker)
    requires !CeilingReached(cfg, w.db, w.now)
    ensures var v := DoStep(cfg, w, k);
      v.db == w.db && v.now == w.now && v.past.born == w.past.born && v.past.passed == w.past.passed[k := w.now]
  {
    Processor.BlockChecks(cfg, w, k, w.tasks[k]);
    hide Block, Noted, EndedUnproductive, CeilingReached;
  }

  lemma {:induction false} BelowCeiling(cfg: Config, db: Db, now: Time, k: nat)
    requires k < RunsCeiling(cfg, db) && forall id: Id :: id in db.runs <==> id < k
    requires forall id: Id | id < k :: db.runs[id].createdAt == now
    ensures !CeilingReached(cfg, db, now)
  {
    CountBelow(Since(db, now - HOUR), k);
    hide RunsCeiling;
  }

  lemma {:induction false} GetsThrough(cfg: Config, w: World, k: Id) returns (v: World)
    requires k in w.tasks && w.tasks[k] == NewTask("a", true, PatchEnv()) && !CeilingReached(cfg, w.db, w.now)
    ensures Leads(cfg, w, [Step(k)] + [Step(k)], v)
    ensures v.db == w.db && v.now == w.now && v.past.born == w.past.born && v.past.passed == w.past.passed[k := w.now]
  {
    ReadsSettings(cfg, w, k);
    var read := DoStep(cfg, w, k);
    LeadsOne(cfg, w, Step(k));
    IsLetThrough(cfg, read, k);
    LeadsOne(cfg, read, Step(k));
    v := DoStep(cfg, read, k);
    hide Leads, DoStep, NewTask, CeilingReached;
    LeadsOn(cfg, w, [Step(k)], read, [Step(k)], v);
  }

  lemma {:induction false} LaunchOne(cfg: Config, w: World, k: Id, settings: map<string, string>) returns (v: World)
    requires Launched(w, k, settings) && k + 1 < RunsCeiling(cfg, w.db)
    ensures Leads(cfg, w, Launch(k), v) && Launched(v, k + 1, settings) && v.now == w.now
  {
    hide Entered, Leads, NewTask, PatchEnv, RunsCeiling, CeilingReached;
    LaunchEnters(cfg, w, k, settings);
    var entered := Entered(w, k);
    SameCeiling(cfg, w.db, entered.db);
    BelowCeiling(cfg, entered.db, entered.now, k + 1);
    v := GetsThrough(cfg, entered, k);
    LeadsOn(cfg, w, [Receive(k, "a", false)] + [Spawn(k, PatchEnv())], entered, [Step(k)] + [Step(k)], v);
  }

  lemma {:induction false} SameCeiling(cfg: Config, a: Db, b: Db)
    requires a.settings == b.settings
    ensures RunsCeiling(cfg, a) == RunsCeiling(cfg, b)
  {
  }

  lemma {:induction false} LaunchAll(cfg: Config, w: World, k: nat) returns (v: World)
    requires Launched(w, 0, w.db.settings) && (k > 0 ==> k < RunsCeiling(cfg, w.db))
    ensures Leads(cfg, w, Launches(k), v) && Launched(v, k, w.db.settings) && v.now == w.now
  {
    hide Launched, Launch, RunsCeiling;
    if k == 0 {
      v := w;
    } else {
      var u := LaunchAll(cfg, w, k - 1);
      hide Leads;
      LaunchedCeiling(cfg, w, u, k - 1);
      v := LaunchOne(cfg, u, k - 1, w.db.settings);
      LeadsOn(cfg, w, Launches(k - 1), u, Launch(k - 1), v);
    }
  }

  lemma {:induction false} LaunchedCeiling(cfg: Config, w: World, u: World, k: nat)
    requires Launched(u, k, w.db.settings)
    ensures RunsCeiling(cfg, u.db) == RunsCeiling(cfg, w.db)
  {
    SameCeiling(cfg, w.db, u.db);
    hide RunsCeiling;
  }

  lemma {:induction false} LaunchesLeaveCeiling(k: nat, a: Action)
    requires a in Launches(k)
    ensures RunRate.LeavesCeiling(a)
  {
    if a !in Launch(k - 1) {
      LaunchesLeaveCeiling(k - 1, a);
    }
  }

  /** For every ceiling, from every initial world: a run after which ceiling minus one
      runs were created and let through at one moment, so the bound cannot be lowered. */
  lemma {:induction false} TheBoundIsReached(cfg: Config, w: World, ceiling: nat)
    requires Initial(w) && RunsCeiling(cfg, w.db) == ceiling > 0
    ensures forall a | a in Launches(ceiling - 1) :: RunRate.LeavesCeiling(a)
    ensures |RunRate.Through(End(cfg, w, Launches(ceiling - 1)), w.now)| == ceiling - 1
  {
    assert Launched(w, 0, w.db.settings);
    hide Initial, RunsCeiling, AllEnabled, RunRate.LeavesCeiling;
    var v := LaunchAll(cfg, w, ceiling - 1);
    forall a | a in Launches(ceiling - 1) ensures RunRate.LeavesCeiling(a) {
      LaunchesLeaveCeiling(ceiling - 1, a);
    }
    CountBelow(RunRate.Through(v, w.now), ceiling - 1);
  }
}
