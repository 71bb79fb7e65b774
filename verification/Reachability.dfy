/**
 Which worlds can be reached from which, as a relation that composes.
 */
module Reachability {
  import opened Repository
  import opened Pipeline
  import opened World
  import Lifecycle

  ghost predicate AllEnabled(cfg: Config, w: World, run: seq<Action>)
    decreases |run|
  {
    run == [] || (Enabled(w, run[0]) && AllEnabled(cfg, Do(cfg, w, run[0]), run[1..]))
  }

  ghost predicate Leads(cfg: Config, a: World, run: seq<Action>, b: World) {
    AllEnabled(cfg, a, run) && End(cfg, a, run) == b
  }

  /** Some actions lead from `a` to `b`. */
  ghost predicate Reaches(cfg: Config, a: World, b: World) {
    exists run :: Leads(cfg, a, run, b)
  }

  lemma {:induction false} ReachesItself(cfg: Config, a: World)
    ensures Reaches(cfg, a, a)
  {
    assert Leads(cfg, a, [], a);
  }

  lemma {:induction false} LeadsOn(cfg: Config, a: World, run: seq<Action>, b: World, more: seq<Action>, c: World)
    requires Leads(cfg, a, run, b) && Leads(cfg, b, more, c)
    ensures Leads(cfg, a, run + more, c)
    decreases |run|
  {
    hide Do, Enabled;
    if run == [] {
      assert run + more == more;
    } else {
      LeadsOn(cfg, Do(cfg, a, run[0]), run[1..], b, more, c);
      assert (run + more)[0] == run[0] && (run + more)[1..] == run[1..] + more;
    }
  }

  lemma {:induction false} ReachesOn(cfg: Config, a: World, b: World, c: World)
    requires Reaches(cfg, a, b) && Reaches(cfg, b, c)
    ensures Reaches(cfg, a, c)
  {
    hide Leads;
    var run :| Leads(cfg, a, run, b);
    var more :| Leads(cfg, b, more, c);
    LeadsOn(cfg, a, run, b, more, c);
  }

  lemma {:induction false} ReachesByOne(cfg: Config, a: World, x: Action)
    requires Enabled(a, x)
    ensures Reaches(cfg, a, Do(cfg, a, x))
  {
    hide Do, Enabled;
    assert [x][0] == x && [x][1..] == [];
    assert AllEnabled(cfg, Do(cfg, a, x), []) && End(cfg, Do(cfg, a, x), []) == Do(cfg, a, x);
    assert Leads(cfg, a, [x], Do(cfg, a, x));
  }
}
