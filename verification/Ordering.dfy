/**
 Stable ordering by rank, highest first, and why cutting early loses nothing.
 */
module Ordering {
  /** Compared by `major`, then by `minor`. */
  datatype Rank = Rank(major: int, minor: int)

  predicate Below(a: Rank, b: Rank) {
    a.major < b.major || (a.major == b.major && a.minor < b.minor)
  }

  /** Highest first; among equal ranks, `e` goes last. */
  function Insert<T>(rank: T -> Rank, e: T, s: seq<T>): seq<T> {
    if s == [] then [e]
    else if Below(rank(s[0]), rank(e)) then [e] + s
    else [s[0]] + Insert(rank, e, s[1..])
  }

  /** `more` inserted into `s`, one after the other. */
  function InsertAll<T>(rank: T -> Rank, s: seq<T>, more: seq<T>): seq<T>
    decreases |more|
  {
    if more == [] then s else InsertAll(rank, Insert(rank, more[0], s), more[1..])
  }

  /** Python's stable sort, reversed. */
  function Sort<T>(rank: T -> Rank, items: seq<T>): seq<T> {
    InsertAll(rank, [], items)
  }

  function Cut<T>(s: seq<T>, n: nat): seq<T> {
    if |s| <= n then s else s[..n]
  }

  // ----- What the sort is

  ghost predicate Descending<T>(rank: T -> Rank, s: seq<T>) {
    forall i, j | 0 <= i < j < |s| :: !Below(rank(s[i]), rank(s[j]))
  }

  /** The items of one rank, in their order. */
  function Ranked<T>(rank: T -> Rank, s: seq<T>, t: Rank): seq<T> {
    if s == [] then []
    else if rank(s[0]) == t then [s[0]] + Ranked(rank, s[1..], t)
    else Ranked(rank, s[1..], t)
  }

  lemma {:induction false} RankedSplits<T>(rank: T -> Rank, s: seq<T>, u: seq<T>, t: Rank)
    ensures Ranked(rank, s + u, t) == Ranked(rank, s, t) + Ranked(rank, u, t)
    decreases |s|
  {
    if s == [] {
      assert s + u == u;
    } else {
      assert (s + u)[0] == s[0] && (s + u)[1..] == s[1..] + u;
      RankedSplits(rank, s[1..], u, t);
    }
  }

  lemma {:induction false} DescendingTail<T>(rank: T -> Rank, s: seq<T>)
    requires Descending(rank, s) && s != []
    ensures Descending(rank, s[1..]) && forall i | 0 <= i < |s[1..]| :: !Below(rank(s[0]), rank(s[1..][i]))
  {
    assert forall i | 0 <= i < |s[1..]| :: s[1..][i] == s[i + 1];
  }

  lemma {:induction false} DescendingCons<T>(rank: T -> Rank, e: T, s: seq<T>)
    requires Descending(rank, s) && forall i | 0 <= i < |s| :: !Below(rank(e), rank(s[i]))
    ensures Descending(rank, [e] + s)
  {
    var r := [e] + s;
    forall i, j | 0 <= i < j < |r| ensures !Below(rank(r[i]), rank(r[j])) {
      assert r[j] == s[j - 1];
      if i > 0 {
        assert r[i] == s[i - 1];
      }
    }
  }

  lemma {:induction false} NothingAbove<T>(rank: T -> Rank, s: seq<T>, t: Rank)
    requires forall i | 0 <= i < |s| :: Below(rank(s[i]), t)
    ensures Ranked(rank, s, t) == []
    decreases |s|
  {
    if s != [] {
      assert forall i | 0 <= i < |s[1..]| :: s[1..][i] == s[i + 1];
      NothingAbove(rank, s[1..], t);
    }
  }

  /** Inserting keeps the order, and puts the item behind its equals. */
  lemma {:induction false} InsertKeeps<T>(rank: T -> Rank, e: T, s: seq<T>)
    requires Descending(rank, s)
    ensures Descending(rank, Insert(rank, e, s)) && |Insert(rank, e, s)| == |s| + 1
    ensures forall i | 0 <= i < |Insert(rank, e, s)| ::
      !Below(if s == [] || Below(rank(s[0]), rank(e)) then rank(e) else rank(s[0]), rank(Insert(rank, e, s)[i]))
    decreases |s|
  {
    if s == [] {
    } else if Below(rank(s[0]), rank(e)) {
      DescendingCons(rank, e, s);
    } else {
      DescendingTail(rank, s);
      InsertKeeps(rank, e, s[1..]);
      DescendingCons(rank, s[0], Insert(rank, e, s[1..]));
    }
  }

  lemma {:induction false} InsertRanks<T>(rank: T -> Rank, e: T, s: seq<T>, t: Rank)
    requires Descending(rank, s)
    ensures Ranked(rank, Insert(rank, e, s), t) == Ranked(rank, s, t) + (if rank(e) == t then [e] else [])
    decreases |s|
  {
    if s == [] {
      assert [e][1..] == [];
    } else if Below(rank(s[0]), rank(e)) {
      assert ([e] + s)[1..] == s;
      if rank(e) == t {
        NothingAbove(rank, s, t);
      }
    } else {
      DescendingTail(rank, s);
      InsertRanks(rank, e, s[1..], t);
      assert ([s[0]] + Insert(rank, e, s[1..]))[1..] == Insert(rank, e, s[1..]);
      assert [s[0]] + (Ranked(rank, s[1..], t) + [e]) == ([s[0]] + Ranked(rank, s[1..], t)) + [e];
    }
  }

  lemma {:induction false} InsertAllDescends<T>(rank: T -> Rank, s: seq<T>, more: seq<T>)
    requires Descending(rank, s)
    ensures Descending(rank, InsertAll(rank, s, more)) && |InsertAll(rank, s, more)| == |s| + |more|
    decreases |more|
  {
    hide Insert, Descending;
    if more != [] {
      InsertKeeps(rank, more[0], s);
      InsertAllDescends(rank, Insert(rank, more[0], s), more[1..]);
    }
  }

  lemma {:induction false} InsertAllRanks<T>(rank: T -> Rank, s: seq<T>, more: seq<T>, t: Rank)
    requires Descending(rank, s)
    ensures Ranked(rank, InsertAll(rank, s, more), t) == Ranked(rank, s, t) + Ranked(rank, more, t)
    decreases |more|
  {
    hide Insert, Descending;
    if more != [] {
      InsertKeeps(rank, more[0], s);
      InsertRanks(rank, more[0], s, t);
      InsertAllRanks(rank, Insert(rank, more[0], s), more[1..], t);
      var own := if rank(more[0]) == t then [more[0]] else [];
      assert (Ranked(rank, s, t) + own) + Ranked(rank, more[1..], t) == Ranked(rank, s, t) + (own + Ranked(rank, more[1..], t));
    }
  }

  lemma {:induction false} SortFacts<T>(rank: T -> Rank, items: seq<T>)
    ensures Descending(rank, Sort(rank, items)) && |Sort(rank, items)| == |items|
    ensures forall t :: Ranked(rank, Sort(rank, items), t) == Ranked(rank, items, t)
  {
    hide InsertAll, Ranked;
    InsertAllDescends(rank, [], items);
    forall t ensures Ranked(rank, Sort(rank, items), t) == Ranked(rank, items, t) {
      InsertAllRanks(rank, [], items, t);
      NothingAbove(rank, [], t);
      assert [] + Ranked(rank, items, t) == Ranked(rank, items, t);
    }
  }

  lemma {:induction false} SameEmpty<T>(rank: T -> Rank, s: seq<T>, u: seq<T>)
    requires forall t :: Ranked(rank, s, t) == Ranked(rank, u, t)
    ensures s == [] <==> u == []
  {
    if s != [] {
      assert Ranked(rank, s, rank(s[0])) != [];
    }
    if u != [] {
      assert Ranked(rank, u, rank(u[0])) != [];
    }
  }

  /** Two descending sequences with the same items per rank, in the same order, are
      the same sequence. */
  lemma {:induction false} RanksDecide<T>(rank: T -> Rank, s: seq<T>, u: seq<T>)
    requires Descending(rank, s) && Descending(rank, u) && forall t :: Ranked(rank, s, t) == Ranked(rank, u, t)
    ensures s == u
    decreases |s|
  {
    SameEmpty(rank, s, u);
    if s != [] {
      SameFirst(rank, s, u);
      DescendingTail(rank, s);
      DescendingTail(rank, u);
      forall t ensures Ranked(rank, s[1..], t) == Ranked(rank, u[1..], t) {
        assert Ranked(rank, s, t) == Ranked(rank, u, t);
        if rank(s[0]) == t {
          assert Ranked(rank, s, t)[1..] == Ranked(rank, s[1..], t) && Ranked(rank, u, t)[1..] == Ranked(rank, u[1..], t);
        }
      }
      RanksDecide(rank, s[1..], u[1..]);
      assert s == [s[0]] + s[1..] && u == [u[0]] + u[1..];
    }
  }

  lemma {:induction false} SameFirst<T>(rank: T -> Rank, s: seq<T>, u: seq<T>)
    requires Descending(rank, s) && Descending(rank, u) && s != [] && u != [] && forall t :: Ranked(rank, s, t) == Ranked(rank, u, t)
    ensures s[0] == u[0]
  {
    if Below(rank(s[0]), rank(u[0])) {
      NothingAbove(rank, s, rank(u[0]));
    } else if Below(rank(u[0]), rank(s[0])) {
      NothingAbove(rank, u, rank(s[0]));
    }
    assert Ranked(rank, s, rank(s[0]))[0] == s[0] && Ranked(rank, u, rank(u[0]))[0] == u[0];
  }

  /** The items, highest first, those of equal rank in the order they came in. */
  ghost predicate StableOrder<T>(rank: T -> Rank, items: seq<T>, s: seq<T>) {
    Descending(rank, s) && forall t :: Ranked(rank, s, t) == Ranked(rank, items, t)
  }

  /** The sort gives that order, and there is only one. */
  lemma {:induction false} SortIsTheStableOrder<T>(rank: T -> Rank, items: seq<T>, s: seq<T>)
    ensures s == Sort(rank, items) <==> StableOrder(rank, items, s)
  {
    SortFacts(rank, items);
    assert StableOrder(rank, items, Sort(rank, items));
    hide Sort, Ranked;
    if StableOrder(rank, items, s) {
      RanksDecide(rank, s, Sort(rank, items));
    }
  }

  // ----- Cutting early

  lemma {:induction false} InsertCut<T>(rank: T -> Rank, e: T, s: seq<T>, n: nat)
    ensures Cut(Insert(rank, e, Cut(s, n)), n) == Cut(Insert(rank, e, s), n)
    decreases |s|
  {
    if s != [] && n > 0 && !Below(rank(s[0]), rank(e)) {
      InsertCut(rank, e, s[1..], n - 1);
      CutCons(s, n);
      assert Cut(s, n)[0] == s[0] && Cut(s, n)[1..] == Cut(s[1..], n - 1);
      CutCons([s[0]] + Insert(rank, e, Cut(s[1..], n - 1)), n);
      CutCons([s[0]] + Insert(rank, e, s[1..]), n);
      assert ([s[0]] + Insert(rank, e, Cut(s[1..], n - 1)))[1..] == Insert(rank, e, Cut(s[1..], n - 1));
      assert ([s[0]] + Insert(rank, e, s[1..]))[1..] == Insert(rank, e, s[1..]);
    } else if s != [] && n > 0 {
      CutCons([e] + s, n);
      CutCons([e] + Cut(s, n), n);
      assert ([e] + s)[1..] == s && ([e] + Cut(s, n))[1..] == Cut(s, n);
    }
  }

  lemma {:induction false} CutCons<T>(s: seq<T>, n: nat)
    requires s != [] && n > 0
    ensures Cut(s, n) == [s[0]] + Cut(s[1..], n - 1)
  {
  }

  lemma {:induction false} InsertAllCut<T>(rank: T -> Rank, s: seq<T>, u: seq<T>, more: seq<T>, n: nat)
    requires Cut(s, n) == Cut(u, n)
    ensures Cut(InsertAll(rank, s, more), n) == Cut(InsertAll(rank, u, more), n)
    decreases |more|
  {
    if more != [] {
      InsertCut(rank, more[0], s, n);
      InsertCut(rank, more[0], u, n);
      InsertAllCut(rank, Insert(rank, more[0], s), Insert(rank, more[0], u), more[1..], n);
    }
  }

  lemma {:induction false} InsertAllAppend<T>(rank: T -> Rank, s: seq<T>, a: seq<T>, b: seq<T>)
    ensures InsertAll(rank, s, a + b) == InsertAll(rank, InsertAll(rank, s, a), b)
    decreases |a|
  {
    if a == [] {
      assert a + b == b;
    } else {
      assert (a + b)[0] == a[0] && (a + b)[1..] == a[1..] + b;
      InsertAllAppend(rank, Insert(rank, a[0], s), a[1..], b);
    }
  }

  lemma {:induction false} SortOfSorted<T>(rank: T -> Rank, s: seq<T>)
    requires Descending(rank, s)
    ensures Sort(rank, s) == s
  {
    SortIsTheStableOrder(rank, s, s);
  }

  lemma {:induction false} CutDescends<T>(rank: T -> Rank, s: seq<T>, n: nat)
    requires Descending(rank, s)
    ensures Descending(rank, Cut(s, n)) && Cut(Cut(s, n), n) == Cut(s, n)
  {
  }

  /** Sorting and cutting before more items arrive gives what sorting everything and
      cutting once gives, ties included. */
  lemma {:induction false} CuttingEarlyLosesNothing<T>(rank: T -> Rank, a: seq<T>, b: seq<T>, n: nat)
    ensures Cut(Sort(rank, Cut(Sort(rank, a), n) + b), n) == Cut(Sort(rank, a + b), n)
  {
    var early := Cut(Sort(rank, a), n);
    SortFacts(rank, a);
    CutDescends(rank, Sort(rank, a), n);
    SortOfSorted(rank, early);
    InsertAllAppend(rank, [], early, b);
    InsertAllAppend(rank, [], a, b);
    InsertAllCut(rank, early, Sort(rank, a), b, n);
  }

  /** Parts that arrive sorted may as well arrive unsorted. */
  lemma {:induction false} SortingPartsChangesNothing<T>(rank: T -> Rank, a: seq<T>, b: seq<T>)
    ensures Sort(rank, a + Sort(rank, b)) == Sort(rank, a + b)
  {
    SortIsTheStableOrder(rank, b, Sort(rank, b));
    SortIsTheStableOrder(rank, a + b, Sort(rank, a + b));
    forall t ensures Ranked(rank, a + Sort(rank, b), t) == Ranked(rank, a + b, t) {
      RankedSplits(rank, a, Sort(rank, b), t);
      RankedSplits(rank, a, b, t);
    }
    SortIsTheStableOrder(rank, a + Sort(rank, b), Sort(rank, a + b));
  }

  /** What has been collected may be replaced by anything that sorts to the same. */
  lemma {:induction false} SortExtends<T>(rank: T -> Rank, a: seq<T>, b: seq<T>, more: seq<T>)
    requires Sort(rank, a) == Sort(rank, b)
    ensures Sort(rank, a + Sort(rank, more)) == Sort(rank, b + more)
  {
    SortingPartsChangesNothing(rank, a, more);
    InsertAllAppend(rank, [], a, more);
    InsertAllAppend(rank, [], b, more);
  }
}
