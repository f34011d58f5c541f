/** The backtracking search and the minimum-turn driver.

    `Reports` is the reference definition of the search: the list of
    (turn count, jump list) pairs the program hands to its accumulator, in
    the order it hands them over. `FindSolutions` is the program's in-place
    search, proved to restore the grid and the jump list and to leave the
    accumulator exactly as folding those reports over it would. */
module Solver {
  import opened Geometry
  import opened Grid
  import opened Turns

  /** One call of the accumulator: a turn count and the jumps made so far. */
  datatype Report = Report(turns: int, jumps: seq<Jump>)

  /** What the accumulator holds: the least turn count seen and the jumps of
      the solution that first reached it (`None` until one is stored). */
  datatype Best = Best(minTurns: int, jumps: Option<seq<Jump>>)

  /** The accumulator's starting value, larger than any real turn count. */
  const SENTINEL: int := 100

  /** The three coins the driver tries removing first. */
  const Starts: seq<Point> := [Point(0, 0), Point(0, 1), Point(1, 2)]

  // ---------------------------------------------------------------------
  // Minimum tracking

  /** One accumulator call on a value: the minimum never increases, and the
      stored record is replaced only by a strictly smaller turn count. */
  function Offer(best: Best, rep: Report): (r: Best)
    ensures r.minTurns <= best.minTurns && r.minTurns <= rep.turns
    ensures r.minTurns == best.minTurns ==> r == best
    ensures r.minTurns < best.minTurns ==> r == Best(rep.turns, Some(rep.jumps))
  {
    if rep.turns < best.minTurns then Best(rep.turns, Some(rep.jumps)) else best
  }

  /** A run of accumulator calls, one per report, in order. */
  function Fold(best: Best, reps: seq<Report>): Best
    decreases |reps|
  {
    if |reps| == 0 then best else Fold(Offer(best, reps[0]), reps[1..])
  }

  /** The result of a run is at most the start and at most every reported
      turn count. */
  lemma {:induction false} FoldBound(best: Best, reps: seq<Report>)
    ensures Fold(best, reps).minTurns <= best.minTurns
    ensures forall rep :: rep in reps ==> Fold(best, reps).minTurns <= rep.turns
    decreases |reps|
  {
    if |reps| != 0 {
      FoldBound(Offer(best, reps[0]), reps[1..]);
      forall rep | rep in reps
        ensures Fold(best, reps).minTurns <= rep.turns
      {
        if rep != reps[0] {
          assert rep in reps[1..];
        }
      }
    }
  }

  lemma {:induction false} FoldAppend(best: Best, s: seq<Report>, t: seq<Report>)
    ensures Fold(best, s + t) == Fold(Fold(best, s), t)
    decreases |s|
  {
    if s == [] {
      assert s + t == t;
    } else {
      assert (s + t)[0] == s[0];
      assert (s + t)[1..] == s[1..] + t;
      FoldAppend(Offer(best, s[0]), s[1..], t);
    }
  }

  /** What the accumulator ends with is either what it started with, turn
      count unchanged, or one of the reports, stored whole. */
  lemma {:induction false} FoldWitness(best: Best, reps: seq<Report>)
    ensures Fold(best, reps).minTurns == best.minTurns ==> Fold(best, reps) == best
    ensures Fold(best, reps).minTurns < best.minTurns ==>
      exists rep :: rep in reps && Fold(best, reps) == Best(rep.turns, Some(rep.jumps))
    decreases |reps|
  {
    if reps != [] {
      var next := Offer(best, reps[0]);
      FoldWitness(next, reps[1..]);
      FoldBound(next, reps[1..]);
      var r := Fold(best, reps);
      if r.minTurns < next.minTurns {
        var rep :| rep in reps[1..] && r == Best(rep.turns, Some(rep.jumps));
        assert rep in reps;
      } else if next.minTurns < best.minTurns {
        assert reps[0] in reps;
      }
    }
  }

  // ---------------------------------------------------------------------
  // The search as a value

  /** The reports of a search from board `b`, the previous jump ending at
      `last`, `turns` turns made and the jumps `pre` made so far. */
  ghost function Reports(b: Board, last: Option<Point>, turns: int, pre: seq<Jump>): seq<Report>
    requires ValidBoard(b)
    decreases Count(b), 3, 0
  {
    if |Filled(b)| == 1 then [Report(turns, pre)]
    else ReportsFrom(b, last, turns, pre, 0)
  }

  /** The reports of the branches whose first jump starts at the i-th or a
      later occupied cell. */
  ghost function ReportsFrom(b: Board, last: Option<Point>, turns: int, pre: seq<Jump>, i: nat): seq<Report>
    requires ValidBoard(b) && i <= |Filled(b)|
    decreases Count(b), 2, |Filled(b)| - i
  {
    if i == |Filled(b)| then []
    else ReportsDirs(b, last, turns, pre, Filled(b)[i], 0) + ReportsFrom(b, last, turns, pre, i + 1)
  }

  /** The reports of the branches whose first jump goes from `start` in the
      k-th or a later direction. */
  ghost function ReportsDirs(b: Board, last: Option<Point>, turns: int, pre: seq<Jump>,
                             start: Point, k: nat): seq<Report>
    requires ValidBoard(b) && IsFilled(b, start) && k <= |Directions|
    decreases Count(b), 1, |Directions| - k
  {
    if k == |Directions| then []
    else Branch(b, last, turns, pre, start, k) + ReportsDirs(b, last, turns, pre, start, k + 1)
  }

  /** The reports of the branch whose first jump goes from `start` in the
      k-th direction: none if that jump is not allowed. */
  ghost function Branch(b: Board, last: Option<Point>, turns: int, pre: seq<Jump>,
                        start: Point, k: nat): seq<Report>
    requires ValidBoard(b) && IsFilled(b, start) && k < |Directions|
    decreases Count(b), 0, 0
  {
    var d := Directions[k];
    if !CanJump(b, start, d) then []
    else
      var j := Jump(start, Move(Move(start, d), d));
      JumpOfDirection(b, start, k);
      Reports(ApplyJump(b, j), Some(j.end), turns + (if Some(start) != last then 1 else 0), pre + [j])
  }

  /** The branch of a jump the program's test allows is the search after it. */
  lemma {:induction false} BranchTaken(b: Board, last: Option<Point>, turns: int, pre: seq<Jump>,
                                       start: Point, k: nat, j: Jump)
    requires ValidBoard(b) && IsFilled(b, start) && k < |Directions|
    requires CanJump(b, start, Directions[k])
    requires j == Jump(start, Move(Move(start, Directions[k]), Directions[k]))
    ensures Legal(b, j) && Middle(j) == Move(start, Directions[k])
    ensures Branch(b, last, turns, pre, start, k) ==
      Reports(ApplyJump(b, j), Some(j.end), turns + (if Some(start) != last then 1 else 0), pre + [j])
  {
    JumpOfDirection(b, start, k);
  }

  /** A jump the program's test refuses has no reports. */
  lemma {:induction false} BranchRefused(best: Best, b: Board, last: Option<Point>, turns: int, pre: seq<Jump>,
                                         start: Point, k: nat)
    requires ValidBoard(b) && IsFilled(b, start) && k < |Directions|
    requires !CanJump(b, start, Directions[k])
    ensures Fold(best, Branch(b, last, turns, pre, start, k)) == best
  {
  }

  /** A report completes `pre` with a solution from `b`, and its turn count
      adds that solution's turns to `turns`. */
  ghost predicate Completes(b: Board, last: Option<Point>, turns: int, pre: seq<Jump>, r: Report)
    requires ValidBoard(b)
  {
    |pre| <= |r.jumps| && r.jumps[..|pre|] == pre &&
    IsSolution(b, r.jumps[|pre|..]) &&
    r.turns == turns + TurnsFrom(last, r.jumps[|pre|..])
  }

  /** Soundness: the accumulator is only ever called on a board reduced to
      one coin, with the turn count of the jumps that got there. */
  lemma {:induction false} ReportsSound(b: Board, last: Option<Point>, turns: int, pre: seq<Jump>)
    requires ValidBoard(b)
    ensures forall r :: r in Reports(b, last, turns, pre) ==> Completes(b, last, turns, pre, r)
    decreases Count(b), 3, 0
  {
    if |Filled(b)| == 1 {
      var r := Report(turns, pre);
      assert r.jumps[|pre|..] == [];
      assert r.jumps[..|pre|] == pre;
    } else {
      ReportsFromSound(b, last, turns, pre, 0);
    }
  }

  lemma {:induction false} ReportsFromSound(b: Board, last: Option<Point>, turns: int, pre: seq<Jump>, i: nat)
    requires ValidBoard(b) && i <= |Filled(b)|
    ensures forall r :: r in ReportsFrom(b, last, turns, pre, i) ==> Completes(b, last, turns, pre, r)
    decreases Count(b), 2, |Filled(b)| - i
  {
    if i < |Filled(b)| {
      ReportsDirsSound(b, last, turns, pre, Filled(b)[i], 0);
      ReportsFromSound(b, last, turns, pre, i + 1);
    }
  }

  lemma {:induction false} ReportsDirsSound(b: Board, last: Option<Point>, turns: int, pre: seq<Jump>,
                                            start: Point, k: nat)
    requires ValidBoard(b) && IsFilled(b, start) && k <= |Directions|
    ensures forall r :: r in ReportsDirs(b, last, turns, pre, start, k) ==> Completes(b, last, turns, pre, r)
    decreases Count(b), 1, |Directions| - k
  {
    if k < |Directions| {
      BranchSound(b, last, turns, pre, start, k);
      ReportsDirsSound(b, last, turns, pre, start, k + 1);
    }
  }

  lemma {:induction false} BranchSound(b: Board, last: Option<Point>, turns: int, pre: seq<Jump>,
                                       start: Point, k: nat)
    requires ValidBoard(b) && IsFilled(b, start) && k < |Directions|
    ensures forall r :: r in Branch(b, last, turns, pre, start, k) ==> Completes(b, last, turns, pre, r)
    decreases Count(b), 0, 0
  {
    var d := Directions[k];
    if CanJump(b, start, d) {
      var j := Jump(start, Move(Move(start, d), d));
      JumpOfDirection(b, start, k);
      var next := ApplyJump(b, j);
      var turns' := turns + (if Some(start) != last then 1 else 0);
      ReportsSound(next, Some(j.end), turns', pre + [j]);
      forall r | r in Branch(b, last, turns, pre, start, k)
        ensures Completes(b, last, turns, pre, r)
      {
        StepCompletes(b, last, turns, pre, j, r);
      }
    }
  }

  /** A report that completes `pre + [j]` from the board after `j` completes
      `pre` from the board before it. */
  lemma {:induction false} StepCompletes(b: Board, last: Option<Point>, turns: int, pre: seq<Jump>, j: Jump, r: Report)
    requires ValidBoard(b) && Legal(b, j)
    requires Completes(ApplyJump(b, j), Some(j.end),
                       turns + (if Some(j.start) != last then 1 else 0), pre + [j], r)
    ensures Completes(b, last, turns, pre, r)
  {
    var rest := r.jumps[|pre| + 1..];
    PrefixStep(r.jumps, pre, j);
    TurnsCons(last, j, rest);
    SolutionCons(b, j, rest);
  }

  /** A list that starts with `pre + [j]` starts with `pre`, and `j` is the
      first of what follows `pre`. */
  lemma {:induction false} PrefixStep(js: seq<Jump>, pre: seq<Jump>, j: Jump)
    requires |pre| + 1 <= |js| && js[..|pre| + 1] == pre + [j]
    ensures js[..|pre|] == pre
    ensures js[|pre|..] == [j] + js[|pre| + 1..]
  {
    assert js[..|pre|] == js[..|pre| + 1][..|pre|];
  }

  /** The turns of a run of jumps: the first jump's turn and the turns of
      the rest. */
  lemma {:induction false} TurnsCons(last: Option<Point>, j: Jump, rest: seq<Jump>)
    ensures TurnsFrom(last, [j] + rest) ==
      (if Some(j.start) != last then 1 else 0) + TurnsFrom(Some(j.end), rest)
  {
    assert ([j] + rest)[1..] == rest;
  }

  lemma {:induction false} DirsContain(b: Board, last: Option<Point>, turns: int, pre: seq<Jump>,
                                       start: Point, k0: nat, k: nat, x: Report)
    requires ValidBoard(b) && IsFilled(b, start) && k0 <= k < |Directions|
    requires x in Branch(b, last, turns, pre, start, k)
    ensures x in ReportsDirs(b, last, turns, pre, start, k0)
    decreases k - k0
  {
    if k0 < k {
      DirsContain(b, last, turns, pre, start, k0 + 1, k, x);
      assert x in ReportsDirs(b, last, turns, pre, start, k0 + 1);
    }
  }

  lemma {:induction false} FromContain(b: Board, last: Option<Point>, turns: int, pre: seq<Jump>,
                                       i0: nat, i: nat, x: Report)
    requires ValidBoard(b) && i0 <= i < |Filled(b)|
    requires x in ReportsDirs(b, last, turns, pre, Filled(b)[i], 0)
    ensures x in ReportsFrom(b, last, turns, pre, i0)
    decreases i - i0
  {
    assert Filled(b)[i0] in Filled(b);
    // The proof rests on FromUnfold alone.
    hide *;
    FromUnfold(b, last, turns, pre, i0);
    var here := ReportsDirs(b, last, turns, pre, Filled(b)[i0], 0);
    var later := ReportsFrom(b, last, turns, pre, i0 + 1);
    if i0 < i {
      FromContain(b, last, turns, pre, i0 + 1, i, x);
      InRight(here, later, x);
    } else {
      InLeft(here, later, x);
    }
  }

  /** What is in the second part of a concatenation is in the whole. */
  /** What is in the first of two sequences is in their concatenation. */
  lemma InLeft<T>(s: seq<T>, t: seq<T>, x: T)
    requires x in s
    ensures x in s + t
  {
  }

  /** What is in the second of two sequences is in their concatenation. */
  lemma InRight<T>(s: seq<T>, t: seq<T>, x: T)
    requires x in t
    ensures x in s + t
  {
  }

  /** ReportsFrom at i0 is the i0-th cell's reports followed by the rest. */
  lemma {:induction false} FromUnfold(b: Board, last: Option<Point>, turns: int, pre: seq<Jump>, i0: nat)
    requires ValidBoard(b) && i0 < |Filled(b)|
    ensures ReportsFrom(b, last, turns, pre, i0) ==
      ReportsDirs(b, last, turns, pre, Filled(b)[i0], 0) + ReportsFrom(b, last, turns, pre, i0 + 1)
  {
  }

  /** A legal jump is found by the search: its start is the i-th occupied
      cell and its direction the k-th of the six. */
  lemma {:induction false} LocateJump(b: Board, j: Jump) returns (i: nat, k: nat)
    requires ValidBoard(b) && Legal(b, j)
    ensures i < |Filled(b)| && Filled(b)[i] == j.start
    ensures k < |Directions| && Directions[k] == Half(j)
    ensures CanJump(b, j.start, Directions[k])
    ensures j == Jump(j.start, Move(Move(j.start, Directions[k]), Directions[k]))
  {
    assert j.start in Filled(b);
    i :| 0 <= i < |Filled(b)| && Filled(b)[i] == j.start;
    k :| 0 <= k < |Directions| && Directions[k] == Half(j);
  }

  /** A report of the search after `j` is a report of the branch that makes `j`. */
  lemma {:induction false} BranchContains(b: Board, last: Option<Point>, turns: int, pre: seq<Jump>,
                       j: Jump, k: nat, x: Report)
    requires ValidBoard(b) && Legal(b, j) && k < |Directions| && Directions[k] == Half(j)
    requires j == Jump(j.start, Move(Move(j.start, Directions[k]), Directions[k]))
    requires x in Reports(ApplyJump(b, j), Some(j.end),
                          turns + (if Some(j.start) != last then 1 else 0), pre + [j])
    ensures x in Branch(b, last, turns, pre, j.start, k)
  {
  }

  /** The turns of a solution split into the first jump's turn and the
      turns of the rest. */
  lemma {:induction false} TurnsOfStep(last: Option<Point>, turns: int, path: seq<Jump>)
    requires path != []
    ensures turns + TurnsFrom(last, path) ==
      turns + (if Some(path[0].start) != last then 1 else 0) + TurnsFrom(Some(path[0].end), path[1..])
  {
  }

  /** A report of the search after `j` is a report of the search before it,
      since the search tries `j` as the i-th occupied cell's k-th direction. */
  lemma {:induction false} StepReported(b: Board, last: Option<Point>, turns: int, pre: seq<Jump>,
                                        j: Jump, i: nat, k: nat, x: Report)
    requires ValidBoard(b) && Legal(b, j)
    requires i < |Filled(b)| && Filled(b)[i] == j.start
    requires k < |Directions| && Directions[k] == Half(j)
    requires j == Jump(j.start, Move(Move(j.start, Directions[k]), Directions[k]))
    requires x in Reports(ApplyJump(b, j), Some(j.end),
                          turns + (if Some(j.start) != last then 1 else 0), pre + [j])
    ensures x in Reports(b, last, turns, pre)
  {
    StepInDirs(b, last, turns, pre, j, k, x);
    FromContain(b, last, turns, pre, 0, i, x);
    LegalNeedsTwoCoins(b, j);
  }

  lemma {:induction false} StepInDirs(b: Board, last: Option<Point>, turns: int, pre: seq<Jump>,
                                      j: Jump, k: nat, x: Report)
    requires ValidBoard(b) && Legal(b, j)
    requires k < |Directions| && Directions[k] == Half(j)
    requires j == Jump(j.start, Move(Move(j.start, Directions[k]), Directions[k]))
    requires x in Reports(ApplyJump(b, j), Some(j.end),
                          turns + (if Some(j.start) != last then 1 else 0), pre + [j])
    ensures x in ReportsDirs(b, last, turns, pre, j.start, 0)
  {
    BranchContains(b, last, turns, pre, j, k, x);
    DirsContain(b, last, turns, pre, j.start, 0, k, x);
  }

  /** A report of the search after a legal jump is a report of the search
      before it. */
  lemma {:induction false} ExtendReport(b: Board, last: Option<Point>, turns: int, pre: seq<Jump>,
                                        j: Jump, x: Report)
    requires ValidBoard(b) && Legal(b, j)
    requires x in Reports(ApplyJump(b, j), Some(j.end),
                          turns + (if Some(j.start) != last then 1 else 0), pre + [j])
    ensures x in Reports(b, last, turns, pre)
  {
    var i, k := LocateJump(b, j);
    StepReported(b, last, turns, pre, j, i, k, x);
  }

  /** Moving the first jump of `path` onto the end of `pre` keeps the whole. */
  lemma {:induction false} SplitFirst(pre: seq<Jump>, path: seq<Jump>)
    requires path != []
    ensures pre + [path[0]] + path[1..] == pre + path
  {
    assert [path[0]] + path[1..] == path;
  }

  /** Completeness: every solution from `b` is reported, with its turn count
      `n`. */
  lemma {:induction false} ReportsComplete(b: Board, last: Option<Point>, turns: int, pre: seq<Jump>,
                                           path: seq<Jump>, n: int)
    requires ValidBoard(b) && IsSolution(b, path) && n == turns + TurnsFrom(last, path)
    ensures Report(n, pre + path) in Reports(b, last, turns, pre)
    decreases |path|
  {
    if path == [] {
      assert pre + path == pre;
    } else {
      SolutionTail(b, path);
      TurnsOfStep(last, turns, path);
      ReportsComplete(ApplyJump(b, path[0]), Some(path[0].end),
                      turns + (if Some(path[0].start) != last then 1 else 0), pre + [path[0]], path[1..], n);
      SplitFirst(pre, path);
      ExtendReport(b, last, turns, pre, path[0], Report(n, pre + path));
    }
  }

  /** The reports of the driver's searches, one per starting removal. */
  ghost function AllReports(cs: seq<Point>): seq<Report>
    requires forall c :: c in cs ==> InBounds(c)
    decreases |cs|
  {
    if |cs| == 0 then []
    else AllReports(cs[..|cs| - 1]) + Reports(NewBoard(cs[|cs| - 1]), None, 0, [])
  }

  lemma {:induction false} AllReportsSound(cs: seq<Point>)
    requires forall c :: c in cs ==> InBounds(c)
    ensures forall r :: r in AllReports(cs) ==>
      exists c :: c in cs && Completes(NewBoard(c), None, 0, [], r)
    decreases |cs|
  {
    if cs != [] {
      var c := cs[|cs| - 1];
      var front := cs[..|cs| - 1];
      AllReportsSound(front);
      ReportsSound(NewBoard(c), None, 0, []);
      forall r | r in AllReports(cs)
        ensures exists c :: c in cs && Completes(NewBoard(c), None, 0, [], r)
      {
        if r in AllReports(front) {
          var c' :| c' in front && Completes(NewBoard(c'), None, 0, [], r);
          assert c' in cs;
        } else {
          assert c in cs;
        }
      }
    }
  }

  /** A report of the search from the last start is a report of the driver. */
  lemma {:induction false} LastReported(cs: seq<Point>, path: seq<Jump>, n: int)
    requires cs != [] && forall c :: c in cs ==> InBounds(c)
    requires Report(n, [] + path) in Reports(NewBoard(cs[|cs| - 1]), None, 0, [])
    ensures Report(n, path) in AllReports(cs)
  {
    assert [] + path == path;
  }

  /** A report of the driver on a prefix of the starts is one on all of them. */
  lemma {:induction false} FrontReported(cs: seq<Point>, x: Report)
    requires cs != [] && forall c :: c in cs ==> InBounds(c)
    requires x in AllReports(cs[..|cs| - 1])
    ensures x in AllReports(cs)
  {
  }

  /** A start other than the last is among the ones before it. */
  lemma {:induction false} InFront(cs: seq<Point>, c: Point)
    requires c in cs && c != cs[|cs| - 1]
    ensures c in cs[..|cs| - 1]
  {
    assert cs == cs[..|cs| - 1] + [cs[|cs| - 1]];
  }

  lemma {:induction false} AllReportsComplete(cs: seq<Point>, c: Point, path: seq<Jump>, n: int)
    requires forall c :: c in cs ==> InBounds(c)
    requires c in cs && IsSolution(NewBoard(c), path) && n == TurnsFrom(None, path)
    ensures Report(n, path) in AllReports(cs)
    decreases |cs|
  {
    if c == cs[|cs| - 1] {
      ReportsComplete(NewBoard(c), None, 0, [], path, n);
      LastReported(cs, path, n);
    } else {
      InFront(cs, c);
      AllReportsComplete(cs[..|cs| - 1], c, path, n);
      FrontReported(cs, Report(n, path));
    }
  }

  // ---------------------------------------------------------------------
  // The program's mutable state

  /** The jump list the search appends to and pops from. */
  class JumpList {
    var items: seq<Jump>

    constructor ()
      ensures items == []
    {
      items := [];
    }

    method Append(j: Jump)
      modifies this
      ensures items == old(items) + [j]
    {
      items := items + [j];
    }

    method Pop() returns (j: Jump)
      requires items != []
      modifies this
      ensures j == old(items)[|old(items)| - 1]
      ensures items == old(items)[..|old(items)| - 1]
    {
      j := items[|items| - 1];
      items := items[..|items| - 1];
    }
  }

  /** The accumulator `acc`: the best turn count so far and a copy of the
      jumps that reached it. */
  class Accumulator {
    var minTurns: int
    var jumps: Option<seq<Jump>>

    constructor ()
      ensures minTurns == SENTINEL && jumps == None
    {
      minTurns := SENTINEL;
      jumps := None;
    }

    function State(): Best
      reads this
    {
      Best(minTurns, jumps)
    }

    /** Keeps the report if it beats the best so far. The stored jumps are a
        value, so later changes to the search's jump list do not reach them. */
    method Accumulate(numTurns: int, js: seq<Jump>)
      modifies this
      ensures State() == Offer(old(State()), Report(numTurns, js))
    {
      if numTurns < minTurns {
        minTurns := numTurns;
        jumps := Some(js);
      }
    }
  }

  /** `find_solutions`: tries every jump from every occupied cell in every
      direction, recursing on the board it leaves and undoing it afterwards.
      On return the grid and the jump list are as they were, and the
      accumulator has seen exactly the reports of `Reports`, in order. */
  method FindSolutions(grid: CoinGrid, lastEnd: Option<Point>, numTurns: int,
                       jumps: JumpList, acc: Accumulator)
    requires ValidBoard(grid.cells)
    modifies grid, jumps, acc
    ensures grid.cells == old(grid.cells)
    ensures jumps.items == old(jumps.items)
    ensures acc.State() == Fold(old(acc.State()), Reports(old(grid.cells), lastEnd, numTurns, old(jumps.items)))
    decreases Count(grid.cells), 2
  {
    // The proof rests on the lemmas' contracts alone.
    hide *;
    ghost var b := grid.cells;
    ghost var pre := jumps.items;
    ghost var final := Fold(acc.State(), Reports(b, lastEnd, numTurns, pre));
    var filled := Filled(grid.cells);
    if |filled| == 1 {
      FoldOneCoin(acc.State(), b, lastEnd, numTurns, pre);
      acc.Accumulate(numTurns, jumps.items);
      return;
    }
    FoldFromFirst(acc.State(), b, lastEnd, numTurns, pre);
    for i := 0 to |filled|
      invariant grid.cells == b && jumps.items == pre
      invariant final == Fold(acc.State(), ReportsFrom(b, lastEnd, numTurns, pre, i))
    {
      ghost var before := acc.State();
      assert filled[i] in filled;
      TryStart(grid, lastEnd, numTurns, jumps, acc, filled[i]);
      FromAdvance(before, acc.State(), final, b, lastEnd, numTurns, pre, i);
    }
    FoldFromEnd(acc.State(), b, lastEnd, numTurns, pre);
  }

  /** With one coin left the search makes one accumulator call, with the
      turns and the jumps so far. */
  lemma {:induction false} FoldOneCoin(best: Best, b: Board, last: Option<Point>, turns: int, pre: seq<Jump>)
    requires ValidBoard(b) && |Filled(b)| == 1
    ensures Fold(best, Reports(b, last, turns, pre)) == Offer(best, Report(turns, pre))
  {
    assert Reports(b, last, turns, pre) == [Report(turns, pre)];
  }

  /** With more than one coin left the search tries the occupied cells in
      order. */
  lemma {:induction false} FoldFromFirst(best: Best, b: Board, last: Option<Point>, turns: int, pre: seq<Jump>)
    requires ValidBoard(b) && |Filled(b)| != 1
    ensures Fold(best, Reports(b, last, turns, pre)) == Fold(best, ReportsFrom(b, last, turns, pre, 0))
  {
  }

  /** Once every occupied cell has been tried there is nothing left to report. */
  lemma {:induction false} FoldFromEnd(best: Best, b: Board, last: Option<Point>, turns: int, pre: seq<Jump>)
    requires ValidBoard(b)
    ensures Fold(best, ReportsFrom(b, last, turns, pre, |Filled(b)|)) == best
  {
  }

  /** The inner loop of `find_solutions`: every direction from `start` in
      order, each tried by TryJump. */
  method TryStart(grid: CoinGrid, lastEnd: Option<Point>, numTurns: int,
                  jumps: JumpList, acc: Accumulator, start: Point)
    requires ValidBoard(grid.cells) && IsFilled(grid.cells, start)
    modifies grid, jumps, acc
    ensures grid.cells == old(grid.cells)
    ensures jumps.items == old(jumps.items)
    ensures acc.State() == Fold(old(acc.State()), ReportsDirs(old(grid.cells), lastEnd, numTurns, old(jumps.items), start, 0))
    decreases Count(grid.cells), 1
  {
    // The proof rests on the contracts of TryJump and the lemmas alone.
    hide *;
    ghost var b := grid.cells;
    ghost var pre := jumps.items;
    ghost var final := Fold(acc.State(), ReportsDirs(b, lastEnd, numTurns, pre, start, 0));
    for k := 0 to |Directions|
      invariant grid.cells == b && jumps.items == pre
      invariant final == Fold(acc.State(), ReportsDirs(b, lastEnd, numTurns, pre, start, k))
    {
      ghost var before := acc.State();
      TryJump(grid, lastEnd, numTurns, jumps, acc, start, k);
      DirsAdvance(before, acc.State(), final, b, lastEnd, numTurns, pre, start, k);
    }
    FoldDirsDone(acc.State(), b, lastEnd, numTurns, pre, start);
  }

  /** After the k-th branch from `start` has been folded in, what is left
      to fold is the branches of the later directions. */
  lemma {:induction false} DirsAdvance(before: Best, after: Best, final: Best, b: Board, last: Option<Point>,
                                       turns: int, pre: seq<Jump>, start: Point, k: nat)
    requires ValidBoard(b) && IsFilled(b, start) && k < |Directions|
    requires Fold(before, ReportsDirs(b, last, turns, pre, start, k)) == final
    requires after == Fold(before, Branch(b, last, turns, pre, start, k))
    ensures Fold(after, ReportsDirs(b, last, turns, pre, start, k + 1)) == final
  {
    FoldAppend(before, Branch(b, last, turns, pre, start, k), ReportsDirs(b, last, turns, pre, start, k + 1));
  }

  /** Once all six directions have been tried there is nothing left to report. */
  lemma {:induction false} FoldDirsDone(best: Best, b: Board, last: Option<Point>, turns: int,
                                        pre: seq<Jump>, start: Point)
    requires ValidBoard(b) && IsFilled(b, start)
    ensures Fold(best, ReportsDirs(b, last, turns, pre, start, |Directions|)) == best
  {
  }

  /** After the i-th occupied cell's branches have been folded in, what is
      left to fold is the branches of the later cells. */
  lemma {:induction false} FromAdvance(before: Best, after: Best, final: Best, b: Board, last: Option<Point>,
                                       turns: int, pre: seq<Jump>, i: nat)
    requires ValidBoard(b) && i < |Filled(b)|
    requires Fold(before, ReportsFrom(b, last, turns, pre, i)) == final
    requires after == Fold(before, ReportsDirs(b, last, turns, pre, Filled(b)[i], 0))
    ensures Fold(after, ReportsFrom(b, last, turns, pre, i + 1)) == final
  {
    FromUnfold(b, last, turns, pre, i);
    FoldAppend(before, ReportsDirs(b, last, turns, pre, Filled(b)[i], 0), ReportsFrom(b, last, turns, pre, i + 1));
  }

  /** One pass of the inner loop of `find_solutions`: the jump from `start`
      in the k-th direction, if the program's test allows it, is made, the
      search recurses, and the jump is undone. */
  method TryJump(grid: CoinGrid, lastEnd: Option<Point>, numTurns: int,
                 jumps: JumpList, acc: Accumulator, start: Point, k: nat)
    requires ValidBoard(grid.cells) && IsFilled(grid.cells, start) && k < |Directions|
    modifies grid, jumps, acc
    ensures grid.cells == old(grid.cells)
    ensures jumps.items == old(jumps.items)
    ensures acc.State() == Fold(old(acc.State()), Branch(old(grid.cells), lastEnd, numTurns, old(jumps.items), start, k))
    decreases Count(grid.cells), 0
  {
    // The search's value is reached through BranchRefused and BranchTaken.
    hide Fold, Reports, ReportsFrom, ReportsDirs, Branch, ApplyJump, UndoJump, Filled;
    ghost var b := grid.cells;
    ghost var pre := jumps.items;
    var d := Directions[k];
    var middle := Move(start, d);
    var end := Move(middle, d);
    if !InBounds(end) || !grid.cells[middle.y][middle.x] || grid.cells[end.y][end.x] {
      BranchRefused(acc.State(), b, lastEnd, numTurns, pre, start, k);
      return;
    }
    var j := Jump(start, end);
    BranchTaken(b, lastEnd, numTurns, pre, start, k, j);
    grid.MakeJump(j);
    jumps.Append(j);
    var newTurns := numTurns + (if Some(start) != lastEnd then 1 else 0);
    FindSolutions(grid, Some(end), newTurns, jumps, acc);
    LegalCells(b, j);
    grid.UnmakeJump(j);
    UndoApply(b, j);
    var _ := jumps.Pop();
    assert (pre + [j])[..|pre|] == pre;
  }

  /** What the driver leaves in the accumulator after searching from each
      start of `cs` in turn. */
  ghost function Driver(cs: seq<Point>): Best
    requires forall c :: c in cs ==> InBounds(c)
  {
    Fold(Best(SENTINEL, None), AllReports(cs))
  }

  /** Searching from one more start offers that start's reports to what the
      driver held. */
  lemma {:induction false} DriverStep(starts: seq<Point>, i: nat)
    requires i < |starts| && forall c :: c in starts ==> InBounds(c)
    ensures Driver(starts[..i + 1]) == Fold(Driver(starts[..i]), Reports(NewBoard(starts[i]), None, 0, []))
  {
    var cs := starts[..i + 1];
    assert cs[..|cs| - 1] == starts[..i] && cs[|cs| - 1] == starts[i];
    FoldAppend(Best(SENTINEL, None), AllReports(starts[..i]), Reports(NewBoard(starts[i]), None, 0, []));
  }

  /** The driver's result is no more than the turn count of any solution from
      any of its starting boards. */
  lemma {:induction false} DriverIsLeast(cs: seq<Point>, c: Point, path: seq<Jump>)
    requires forall c :: c in cs ==> InBounds(c)
    requires c in cs && IsSolution(NewBoard(c), path)
    ensures Driver(cs).minTurns <= TurnsFrom(None, path)
  {
    AllReportsComplete(cs, c, path, TurnsFrom(None, path));
    FoldBound(Best(SENTINEL, None), AllReports(cs));
  }

  /** A solution from a starting board takes fewer turns than the
      accumulator's starting value. */
  lemma {:induction false} BelowSentinel(c: Point, path: seq<Jump>)
    requires InBounds(c) && IsSolution(NewBoard(c), path)
    ensures TurnsFrom(None, path) < SENTINEL
  {
    NewBoardCount(c);
    SolutionLength(NewBoard(c), path);
  }

  /** A report of the driver is a solution from one of its starts, with its
      turn count, and its first jump lands on the removed coin. */
  lemma {:induction false} DriverReportSolves(cs: seq<Point>, rep: Report)
    requires forall c :: c in cs ==> InBounds(c)
    requires rep in AllReports(cs)
    ensures exists c :: (c in cs && IsSolution(NewBoard(c), rep.jumps) &&
                         rep.turns == TurnsFrom(None, rep.jumps) &&
                         rep.jumps != [] && rep.jumps[0].end == c)
  {
    AllReportsSound(cs);
    var c :| c in cs && Completes(NewBoard(c), None, 0, [], rep);
    assert rep.jumps[0..] == rep.jumps;
    NewBoardCount(c);
    SolutionLength(NewBoard(c), rep.jumps);
    FirstJumpEndsAtMissing(c, rep.jumps);
  }

  /** When some start has a solution, the driver's result is reached: the
      stored jumps are a solution from one of the starts, with exactly the
      stored turn count, and the first of them lands on the removed coin. */
  lemma {:induction false} DriverIsReached(cs: seq<Point>, c0: Point, path0: seq<Jump>)
    requires forall c :: c in cs ==> InBounds(c)
    requires c0 in cs && IsSolution(NewBoard(c0), path0)
    ensures Driver(cs).jumps.Some?
    ensures exists c :: (c in cs && IsSolution(NewBoard(c), Driver(cs).jumps.value) &&
                         Driver(cs).minTurns == TurnsFrom(None, Driver(cs).jumps.value) &&
                         Driver(cs).jumps.value != [] && Driver(cs).jumps.value[0].end == c)
  {
    var all := AllReports(cs);
    var r := Driver(cs);
    DriverIsLeast(cs, c0, path0);
    BelowSentinel(c0, path0);
    FoldWitness(Best(SENTINEL, None), all);
    var rep :| rep in all && r == Best(rep.turns, Some(rep.jumps));
    DriverReportSolves(cs, rep);
  }

  /** The loop of `find_minimum`, over any list of removals: one fresh
      board per removal, one shared accumulator. The result is no more than
      any solution's turn count, and when some removal has a solution it is
      reached by a stored solution whose first jump lands on the removed
      coin. */
  method SearchStarts(starts: seq<Point>) returns (minTurns: int, jumps: Option<seq<Jump>>)
    requires forall c :: c in starts ==> InBounds(c)
    ensures forall c, path :: c in starts && IsSolution(NewBoard(c), path) ==>
      minTurns <= TurnsFrom(None, path)
    ensures (exists c, path :: c in starts && IsSolution(NewBoard(c), path)) ==>
      jumps.Some? &&
      exists c :: (c in starts && IsSolution(NewBoard(c), jumps.value) &&
                   minTurns == TurnsFrom(None, jumps.value) &&
                   jumps.value != [] && jumps.value[0].end == c)
  {
    var acc := new Accumulator();
    var i := 0;
    while i < |starts|
      invariant 0 <= i <= |starts|
      invariant acc.State() == Driver(starts[..i])
    {
      var grid := new CoinGrid(starts[i]);
      var list := new JumpList();
      FindSolutions(grid, None, 0, list, acc);
      DriverStep(starts, i);
      i := i + 1;
    }
    minTurns, jumps := acc.minTurns, acc.jumps;
    assert starts[..i] == starts;
    DriverFinish(starts, minTurns, jumps);
  }

  /** The driver's result has the properties `find_minimum` promises. */
  lemma {:induction false} DriverFinish(cs: seq<Point>, minTurns: int, jumps: Option<seq<Jump>>)
    requires forall c :: c in cs ==> InBounds(c)
    requires Best(minTurns, jumps) == Driver(cs)
    ensures forall c, path :: c in cs && IsSolution(NewBoard(c), path) ==>
      minTurns <= TurnsFrom(None, path)
    ensures (exists c, path :: c in cs && IsSolution(NewBoard(c), path)) ==>
      jumps.Some? &&
      exists c :: (c in cs && IsSolution(NewBoard(c), jumps.value) &&
                   minTurns == TurnsFrom(None, jumps.value) &&
                   jumps.value != [] && jumps.value[0].end == c)
  {
    forall c, path | c in cs && IsSolution(NewBoard(c), path)
      ensures minTurns <= TurnsFrom(None, path)
    {
      DriverIsLeast(cs, c, path);
    }
    if exists c, path :: c in cs && IsSolution(NewBoard(c), path) {
      var c0, path0 :| c0 in cs && IsSolution(NewBoard(c0), path0);
      DriverIsReached(cs, c0, path0);
    }
  }

  /** `find_minimum`: the search from the three starting removals. Some
      solution exists (the closing comment's), so a solution is stored; its
      turn count is the least of any solution from those starts, and at most
      five. */
  method FindMinimum() returns (minTurns: int, jumps: Option<seq<Jump>>)
    ensures forall c, path :: c in Starts && IsSolution(NewBoard(c), path) ==>
      minTurns <= TurnsFrom(None, path)
    ensures jumps.Some?
    ensures exists c :: (c in Starts && IsSolution(NewBoard(c), jumps.value) &&
                         minTurns == TurnsFrom(None, jumps.value) &&
                         jumps.value != [] && jumps.value[0].end == c)
    ensures minTurns <= 5
  {
    minTurns, jumps := SearchStarts(Starts);
    var c0, path0 := FiveTurnSolution();
  }

  // ---------------------------------------------------------------------
  // The solution the program reports

  /** The solution printed in the program's closing comment, "Remove 2" and
      moves 7-2, 1-4, 9-7-2, 6-1-4-6, 10-3 in display numbers. */
  const KnownJumps: seq<Jump> := [
    Jump(Point(0, 3), Point(0, 1)),
    Jump(Point(0, 0), Point(0, 2)),
    Jump(Point(2, 3), Point(0, 3)),
    Jump(Point(0, 3), Point(0, 1)),
    Jump(Point(2, 2), Point(0, 0)),
    Jump(Point(0, 0), Point(0, 2)),
    Jump(Point(0, 2), Point(2, 2)),
    Jump(Point(3, 3), Point(1, 1))
  ]

  /** The coins of `b` stand exactly on the cells of `s`. */
  ghost predicate HasCoins(b: Board, s: set<Point>)
  {
    ValidBoard(b) && forall p :: IsFilled(b, p) <==> p in s
  }

  /** One jump from a coin over a coin into a hole of the board, taking the
      coins on `s` to the coins on `t`. */
  ghost predicate CoinStep(s: set<Point>, j: Jump, t: set<Point>)
  {
    Half(j) in Directions && Move(Middle(j), Half(j)) == j.end && InBounds(j.end) &&
    j.start in s && Middle(j) in s && j.end !in s &&
    forall p :: p in t <==> (p in s && p != j.start && p != Middle(j)) || p == j.end
  }

  /** A coin step on a board whose coins stand on `s` is a legal jump, and
      the board it leaves has its coins on `t`. */
  lemma {:induction false} StepCoins(b: Board, s: set<Point>, j: Jump, t: set<Point>)
    requires HasCoins(b, s) && CoinStep(s, j, t)
    ensures ValidBoard(b) && Legal(b, j)
    ensures HasCoins(ApplyJump(b, j), t)
  {
    assert IsFilled(b, Middle(j)) && !IsFilled(b, j.end);
    assert Legal(b, j);
    var r := ApplyJump(b, j);
    forall p
      ensures IsFilled(r, p) <==> p in t
    {
      if InBounds(p) && p != j.start && p != Middle(j) && p != j.end {
        assert r[p.y][p.x] == b[p.y][p.x];
      }
    }
  }

  /** A coin step stated by coordinates: the jump goes two steps in direction
      k, over the cell `m`. */
  lemma {:induction false} CoinStepBy(s: set<Point>, j: Jump, k: nat, m: Point, t: set<Point>)
    requires k < |Directions|
    requires m.x == j.start.x + Directions[k].dx && m.y == j.start.y + Directions[k].dy
    requires j.end.x == m.x + Directions[k].dx && j.end.y == m.y + Directions[k].dy
    requires 0 <= j.end.x <= j.end.y < SIZE
    requires j.start in s && m in s && j.end !in s
    requires forall p :: p in t <==> (p in s && p != j.start && p != m) || p == j.end
    ensures CoinStep(s, j, t)
  {
    assert Half(j) == Directions[k];
  }

  /** The coins along `path` stand on `sets[0]`, `sets[1]`, ...: each jump
      is a coin step and one coin is left at the end. */
  ghost predicate CoinPath(sets: seq<set<Point>>, path: seq<Jump>, last: Point)
  {
    |sets| == |path| + 1 && sets[|path|] == {last} &&
    forall i :: 0 <= i < |path| ==> CoinStep(sets[i], path[i], sets[i + 1])
  }

  /** A board whose coins follow a coin path is solved by that path. */
  lemma {:induction false} CoinPathSolves(b: Board, sets: seq<set<Point>>, path: seq<Jump>, last: Point)
    requires CoinPath(sets, path, last) && HasCoins(b, sets[0])
    ensures IsSolution(b, path)
    decreases |path|
  {
    // The proof rests on the lemmas' contracts alone.
    hide *;
    if path == [] {
      CoinPathDone(b, sets, last);
    } else {
      var j := path[0];
      CoinPathTail(sets, path, last);
      StepCoins(b, sets[0], j, sets[1]);
      CoinPathSolves(ApplyJump(b, j), sets[1..], path[1..], last);
      SolutionCons(b, j, path[1..]);
      assert [j] + path[1..] == path;
    }
  }

  /** A coin path without jumps ends on a board that is already solved. */
  lemma CoinPathDone(b: Board, sets: seq<set<Point>>, last: Point)
    requires CoinPath(sets, [], last) && HasCoins(b, sets[0])
    ensures IsSolution(b, [])
  {
    OnlyCoin(b, last);
  }

  /** After its first step a coin path goes on as a coin path. */
  lemma {:induction false} CoinPathTail(sets: seq<set<Point>>, path: seq<Jump>, last: Point)
    requires CoinPath(sets, path, last) && path != []
    ensures |sets| == |path| + 1
    ensures CoinStep(sets[0], path[0], sets[1])
    ensures CoinPath(sets[1..], path[1..], last)
  {
    assert CoinStep(sets[0], path[0], sets[1]);
    forall i | 0 <= i < |path| - 1
      ensures CoinStep(sets[1..][i], path[1..][i], sets[1..][i + 1])
    {
      assert CoinStep(sets[i + 1], path[i + 1], sets[i + 2]);
    }
  }

  /** The coin sets along the closing comment's solution: the coins before
      jump i stand on KnownCoins(i). */
  function KnownCoins(i: nat): set<Point>
  {
    if i == 0 then {Point(0, 0), Point(1, 1), Point(0, 2), Point(1, 2), Point(2, 2), Point(0, 3), Point(1, 3), Point(2, 3), Point(3, 3)}
    else if i == 1 then {Point(0, 0), Point(0, 1), Point(1, 1), Point(1, 2), Point(2, 2), Point(1, 3), Point(2, 3), Point(3, 3)}
    else if i == 2 then {Point(1, 1), Point(0, 2), Point(1, 2), Point(2, 2), Point(1, 3), Point(2, 3), Point(3, 3)}
    else if i == 3 then {Point(1, 1), Point(0, 2), Point(1, 2), Point(2, 2), Point(0, 3), Point(3, 3)}
    else if i == 4 then {Point(0, 1), Point(1, 1), Point(1, 2), Point(2, 2), Point(3, 3)}
    else if i == 5 then {Point(0, 0), Point(0, 1), Point(1, 2), Point(3, 3)}
    else if i == 6 then {Point(0, 2), Point(1, 2), Point(3, 3)}
    else if i == 7 then {Point(2, 2), Point(3, 3)}
    else {Point(1, 1)}
  }

  /** Each jump of the closing comment's solution is a coin step. */
  lemma {:induction false} KnownSteps(i: nat)
    requires i < |KnownJumps|
    ensures CoinStep(KnownCoins(i), KnownJumps[i], KnownCoins(i + 1))
  {
    if i == 0 {
      CoinStepBy(KnownCoins(i), KnownJumps[i], 1, Point(0, 2), KnownCoins(i + 1));
    } else if i == 1 {
      CoinStepBy(KnownCoins(i), KnownJumps[i], 4, Point(0, 1), KnownCoins(i + 1));
    } else if i == 2 {
      CoinStepBy(KnownCoins(i), KnownJumps[i], 3, Point(1, 3), KnownCoins(i + 1));
    } else if i == 3 {
      CoinStepBy(KnownCoins(i), KnownJumps[i], 1, Point(0, 2), KnownCoins(i + 1));
    } else if i == 4 {
      CoinStepBy(KnownCoins(i), KnownJumps[i], 2, Point(1, 1), KnownCoins(i + 1));
    } else if i == 5 {
      CoinStepBy(KnownCoins(i), KnownJumps[i], 4, Point(0, 1), KnownCoins(i + 1));
    } else if i == 6 {
      CoinStepBy(KnownCoins(i), KnownJumps[i], 0, Point(1, 2), KnownCoins(i + 1));
    } else if i == 7 {
      CoinStepBy(KnownCoins(i), KnownJumps[i], 2, Point(2, 2), KnownCoins(i + 1));
    }
  }

  /** The coin sets of the closing comment's solution make a coin path. */
  lemma {:induction false} KnownCoinPath(sets: seq<set<Point>>)
    requires |sets| == |KnownJumps| + 1
    requires forall i :: 0 <= i < |sets| ==> sets[i] == KnownCoins(i)
    ensures CoinPath(sets, KnownJumps, Point(1, 1))
  {
    forall i | 0 <= i < |KnownJumps|
      ensures CoinStep(sets[i], KnownJumps[i], sets[i + 1])
    {
      KnownSteps(i);
    }
  }

  /** With coin 2 removed, the coins stand on the first coin set. */
  lemma {:induction false} KnownStart(b: Board)
    requires ValidBoard(b)
    requires forall p :: IsFilled(b, p) <==> InBounds(p) && p != Point(0, 1)
    ensures HasCoins(b, KnownCoins(0))
  {
    forall p
      ensures IsFilled(b, p) <==> p in KnownCoins(0)
    {
      if InBounds(p) {
        assert p.y == 0 || p.y == 1 || p.y == 2 || p.y == 3;
      }
    }
  }

  /** The jumps of the closing comment solve the board with coin 2 removed. */
  lemma {:induction false} KnownPath(b: Board)
    requires ValidBoard(b)
    requires forall p :: IsFilled(b, p) <==> InBounds(p) && p != Point(0, 1)
    ensures IsSolution(b, KnownJumps)
  {
    var sets := seq(|KnownJumps| + 1, i requires 0 <= i => KnownCoins(i));
    KnownStart(b);
    KnownCoinPath(sets);
    CoinPathSolves(b, sets, KnownJumps, Point(1, 1));
  }

  /** That solution takes five turns: 7-2, 1-4, 9-7-2, 6-1-4-6, 10-3. */
  lemma {:induction false} KnownTurns()
    ensures TurnsFrom(None, KnownJumps) == 5
  {
    var js := KnownJumps;
    assert TurnsFrom(Some(js[6].end), js[7..]) == 1;
    assert TurnsFrom(Some(js[4].end), js[5..]) == 1;
    assert TurnsFrom(Some(js[2].end), js[3..]) == 2;
    assert TurnsFrom(Some(js[1].end), js[2..]) == 3;
  }

  /** Some start has a solution of five turns. */
  lemma FiveTurnSolution() returns (c: Point, path: seq<Jump>)
    ensures c in Starts && IsSolution(NewBoard(c), path)
    ensures TurnsFrom(None, path) == 5
  {
    c, path := Point(0, 1), KnownJumps;
    KnownPath(NewBoard(c));
    KnownTurns();
  }
}
