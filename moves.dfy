/** Grouping jumps into moves. A move is a chain of jumps by one coin; it is
    written as the list of points the coin visits, start first. */
module Moves {
  import opened Geometry
  import opened Grid
  import opened Turns

  /** The points one coin visits during a move. */
  type Chain = seq<Point>

  /** The jumps a chain is made of: from each point to the next. */
  function Pairs(c: Chain): (js: seq<Jump>)
    ensures |js| == if |c| < 2 then 0 else |c| - 1
    ensures forall i {:trigger js[i]} :: 0 <= i < |js| ==> js[i] == Jump(c[i], c[i + 1])
    decreases |c|
  {
    if |c| < 2 then [] else Pairs(c[..|c| - 1]) + [Jump(c[|c| - 2], c[|c| - 1])]
  }

  /** The jumps of a list of moves, one move after another. */
  function Unchain(cs: seq<Chain>): seq<Jump>
    decreases |cs|
  {
    if |cs| == 0 then [] else Unchain(cs[..|cs| - 1]) + Pairs(cs[|cs| - 1])
  }

  /** The last point of a chain: where its coin ends up. */
  function LastPoint(c: Chain): Point
    requires c != []
  {
    c[|c| - 1]
  }

  /** Every move makes at least one jump, and no move starts where the one
      before it ended: a new move begins exactly where the chain breaks. */
  predicate WellChained(cs: seq<Chain>)
  {
    (forall k :: 0 <= k < |cs| ==> |cs[k]| >= 2) &&
    (forall k :: 0 < k < |cs| ==> cs[k][0] != LastPoint(cs[k - 1]))
  }

  lemma {:induction false} UnchainSnoc(cs: seq<Chain>, c: Chain)
    ensures Unchain(cs + [c]) == Unchain(cs) + Pairs(c)
  {
    assert (cs + [c])[..|cs|] == cs;
  }

  lemma {:induction false} UnchainPrefix(cs: seq<Chain>, k: nat)
    requires k < |cs|
    ensures Unchain(cs[..k + 1]) == Unchain(cs[..k]) + Pairs(cs[k])
  {
    assert cs[..k + 1] == cs[..k] + [cs[k]];
    UnchainSnoc(cs[..k], cs[k]);
  }

  lemma {:induction false} PairsSnoc(c: Chain, p: Point)
    requires c != []
    ensures Pairs(c + [p]) == Pairs(c) + [Jump(LastPoint(c), p)]
  {
    assert (c + [p])[..|c|] == c;
  }

  /** Landing one more jump at the end of the last move adds that jump. */
  lemma {:induction false} UnchainExtend(cs: seq<Chain>, p: Point)
    requires cs != [] && cs[|cs| - 1] != []
    ensures Unchain(cs[|cs| - 1 := cs[|cs| - 1] + [p]]) ==
      Unchain(cs) + [Jump(LastPoint(cs[|cs| - 1]), p)]
  {
    var n := |cs| - 1;
    var ds := cs[n := cs[n] + [p]];
    assert ds[..n] == cs[..n];
    PairsSnoc(cs[n], p);
  }

  /** What ChainJumps keeps between jumps: `cs` are the moves of the jumps
      `js` seen so far, one per turn, and `prevEnd` is where the last of them
      landed, which is where the last move ends. */
  ghost predicate ChainedUpTo(cs: seq<Chain>, prevEnd: Option<Point>, js: seq<Jump>)
  {
    Unchain(cs) == js && |cs| == TurnsFrom(None, js) && WellChained(cs) &&
    prevEnd == LastEnd(None, js) &&
    (prevEnd.Some? ==> cs != [] && LastPoint(cs[|cs| - 1]) == prevEnd.value)
  }

  /** A jump that does not start where the last move ended begins a new
      move of that one jump. */
  lemma {:induction false} StartMove(cs: seq<Chain>, prevEnd: Option<Point>, js: seq<Jump>, j: Jump)
    requires ChainedUpTo(cs, prevEnd, js) && prevEnd != Some(j.start)
    ensures ChainedUpTo(cs + [[j.start, j.end]], Some(j.end), js + [j])
  {
    if prevEnd == None {
      assert js == [] && |cs| == 0;
    }
    NewMoveChained(cs, j);
    UnchainSnoc(cs, [j.start, j.end]);
    TurnsFromSnoc(None, js, j);
  }

  lemma {:induction false} NewMoveChained(cs: seq<Chain>, j: Jump)
    requires WellChained(cs)
    requires cs != [] ==> LastPoint(cs[|cs| - 1]) != j.start
    ensures WellChained(cs + [[j.start, j.end]])
  {
    var ds := cs + [[j.start, j.end]];
    forall k | 0 < k < |ds|
      ensures ds[k][0] != LastPoint(ds[k - 1])
    {
      if k < |cs| {
        assert ds[k] == cs[k] && ds[k - 1] == cs[k - 1];
      }
    }
  }

  /** A jump that starts where the last move ended extends that move. */
  lemma {:induction false} ContinueMove(cs: seq<Chain>, prevEnd: Option<Point>, js: seq<Jump>, j: Jump)
    requires ChainedUpTo(cs, prevEnd, js) && prevEnd == Some(j.start)
    ensures ChainedUpTo(cs[|cs| - 1 := cs[|cs| - 1] + [j.end]], Some(j.end), js + [j])
  {
    UnchainExtend(cs, j.end);
    TurnsFromSnoc(None, js, j);
  }

  /** `chain_jumps`: walks the jumps, starting a new move whenever a jump
      does not start where the previous one ended, and otherwise extending
      the current move. The moves give back the jumps, there is one per turn,
      each makes at least one jump, and each begins where the chain breaks. */
  method ChainJumps(jumps: seq<Jump>) returns (result: seq<Chain>)
    ensures Unchain(result) == jumps
    ensures |result| == TurnsFrom(None, jumps)
    ensures WellChained(result)
    ensures TotalPoints(result) == |jumps| + |result|
  {
    result := [];
    var prevEnd: Option<Point> := None;
    var i := 0;
    while i < |jumps|
      invariant i <= |jumps|
      invariant ChainedUpTo(result, prevEnd, jumps[..i])
    {
      var j := jumps[i];
      assert jumps[..i + 1] == jumps[..i] + [j];
      if Some(j.start) != prevEnd {
        StartMove(result, prevEnd, jumps[..i], j);
        result := result + [[j.start, j.end]];
      } else {
        ContinueMove(result, prevEnd, jumps[..i], j);
        result := result[|result| - 1 := result[|result| - 1] + [j.end]];
      }
      prevEnd := Some(j.end);
      i := i + 1;
    }
    assert jumps[..i] == jumps;
    ChainLengths(result);
  }

  /** The number of points written out over all moves. */
  function TotalPoints(cs: seq<Chain>): nat
    decreases |cs|
  {
    if |cs| == 0 then 0 else TotalPoints(cs[..|cs| - 1]) + |cs[|cs| - 1]|
  }

  /** Each move of at least one jump writes one point more than it has
      jumps, so all moves together write one point per jump plus one per
      move. */
  lemma {:induction false} ChainLengths(cs: seq<Chain>)
    requires forall k :: 0 <= k < |cs| ==> |cs[k]| >= 2
    ensures TotalPoints(cs) == |Unchain(cs)| + |cs|
    decreases |cs|
  {
    if |cs| != 0 {
      ChainLengths(cs[..|cs| - 1]);
    }
  }

  /** The display numbers `format_move` joins with dashes, one per point. */
  function MoveNumbers(c: Chain): (ns: seq<int>)
    ensures |ns| == |c|
    ensures forall i :: 0 <= i < |c| ==> ns[i] == ConvertPoint(c[i])
  {
    seq(|c|, i requires 0 <= i < |c| => ConvertPoint(c[i]))
  }

  // ---------------------------------------------------------------------
  // The moves are determined by the jumps

  /** The number of trailing jumps of `js` that one coin makes in a row. */
  function Run(js: seq<Jump>): nat
    decreases |js|
  {
    if |js| <= 1 then |js|
    else if js[|js| - 2].end == js[|js| - 1].start then Run(js[..|js| - 1]) + 1
    else 1
  }

  /** The jumps of a move follow on from each other. */
  lemma {:induction false} PairsConnected(c: Chain, i: nat)
    requires i + 1 < |Pairs(c)|
    ensures Pairs(c)[i].end == Pairs(c)[i + 1].start
  {
    var p := Pairs(c);
    assert p[i] == Jump(c[i], c[i + 1]) && p[i + 1] == Jump(c[i + 1], c[i + 2]);
  }

  /** The last jump of a list of moves lands where the last move ends. */
  lemma {:induction false} UnchainLast(cs: seq<Chain>)
    requires WellChained(cs) && cs != []
    ensures Unchain(cs) != [] && Unchain(cs)[|Unchain(cs)| - 1].end == LastPoint(cs[|cs| - 1])
  {
    var c := cs[|cs| - 1];
    assert |Pairs(c)| == |c| - 1;
    assert Pairs(c)[|c| - 2] == Jump(c[|c| - 2], c[|c| - 1]);
  }

  /** A prefix of a well-chained list is well chained. */
  lemma {:induction false} WellChainedFront(cs: seq<Chain>)
    requires WellChained(cs) && cs != []
    ensures WellChained(cs[..|cs| - 1])
  {
  }

  /** A jump made by another coin than the one before it starts a run. */
  lemma {:induction false} RunBreaks(s: seq<Jump>)
    requires |s| >= 1 && (|s| >= 2 ==> s[|s| - 2].end != s[|s| - 1].start)
    ensures Run(s) == 1
  {
  }

  /** A jump by the coin that made the one before it lengthens the run. */
  lemma {:induction false} RunGrows(s: seq<Jump>)
    requires |s| >= 2 && s[|s| - 2].end == s[|s| - 1].start
    ensures Run(s) == Run(s[..|s| - 1]) + 1
  {
  }

  /** When the last k jumps of `s` follow on from each other and the jump
      before them (if any) does not, the final run is k long. */
  lemma {:induction false} RunExact(s: seq<Jump>, k: nat)
    requires 1 <= k <= |s|
    requires forall i :: |s| - k <= i < |s| - 1 ==> s[i].end == s[i + 1].start
    requires |s| > k ==> s[|s| - k - 1].end != s[|s| - k].start
    ensures Run(s) == k
    decreases k
  {
    if k == 1 {
      RunBreaks(s);
    } else {
      var t := s[..|s| - 1];
      assert s[|s| - 2].end == s[|s| - 1].start;
      RunGrows(s);
      RunExact(t, k - 1);
    }
  }

  /** The last move of a well-chained list is as long as the final run. */
  lemma {:induction false} RunOfMoves(cs: seq<Chain>)
    requires WellChained(cs) && cs != []
    ensures Run(Unchain(cs)) == |cs[|cs| - 1]| - 1
  {
    var front := cs[..|cs| - 1];
    var c := cs[|cs| - 1];
    var u := Unchain(front);
    var p := Pairs(c);
    var s := Unchain(cs);
    var k := |c| - 1;
    assert s == u + p;
    forall i | |s| - k <= i < |s| - 1
      ensures s[i].end == s[i + 1].start
    {
      assert s[i] == p[i - |u|] && s[i + 1] == p[i - |u| + 1];
      PairsConnected(c, i - |u|);
    }
    if front != [] {
      WellChainedFront(cs);
      UnchainLast(front);
      assert front[|front| - 1] == cs[|cs| - 2];
      assert s[|s| - k - 1] == u[|u| - 1] && s[|s| - k] == p[0] == Jump(c[0], c[1]);
    }
    RunExact(s, k);
  }

  /** A move is determined by its jumps. */
  lemma {:induction false} PairsInjective(c: Chain, d: Chain)
    requires |c| >= 2 && |d| >= 2 && Pairs(c) == Pairs(d)
    ensures c == d
  {
    var p := Pairs(c);
    forall i | 0 <= i < |c|
      ensures c[i] == d[i]
    {
      if i < |c| - 1 {
        assert p[i] == Jump(c[i], c[i + 1]) == Jump(d[i], d[i + 1]);
      } else {
        assert p[i - 1] == Jump(c[i - 1], c[i]) == Jump(d[i - 1], d[i]);
      }
    }
  }

  /** A non-empty sequence is its front followed by its last element. */
  lemma SplitLast<T>(s: seq<T>)
    requires s != []
    ensures s == s[..|s| - 1] + [s[|s| - 1]]
  {
  }

  /** Two splits of one sequence with tails of the same length are the
      same split. */
  lemma SameSplit<T>(x: seq<T>, p: seq<T>, y: seq<T>, q: seq<T>)
    requires x + p == y + q && |p| == |q|
    ensures x == y && p == q
  {
    assert x == (x + p)[..|x|] && y == (y + q)[..|y|];
    assert p == (x + p)[|x|..] && q == (y + q)[|y|..];
  }

  /** Only the empty list of moves gives back no jumps. */
  lemma {:induction false} NoMovesNoJumps(a: seq<Chain>, b: seq<Chain>)
    requires WellChained(a) && WellChained(b) && Unchain(a) == Unchain(b)
    requires a == [] || b == []
    ensures a == b
  {
    if a != [] {
      UnchainLast(a);
    } else if b != [] {
      UnchainLast(b);
    }
  }

  /** Only one well-chained list of moves gives back a given list of jumps,
      so the moves of ChainJumps are the only way to group them. */
  lemma {:induction false} ChainsUnique(a: seq<Chain>, b: seq<Chain>)
    requires WellChained(a) && WellChained(b) && Unchain(a) == Unchain(b)
    ensures a == b
    decreases |a|
  {
    if a == [] || b == [] {
      NoMovesNoJumps(a, b);
    } else {
      // The proof rests on the lemmas about these functions alone.
      hide Unchain, Pairs, Run;
      var la, lb := a[|a| - 1], b[|b| - 1];
      var fa, fb := a[..|a| - 1], b[..|b| - 1];
      RunOfMoves(a);
      RunOfMoves(b);
      UnchainPrefix(a, |a| - 1);
      UnchainPrefix(b, |b| - 1);
      assert a[..|a|] == a && b[..|b|] == b;
      SameSplit(Unchain(fa), Pairs(la), Unchain(fb), Pairs(lb));
      PairsInjective(la, lb);
      WellChainedFront(a);
      WellChainedFront(b);
      ChainsUnique(fa, fb);
      SplitLast(a);
      SplitLast(b);
    }
  }
}
