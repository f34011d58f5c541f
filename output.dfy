/** The program's printed answer: the removed coin and the moves of the
    solution in its closing comment, in display numbers. */
module Output {
  import opened Geometry
  import opened Grid
  import opened Moves
  import opened Solver

  /** The moves of the closing comment's solution, as points. */
  const KnownMoves: seq<Chain> := [
    [Point(0, 3), Point(0, 1)],
    [Point(0, 0), Point(0, 2)],
    [Point(2, 3), Point(0, 3), Point(0, 1)],
    [Point(2, 2), Point(0, 0), Point(0, 2), Point(2, 2)],
    [Point(3, 3), Point(1, 1)]
  ]

  /** A move over two points is one jump. */
  lemma PairsTwo(p: Point, q: Point)
    ensures Pairs([p, q]) == [Jump(p, q)]
  {
    assert Pairs([p, q])[0] == Jump(p, q);
  }

  /** A move over three points is two jumps. */
  lemma PairsThree(p: Point, q: Point, r: Point)
    ensures Pairs([p, q, r]) == [Jump(p, q), Jump(q, r)]
  {
    assert Pairs([p, q, r])[0] == Jump(p, q) && Pairs([p, q, r])[1] == Jump(q, r);
  }

  /** A move over four points is three jumps. */
  lemma PairsFour(p: Point, q: Point, r: Point, s: Point)
    ensures Pairs([p, q, r, s]) == [Jump(p, q), Jump(q, r), Jump(r, s)]
  {
    var ps := Pairs([p, q, r, s]);
    assert ps[0] == Jump(p, q) && ps[1] == Jump(q, r) && ps[2] == Jump(r, s);
  }

  /** The jumps of five moves are those of each move in turn. */
  lemma UnchainFive(c0: Chain, c1: Chain, c2: Chain, c3: Chain, c4: Chain)
    ensures Unchain([c0, c1, c2, c3, c4]) == Pairs(c0) + Pairs(c1) + Pairs(c2) + Pairs(c3) + Pairs(c4)
  {
    var s0: seq<Chain> := [];
    assert Unchain(s0) == [];
    // From here each step is one UnchainSnoc.
    hide Unchain, Pairs;
    var s1 := s0 + [c0];
    var s2 := s1 + [c1];
    var s3 := s2 + [c2];
    var s4 := s3 + [c3];
    var s5 := s4 + [c4];
    UnchainSnoc(s0, c0);
    UnchainSnoc(s1, c1);
    UnchainSnoc(s2, c2);
    UnchainSnoc(s3, c3);
    UnchainSnoc(s4, c4);
    assert [] + Pairs(c0) == Pairs(c0);
    assert s5 == [c0, c1, c2, c3, c4];
  }

  /** Those moves are well chained and give back the solution's jumps. */
  lemma {:induction false} KnownUnchain()
    ensures WellChained(KnownMoves) && Unchain(KnownMoves) == KnownJumps
  {
    var ms := KnownMoves;
    PairsTwo(ms[0][0], ms[0][1]);
    PairsTwo(ms[1][0], ms[1][1]);
    PairsThree(ms[2][0], ms[2][1], ms[2][2]);
    PairsFour(ms[3][0], ms[3][1], ms[3][2], ms[3][3]);
    PairsTwo(ms[4][0], ms[4][1]);
    UnchainFive(ms[0], ms[1], ms[2], ms[3], ms[4]);
  }

  /** Whatever well-chained moves give back the solution's jumps (ChainJumps'
      result among them) print as "7-2, 1-4, 9-7-2, 6-1-4-6, 10-3", and the
      first jump lands on coin 2, the one removed. */
  lemma {:induction false} KnownOutput(moves: seq<Chain>)
    requires WellChained(moves) && Unchain(moves) == KnownJumps
    ensures |moves| == 5
    ensures MoveNumbers(moves[0]) == [7, 2] && MoveNumbers(moves[1]) == [1, 4]
    ensures MoveNumbers(moves[2]) == [9, 7, 2] && MoveNumbers(moves[3]) == [6, 1, 4, 6]
    ensures MoveNumbers(moves[4]) == [10, 3]
    ensures ConvertPoint(KnownJumps[0].end) == 2
  {
    KnownUnchain();
    ChainsUnique(moves, KnownMoves);
  }
}
