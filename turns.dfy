/** Turn counting: a jump costs a turn unless the coin that just landed is
    the one that jumps again. */
module Turns {
  import opened Geometry
  import opened Grid

  /** The turns a run of jumps costs when the jump before it ended at `last`
      (`None` when there was none); the search adds these to its count. */
  function TurnsFrom(last: Option<Point>, js: seq<Jump>): (n: nat)
    ensures n <= |js|
    decreases |js|
  {
    if |js| == 0 then 0
    else (if last == Some(js[0].start) then 0 else 1) + TurnsFrom(Some(js[0].end), js[1..])
  }

  /** Where the last of `js` ended, or `last` if there are none. */
  function LastEnd(last: Option<Point>, js: seq<Jump>): Option<Point>
  {
    if |js| == 0 then last else Some(js[|js| - 1].end)
  }

  /** The indices at which a new turn begins after the first: jump i does not
      start where jump i - 1 ended. */
  ghost function Breaks(js: seq<Jump>): set<int>
  {
    set i | 0 < i < |js| && js[i].start != js[i - 1].end
  }

  /** Adding one jump at the end costs a turn exactly when it does not start
      where the run ended. */
  lemma {:induction false} TurnsFromSnoc(last: Option<Point>, js: seq<Jump>, j: Jump)
    ensures TurnsFrom(last, js + [j]) ==
      TurnsFrom(last, js) + (if LastEnd(last, js) == Some(j.start) then 0 else 1)
    decreases |js|
  {
    if js == [] {
      assert [j][1..] == [];
    } else {
      assert (js + [j])[1..] == js[1..] + [j];
      TurnsFromSnoc(Some(js[0].end), js[1..], j);
      if js[1..] == [] {
        assert |js| == 1;
      } else {
        assert js[1..][|js[1..]| - 1] == js[|js| - 1];
      }
    }
  }

  /** The turn-count law: a search started with no previous jump counts one
      turn for the first jump plus one for every break. */
  lemma {:induction false} TurnCountLaw(js: seq<Jump>)
    requires js != []
    ensures TurnsFrom(None, js) == 1 + |Breaks(js)|
    decreases |js|
  {
    var p := js[..|js| - 1];
    var j := js[|js| - 1];
    assert js == p + [j];
    TurnsFromSnoc(None, p, j);
    if p == [] {
      assert Breaks(js) == {};
      assert TurnsFrom(None, [j]) == 1;
    } else {
      TurnCountLaw(p);
      var broke := j.start != p[|p| - 1].end;
      if broke {
        assert Breaks(js) == Breaks(p) + {|p|};
        assert |p| !in Breaks(p);
      } else {
        assert Breaks(js) == Breaks(p);
      }
    }
  }
}
