/**
 * The four enemy movement strategies (Enemy.getNextMove overrides). Each yields the direction the
 * enemy will try to move in this tick and the facing it ends up with; only the straight-line and
 * wall-following enemies ever turn.
 */
module Strategies {
  import opened Base
  import opened Geometry
  import opened World
  import opened AStar

  /** The outcome of getNextMove: the direction to move in, and the facing afterwards. */
  datatype Decision = Decision(move: Direction, facing: Direction)

  /**
   * Moving.canMove for an enemy standing still: the strategies see the map only through this
   * test of each direction (Enemy.checkForUnWalkable is its negation).
   */
  function Sight(w: World, e: Entity): Direction -> bool
  {
    (d: Direction) => WellShaped(w) && CanMove(w, e, d)
  }

  // ---------------------------------------------------------------- straight line

  /**
   * StraightLineEnemy.getNextMove: keep going, and turn around in place when the square ahead
   * cannot be walked on. The reversed direction is not checked again.
   */
  function StraightNext(canMove: Direction -> bool, facing: Direction): (r: Decision)
    ensures r.move == r.facing
    ensures canMove(facing) ==> r.facing == facing
    ensures !canMove(facing) ==> Plus(facing, r.facing) == Origin
  {
    if canMove(facing) then Decision(facing, facing)
    else Decision(Reverse(facing), Reverse(facing))
  }

  /**
   * Boxed in on both sides, the straight-line enemy never gets anywhere: every move it picks is
   * blocked, and its facing flips back and forth from one tick to the next.
   */
  lemma StraightAlternates(canMove: Direction -> bool, facing: Direction)
    requires !canMove(facing) && !canMove(Reverse(facing))
    ensures !canMove(StraightNext(canMove, facing).move)
    ensures StraightNext(canMove, StraightNext(canMove, facing).facing).facing == facing
    ensures !canMove(StraightNext(canMove, StraightNext(canMove, facing).facing).move)
  {
    ReverseViaSetXY(facing);
  }

  // ---------------------------------------------------------------- wall follow

  /** The side a wall follower keeps its hand on. */
  function Hugged(right: bool, d: Direction): Direction
  {
    if right then GetRight(d) else GetLeft(d)
  }

  /** The way a wall follower turns when both its hugged side and the way ahead are shut. */
  function Away(right: bool, d: Direction): Direction
  {
    if right then GetLeft(d) else GetRight(d)
  }

  /**
   * One pass of the do-while loop of WallFollowEnemy.getNextMove (both the left-hand and the
   * right-hand copy): `facing` is both currentDirection and targetDir, which turn together;
   * `looped` counts the passes made so far.
   */
  function Hug(canMove: Direction -> bool, right: bool, start: Direction, facing: Direction, looped: nat): (r: Decision)
    requires looped < 5
    decreases 5 - looped
    ensures r.move != DirNone ==> canMove(r.move) && r.facing == r.move
  {
    var side := Hugged(right, facing);
    if canMove(side) then Decision(side, side)
    else if canMove(facing) then Decision(facing, facing)
    else
      var next := Away(right, facing);
      if next != start && looped + 1 < 5 then Hug(canMove, right, start, next, looped + 1)
      else Decision(DirNone, next)
  }

  /** WallFollowEnemy.getNextMove. */
  function WallFollowNext(canMove: Direction -> bool, right: bool, facing: Direction): (r: Decision)
    ensures r.move != DirNone ==> canMove(r.move) && r.facing == r.move
  {
    Hug(canMove, right, facing, facing, 0)
  }

  /**
   * The hand-on-the-wall rule as a reference: take the first open direction among the hugged
   * side, straight ahead, the other side and straight back, facing the way taken; when all four
   * are shut, stay and keep the old facing.
   */
  function HandRule(canMove: Direction -> bool, right: bool, s: Direction): (r: Decision)
    ensures r.move != DirNone ==> canMove(r.move) && r.facing == r.move
  {
    if canMove(Hugged(right, s)) then Decision(Hugged(right, s), Hugged(right, s))
    else if canMove(s) then Decision(s, s)
    else if canMove(Away(right, s)) then Decision(Away(right, s), Away(right, s))
    else if canMove(Reverse(s)) then Decision(Reverse(s), Reverse(s))
    else Decision(DirNone, s)
  }

  /** Whether the hand rule, facing s, tries direction d. */
  predicate Tried(right: bool, s: Direction, d: Direction)
  {
    d == Hugged(right, s) || d == s || d == Away(right, s) || d == Reverse(s)
  }

  /** Facing some way, the hand rule tries every direction other than none. */
  lemma TriesCompass(right: bool, s: Direction, d: Direction)
    requires s != DirNone && d != DirNone
    ensures Tried(right, s, d)
  {
    assert s.x != 0 || s.y != 0;
    assert d.x != 0 || d.y != 0;
  }

  /** Facing some way, none of the four ways tried is none. */
  lemma TurnsAreCompass(right: bool, s: Direction)
    requires s != DirNone
    ensures Hugged(right, s) != DirNone && Away(right, s) != DirNone && Reverse(s) != DirNone
  {
    assert s.x != 0 || s.y != 0;
    assert GetLeft(s).x != 0 || GetLeft(s).y != 0;
    assert GetRight(s).x != 0 || GetRight(s).y != 0;
    assert Reverse(s).x != 0 || Reverse(s).y != 0;
  }

  /** A direction other than none is one of the four compass directions. */
  lemma CompassCases(d: Direction)
    requires d != DirNone
    ensures d == DirUp || d == DirDown || d == DirLeft || d == DirRight
  {
    assert d.x != 0 || d.y != 0;
  }

  /** Facing some way, the hand rule stands still exactly when the four ways it tries are shut. */
  lemma HandRuleStuckTried(canMove: Direction -> bool, right: bool, s: Direction)
    requires s != DirNone
    ensures HandRule(canMove, right, s).move == DirNone <==>
      !canMove(Hugged(right, s)) && !canMove(s) && !canMove(Away(right, s)) && !canMove(Reverse(s))
  {
    TurnsAreCompass(right, s);
  }

  /** Every compass direction is among the four ways tried, so if those are shut, all are. */
  lemma TriedShutAll(canMove: Direction -> bool, right: bool, s: Direction)
    requires s != DirNone
    requires !canMove(Hugged(right, s)) && !canMove(s) && !canMove(Away(right, s)) && !canMove(Reverse(s))
    ensures !canMove(DirUp) && !canMove(DirDown) && !canMove(DirLeft) && !canMove(DirRight)
  {
    assert !canMove(DirUp) by { TriesCompass(right, s, DirUp); }
    assert !canMove(DirDown) by { TriesCompass(right, s, DirDown); }
    assert !canMove(DirLeft) by { TriesCompass(right, s, DirLeft); }
    assert !canMove(DirRight) by { TriesCompass(right, s, DirRight); }
  }

  /** Each of the four ways tried is a compass direction, so if all those are shut, so are these. */
  lemma AllShutTried(canMove: Direction -> bool, right: bool, s: Direction)
    requires s != DirNone
    requires !canMove(DirUp) && !canMove(DirDown) && !canMove(DirLeft) && !canMove(DirRight)
    ensures !canMove(Hugged(right, s)) && !canMove(s) && !canMove(Away(right, s)) && !canMove(Reverse(s))
  {
    TurnsAreCompass(right, s);
    assert !canMove(Hugged(right, s)) by { CompassCases(Hugged(right, s)); }
    assert !canMove(s) by { CompassCases(s); }
    assert !canMove(Away(right, s)) by { CompassCases(Away(right, s)); }
    assert !canMove(Reverse(s)) by { CompassCases(Reverse(s)); }
  }

  /** Facing some way, the hand rule stands still exactly when all four ways are shut. */
  lemma HandRuleStuck(canMove: Direction -> bool, right: bool, s: Direction)
    requires s != DirNone
    ensures HandRule(canMove, right, s).move == DirNone <==>
      !canMove(DirUp) && !canMove(DirDown) && !canMove(DirLeft) && !canMove(DirRight)
  {
    HandRuleStuckTried(canMove, right, s);
    if !canMove(DirUp) && !canMove(DirDown) && !canMove(DirLeft) && !canMove(DirRight) {
      AllShutTried(canMove, right, s);
    }
    if HandRule(canMove, right, s).move == DirNone {
      TriedShutAll(canMove, right, s);
    }
  }

  /** Facing none, every turn is none again: the hand rule has nothing to choose between. */
  lemma NoneTurnsToNone(right: bool, s: Direction)
    requires s == DirNone
    ensures Hugged(right, s) == s && Away(right, s) == s && Reverse(s) == s
  {
    GetLeftTable();
  }

  /** A facing that every turn leaves alone: the hand rule either goes that way or stays put. */
  lemma HandRuleAtRest(canMove: Direction -> bool, right: bool, s: Direction)
    requires Hugged(right, s) == s && Away(right, s) == s && Reverse(s) == s
    ensures HandRule(canMove, right, s) == if canMove(s) then Decision(s, s) else Decision(DirNone, s)
  {
  }

  /** With such a facing the loop of getNextMove stops on its first pass, as the hand rule does. */
  lemma WallFollowAtRest(canMove: Direction -> bool, right: bool, s: Direction)
    requires Hugged(right, s) == s && Away(right, s) == s && Reverse(s) == s
    ensures WallFollowNext(canMove, right, s) == HandRule(canMove, right, s)
  {
    HandRuleAtRest(canMove, right, s);
  }

  /** When the hand rule stands still, it keeps the facing it had. */
  lemma HandRuleKeepsFacing(canMove: Direction -> bool, right: bool, s: Direction)
    ensures HandRule(canMove, right, s).move == DirNone ==> HandRule(canMove, right, s).facing == s
  {
    if Hugged(right, s) == s && Away(right, s) == s && Reverse(s) == s {
      HandRuleAtRest(canMove, right, s);
    } else {
      assert s != DirNone by {
        if s == DirNone {
          NoneTurnsToNone(right, s);
        }
      }
      HandRuleStaysFacing(canMove, right, s);
    }
  }

  /** Facing a compass direction, standing still means all four ways were shut, facing unchanged. */
  lemma HandRuleStaysFacing(canMove: Direction -> bool, right: bool, s: Direction)
    requires s != DirNone
    ensures HandRule(canMove, right, s).move == DirNone ==> HandRule(canMove, right, s).facing == s
  {
    HandRuleStuckTried(canMove, right, s);
  }

  /**
   * The loop of getNextMove follows the hand rule exactly: it comes back to the starting
   * direction after four quarter turns, so its bound of five passes never cuts it short, and
   * a blocked-in enemy ends up facing the way it started.
   */
  lemma WallFollowIsHandRule(canMove: Direction -> bool, right: bool, s: Direction)
    ensures WallFollowNext(canMove, right, s) == HandRule(canMove, right, s)
  {
    if Hugged(right, s) == s && Away(right, s) == s && Reverse(s) == s {
      WallFollowAtRest(canMove, right, s);
    } else {
      assert s != DirNone by {
        if s == DirNone {
          NoneTurnsToNone(right, s);
        }
      }
      WallFollowTurning(canMove, right, s);
    }
  }

  /** Facing a compass direction, the loop tries the same four ways in the same order. */
  lemma WallFollowTurning(canMove: Direction -> bool, right: bool, s: Direction)
    requires s != DirNone
    ensures WallFollowNext(canMove, right, s) == HandRule(canMove, right, s)
  {
    LeftRightInverse(s);
    FourTurns(s);
    var f1 := Away(right, s);
    var f2 := Away(right, f1);
    var f3 := Away(right, f2);
    LeftRightInverse(f1);
    LeftRightInverse(f2);
    LeftRightInverse(f3);
    assert f2 == Reverse(s);
    assert f3 == Hugged(right, s);
    TurnsAreCompass(right, s);
    assert f1 != s && f2 != s && f3 != s;
    if !canMove(f3) && !canMove(s) {
      assert Hug(canMove, right, s, s, 0) == Hug(canMove, right, s, f1, 1);
      if !canMove(f1) {
        assert Hug(canMove, right, s, f1, 1) == Hug(canMove, right, s, f2, 2);
        if !canMove(f2) {
          assert Hug(canMove, right, s, f2, 2) == Hug(canMove, right, s, f3, 3);
          assert Away(right, f3) == s;
          assert Hug(canMove, right, s, f3, 3) == Decision(DirNone, s);
        }
      }
    }
  }



  // ---------------------------------------------------------------- greedy chase

  /** The unit step along one axis toward a positive or negative difference. */
  function Toward(delta: int): int
  {
    if delta > 0 then 1 else -1
  }

  /** targetXDir of DumbTargetEnemy.getNextMove. */
  function StepX(from: Vec, target: Vec): Direction
  {
    Vec(Toward(target.x - from.x), 0)
  }

  /** targetYDir of DumbTargetEnemy.getNextMove. */
  function StepY(from: Vec, target: Vec): Direction
  {
    Vec(0, Toward(target.y - from.y))
  }

  /**
   * DumbTargetEnemy.getNextMove: step toward the target along the axis with the larger distance
   * (x on a tie), falling back to the other axis when that one is blocked; stand still on the
   * target or when neither axis leads anywhere.
   */
  function DumbNext(canMove: Direction -> bool, from: Vec, target: Vec): Direction
  {
    var dx := target.x - from.x;
    var dy := target.y - from.y;
    if dx == 0 && dy == 0 then DirNone
    else if (Abs(dx) >= Abs(dy) || !canMove(StepY(from, target))) && dx != 0 && canMove(StepX(from, target))
    then StepX(from, target)
    else if dy != 0 && canMove(StepY(from, target)) then StepY(from, target)
    else DirNone
  }

  /** Whether the greedy chaser can make progress along the x axis. */
  predicate OpenX(canMove: Direction -> bool, from: Vec, target: Vec)
  {
    target.x != from.x && canMove(StepX(from, target))
  }

  /** Whether the greedy chaser can make progress along the y axis. */
  predicate OpenY(canMove: Direction -> bool, from: Vec, target: Vec)
  {
    target.y != from.y && canMove(StepY(from, target))
  }

  /**
   * The greedy chaser stands still exactly when neither axis offers a walkable step toward the
   * target (in particular on the target itself); otherwise it takes a walkable step that brings
   * it one square closer, preferring the axis with more ground to cover, x on a tie.
   */
  lemma DumbApproaches(canMove: Direction -> bool, from: Vec, target: Vec)
    ensures DumbNext(canMove, from, target) == DirNone <==> !OpenX(canMove, from, target) && !OpenY(canMove, from, target)
    ensures DumbNext(canMove, from, target) != DirNone ==>
      canMove(DumbNext(canMove, from, target)) &&
      Heuristic(Plus(from, DumbNext(canMove, from, target)), target) + 1 == Heuristic(from, target)
    ensures OpenX(canMove, from, target) && OpenY(canMove, from, target) ==>
      DumbNext(canMove, from, target) ==
        (if Abs(target.x - from.x) >= Abs(target.y - from.y) then StepX(from, target) else StepY(from, target))
  {
    var r := DumbNext(canMove, from, target);
    if r != DirNone {
      if r == StepX(from, target) && target.x != from.x {
        assert Plus(from, r).y == from.y;
      } else {
        assert r == StepY(from, target) && target.y != from.y;
        assert Plus(from, r).x == from.x;
      }
    }
  }

  // ---------------------------------------------------------------- A* chase

  /** The directions the path-less fallback of SmartTargetEnemy tries, in order. */
  const FallbackOrder: seq<Direction> := [DirUp, DirDown, DirLeft, DirRight]

  /** The list of directions the enemy can move in, keeping their order. */
  function Movable(canMove: Direction -> bool, ds: seq<Direction>): (r: seq<Direction>)
    ensures forall d :: d in r <==> d in ds && canMove(d)
    ensures |r| <= |ds|
  {
    if |ds| == 0 then []
    else
      assert forall d :: d in ds <==> d == ds[0] || d in ds[1..];
      (if canMove(ds[0]) then [ds[0]] else []) + Movable(canMove, ds[1..])
  }

  /**
   * The fallback of aStarPathFindNextMove when no path exists: a direction chosen by `draw`
   * (standing for Random.nextInt) among the movable ones, or none when there are none.
   */
  function RandomMove(canMove: Direction -> bool, draw: nat): (r: Direction)
    ensures r != DirNone ==> canMove(r)
    ensures r == DirNone <==> forall d | d in FallbackOrder :: !canMove(d)
  {
    var options := Movable(canMove, FallbackOrder);
    if |options| == 0 then DirNone
    else
      assert options[draw % |options|] in options;
      options[draw % |options|]
  }

  /**
   * The first square of a path is a neighbour of the enemy, so the direction built from the
   * difference is always valid and the exception handler of aStarPathFindNextMove is dead code.
   */
  lemma NeighbourIsDirection(from: Vec, to: Vec)
    requires Adjacent(from, to)
    ensures MakeDirection(to.x - from.x, to.y - from.y).Some?
    ensures Plus(from, MakeDirection(to.x - from.x, to.y - from.y).value) == to
  {
  }

  /** The step aStarPathFindNextMove takes toward the first square of a path (none if invalid). */
  function StepToward(from: Vec, to: Vec): Direction
  {
    match MakeDirection(to.x - from.x, to.y - from.y)
    case Some(d) => d
    case None => DirNone
  }

  /**
   * SmartTargetEnemy.aStarPathFindNextMove: search for a path to the target and take its first
   * step; without a path, move at random. The path found is returned alongside the move.
   */
  method SmartNext(w: World, e: Entity, target: Vec, draw: nat) returns (r: Direction, path: seq<Vec>)
    requires WellShaped(w) && InBounds(w, e.pos) && InBounds(w, target)
    ensures Found(w, e.pos, target, e, path)
    ensures |path| > 0 ==> Plus(e.pos, r) == path[0]
    ensures |path| == 0 ==> r == RandomMove(Sight(w, e), draw)
    ensures e.pos == target ==> r == RandomMove(Sight(w, e), draw)
    ensures r != DirNone ==> CanMove(w, e, r) || Plus(e.pos, r) == target
  {
    path := GetPath(w, e.pos, target, e);
    if |path| > 0 {
      NeighbourIsDirection(e.pos, path[0]);
      r := StepToward(e.pos, path[0]);
    } else {
      r := RandomMove(Sight(w, e), draw);
    }
  }
}
