/**
 * One turn of the game: the player's move for the key pressed, then every enemy's move in
 * entity-list order (Map.updateEnemies). A step that wins or loses the level makes the
 * controller reload the map, and the enemies of the reloaded map then move; reloading lies
 * outside this model, so a turn here ends at that step.
 */
module Simulation {
  import opened Base
  import opened Geometry
  import opened World
  import opened Interaction
  import opened InteractionFacts
  import opened AStar
  import opened Strategies

  /** Map.getPlayer().getGridCoords(): the square the chasers aim for, if the player is on the map. */
  function PlayerPos(w: World): (r: Option<Vec>)
    ensures r.Some? <==> w.player.Some? && Lookup(w, w.player.value).Some?
    ensures r.Some? ==> r.value == Lookup(w, w.player.value).value.pos
  {
    match w.player
    case None => None
    case Some(pid) =>
      match Lookup(w, pid)
      case None => None
      case Some(p) => Some(p.pos)
  }

  /** Enemy.currentDirection after getNextMove: the enemy with this id now faces `f`. */
  function SetFacing(w: World, id: nat, f: Direction): (r: World)
    requires IsEnemyMover(w, id)
    ensures r == w.(entities := r.entities)
    ensures r.entities == w.entities[FindEntity(w.entities, id).value := Faced(Lookup(w, id).value, f)]
    ensures Lookup(r, id) == Some(Faced(Lookup(w, id).value, f))
  {
    var e := Lookup(w, id).value;
    FindAfterUpdate(w.entities, id, FindEntity(w.entities, id).value, Faced(e, f));
    UpdateEntity(w, id, Faced(e, f))
  }

  /** The enemy `e` turned to face `f`. */
  function Faced(e: Entity, f: Direction): Entity
    requires e.kind.Enemy?
  {
    e.(kind := Enemy(e.kind.strategy, f))
  }

  /**
   * Where an enemy stands plays no part in what it can walk on, and neither does the way it
   * faces: after turning, it sees exactly the squares it saw before.
   */
  lemma TurningKeepsSight(w: World, id: nat, f: Direction, d: Direction)
    requires WellShaped(w) && IsEnemyMover(w, id)
    ensures WellShaped(SetFacing(w, id, f))
    ensures CanMove(SetFacing(w, id, f), Lookup(SetFacing(w, id, f), id).value, d) == CanMove(w, Lookup(w, id).value, d)
  {
    var w1 := SetFacing(w, id, f);
    var e := Lookup(w, id).value;
    var i := FindEntity(w.entities, id).value;
    var q := Plus(e.pos, d);
    EntitiesAtUpdateIgnored(w.entities, i, Faced(e, f), q);
    assert EntitiesAt(w1.entities, q, Some(id)) == EntitiesAt(w.entities, q, Some(id));
  }

  /**
   * What Enemy.getNextMove promises for each movement strategy, as the decision of enemy `e`
   * on map `w`: the straight-line enemy keeps going or turns round; the wall follower obeys the
   * hand rule; the chasers keep their facing, only ever take a step they can make (the A* chaser
   * may also step onto the player's square), and the greedy chaser closes in by one square.
   * The A* chaser takes the first step of a path getPath may return for the player's square,
   * which exists exactly when the player is reachable, and otherwise the move `draw` picks
   * among the open directions. Without a player on the map the chasers stand still.
   */
  ghost predicate Sensible(w: World, e: Entity, draw: nat, dec: Decision)
    requires WellShaped(w) && e.kind.Enemy?
  {
    var f := e.kind.facing;
    match e.kind.strategy
    case StraightLine =>
      dec.move == dec.facing &&
      (CanMove(w, e, f) ==> dec.facing == f) && (!CanMove(w, e, f) ==> dec.facing == Reverse(f))
    case WallFollow(right) =>
      dec == HandRule(Sight(w, e), right, f)
    case DumbTarget =>
      dec.facing == f &&
      (PlayerPos(w).None? ==> dec.move == DirNone) &&
      (PlayerPos(w).Some? ==>
         var t := PlayerPos(w).value;
         (dec.move == DirNone <==> !OpenX(Sight(w, e), e.pos, t) && !OpenY(Sight(w, e), e.pos, t)) &&
         (dec.move != DirNone ==> CanMove(w, e, dec.move) && Heuristic(Plus(e.pos, dec.move), t) + 1 == Heuristic(e.pos, t)))
    case SmartTarget =>
      dec.facing == f &&
      (PlayerPos(w).None? ==> dec.move == DirNone) &&
      (dec.move != DirNone ==> CanMove(w, e, dec.move) || Some(Plus(e.pos, dec.move)) == PlayerPos(w)) &&
      (PlayerPos(w).Some? ==>
         var t := PlayerPos(w).value;
         if InBounds(w, e.pos) && InBounds(w, t) then
           exists path :: Found(w, e.pos, t, e, path) &&
             (|path| > 0 ==> Plus(e.pos, dec.move) == path[0]) &&
             (|path| == 0 ==> dec.move == RandomMove(Sight(w, e), draw))
         else dec.move == DirNone)
  }

  /**
   * Enemy.getNextMove, by strategy; `draw` stands for the random number the A* chaser uses
   * when it finds no path. A chaser with no player to chase, or (A* only) with itself or the
   * player off the map, stands still.
   */
  method NextMove(w: World, e: Entity, draw: nat) returns (dec: Decision)
    requires WellShaped(w) && e.kind.Enemy?
    ensures Sensible(w, e, draw, dec)
  {
    var f := e.kind.facing;
    match e.kind.strategy {
      case StraightLine =>
        dec := StraightNext(Sight(w, e), f);
      case WallFollow(right) =>
        dec := WallFollowNext(Sight(w, e), right, f);
        WallFollowIsHandRule(Sight(w, e), right, f);
      case DumbTarget =>
        match PlayerPos(w) {
          case None =>
            dec := Decision(DirNone, f);
          case Some(t) =>
            dec := Decision(DumbNext(Sight(w, e), e.pos, t), f);
            DumbApproaches(Sight(w, e), e.pos, t);
        }
      case SmartTarget =>
        match PlayerPos(w) {
          case None =>
            dec := Decision(DirNone, f);
          case Some(t) =>
            if InBounds(w, e.pos) && InBounds(w, t) {
              var m, path := SmartNext(w, e, t, draw);
              dec := Decision(m, f);
              assert Found(w, e.pos, t, e, path);
            } else {
              dec := Decision(DirNone, f);
            }
        }
    }
  }

  /** The enemy `e` after a turn with decision `dec`: facing as decided, one step on if it could move. */
  function Turned(w: World, e: Entity, dec: Decision): Entity
    requires WellShaped(w) && e.kind.Enemy?
  {
    Faced(e, dec.facing).(pos := if CanMove(w, e, dec.move) then Plus(e.pos, dec.move) else e.pos)
  }

  /**
   * Turning to face `dec.facing` and then moving by `dec.move` (Moving.move for an enemy):
   * the enemy's list entry becomes its turned self, one step on if it could move, and the only
   * other change is a loss signal for a player it lands on.
   */
  lemma TurnThenMove(w: World, id: nat, dec: Decision)
    requires WellShaped(w) && IsEnemyMover(w, id)
    ensures Move(SetFacing(w, id, dec.facing), id, dec.move, 1).Settled?
    ensures var r := Move(SetFacing(w, id, dec.facing), id, dec.move, 1).world;
            r == w.(entities := r.entities, signals := r.signals) && OnlyLosses(w.signals, r.signals) &&
            r.entities == w.entities[FindEntity(w.entities, id).value := Turned(w, Lookup(w, id).value, dec)]
  {
    var e := Lookup(w, id).value;
    var i := FindEntity(w.entities, id).value;
    var w1 := SetFacing(w, id, dec.facing);
    var e1 := Faced(e, dec.facing);
    TurningKeepsSight(w, id, dec.facing, dec.move);
    EnemyMoveIsolated(w1, id, dec.move, 1);
    FindAfterUpdate(w.entities, id, i, e1);
    assert FindEntity(w1.entities, id) == Some(i);
    if CanMove(w, e, dec.move) {
      var p := Plus(e.pos, dec.move);
      assert Relocate(w1, id, p).entities == w1.entities[i := e1.(pos := p)];
      assert w1.entities[i := e1.(pos := p)] == w.entities[i := Turned(w, e, dec)];
    } else {
      assert Turned(w, e, dec) == e1;
    }
  }

  /**
   * Enemy.preformNextMove: decide, turn, then move. Only the enemy itself changes (its facing,
   * and its square by one step when the move is open) and the only side effect is a loss
   * signal for a player it lands on.
   */
  method EnemyTurn(w: World, id: nat, draw: nat) returns (r: World, dec: Decision)
    requires WellShaped(w) && IsEnemyMover(w, id)
    ensures Sensible(w, Lookup(w, id).value, draw, dec)
    ensures r == w.(entities := r.entities, signals := r.signals) && OnlyLosses(w.signals, r.signals)
    ensures r.entities == w.entities[FindEntity(w.entities, id).value := Turned(w, Lookup(w, id).value, dec)]
  {
    dec := NextMove(w, Lookup(w, id).value, draw);
    TurnThenMove(w, id, dec);
    r := Move(SetFacing(w, id, dec.facing), id, dec.move, 1).world;
  }

  /**
   * One enemy's turn as Map.updateEnemies sees it, the decision left aside: its list entry
   * becomes `turned`, the same enemy at most one square on, and the only other change is a
   * loss signal.
   */
  method TakeTurn(w: World, id: nat, draw: nat) returns (r: World, turned: Entity)
    requires WellShaped(w) && IsEnemyMover(w, id)
    ensures r == w.(entities := r.entities, signals := r.signals) && OnlyLosses(w.signals, r.signals)
    ensures r.entities == w.entities[FindEntity(w.entities, id).value := turned]
    ensures Successor(Lookup(w, id).value, turned) && AtMostOneStep(Lookup(w, id).value.pos, turned.pos)
  {
    var dec;
    r, dec := EnemyTurn(w, id, draw);
    turned := Turned(w, Lookup(w, id).value, dec);
    DirectionStep(Lookup(w, id).value.pos, dec.move);
  }

  /** What one round of enemy turns may do to a list entry: same identity, enemies stay enemies of the same kind, nothing else changes. */
  predicate Successor(a: Entity, b: Entity)
  {
    b.id == a.id &&
    (a.kind.Enemy? ==> b.kind.Enemy? && b.kind.strategy == a.kind.strategy) &&
    (!a.kind.Enemy? ==> b == a)
  }

  /** At most one step along an axis. */
  predicate AtMostOneStep(a: Vec, b: Vec)
  {
    a == b || Adjacent(a, b)
  }

  /** Plus by a direction is a step of at most one square. */
  lemma DirectionStep(p: Vec, d: Direction)
    ensures AtMostOneStep(p, Plus(p, d))
  {
  }

  /**
   * Map.updateEnemies: every enemy, in list order, takes its turn on the map as the enemies
   * before it left it; `draw(i)` is the random number the entry at index i would use.
   * `took[k]` says whether entry k took a turn. An entry takes its turn when it is an enemy
   * and its id finds it, which with distinct ids (one id per Java object) is every enemy. No
   * entity appears or goes, nobody but an enemy changes, each enemy moves at most one square,
   * and the only signals raised are losses.
   */
  method UpdateEnemies(w: World, draw: nat -> nat) returns (r: World, took: seq<bool>)
    requires WellShaped(w)
    ensures r == w.(entities := r.entities, signals := r.signals) && OnlyLosses(w.signals, r.signals)
    ensures |r.entities| == |w.entities| && |took| == |w.entities|
    ensures forall k | 0 <= k < |w.entities| :: Successor(w.entities[k], r.entities[k])
    ensures forall k | 0 <= k < |w.entities| :: AtMostOneStep(w.entities[k].pos, r.entities[k].pos)
    ensures forall k | 0 <= k < |w.entities| :: !took[k] ==> r.entities[k] == w.entities[k]
    ensures forall k | 0 <= k < |w.entities| :: took[k] ==> w.entities[k].kind.Enemy?
    ensures DistinctIds(w.entities) ==> DistinctIds(r.entities)
    ensures DistinctIds(w.entities) ==> forall k | 0 <= k < |w.entities| :: took[k] <==> w.entities[k].kind.Enemy?
  {
    r := w;
    took := [];
    var i := 0;
    while i < |w.entities|
      invariant 0 <= i <= |w.entities| && |took| == i
      invariant r == w.(entities := r.entities, signals := r.signals) && OnlyLosses(w.signals, r.signals)
      invariant |r.entities| == |w.entities|
      invariant forall k | 0 <= k < |w.entities| :: Successor(w.entities[k], r.entities[k])
      invariant forall k | i <= k < |w.entities| :: r.entities[k] == w.entities[k]
      invariant forall k | 0 <= k < i :: AtMostOneStep(w.entities[k].pos, r.entities[k].pos)
      invariant forall k | 0 <= k < i :: !took[k] ==> r.entities[k] == w.entities[k]
      invariant forall k | 0 <= k < i :: took[k] ==> w.entities[k].kind.Enemy?
      invariant DistinctIds(w.entities) ==> forall k | 0 <= k < i :: took[k] <==> w.entities[k].kind.Enemy?
    {
      var e := r.entities[i];
      var turn := e.kind.Enemy? && FindEntity(r.entities, e.id) == Some(i);
      if DistinctIds(w.entities) && e.kind.Enemy? {
        SameIdsDistinct(w.entities, r.entities);
        assert FindEntity(r.entities, e.id) == Some(i);
      }
      if turn {
        var r', turned := TakeTurn(r, e.id, draw(i));
        OnlyLossesTrans(w.signals, r.signals, r'.signals);
        r := r';
      }
      took := took + [turn];
      i := i + 1;
    }
    if DistinctIds(w.entities) {
      SameIdsDistinct(w.entities, r.entities);
    }
  }

  /** Distinct ids stay distinct through entry-wise successors. */
  lemma SameIdsDistinct(a: seq<Entity>, b: seq<Entity>)
    requires |a| == |b| && DistinctIds(a)
    requires forall k | 0 <= k < |a| :: Successor(a[k], b[k])
    ensures DistinctIds(b)
  {
    forall i, j | 0 <= i < j < |b| ensures b[i].id != b[j].id {
      assert Successor(a[i], b[i]) && Successor(a[j], b[j]);
    }
  }

  /**
   * LevelController.processKeyEvent: the hint is cleared, the player steps if an arrow key was
   * pressed (`key`, never DirNone), and then every enemy takes its turn. When the step ends
   * the level (a win or a loss was signalled) the controller reloads the map and the enemies
   * that move are those of the fresh map; that reload is not modelled, and the turn ends
   * with the step. `afterPlayer` is the cascade of the player's step alone.
   */
  method Tick(w: World, key: Option<Direction>, draw: nat -> nat, fuel: nat) returns (afterPlayer: Cascade, r: Cascade)
    requires WellShaped(w) && (key.Some? ==> key.value != DirNone)
    ensures key.None? || w.player.None? ==> afterPlayer == Settled(w.(hint := ""), DirNone)
    ensures key.Some? && w.player.Some? ==> afterPlayer == Move(w.(hint := ""), w.player.value, key.value, fuel)
    ensures r.Diverged? <==> afterPlayer.Diverged?
    ensures r.Settled? ==> Frame(w, r.world) && r.world.grid == afterPlayer.world.grid && r.world.hint == afterPlayer.world.hint
    ensures afterPlayer.Settled? && |afterPlayer.world.signals| > |w.signals| ==> r == afterPlayer
    ensures afterPlayer.Settled? && |afterPlayer.world.signals| == |w.signals| ==>
              var p := afterPlayer.world;
              r.Settled? && r.world == p.(entities := r.world.entities, signals := r.world.signals) &&
              OnlyLosses(p.signals, r.world.signals) && |r.world.entities| == |p.entities| &&
              (forall k | 0 <= k < |p.entities| :: Successor(p.entities[k], r.world.entities[k])) &&
              (forall k | 0 <= k < |p.entities| :: AtMostOneStep(p.entities[k].pos, r.world.entities[k].pos))
  {
    var w0 := w.(hint := "");
    if key.Some? && w.player.Some? {
      afterPlayer := Move(w0, w.player.value, key.value, fuel);
    } else {
      afterPlayer := Settled(w0, DirNone);
    }
    match afterPlayer {
      case Diverged =>
        r := Diverged;
      case Settled(p, dir) =>
        assert Frame(w0, p);
        if |p.signals| > |w.signals| {
          r := afterPlayer;
        } else {
          var enemiesDone, took := UpdateEnemies(p, draw);
          r := Settled(enemiesDone, dir);
        }
    }
  }

  /** Loss signals added in two rounds are loss signals added. */
  lemma OnlyLossesTrans(a: seq<Signal>, b: seq<Signal>, c: seq<Signal>)
    requires OnlyLosses(a, b) && OnlyLosses(b, c)
    ensures OnlyLosses(a, c)
  {
    forall k | |a| <= k < |c| ensures c[k] == Lost {
      if k < |b| {
        assert c[k] == b[k];
      }
    }
  }
}
