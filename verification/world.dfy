/**
 * The level (Map): a column-major grid of cells, the ordered list of entities on it, and the
 * level-wide state (spawn point, starting inventory, saved time, hint text, win/lose signals).
 */
module World {
  import opened Base
  import opened Geometry
  import opened Colours
  import opened Items

  /**
   * The cell kinds. Both door kinds share the 'd' symbol; a Teleporter's link is the grid
   * coordinate of its partner (a cell's coordinate is always the slot it occupies).
   */
  datatype Cell =
    | Ground
    | PushBlockInWater
    | Wall
    | Goal
    | Water
    | Fire
    | ColouredDoor(colour: Colour)
    | TokenDoor(required: int)
    | Teleporter(link: Option<Vec>)

  /** `instanceof Ground`: plain ground and a filled-in water hole. */
  predicate IsGroundLike(c: Cell) { c.Ground? || c.PushBlockInWater? }

  /** How an enemy chooses its next move. */
  datatype Strategy = StraightLine | WallFollow(followRight: bool) | DumbTarget | SmartTarget

  /**
   * The entity kinds. The player always faces right (nothing turns it), so only enemies
   * carry a facing.
   */
  datatype Kind =
    | Player(inv: Inventory)
    | Pickup(thing: Collectable)
    | PushBlock
    | HintBlock(hint: string)
    | Enemy(strategy: Strategy, facing: Direction)

  /** An entity; `id` stands for Java object identity. */
  datatype Entity = Entity(id: nat, pos: Vec, kind: Kind)

  /** Map.win / Map.lose, recorded in order instead of calling into the level controller. */
  datatype Signal = Won | Lost

  /** grid[x][y]; a None slot is a null cell (left by a cell row shorter than the width). */
  type Grid = seq<seq<Option<Cell>>>

  datatype World = World(
    grid: Grid,
    entities: seq<Entity>,
    spawn: Vec,
    player: Option<nat>,
    startInv: Inventory,
    lastTime: int,
    hint: string,
    signals: seq<Signal>,
    nextId: nat)

  /** getGridDimensions reads grid[0], so a usable map has a column and columns of one height. */
  predicate WellShaped(w: World)
  {
    |w.grid| >= 1 && forall x | 0 <= x < |w.grid| :: |w.grid[x]| == |w.grid[0]|
  }

  function Width(w: World): nat requires WellShaped(w) { |w.grid| }

  function Height(w: World): nat requires WellShaped(w) { |w.grid[0]| }

  /** The bounds test at the head of Moving.canWalkOn(Vector2). */
  predicate InBounds(w: World, p: Vec)
    requires WellShaped(w)
  {
    0 <= p.x < Width(w) && 0 <= p.y < Height(w)
  }

  /** Every entity id is below the next one to be handed out. */
  predicate FreshIds(w: World)
  {
    forall i | 0 <= i < |w.entities| :: w.entities[i].id < w.nextId
  }

  /** Every entity is a distinct object, so no two list entries share an identity. */
  predicate DistinctIds(es: seq<Entity>)
  {
    forall i, j | 0 <= i < j < |es| :: es[i].id != es[j].id
  }

  /** new Cell[width][height]: every slot null. */
  function EmptyGrid(width: nat, height: nat): (g: Grid)
    ensures |g| == width
    ensures forall x | 0 <= x < width :: |g[x]| == height
    ensures forall x, y | 0 <= x < width && 0 <= y < height :: g[x][y] == None
  {
    seq(width, x => seq(height, y => None))
  }

  /**
   * Map.getCellAt: null past the right or bottom edge. A negative coordinate would index the
   * array out of range, so callers must not pass one.
   */
  function GetCellAt(w: World, p: Vec): Option<Cell>
    requires p.x >= 0 && p.y >= 0
  {
    if p.x < |w.grid| && p.y < |w.grid[p.x]| then w.grid[p.x][p.y] else None
  }

  /** Map.setCellAt: stores the cell when the slot exists and is a no-op past the edges. */
  function SetCellAt(w: World, p: Vec, c: Cell): (r: World)
    requires p.x >= 0 && p.y >= 0
    ensures r.(grid := w.grid) == w
    ensures |r.grid| == |w.grid|
    ensures forall x | 0 <= x < |w.grid| :: |r.grid[x]| == |w.grid[x]|
    ensures WellShaped(w) ==> WellShaped(r)
  {
    if p.x < |w.grid| && p.y < |w.grid[p.x]| then
      w.(grid := w.grid[p.x := w.grid[p.x][p.y := Some(c)]])
    else w
  }

  /** Reading a slot after writing one: the written cell where it landed, the old contents elsewhere. */
  lemma GetAfterSet(w: World, p: Vec, c: Cell, q: Vec)
    requires p.x >= 0 && p.y >= 0 && q.x >= 0 && q.y >= 0
    ensures GetCellAt(SetCellAt(w, p, c), q) ==
            if q == p && p.x < |w.grid| && p.y < |w.grid[p.x]| then Some(c) else GetCellAt(w, q)
  {
  }

  /** The index of the first entity with this id (Java reference identity). */
  function FindEntity(es: seq<Entity>, id: nat): (r: Option<nat>)
    ensures r.Some? ==> r.value < |es| && es[r.value].id == id
    ensures r.Some? ==> forall j | 0 <= j < r.value :: es[j].id != id
    ensures r.None? ==> forall j | 0 <= j < |es| :: es[j].id != id
  {
    if |es| == 0 then None
    else if es[0].id == id then Some(0)
    else match FindEntity(es[1..], id)
      case None => None
      case Some(i) => Some(i + 1)
  }

  /** The entity with this id, if it is on the map. */
  function Lookup(w: World, id: nat): (r: Option<Entity>)
    ensures r.Some? ==> r.value in w.entities && r.value.id == id
    ensures r.None? ==> forall e | e in w.entities :: e.id != id
  {
    match FindEntity(w.entities, id)
    case None => None
    case Some(i) => Some(w.entities[i])
  }

  /**
   * Map.getEntitiesAt(position, ignore): the entities standing at the position, in list
   * order, leaving out the one whose identity is `ignore`.
   */
  function EntitiesAt(es: seq<Entity>, p: Vec, ignore: Option<nat>): (r: seq<Entity>)
    ensures |r| <= |es|
    ensures forall e {:trigger e in r} {:trigger e in es} :: e in r <==> (e in es && e.pos == p && ignore != Some(e.id))
  {
    if |es| == 0 then []
    else
      var head := if es[0].pos == p && ignore != Some(es[0].id) then [es[0]] else [];
      assert forall e :: e in es <==> e == es[0] || e in es[1..];
      head + EntitiesAt(es[1..], p, ignore)
  }

  /** Map.addEntity: appended at the end of the list. */
  function AddEntity(w: World, e: Entity): (r: World)
    ensures r.(entities := w.entities) == w
    ensures |r.entities| == |w.entities| + 1
    ensures r.entities[..|w.entities|] == w.entities && r.entities[|w.entities|] == e
  {
    w.(entities := w.entities + [e])
  }

  /**
   * Map.removeEntity (ArrayList.remove(Object)): the first entity with this identity goes;
   * the others keep their order. Nothing happens if it is not on the map.
   */
  function RemoveEntity(w: World, id: nat): (r: World)
    ensures r.(entities := w.entities) == w
    ensures FindEntity(w.entities, id).None? ==> r == w
    ensures FindEntity(w.entities, id).Some? ==>
              |r.entities| == |w.entities| - 1 &&
              multiset(r.entities) == multiset(w.entities) - multiset{Lookup(w, id).value}
    ensures forall e | e in r.entities :: e in w.entities
  {
    match FindEntity(w.entities, id)
    case None => w
    case Some(i) =>
      var es := w.entities;
      assert es == es[..i] + [es[i]] + es[i + 1..];
      w.(entities := es[..i] + es[i + 1..])
  }

  /** With distinct ids, nothing with the removed identity is left. */
  lemma RemoveEntityGone(w: World, id: nat)
    requires FreshIds(w)
    requires DistinctIds(w.entities)
    ensures Lookup(RemoveEntity(w, id), id).None?
  {
    var r := RemoveEntity(w, id);
    match FindEntity(w.entities, id)
    case None =>
    case Some(i) =>
      forall e | e in r.entities ensures e.id != id {
        var k :| 0 <= k < |r.entities| && r.entities[k] == e;
        if k < i {
          assert e == w.entities[k];
        } else {
          assert e == w.entities[k + 1];
        }
      }
  }

  /** Replaces the first entity with this id by `e'`; no-op if absent. */
  function UpdateEntity(w: World, id: nat, e': Entity): (r: World)
    ensures r.(entities := w.entities) == w
    ensures |r.entities| == |w.entities|
    ensures FindEntity(w.entities, id).None? ==> r == w
    ensures FindEntity(w.entities, id).Some? ==>
              r.entities == w.entities[FindEntity(w.entities, id).value := e']
  {
    match FindEntity(w.entities, id)
    case None => w
    case Some(i) => w.(entities := w.entities[i := e'])
  }

  /** Sets the coordinates of the entity with this id (Vector2.setXY on its coordinates). */
  function Relocate(w: World, id: nat, p: Vec): (r: World)
    ensures r.(entities := w.entities) == w
    ensures |r.entities| == |w.entities|
    ensures Lookup(w, id).Some? ==> Lookup(r, id) == Some(Lookup(w, id).value.(pos := p))
    ensures Lookup(w, id).None? ==> r == w
  {
    match Lookup(w, id)
    case None => w
    case Some(e) =>
      FindAfterUpdate(w.entities, id, FindEntity(w.entities, id).value, e.(pos := p));
      UpdateEntity(w, id, e.(pos := p))
  }

  /** Overwriting the entity an id finds, with one of the same id, keeps the id finding it. */
  lemma {:induction false} FindAfterUpdate(es: seq<Entity>, id: nat, i: nat, e: Entity)
    requires FindEntity(es, id) == Some(i) && e.id == id
    ensures FindEntity(es[i := e], id) == Some(i)
  {
    if i > 0 {
      assert es[i := e][1..] == es[1..][i - 1 := e];
      FindAfterUpdate(es[1..], id, i - 1, e);
    }
  }

  /** Moving.canWalkOn(OnGrid) for a cell: only Walls stop the player; enemies need ground. */
  predicate CellWalkable(enemy: bool, c: Cell)
  {
    if enemy then IsGroundLike(c) else !c.Wall?
  }

  /**
   * Moving.canWalkOn(OnGrid) for an entity: the player may walk onto anything; an enemy
   * only onto collectables, hint blocks, the player and other enemies.
   */
  predicate KindWalkable(enemy: bool, k: Kind)
  {
    if enemy then k.Pickup? || k.HintBlock? || k.Player? || k.Enemy? else true
  }

  /** The loop over the obstacle entities in Moving.canWalkOn(Vector2). */
  function AllWalkable(enemy: bool, es: seq<Entity>): (r: bool)
    ensures r <==> forall e | e in es :: KindWalkable(enemy, e.kind)
  {
    if |es| == 0 then true
    else
      assert forall e :: e in es <==> e == es[0] || e in es[1..];
      KindWalkable(enemy, es[0].kind) && AllWalkable(enemy, es[1..])
  }

  /**
   * Moving.canWalkOn(Vector2): the point is inside the map, its cell (if any) is walkable
   * for the mover, and so is every other entity standing there.
   */
  function CanWalkOn(w: World, mover: Entity, p: Vec): (r: bool)
    requires WellShaped(w)
    ensures r <==>
      InBounds(w, p) &&
      (GetCellAt(w, p).None? || CellWalkable(mover.kind.Enemy?, GetCellAt(w, p).value)) &&
      (forall e | e in w.entities && e.pos == p && e.id != mover.id :: KindWalkable(mover.kind.Enemy?, e.kind))
  {
    if p.x < 0 || p.x >= Width(w) then false
    else if p.y < 0 || p.y >= Height(w) then false
    else
      var cell := GetCellAt(w, p);
      if cell.Some? && !CellWalkable(mover.kind.Enemy?, cell.value) then false
      else AllWalkable(mover.kind.Enemy?, EntitiesAt(w.entities, p, Some(mover.id)))
  }

  /** Moving.canMove: whether the square one step in direction d is walkable. */
  function CanMove(w: World, mover: Entity, d: Direction): bool
    requires WellShaped(w)
  {
    CanWalkOn(w, mover, Plus(mover.pos, d))
  }

  /** Appends a win or lose signal. */
  function Raise(w: World, s: Signal): (r: World)
    ensures r.(signals := w.signals) == w && r.signals == w.signals + [s]
  {
    w.(signals := w.signals + [s])
  }
}
