/**
 * MapWriter: a Map becomes the lines of a level file: "width,height", one row of cell
 * symbols per y, the metadata of the cells in row-major order, the metadata of the entities
 * in list order, and finally the saved time.
 */
module MapWriter {
  import opened Base
  import opened JavaText
  import opened Geometry
  import opened Colours
  import opened Items
  import opened World
  import opened MapReader

  /** A metadata line: its fields joined by commas (String.format with "%s,%s,..."). */
  function Line(fields: seq<string>): string
    requires |fields| >= 1
  {
    Join(fields, ',')
  }

  /** Vector2.toString as two fields. */
  function CoordFields(v: Vec): (r: seq<string>)
    ensures |r| == 2
  {
    [IntToString(v.x), IntToString(v.y)]
  }

  /** ColourUtils.colourToString through "%s": an unnamed colour prints as "null". */
  function ColourName(c: Colour): string
  {
    match ColourToString(c)
    case Some(s) => s
    case None => "null"
  }

  /** Cell.getMetaInfo: door and teleporter lines; other cells write none. */
  function CellMeta(c: Cell, at: Vec): (r: seq<string>)
    ensures |r| <= 1
    ensures |r| == 1 <==> c.ColouredDoor? || c.TokenDoor? || (c.Teleporter? && c.link.Some?)
  {
    match c
    case ColouredDoor(colour) => [Line(CoordFields(at) + ["door", ColourName(colour)])]
    case TokenDoor(n) => [Line(CoordFields(at) + ["door", "token", IntToString(n)])]
    case Teleporter(Some(to)) => [Line(CoordFields(at) + ["teleporter"] + CoordFields(to))]
    case _ => []
  }

  /** The metadata fields of a collectable at `at` (Key, Boot and Token.getMetaInfo). */
  function ThingFields(at: Vec, thing: Collectable): (r: seq<string>)
    ensures |r| == 4
  {
    match thing
    case Key(c) => CoordFields(at) + ["key", ColourName(c)]
    case Boot(t) => CoordFields(at) + ["boot", BootName(t)]
    case Token(n) => CoordFields(at) + ["token", IntToString(n)]
  }

  /**
   * Inventory.getMetaInfo: one "x,y,invitem,<item metadata>" line per item (the item's own
   * coordinate written twice), then "0,0,invtoken,<count>".
   */
  function InventoryMeta(inv: Inventory): (r: seq<string>)
    ensures |r| == |inv.items| + 1
    ensures r[|inv.items|] == Line(["0", "0", "invtoken", IntToString(inv.tokens)])
    ensures forall i | 0 <= i < |inv.items| ::
              r[i] == Line(CoordFields(inv.items[i].pos) + ["invitem"] + ThingFields(inv.items[i].pos, inv.items[i].thing))
  {
    seq(|inv.items|, i requires 0 <= i < |inv.items| =>
          Line(CoordFields(inv.items[i].pos) + ["invitem"] + ThingFields(inv.items[i].pos, inv.items[i].thing)))
    + [Line(["0", "0", "invtoken", IntToString(inv.tokens)])]
  }

  /** The movement keyword of each enemy class. */
  function MovementWord(s: Strategy): string
  {
    match s
    case StraightLine => "straight"
    case WallFollow(_) => "follow"
    case DumbTarget => "dumb"
    case SmartTarget => "smart"
  }

  /**
   * Entity.getMetaInfo for each kind: the player writes "x,y,start" then its inventory (so
   * a save respawns the player where it stands, with what it holds); an enemy writes its
   * movement and facing, and a wall follower also the side it hugs.
   */
  function EntityMeta(e: Entity): (r: seq<string>)
    ensures |r| >= 1
    ensures !e.kind.Player? ==> |r| == 1
    ensures e.kind.Player? ==> r == [Line(CoordFields(e.pos) + ["start"])] + InventoryMeta(e.kind.inv)
  {
    match e.kind
    case Player(inv) => [Line(CoordFields(e.pos) + ["start"])] + InventoryMeta(inv)
    case Pickup(thing) => [Line(ThingFields(e.pos, thing))]
    case PushBlock => [Line(CoordFields(e.pos) + ["pushblock"])]
    case HintBlock(hint) => [Line(CoordFields(e.pos) + ["hintblock", hint])]
    case Enemy(s, f) =>
      var base := CoordFields(e.pos) + ["enemy", MovementWord(s), DirectionToString(f)];
      if s.WallFollow? then [Line(base + [if s.followRight then "right" else "left"])]
      else [Line(base)]
  }

  /** The cells MapWriter can write: every slot filled, every teleporter linked (else it throws). */
  predicate Savable(w: World)
  {
    WellShaped(w) &&
    (forall x, y | 0 <= x < Width(w) && 0 <= y < Height(w) :: w.grid[x][y].Some?) &&
    (forall x, y | 0 <= x < Width(w) && 0 <= y < Height(w) && w.grid[x][y].Some? && w.grid[x][y].value.Teleporter? ::
       w.grid[x][y].value.link.Some?)
  }

  /** Row y of the cell block: the symbols of the cells x = 0 .. width-1. */
  function RowLine(w: World, y: nat): (r: string)
    requires Savable(w) && y < Height(w)
    ensures |r| == Width(w) && forall x | 0 <= x < Width(w) :: r[x] == CellSymbol(w.grid[x][y].value)
  {
    seq(Width(w), x requires 0 <= x < Width(w) => CellSymbol(w.grid[x][y].value))
  }

  /** The rows y .. height-1. */
  function RowLines(w: World, y: nat): (r: seq<string>)
    requires Savable(w) && y <= Height(w)
    ensures |r| == Height(w) - y
    ensures forall i | 0 <= i < |r| :: r[i] == RowLine(w, y + i)
    decreases Height(w) - y
  {
    if y == Height(w) then [] else [RowLine(w, y)] + RowLines(w, y + 1)
  }

  /** The cell metadata of row y from column x on. */
  function RowMeta(w: World, x: nat, y: nat): seq<string>
    requires Savable(w) && x <= Width(w) && y < Height(w)
    decreases Width(w) - x
  {
    if x == Width(w) then [] else CellMeta(w.grid[x][y].value, Vec(x, y)) + RowMeta(w, x + 1, y)
  }

  /** The cell metadata of rows y .. height-1, in row-major order. */
  function CellMetaLines(w: World, y: nat): seq<string>
    requires Savable(w) && y <= Height(w)
    decreases Height(w) - y
  {
    if y == Height(w) then [] else RowMeta(w, 0, y) + CellMetaLines(w, y + 1)
  }

  /** The metadata of the entities, in list order. */
  function EntityMetaLines(es: seq<Entity>): (r: seq<string>)
    ensures |r| >= |es|
  {
    if |es| == 0 then [] else EntityMeta(es[0]) + EntityMetaLines(es[1..])
  }

  /** The last line: "0,0,time,<lastTime>". */
  function TimeLine(t: int): string
  {
    Line(["0", "0", "time", IntToString(t)])
  }

  /** MapWriter.saveMapToFile as the sequence of lines it writes. */
  function SaveMap(w: World): (lines: seq<string>)
    requires Savable(w)
    ensures |lines| >= Height(w) + 2
    ensures lines[0] == VecToString(Vec(Width(w), Height(w)))
    ensures lines[1..Height(w) + 1] == RowLines(w, 0)
    ensures lines[|lines| - 1] == TimeLine(w.lastTime)
  {
    [VecToString(Vec(Width(w), Height(w)))] + RowLines(w, 0) + CellMetaLines(w, 0) + EntityMetaLines(w.entities) + [TimeLine(w.lastTime)]
  }
}
