/**
 * MapReader: a level file, given as its sequence of lines, becomes a Map. The first line is
 * "width,height"; then come `height` rows of cell symbols; every later line is metadata
 * ("x,y,keyword,...") that places an entity, links a teleporter, sets a door, or sets a
 * map-level value.
 */
module MapReader {
  import opened Base
  import opened JavaText
  import opened Geometry
  import opened Colours
  import opened Items
  import opened World

  /**
   * Why a load fails: a ParsingException with one of its three messages (the metadata one
   * names the offending line), or the NegativeArraySizeException a negative dimension raises.
   */
  datatype ReadError = BadDimensions | BadCells | BadMetadata(line: string) | NegativeSize

  datatype Read<T> = Ok(value: T) | Fail(error: ReadError)

  /** Cell.getSymbol for each cell kind; both door kinds write 'd'. */
  function CellSymbol(c: Cell): char
  {
    match c
    case Ground => ' '
    case PushBlockInWater => 'p'
    case Wall => '#'
    case Goal => 'g'
    case Water => 'w'
    case Fire => 'f'
    case ColouredDoor(_) => 'd'
    case TokenDoor(_) => 'd'
    case Teleporter(_) => 't'
  }

  /**
   * What a cell symbol alone can say about a cell: a door is read as a Wall until its
   * metadata line replaces it, and a teleporter starts unlinked.
   */
  function Placeholder(c: Cell): Cell
  {
    match c
    case ColouredDoor(_) => Wall
    case TokenDoor(_) => Wall
    case Teleporter(_) => Teleporter(None)
    case _ => c
  }

  /**
   * MapReader.parseCellOnToMap, on an already lower-cased character: one of the eight
   * symbols, 'd' standing for a door placeholder; any other character is a parse failure.
   */
  function CellFromSymbol(ch: char): (r: Option<Cell>)
    ensures r.Some? ==> CellSymbol(r.value) == ch || (ch == 'd' && r.value == Wall)
    ensures r.Some? ==> Placeholder(r.value) == r.value
  {
    if ch == 'g' then Some(Goal)
    else if ch == ' ' then Some(Ground)
    else if ch == 'p' then Some(PushBlockInWater)
    else if ch == 't' then Some(Teleporter(None))
    else if ch == 'd' then Some(Wall)
    else if ch == 'w' then Some(Water)
    else if ch == 'f' then Some(Fire)
    else if ch == '#' then Some(Wall)
    else None
  }

  /** Writing a cell's symbol and reading it back gives the cell's placeholder. */
  lemma SymbolRoundTrip(c: Cell)
    ensures CellFromSymbol(CellSymbol(c)) == Some(Placeholder(c))
    ensures LowerChar(CellSymbol(c)) == CellSymbol(c)
  {
  }

  /** new Map(width, height): every slot null, no entities, spawn at the origin, time 0. */
  function NewMap(width: nat, height: nat): (r: World)
    ensures |r.grid| == width && (forall x | 0 <= x < width :: |r.grid[x]| == height)
    ensures r.entities == [] && r.player == None && r.nextId == 0
  {
    World(EmptyGrid(width, height), [], Origin, None, EmptyInventory, 0, "", [], 0)
  }

  /** The same grid shape: as many columns, each as long. */
  predicate SameShape(a: Grid, b: Grid)
  {
    |a| == |b| && forall x | 0 <= x < |a| :: |a[x]| == |b[x]|
  }

  /**
   * The cell loop for one row (the line already lower-cased): each character from index x on
   * is parsed and stored at (x, y); characters past the right edge are still checked, and
   * then dropped by setCellAt.
   */
  function ReadRow(w: World, line: string, x: nat, y: nat): (r: Option<World>)
    requires x <= |line|
    ensures r.Some? <==> forall i | x <= i < |line| :: CellFromSymbol(line[i]).Some?
    ensures r.Some? ==> r.value == w.(grid := r.value.grid) && SameShape(r.value.grid, w.grid)
    ensures r.Some? ==> forall a, b | 0 <= a < |w.grid| && 0 <= b < |w.grid[a]| ::
              r.value.grid[a][b] == if b == y && x <= a < |line| then CellFromSymbol(line[a]) else w.grid[a][b]
    decreases |line| - x
  {
    if x == |line| then Some(w)
    else match CellFromSymbol(line[x])
      case None => None
      case Some(c) =>
        var w1 := SetCellAt(w, Vec(x, y), c);
        assert forall a, b | 0 <= a < |w.grid| && 0 <= b < |w.grid[a]| ::
                 w1.grid[a][b] == if a == x && b == y then Some(c) else w.grid[a][b];
        ReadRow(w1, line, x + 1, y)
  }

  /** The row loop of readMapFile: row y is the lower-cased line rows[y], for every remaining row. */
  function ReadRows(w: World, rows: seq<string>, y: nat): (r: Option<World>)
    requires y <= |rows|
    ensures r.Some? <==> forall b, a | y <= b < |rows| && 0 <= a < |rows[b]| :: CellFromSymbol(LowerChar(rows[b][a])).Some?
    ensures r.Some? ==> r.value == w.(grid := r.value.grid) && SameShape(r.value.grid, w.grid)
    ensures r.Some? ==> forall a, b | 0 <= a < |w.grid| && 0 <= b < |w.grid[a]| ::
              r.value.grid[a][b] == if y <= b < |rows| && a < |rows[b]| then CellFromSymbol(LowerChar(rows[b][a])) else w.grid[a][b]
    decreases |rows| - y
  {
    if y == |rows| then Some(w)
    else match ReadRow(w, ToLower(rows[y]), 0, y)
      case None => None
      case Some(w1) => ReadRows(w1, rows, y + 1)
  }

  /** Something a metadata line creates, before Map.addEntity gives it an identity. */
  datatype Spawned = Spawned(pos: Vec, kind: Kind)

  /** Map.addEntity on a freshly created object: appended with the next unused id. */
  function Place(w: World, made: Option<Spawned>): (r: World)
    ensures made.None? ==> r == w
    ensures made.Some? ==> r.entities == w.entities + [Entity(w.nextId, made.value.pos, made.value.kind)] &&
                           r.nextId == w.nextId + 1 && r == w.(entities := r.entities, nextId := r.nextId)
  {
    match made
    case None => w
    case Some(s) => AddEntity(w, Entity(w.nextId, s.pos, s.kind)).(nextId := w.nextId + 1)
  }

  /**
   * Map.setCellAt as the reader calls it: a no-op past the right edge (whatever y is) or past
   * the bottom, and an ArrayIndexOutOfBoundsException (None) for a negative index it reaches.
   */
  function JavaSetCell(w: World, at: Vec, c: Cell): (r: Option<World>)
    ensures r.None? <==> (at.x < |w.grid| && (at.x < 0 || at.y < 0))
    ensures r.Some? && at.x >= 0 && at.y >= 0 ==> r.value == SetCellAt(w, at, c)
  {
    if at.x >= |w.grid| then Some(w)
    else if at.x < 0 then None
    else if at.y >= |w.grid[at.x]| then Some(w)
    else if at.y < 0 then None
    else Some(SetCellAt(w, at, c))
  }

  /** Map.getCellAt(p) instanceof Teleporter, with the exception for negative indices as false. */
  predicate TeleporterAt(w: World, p: Vec)
  {
    p.x >= 0 && p.y >= 0 && GetCellAt(w, p).Some? && GetCellAt(w, p).value.Teleporter?
  }

  /**
   * A "teleporter" line: the teleporter at `at` is linked to the one at the coordinate in
   * fields 3 and 4; both slots must hold teleporters. Only the first is linked.
   */
  function ParseTeleporter(w: World, args: seq<string>, at: Vec): (r: Option<World>)
    ensures r.Some? <==> |args| >= 5 && ParseVec(args[3], args[4]).Some? &&
                         TeleporterAt(w, at) && TeleporterAt(w, ParseVec(args[3], args[4]).value)
    ensures r.Some? ==> r.value == SetCellAt(w, at, Teleporter(Some(ParseVec(args[3], args[4]).value)))
  {
    if |args| < 5 then None
    else match ParseVec(args[3], args[4])
      case None => None
      case Some(to) =>
        if TeleporterAt(w, at) && TeleporterAt(w, to) then Some(SetCellAt(w, at, Teleporter(Some(to))))
        else None
  }

  /**
   * A "door" line: field 3 (lower-cased) "token" makes a TokenDoor needing the count in
   * field 4; a colour name makes a ColouredDoor; anything else fails.
   */
  function ParseDoor(w: World, args: seq<string>, at: Vec): (r: Option<World>)
    requires |args| >= 4
    ensures ToLower(args[3]) == "token" ==>
              r == if |args| >= 5 && ParseInt(args[4]).Some? then JavaSetCell(w, at, TokenDoor(ParseInt(args[4]).value)) else None
    ensures ToLower(args[3]) != "token" ==>
              r == if StringToColour(args[3]).Some? then JavaSetCell(w, at, ColouredDoor(StringToColour(args[3]).value)) else None
  {
    var doorType := ToLower(args[3]);
    if doorType == "token" then
      if |args| < 5 then None
      else match ParseInt(args[4])
        case None => None
        case Some(n) => JavaSetCell(w, at, TokenDoor(n))
    else
      assert StringToColour(args[3]) == StringToColour(doorType) by { ToLowerFixesLowercase(doorType); }
      match StringToColour(doorType)
      case None => None
      case Some(c) => JavaSetCell(w, at, ColouredDoor(c))
  }

  /**
   * An "enemy" line: field 3 names the movement (straight, follow, smart, dumb), field 4 the
   * facing (right when absent; an unknown word fails), and for a wall follower field 5 the
   * hugged side (left unless it is "right").
   */
  function ParseEnemy(args: seq<string>, at: Vec): (r: Option<Spawned>)
    requires |args| >= 3
    ensures r.Some? ==> r.value.pos == at && r.value.kind.Enemy?
    ensures r.Some? ==> |args| >= 4
    ensures r.Some? ==> Some(r.value.kind.facing) ==
                        (if |args| > 4 then DirectionFromString(ToLower(args[4])) else Some(DirRight))
    ensures r.Some? && r.value.kind.strategy.WallFollow? ==>
              (r.value.kind.strategy.followRight <==> |args| > 5 && ToLower(args[5]) == "right")
  {
    var facing := if |args| > 4 then DirectionFromString(ToLower(args[4])) else Some(DirRight);
    match facing
    case None => None
    case Some(f) =>
      if |args| < 4 then None
      else
        var movement := ToLower(args[3]);
        if movement == "straight" then Some(Spawned(at, Enemy(StraightLine, f)))
        else if movement == "follow" then
          Some(Spawned(at, Enemy(WallFollow(|args| > 5 && ToLower(args[5]) == "right"), f)))
        else if movement == "smart" then Some(Spawned(at, Enemy(SmartTarget, f)))
        else if movement == "dumb" then Some(Spawned(at, Enemy(DumbTarget, f)))
        else None
  }

  /** The length of "x,y,invitem," as the reader recomputes it from the parsed coordinate. */
  function InvItemPrefixLength(at: Vec): nat
  {
    |VecToString(at)| + |",invitem,"|
  }

  /** The map-level parts a metadata line may change: spawn, start inventory, saved time, and cells. */
  predicate MetaFrame(w: World, r: World)
  {
    r == w.(grid := r.grid, spawn := r.spawn, startInv := r.startInv, lastTime := r.lastTime) &&
    SameShape(r.grid, w.grid)
  }

  /**
   * MapReader.parseMapMetadataStr: None is the ParsingException. A line of at most two
   * comma-separated fields is ignored; otherwise the first two fields are the coordinate and
   * the third, lower-cased, the keyword. The result is the updated map and, for an entity
   * line, the entity to add.
   */
  function ParseLine(w: World, line: string): (r: Option<(World, Option<Spawned>)>)
    ensures |JavaSplit(line, ',')| <= 2 ==> r == Some((w, None))
    ensures r.Some? ==> MetaFrame(w, r.value.0)
    ensures r.Some? && r.value.1.Some? ==>
              |JavaSplit(line, ',')| >= 3 &&
              Some(r.value.1.value.pos) == ParseVec(JavaSplit(line, ',')[0], JavaSplit(line, ',')[1])
    decreases |line|, 1
  {
    var args := JavaSplit(line, ',');
    if |args| <= 2 then Some((w, None))
    else match ParseVec(args[0], args[1])
      case None => None
      case Some(at) => ParseEntry(w, line, args, at)
  }

  /** The keyword switch of parseMapMetadataStr, on a line of at least three fields at `at`. */
  function ParseEntry(w: World, line: string, args: seq<string>, at: Vec): (r: Option<(World, Option<Spawned>)>)
    requires |args| >= 3
    ensures r.Some? ==> MetaFrame(w, r.value.0)
    ensures r.Some? && r.value.1.Some? ==> r.value.1.value.pos == at
    decreases |line|, 0
  {
    var keyword := ToLower(args[2]);
    if keyword == "start" then Some((w.(spawn := at), None))
    else if keyword == "token" then
      if |args| < 4 then None
      else match ParseInt(args[3])
        case None => None
        case Some(n) => Some((w, Some(Spawned(at, Pickup(Token(n))))))
    else if keyword == "teleporter" then
      match ParseTeleporter(w, args, at)
      case None => None
      case Some(w1) => Some((w1, None))
    else if keyword == "door" then
      if |args| < 4 then None
      else match ParseDoor(w, args, at)
        case None => None
        case Some(w1) => Some((w1, None))
    else if keyword == "key" then
      if |args| < 4 then None
      else match StringToColour(args[3])
        case None => None
        case Some(c) => Some((w, Some(Spawned(at, Pickup(Key(c))))))
    else if keyword == "time" then
      if |args| < 4 then None
      else match ParseLong(args[3])
        case None => None
        case Some(t) => Some((w.(lastTime := t), None))
    else if keyword == "boot" then
      if |args| < 4 then None
      else match BootValueOf(ToLower(args[3]))
        case None => None
        case Some(b) => Some((w, Some(Spawned(at, Pickup(Boot(b))))))
    else if keyword == "pushblock" then Some((w, Some(Spawned(at, PushBlock))))
    else if keyword == "hintblock" then
      if |args| < 4 then None
      else Some((w, Some(Spawned(at, HintBlock(args[3])))))
    else if keyword == "invitem" then
      var k := InvItemPrefixLength(at);
      if k > |line| then None
      else match ParseLine(w, line[k..])
        case None => None
        case Some((w1, made)) =>
          if made.Some? && made.value.kind.Pickup? then
            Some((w1.(startInv := AddItem(w1.startInv, Item(made.value.pos, made.value.kind.thing))), None))
          else Some((w1, None))
    else if keyword == "invtoken" then
      if |args| < 4 then None
      else match ParseInt(args[3])
        case None => None
        case Some(n) => Some((w.(startInv := SetNumTokens(w.startInv, n)), None))
    else if keyword == "enemy" then
      match ParseEnemy(args, at)
      case None => None
      case Some(s) => Some((w, Some(s)))
    else None
  }

  /** The metadata keywords the reader knows. */
  function KeywordList(): seq<string>
  {
    ["start", "token", "teleporter", "door", "key", "time", "boot", "pushblock", "hintblock", "invitem", "invtoken", "enemy"]
  }

  /** A line whose keyword is none of the known ones is a parse failure. */
  lemma UnknownKeyword(w: World, line: string, args: seq<string>, at: Vec)
    requires |args| >= 3 && ToLower(args[2]) !in KeywordList()
    ensures ParseEntry(w, line, args, at).None?
  {
  }

  /**
   * The metadata loop of readMapFile: each line in turn, any created entity appended; the
   * first failing line fails the load and is named in the error.
   */
  function ReadMeta(w: World, lines: seq<string>): (r: Read<World>)
    ensures r.Fail? ==> exists i | 0 <= i < |lines| :: r.error == BadMetadata(lines[i])
    ensures r.Ok? ==> SameShape(r.value.grid, w.grid) && r.value.player == w.player &&
                      r.value.hint == w.hint && r.value.signals == w.signals &&
                      w.entities <= r.value.entities && r.value.nextId - w.nextId == |r.value.entities| - |w.entities|
    ensures r.Ok? && w.nextId == |w.entities| && (forall i | 0 <= i < |w.entities| :: w.entities[i].id == i) ==>
              r.value.nextId == |r.value.entities| && forall i | 0 <= i < |r.value.entities| :: r.value.entities[i].id == i
    decreases |lines|, 1
  {
    if |lines| == 0 then Ok(w)
    else
      var r := ReadLine(w, lines[0], lines[1..]);
      assert r.Fail? ==> exists i | 0 <= i < |lines| :: r.error == BadMetadata(lines[i]) by {
        if r.Fail? && r.error != BadMetadata(lines[0]) {
          var i :| 0 <= i < |lines[1..]| && r.error == BadMetadata(lines[1..][i]);
          assert lines[1..][i] == lines[i + 1];
        }
      }
      r
  }

  /** One metadata line, then the lines after it: a line that does not parse fails the load. */
  function ReadLine(w: World, line: string, rest: seq<string>): (r: Read<World>)
    ensures r.Fail? ==> r.error == BadMetadata(line) || exists i | 0 <= i < |rest| :: r.error == BadMetadata(rest[i])
    ensures r.Ok? ==> SameShape(r.value.grid, w.grid) && r.value.player == w.player &&
                      r.value.hint == w.hint && r.value.signals == w.signals &&
                      w.entities <= r.value.entities && r.value.nextId - w.nextId == |r.value.entities| - |w.entities|
    ensures r.Ok? && w.nextId == |w.entities| && (forall i | 0 <= i < |w.entities| :: w.entities[i].id == i) ==>
              r.value.nextId == |r.value.entities| && forall i | 0 <= i < |r.value.entities| :: r.value.entities[i].id == i
    decreases |rest| + 1, 0
  {
    match ParseLine(w, line)
    case None => Fail(BadMetadata(line))
    case Some((w1, made)) => ReadMeta(Place(w1, made), rest)
  }

  /**
   * MapReader.readMapFile over the file's lines: the dimension line must be exactly two
   * integers, a negative one cannot allocate the grid, `height` cell rows must follow, and
   * every later line is metadata.
   */
  function ReadMap(lines: seq<string>): (r: Read<World>)
    ensures |lines| == 0 ==> r == Fail(BadDimensions)
    ensures |lines| > 0 && |JavaSplit(lines[0], ',')| != 2 ==> r == Fail(BadDimensions)
    ensures r.Ok? ==>
              |lines| > 0 && |JavaSplit(lines[0], ',')| == 2 &&
              var size := ParseVec(JavaSplit(lines[0], ',')[0], JavaSplit(lines[0], ',')[1]);
              size.Some? && size.value.x >= 0 && size.value.y >= 0 && |lines| > size.value.y &&
              |r.value.grid| == size.value.x && (forall x | 0 <= x < size.value.x :: |r.value.grid[x]| == size.value.y)
    ensures r.Ok? ==> r.value.player == None && r.value.hint == "" && r.value.signals == [] &&
                      r.value.nextId == |r.value.entities| && (forall i | 0 <= i < |r.value.entities| :: r.value.entities[i].id == i)
  {
    if |lines| == 0 then Fail(BadDimensions)
    else
      var dims := JavaSplit(lines[0], ',');
      if |dims| != 2 then Fail(BadDimensions)
      else match ParseVec(dims[0], dims[1])
        case None => Fail(BadDimensions)
        case Some(size) =>
          if size.x < 0 || size.y < 0 then Fail(NegativeSize)
          else if |lines| - 1 < size.y then Fail(BadCells)
          else match ReadRows(NewMap(size.x, size.y), lines[1..1 + size.y], 0)
            case None => Fail(BadCells)
            case Some(m) => ReadMeta(m, lines[1 + size.y..])
  }
}
