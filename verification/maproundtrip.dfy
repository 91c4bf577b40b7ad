/**
 * Saving a map and loading the saved lines gives the map back: the same grid (doors and
 * teleporter links included), the non-player entities in order with fresh identities, the
 * player's position as the spawn point and its inventory as the start inventory, and the
 * saved time.
 */
module MapRoundTrip {
  import opened Base
  import opened JavaText
  import opened Geometry
  import opened Colours
  import opened Items
  import opened World
  import opened MapReader
  import opened MapWriter

  /** A field that survives a comma-separated line: no comma in it. */
  predicate Plain(s: string) { ',' !in s }

  /** A decimal rendering never contains a comma. */
  lemma IntPlain(n: int)
    ensures Plain(IntToString(n))
  {
    var s := IntToString(n);
    assert forall k | 0 <= k < |s| :: s[k] == '-' || IsDigit(s[k]);
  }

  /** Every field of a line is plain. */
  predicate AllPlain(fields: seq<string>)
  {
    forall i | 0 <= i < |fields| :: Plain(fields[i])
  }

  /** Plain fields followed by plain fields are plain. */
  lemma AllPlainAppend(a: seq<string>, b: seq<string>)
    requires AllPlain(a) && AllPlain(b)
    ensures AllPlain(a + b)
  {
    forall i | 0 <= i < |a + b| ensures Plain((a + b)[i]) {
      if i >= |a| { assert (a + b)[i] == b[i - |a|]; }
    }
  }

  /** The movement words have no comma. */
  lemma MovementPlain(s: Strategy)
    ensures Plain(MovementWord(s)) && MovementWord(s) != ""
  {
    match s
    case StraightLine => assert MovementWord(s) == "straight";
    case WallFollow(_) => assert MovementWord(s) == "follow";
    case DumbTarget => assert MovementWord(s) == "dumb";
    case SmartTarget => assert MovementWord(s) == "smart";
  }

  /** The direction words have no comma. */
  lemma DirectionPlain(f: Direction)
    ensures Plain(DirectionToString(f)) && DirectionToString(f) != ""
  {
  }

  /** The colour names have no comma, and none of them is the token door's word. */
  lemma ColourPlain(c: Colour)
    ensures Plain(ColourName(c)) && ColourName(c) != "" && ColourName(c) != "token"
  {
  }

  /** The boot names have no comma. */
  lemma BootPlain(t: BootType)
    ensures Plain(BootName(t)) && BootName(t) != ""
  {
  }

  /** The keywords have no comma. */
  lemma KeywordPlain(kw: string)
    requires kw in KeywordList()
    ensures Plain(kw) && kw != ""
  {
  }

  /** Joining two non-empty field lists is joining each and putting a separator between. */
  lemma {:induction false} JoinAppend(a: seq<string>, b: seq<string>, sep: char)
    requires |a| >= 1 && |b| >= 1
    ensures Join(a + b, sep) == Join(a, sep) + [sep] + Join(b, sep)
    decreases |a|
  {
    if |a| > 1 {
      assert (a + b)[1..] == a[1..] + b;
      JoinAppend(a[1..], b, sep);
    } else {
      assert (a + b)[1..] == b;
    }
  }

  /** A line of comma-free fields, the last non-empty, splits back into its fields. */
  lemma LineSplit(fields: seq<string>)
    requires |fields| >= 1 && AllPlain(fields)
    requires fields[|fields| - 1] != ""
    ensures JavaSplit(Line(fields), ',') == fields
  {
    JavaSplitJoin(fields, ',');
  }

  /** The coordinate fields of a 32-bit coordinate are plain and parse back to it. */
  lemma CoordsBack(v: Vec)
    requires IsInt32(v.x) && IsInt32(v.y)
    ensures AllPlain(CoordFields(v)) && CoordFields(v)[1] != ""
    ensures ParseVec(CoordFields(v)[0], CoordFields(v)[1]) == Some(v)
  {
    IntPlain(v.x);
    IntPlain(v.y);
    VecStringRoundTrip(v);
  }

  /** A coordinate followed by keyword fields: splitting the line and parsing its coordinate. */
  lemma CoordLine(v: Vec, tail: seq<string>)
    requires IsInt32(v.x) && IsInt32(v.y)
    requires |tail| >= 1 && AllPlain(tail) && tail[|tail| - 1] != ""
    ensures JavaSplit(Line(CoordFields(v) + tail), ',') == CoordFields(v) + tail
    ensures ParseVec((CoordFields(v) + tail)[0], (CoordFields(v) + tail)[1]) == Some(v)
  {
    CoordsBack(v);
    AllPlainAppend(CoordFields(v), tail);
    LineSplit(CoordFields(v) + tail);
  }

  /** A line of a 32-bit coordinate and plain fields reaches the keyword switch with that coordinate. */
  lemma EntryLine(w: World, v: Vec, tail: seq<string>)
    requires IsInt32(v.x) && IsInt32(v.y)
    requires |tail| >= 1 && AllPlain(tail) && tail[|tail| - 1] != ""
    ensures var args := CoordFields(v) + tail;
            |args| >= 3 && ParseLine(w, Line(args)) == ParseEntry(w, Line(args), args, v)
  {
    CoordLine(v, tail);
  }

  /** The words the writer puts in the keyword, door-type, movement and side fields are lower case already. */
  lemma LowerWord(s: string)
    requires s in KeywordList() + ["straight", "follow", "dumb", "smart", "left", "right"]
    ensures ToLower(s) == s
  {
    assert HasNoUpper(s);
    ToLowerFixesLowercase(s);
  }

  /** A collectable the writer can save and the reader gives back: a named key colour, a 32-bit token count. */
  predicate ThingOk(thing: Collectable)
  {
    match thing
    case Key(c) => !c.Unnamed?
    case Boot(_) => true
    case Token(n) => IsInt32(n)
  }

  /** The fields after the coordinate in a collectable's metadata line. */
  lemma ThingTail(at: Vec, thing: Collectable)
    requires ThingOk(thing)
    ensures ThingFields(at, thing) == CoordFields(at) + ThingFields(at, thing)[2..]
    ensures AllPlain(ThingFields(at, thing)[2..])
    ensures ThingFields(at, thing)[3] != ""
  {
    match thing
    case Key(c) => KeywordPlain("key"); ColourPlain(c);
    case Boot(t) => KeywordPlain("boot"); BootPlain(t);
    case Token(n) => KeywordPlain("token"); IntPlain(n);
  }

  /** A key's line reads back as a key of the same colour. */
  lemma KeyLineRead(acc: World, at: Vec, c: Colour)
    requires IsInt32(at.x) && IsInt32(at.y) && !c.Unnamed?
    ensures ParseLine(acc, Line(CoordFields(at) + ["key", ColourName(c)])) == Some((acc, Some(Spawned(at, Pickup(Key(c))))))
  {
    ThingTail(at, Key(c));
    var args := CoordFields(at) + ["key", ColourName(c)];
    var line := Line(args);
    CoordLine(at, args[2..]);
    assert ParseLine(acc, line) == ParseEntry(acc, line, args, at);
    LowerWord("key");
    ColourRoundTrip(c);
  }

  /** A boot's line reads back as the same boot type. */
  lemma BootLineRead(acc: World, at: Vec, t: BootType)
    requires IsInt32(at.x) && IsInt32(at.y)
    ensures ParseLine(acc, Line(CoordFields(at) + ["boot", BootName(t)])) == Some((acc, Some(Spawned(at, Pickup(Boot(t))))))
  {
    ThingTail(at, Boot(t));
    var args := CoordFields(at) + ["boot", BootName(t)];
    var line := Line(args);
    CoordLine(at, args[2..]);
    assert ParseLine(acc, line) == ParseEntry(acc, line, args, at);
    LowerWord("boot");
    ToLowerFixesLowercase(BootName(t));
    BootRoundTrip(t);
  }

  /** A token's line reads back as a token of the same amount. */
  lemma TokenLineRead(acc: World, at: Vec, n: int)
    requires IsInt32(at.x) && IsInt32(at.y) && IsInt32(n)
    ensures ParseLine(acc, Line(CoordFields(at) + ["token", IntToString(n)])) == Some((acc, Some(Spawned(at, Pickup(Token(n))))))
  {
    ThingTail(at, Token(n));
    var args := CoordFields(at) + ["token", IntToString(n)];
    var line := Line(args);
    CoordLine(at, args[2..]);
    assert ParseLine(acc, line) == ParseEntry(acc, line, args, at);
    LowerWord("token");
    ParseIntRoundTrip(n);
  }

  /** A collectable's metadata line reads back as the same collectable at the same place. */
  lemma ThingLineRead(acc: World, at: Vec, thing: Collectable)
    requires IsInt32(at.x) && IsInt32(at.y) && ThingOk(thing)
    ensures ParseLine(acc, Line(ThingFields(at, thing))) == Some((acc, Some(Spawned(at, Pickup(thing)))))
  {
    match thing
    case Key(c) => KeyLineRead(acc, at, c);
    case Boot(t) => BootLineRead(acc, at, t);
    case Token(n) => TokenLineRead(acc, at, n);
  }

  /** What an inventory must hold to be saved and read back: 32-bit coordinates and counts, no Token items. */
  predicate InventoryOk(inv: Inventory)
  {
    IsInt32(inv.tokens) &&
    forall i | 0 <= i < |inv.items| ::
      IsInt32(inv.items[i].pos.x) && IsInt32(inv.items[i].pos.y) &&
      ThingOk(inv.items[i].thing) && !inv.items[i].thing.Token?
  }

  /** An entity whose metadata lines read back as itself: 32-bit position, savable contents, a hint with text and no comma. */
  predicate EntityOk(e: Entity)
  {
    IsInt32(e.pos.x) && IsInt32(e.pos.y) &&
    match e.kind
    case Player(inv) => InventoryOk(inv)
    case Pickup(thing) => ThingOk(thing)
    case HintBlock(hint) => hint != "" && Plain(hint)
    case _ => true
  }

  /** A push block's line reads back as a push block at the same place. */
  lemma PushBlockLineRead(acc: World, at: Vec)
    requires IsInt32(at.x) && IsInt32(at.y)
    ensures ParseLine(acc, Line(CoordFields(at) + ["pushblock"])) == Some((acc, Some(Spawned(at, PushBlock))))
  {
    var args := CoordFields(at) + ["pushblock"];
    var line := Line(args);
    KeywordPlain("pushblock");
    CoordLine(at, ["pushblock"]);
    assert ParseLine(acc, line) == ParseEntry(acc, line, args, at);
    LowerWord("pushblock");
  }

  /** A hint block's line reads back with the same hint, provided the hint has text and no comma. */
  lemma HintLineRead(acc: World, at: Vec, hint: string)
    requires IsInt32(at.x) && IsInt32(at.y) && hint != "" && Plain(hint)
    ensures ParseLine(acc, Line(CoordFields(at) + ["hintblock", hint])) == Some((acc, Some(Spawned(at, HintBlock(hint)))))
  {
    var args := CoordFields(at) + ["hintblock", hint];
    var line := Line(args);
    KeywordPlain("hintblock");
    CoordLine(at, ["hintblock", hint]);
    assert ParseLine(acc, line) == ParseEntry(acc, line, args, at);
    LowerWord("hintblock");
  }

  /** The enemy fields (movement, facing, hugged side) parse back to the same strategy and facing. */
  lemma EnemyFieldsRead(args: seq<string>, at: Vec, s: Strategy, f: Direction)
    requires |args| >= 5 && args[3] == MovementWord(s) && args[4] == DirectionToString(f)
    requires s.WallFollow? ==> |args| == 6 && args[5] == (if s.followRight then "right" else "left")
    requires !s.WallFollow? ==> |args| == 5
    ensures ParseEnemy(args, at) == Some(Spawned(at, Enemy(s, f)))
  {
    ToLowerFixesLowercase(DirectionToString(f));
    DirectionStringRoundTrip(f);
    LowerWord(MovementWord(s));
    if s.WallFollow? {
      LowerWord(args[5]);
    }
  }

  /** The fields of an enemy's line: the coordinate, "enemy", then what EnemyFieldsRead parses. */
  lemma EnemyFields(e: Entity) returns (tail: seq<string>)
    requires e.kind.Enemy?
    ensures EntityMeta(e)[0] == Line(CoordFields(e.pos) + tail)
    ensures |tail| >= 3 && tail[0] == "enemy" && AllPlain(tail) && tail[|tail| - 1] != ""
    ensures var args := CoordFields(e.pos) + tail;
            args[3] == MovementWord(e.kind.strategy) && args[4] == DirectionToString(e.kind.facing) &&
            (e.kind.strategy.WallFollow? ==>
               |args| == 6 && args[5] == (if e.kind.strategy.followRight then "right" else "left")) &&
            (!e.kind.strategy.WallFollow? ==> |args| == 5)
  {
    var s, f := e.kind.strategy, e.kind.facing;
    tail := ["enemy", MovementWord(s), DirectionToString(f)] +
            (if s.WallFollow? then [if s.followRight then "right" else "left"] else []);
    var args := CoordFields(e.pos) + tail;
    var base := CoordFields(e.pos) + ["enemy", MovementWord(s), DirectionToString(f)];
    if s.WallFollow? {
      assert args == base + [if s.followRight then "right" else "left"];
    } else {
      assert args == base;
    }
    KeywordPlain("enemy");
    MovementPlain(s);
    DirectionPlain(f);
    if s.WallFollow? {
      DirectionPlain(if s.followRight then DirRight else DirLeft);
    }
  }

  /** An enemy's line reads back as the same enemy: strategy, facing and side. */
  lemma EnemyLineRead(acc: World, e: Entity)
    requires IsInt32(e.pos.x) && IsInt32(e.pos.y) && e.kind.Enemy?
    ensures ParseLine(acc, EntityMeta(e)[0]) == Some((acc, Some(Spawned(e.pos, e.kind))))
  {
    var tail := EnemyFields(e);
    var args := CoordFields(e.pos) + tail;
    EntryLine(acc, e.pos, tail);
    EnemyFieldsRead(args, e.pos, e.kind.strategy, e.kind.facing);
    EnemyEntry(acc, Line(args), args, e.pos);
  }

  /** The "enemy" branch of the keyword switch adds the enemy ParseEnemy makes. */
  lemma EnemyEntry(w: World, line: string, args: seq<string>, at: Vec)
    requires |args| >= 3 && args[2] == "enemy" && ParseEnemy(args, at).Some?
    ensures ParseEntry(w, line, args, at) == Some((w, ParseEnemy(args, at)))
  {
    LowerWord("enemy");
  }

  /** The player's "start" line moves the spawn point to where the player stands. */
  lemma StartLineRead(acc: World, at: Vec)
    requires IsInt32(at.x) && IsInt32(at.y)
    ensures ParseLine(acc, Line(CoordFields(at) + ["start"])) == Some((acc.(spawn := at), None))
  {
    var args := CoordFields(at) + ["start"];
    var line := Line(args);
    KeywordPlain("start");
    CoordLine(at, ["start"]);
    assert ParseLine(acc, line) == ParseEntry(acc, line, args, at);
    LowerWord("start");
  }

  /** An "invitem" line is "x,y,invitem," followed by the item's own line. */
  lemma InvItemSplit(at: Vec, thing: Collectable)
    requires ThingOk(thing)
    ensures var line := Line(CoordFields(at) + ["invitem"] + ThingFields(at, thing));
            InvItemPrefixLength(at) <= |line| && line[InvItemPrefixLength(at)..] == Line(ThingFields(at, thing))
  {
    var head := CoordFields(at) + ["invitem"];
    JoinAppend(head, ThingFields(at, thing), ',');
    JoinAppend(CoordFields(at), ["invitem"], ',');
    VecToStringFields(at);
    assert Join(head, ',') == VecToString(at) + [','] + "invitem";
  }

  /** The fields of an "invitem" line after the coordinate: all plain, the last non-empty. */
  lemma InvItemFields(at: Vec, thing: Collectable) returns (tail: seq<string>)
    requires IsInt32(at.x) && IsInt32(at.y) && ThingOk(thing)
    ensures tail == ["invitem"] + ThingFields(at, thing)
    ensures CoordFields(at) + ["invitem"] + ThingFields(at, thing) == CoordFields(at) + tail
    ensures |tail| >= 1 && AllPlain(tail) && tail[|tail| - 1] != ""
  {
    ThingTail(at, thing);
    CoordsBack(at);
    KeywordPlain("invitem");
    AllPlainAppend(CoordFields(at), ThingFields(at, thing)[2..]);
    AllPlainAppend(["invitem"], ThingFields(at, thing));
    tail := ["invitem"] + ThingFields(at, thing);
    AppendAssoc(CoordFields(at), ["invitem"], ThingFields(at, thing));
  }

  /** The "invitem" branch of the keyword switch: the rest of the line, read as an item, goes to the start inventory. */
  lemma InvItemEntry(w: World, line: string, args: seq<string>, at: Vec, w1: World, made: Spawned)
    requires |args| >= 3 && ToLower(args[2]) == "invitem"
    requires InvItemPrefixLength(at) <= |line| && ParseLine(w, line[InvItemPrefixLength(at)..]) == Some((w1, Some(made)))
    requires made.kind.Pickup?
    ensures ParseEntry(w, line, args, at) == Some((w1.(startInv := AddItem(w1.startInv, Item(made.pos, made.kind.thing))), None))
  {
    var keyword := ToLower(args[2]);
    assert keyword != "start" && keyword != "token" && keyword != "teleporter" && keyword != "door";
    assert keyword != "key" && keyword != "time" && keyword != "boot" && keyword != "pushblock" && keyword != "hintblock";
  }

  /** An "invitem" line adds the item to the start inventory. */
  lemma InvItemLineRead(acc: World, item: Item)
    requires IsInt32(item.pos.x) && IsInt32(item.pos.y) && ThingOk(item.thing) && !item.thing.Token?
    ensures ParseLine(acc, Line(CoordFields(item.pos) + ["invitem"] + ThingFields(item.pos, item.thing))) ==
            Some((acc.(startInv := Inventory(acc.startInv.items + [item], acc.startInv.tokens)), None))
  {
    var at, thing := item.pos, item.thing;
    var tail := InvItemFields(at, thing);
    CoordLine(at, tail);
    var args := CoordFields(at) + tail;
    var line := Line(args);
    assert ParseLine(acc, line) == ParseEntry(acc, line, args, at);
    LowerWord("invitem");
    InvItemSplit(at, thing);
    ThingLineRead(acc, at, thing);
    InvItemEntry(acc, line, args, at, acc, Spawned(at, Pickup(thing)));
  }

  /** The closing "0,0,invtoken,n" line sets the start inventory's token count. */
  lemma InvTokenLineRead(acc: World, n: int)
    requires IsInt32(n)
    ensures ParseLine(acc, Line(["0", "0", "invtoken", IntToString(n)])) ==
            Some((acc.(startInv := Inventory(acc.startInv.items, n)), None))
  {
    IntPlain(n);
    assert CoordFields(Origin) == ["0", "0"];
    var args := CoordFields(Origin) + ["invtoken", IntToString(n)];
    assert ["0", "0", "invtoken", IntToString(n)] == args;
    KeywordPlain("invtoken");
    CoordLine(Origin, ["invtoken", IntToString(n)]);
    var line := Line(args);
    assert ParseLine(acc, line) == ParseEntry(acc, line, args, Origin);
    LowerWord("invtoken");
    ParseIntRoundTrip(n);
  }

  /** The empty sequence is a left unit of concatenation. */
  lemma EmptyAppend<T>(a: seq<T>)
    ensures [] + a == a
  {
  }

  /** Concatenation is associative. */
  lemma AppendAssoc<T>(a: seq<T>, b: seq<T>, c: seq<T>)
    ensures a + b + c == a + (b + c)
  {
  }

  /** Taking the k-th element and then the ones after it is taking the suffix from k. */
  lemma AppendNext<T>(pre: seq<T>, s: seq<T>, k: nat)
    requires k < |s|
    ensures pre + [s[k]] + s[k + 1..] == pre + s[k..]
  {
    assert s[k..] == [s[k]] + s[k + 1..];
  }

  /** The metadata loop takes one line, applies it, and goes on with the rest. */
  lemma ReadMetaStep(w: World, line: string, rest: seq<string>, w1: World, made: Option<Spawned>)
    requires ParseLine(w, line) == Some((w1, made))
    ensures ReadMeta(w, [line] + rest) == ReadMeta(Place(w1, made), rest)
  {
    assert ([line] + rest)[0] == line;
    assert ([line] + rest)[1..] == rest;
    assert ReadMeta(w, [line] + rest) == ReadLine(w, line, rest);
  }

  /** Reading the item lines from the k-th on, then the token line: the items are appended and the count set. */
  lemma {:induction false} InventoryLinesRead(a: World, inv: Inventory, k: nat, rest: seq<string>)
    requires InventoryOk(inv) && k <= |inv.items|
    ensures ReadMeta(a, InventoryMeta(inv)[k..] + rest) ==
            ReadMeta(a.(startInv := Inventory(a.startInv.items + inv.items[k..], inv.tokens)), rest)
    decreases |inv.items| - k
  {
    var lines := InventoryMeta(inv);
    if k == |inv.items| {
      assert lines[k..] == [lines[k]];
      InvTokenLineRead(a, inv.tokens);
      ReadMetaStep(a, lines[k], rest, a.(startInv := Inventory(a.startInv.items, inv.tokens)), None);
      assert a.startInv.items + inv.items[k..] == a.startInv.items;
    } else {
      var item := inv.items[k];
      assert lines[k..] + rest == [lines[k]] + (lines[k + 1..] + rest);
      InvItemLineRead(a, item);
      var a1 := a.(startInv := Inventory(a.startInv.items + [item], a.startInv.tokens));
      ReadMetaStep(a, lines[k], lines[k + 1..] + rest, a1, None);
      InventoryLinesRead(a1, inv, k + 1, rest);
      AppendNext(a.startInv.items, inv.items, k);
    }
  }

  /** The player's lines move the spawn point to it and give the start inventory its items and count. */
  lemma PlayerLinesRead(acc: World, e: Entity, rest: seq<string>)
    requires EntityOk(e) && e.kind.Player?
    ensures ReadMeta(acc, EntityMeta(e) + rest) ==
            ReadMeta(acc.(spawn := e.pos,
                          startInv := Inventory(acc.startInv.items + e.kind.inv.items, e.kind.inv.tokens)), rest)
  {
    var inv := e.kind.inv;
    var start := Line(CoordFields(e.pos) + ["start"]);
    assert EntityMeta(e) + rest == [start] + (InventoryMeta(inv)[0..] + rest);
    StartLineRead(acc, e.pos);
    ReadMetaStep(acc, start, InventoryMeta(inv)[0..] + rest, acc.(spawn := e.pos), None);
    InventoryLinesRead(acc.(spawn := e.pos), inv, 0, rest);
    assert inv.items[0..] == inv.items;
  }

  /** A non-player entity's single line reads back as the same kind at the same place. */
  lemma OneLineRead(acc: World, e: Entity)
    requires EntityOk(e) && !e.kind.Player?
    ensures ParseLine(acc, EntityMeta(e)[0]) == Some((acc, Some(Spawned(e.pos, e.kind))))
  {
    match e.kind
    case Pickup(thing) => ThingLineRead(acc, e.pos, thing);
    case PushBlock => PushBlockLineRead(acc, e.pos);
    case HintBlock(hint) => HintLineRead(acc, e.pos, hint);
    case Enemy(_, _) => EnemyLineRead(acc, e);
  }

  /** The players in an entity list, in order. */
  function Players(es: seq<Entity>): (r: seq<Entity>)
    ensures |r| <= |es|
    ensures forall i | 0 <= i < |r| :: r[i].kind.Player?
  {
    if |es| == 0 then [] else (if es[0].kind.Player? then [es[0]] else []) + Players(es[1..])
  }

  /** The other entities, in order. */
  function NonPlayers(es: seq<Entity>): (r: seq<Entity>)
    ensures |r| + |Players(es)| == |es|
    ensures forall i | 0 <= i < |r| :: !r[i].kind.Player?
  {
    if |es| == 0 then [] else (if es[0].kind.Player? then [] else [es[0]]) + NonPlayers(es[1..])
  }

  /** The same entities given the identities first, first + 1, ... in list order. */
  function Renumbered(es: seq<Entity>, first: nat): (r: seq<Entity>)
    ensures |r| == |es|
    ensures forall i | 0 <= i < |r| :: r[i].id == first + i && r[i].pos == es[i].pos && r[i].kind == es[i].kind
  {
    if |es| == 0 then [] else [es[0].(id := first)] + Renumbered(es[1..], first + 1)
  }

  /** What reading one entity's lines does: a player moves the spawn point and adds to the start inventory; anything else is added with the next identity. */
  function RestoredOne(acc: World, e: Entity): World
  {
    if e.kind.Player? then
      acc.(spawn := e.pos, startInv := Inventory(acc.startInv.items + e.kind.inv.items, e.kind.inv.tokens))
    else Place(acc, Some(Spawned(e.pos, e.kind)))
  }

  /** What reading the entities' lines does to the map, one entity at a time. */
  function Restored(acc: World, es: seq<Entity>): World
    decreases |es|
  {
    if |es| == 0 then acc else Restored(RestoredOne(acc, es[0]), es[1..])
  }

  /** Reading one entity's lines, then anything else. */
  lemma EntityStep(acc: World, e: Entity, rest: seq<string>)
    requires EntityOk(e)
    ensures ReadMeta(acc, EntityMeta(e) + rest) == ReadMeta(RestoredOne(acc, e), rest)
  {
    if e.kind.Player? {
      PlayerLinesRead(acc, e, rest);
    } else {
      assert EntityMeta(e) == [EntityMeta(e)[0]];
      OneLineRead(acc, e);
      ReadMetaStep(acc, EntityMeta(e)[0], rest, acc, Some(Spawned(e.pos, e.kind)));
    }
  }

  /** Reading the entities' metadata lines, then anything else, is reading the rest from the restored map. */
  lemma {:induction false} EntityLinesRead(acc: World, es: seq<Entity>, rest: seq<string>)
    requires forall i | 0 <= i < |es| :: EntityOk(es[i])
    ensures ReadMeta(acc, EntityMetaLines(es) + rest) == ReadMeta(Restored(acc, es), rest)
    decreases |es|
  {
    if |es| > 0 {
      EntityLinesRead(RestoredOne(acc, es[0]), es[1..], rest);
      EntityLinesStep(acc, es, rest);
    } else {
      assert EntityMetaLines(es) + rest == rest;
    }
  }

  /** The first entity's lines restore it; the lines of the entities after it then finish the list. */
  lemma EntityLinesStep(acc: World, es: seq<Entity>, rest: seq<string>)
    requires |es| > 0 && EntityOk(es[0])
    requires ReadMeta(RestoredOne(acc, es[0]), EntityMetaLines(es[1..]) + rest) ==
             ReadMeta(Restored(RestoredOne(acc, es[0]), es[1..]), rest)
    ensures ReadMeta(acc, EntityMetaLines(es) + rest) == ReadMeta(Restored(acc, es), rest)
  {
    AppendAssoc(EntityMeta(es[0]), EntityMetaLines(es[1..]), rest);
    EntityStep(acc, es[0], EntityMetaLines(es[1..]) + rest);
  }

  /** Renumbering a list with a head: the head takes the first identity, the rest the following ones. */
  lemma RenumberedCons(e: Entity, es: seq<Entity>, first: nat)
    ensures Renumbered([e] + es, first) == [e.(id := first)] + Renumbered(es, first + 1)
  {
    assert ([e] + es)[1..] == es;
  }

  /** Reading the entities' lines appends the non-players with consecutive identities. */
  lemma {:induction false} RestoredEntities(acc: World, es: seq<Entity>)
    ensures Restored(acc, es).entities == acc.entities + Renumbered(NonPlayers(es), acc.nextId)
    ensures Restored(acc, es).nextId == acc.nextId + |NonPlayers(es)|
    decreases |es|
  {
    if |es| > 0 {
      var e := es[0];
      var acc1 := RestoredOne(acc, e);
      RestoredEntities(acc1, es[1..]);
      if !e.kind.Player? {
        PlacedEntities(acc, es);
      } else {
        assert NonPlayers(es) == NonPlayers(es[1..]);
      }
    } else {
      assert acc.entities + [] == acc.entities;
    }
  }

  /** A non-player in front is the first of the non-players. */
  lemma NonPlayersCons(es: seq<Entity>)
    requires |es| > 0 && !es[0].kind.Player?
    ensures NonPlayers(es) == [es[0]] + NonPlayers(es[1..])
  {
  }

  /** Adding a non-player appends it with the next identity and moves the counter on. */
  lemma PlaceOne(acc: World, e: Entity)
    requires !e.kind.Player?
    ensures RestoredOne(acc, e).entities == acc.entities + [e.(id := acc.nextId)]
    ensures RestoredOne(acc, e).nextId == acc.nextId + 1
  {
  }

  /** One step of RestoredEntities: a non-player in front takes the next identity before the others. */
  lemma PlacedEntities(acc: World, es: seq<Entity>)
    requires |es| > 0 && !es[0].kind.Player?
    ensures acc.entities + Renumbered(NonPlayers(es), acc.nextId) ==
            RestoredOne(acc, es[0]).entities + Renumbered(NonPlayers(es[1..]), RestoredOne(acc, es[0]).nextId)
    ensures |NonPlayers(es)| == |NonPlayers(es[1..])| + 1
  {
    var e := es[0];
    var x := e.(id := acc.nextId);
    var later := Renumbered(NonPlayers(es[1..]), acc.nextId + 1);
    PlaceOne(acc, e);
    NonPlayersCons(es);
    RenumberedCons(e, NonPlayers(es[1..]), acc.nextId);
    AppendAssoc(acc.entities, [x], later);
  }

  /** Reading the entities' lines leaves the grid, the time, the hint and the signals alone. */
  lemma {:induction false} RestoredKeeps(acc: World, es: seq<Entity>)
    ensures var r := Restored(acc, es);
            r.grid == acc.grid && r.player == acc.player && r.lastTime == acc.lastTime &&
            r.hint == acc.hint && r.signals == acc.signals
    decreases |es|
  {
    if |es| > 0 {
      RestoredKeeps(RestoredOne(acc, es[0]), es[1..]);
    }
  }

  /** Without a player the spawn point and start inventory stay; a lone player sets them to its own. */
  lemma {:induction false} RestoredStart(acc: World, es: seq<Entity>)
    ensures Players(es) == [] ==> Restored(acc, es).spawn == acc.spawn && Restored(acc, es).startInv == acc.startInv
    ensures |Players(es)| == 1 ==>
              Restored(acc, es).spawn == Players(es)[0].pos &&
              Restored(acc, es).startInv ==
                Inventory(acc.startInv.items + Players(es)[0].kind.inv.items, Players(es)[0].kind.inv.tokens)
    decreases |es|
  {
    if |es| > 0 {
      var e := es[0];
      RestoredStart(RestoredOne(acc, e), es[1..]);
      if e.kind.Player? {
        assert Players(es) == [e] + Players(es[1..]);
      } else {
        assert Players(es) == Players(es[1..]);
      }
    }
  }

  /** A cell whose metadata line reads back as itself: a named door colour, a 32-bit token count, a link to a teleporter on the map. */
  predicate CellOk(w: World, c: Cell)
  {
    match c
    case ColouredDoor(colour) => !colour.Unnamed?
    case TokenDoor(n) => IsInt32(n)
    case Teleporter(Some(to)) =>
      0 <= to.x < |w.grid| && 0 <= to.y < |w.grid[to.x]| && w.grid[to.x][to.y].Some? && w.grid[to.x][to.y].value.Teleporter?
    case _ => true
  }

  /** Every cell of the map reads back as itself. */
  predicate CellsOk(w: World)
    requires Savable(w)
  {
    IsInt32(Width(w)) && IsInt32(Height(w)) &&
    forall x, y | 0 <= x < Width(w) && 0 <= y < Height(w) :: CellOk(w, w.grid[x][y].value)
  }

  /** Row-major order: (a, b) comes before (x, y). */
  predicate Before(a: int, b: int, x: int, y: int)
  {
    b < y || (b == y && a < x)
  }

  /**
   * The grid while the cell metadata is being read: the cells before (x, y) are restored, the
   * others are still the placeholders their symbols gave.
   */
  function Mix(w: World, x: nat, y: nat): (g: Grid)
    requires Savable(w)
    ensures |g| == Width(w) && forall a | 0 <= a < Width(w) :: |g[a]| == Height(w)
  {
    seq(Width(w), a requires 0 <= a < Width(w) =>
      seq(Height(w), b requires 0 <= b < Height(w) =>
        if Before(a, b, x, y) then w.grid[a][b] else Some(Placeholder(w.grid[a][b].value))))
  }

  /** Restoring the cell at (x, y) moves the mix one place on. */
  lemma MixStep(w: World, x: nat, y: nat)
    requires Savable(w) && x < Width(w) && y < Height(w)
    ensures Mix(w, x, y)[x := Mix(w, x, y)[x][y := Some(w.grid[x][y].value)]] == Mix(w, x + 1, y)
  {
    var g, g' := Mix(w, x, y), Mix(w, x + 1, y);
    var h := g[x := g[x][y := Some(w.grid[x][y].value)]];
    forall a | 0 <= a < Width(w) ensures h[a] == g'[a] {
      forall b | 0 <= b < Height(w) ensures h[a][b] == g'[a][b] {
        if a == x && b == y {
        }
      }
    }
  }

  /** A cell without metadata is its own placeholder, so the mix moves on without a write. */
  lemma MixSkip(w: World, x: nat, y: nat)
    requires Savable(w) && x < Width(w) && y < Height(w) && CellMeta(w.grid[x][y].value, Vec(x, y)) == []
    ensures Mix(w, x, y) == Mix(w, x + 1, y)
  {
    var g, g' := Mix(w, x, y), Mix(w, x + 1, y);
    assert Placeholder(w.grid[x][y].value) == w.grid[x][y].value;
    forall a | 0 <= a < Width(w) ensures g[a] == g'[a] {
      forall b | 0 <= b < Height(w) ensures g[a][b] == g'[a][b] {
      }
    }
  }

  /** The end of one row is the start of the next. */
  lemma MixRowEnd(w: World, y: nat)
    requires Savable(w)
    ensures Mix(w, Width(w), y) == Mix(w, 0, y + 1)
  {
    var g, g' := Mix(w, Width(w), y), Mix(w, 0, y + 1);
    forall a | 0 <= a < Width(w) ensures g[a] == g'[a] {
      forall b | 0 <= b < Height(w) ensures g[a][b] == g'[a][b] {
      }
    }
  }

  /** Past the last row every cell is restored. */
  lemma MixDone(w: World)
    requires Savable(w)
    ensures Mix(w, 0, Height(w)) == w.grid
  {
    var g := Mix(w, 0, Height(w));
    forall a | 0 <= a < Width(w) ensures g[a] == w.grid[a] {
      forall b | 0 <= b < Height(w) ensures g[a][b] == w.grid[a][b] {
      }
    }
  }

  /** A coloured door's line puts the door back at its place. */
  lemma ColouredDoorLineRead(acc: World, at: Vec, colour: Colour)
    requires 0 <= at.x && 0 <= at.y && IsInt32(at.x) && IsInt32(at.y) && !colour.Unnamed?
    ensures ParseLine(acc, Line(CoordFields(at) + ["door", ColourName(colour)])) ==
            Some((SetCellAt(acc, at, ColouredDoor(colour)), None))
  {
    var name := ColourName(colour);
    var args := CoordFields(at) + ["door", name];
    var line := Line(args);
    KeywordPlain("door");
    ColourPlain(colour);
    CoordLine(at, ["door", name]);
    assert ParseLine(acc, line) == ParseEntry(acc, line, args, at);
    LowerWord("door");
    ToLowerFixesLowercase(name);
    ColourRoundTrip(colour);
    DoorEntry(acc, line, args, at);
  }

  /** The "door" branch of the keyword switch hands the arguments to ParseDoor. */
  lemma DoorEntry(w: World, line: string, args: seq<string>, at: Vec)
    requires |args| >= 4 && ToLower(args[2]) == "door" && ParseDoor(w, args, at).Some?
    ensures ParseEntry(w, line, args, at) == Some((ParseDoor(w, args, at).value, None))
  {
    var keyword := ToLower(args[2]);
    assert keyword != "start" && keyword != "token" && keyword != "teleporter";
  }

  /** A token door's line puts the door back with the same count. */
  lemma TokenDoorLineRead(acc: World, at: Vec, n: int)
    requires 0 <= at.x && 0 <= at.y && IsInt32(at.x) && IsInt32(at.y) && IsInt32(n)
    ensures ParseLine(acc, Line(CoordFields(at) + ["door", "token", IntToString(n)])) ==
            Some((SetCellAt(acc, at, TokenDoor(n)), None))
  {
    IntPlain(n);
    var args := CoordFields(at) + ["door", "token", IntToString(n)];
    var line := Line(args);
    KeywordPlain("door");
    KeywordPlain("token");
    CoordLine(at, ["door", "token", IntToString(n)]);
    assert ParseLine(acc, line) == ParseEntry(acc, line, args, at);
    LowerWord("door");
    LowerWord("token");
    ParseIntRoundTrip(n);
    DoorEntry(acc, line, args, at);
  }

  /** A teleporter's line links it again, given that both ends already hold teleporters. */
  lemma TeleporterLineRead(acc: World, at: Vec, to: Vec)
    requires 0 <= at.x && 0 <= at.y && IsInt32(at.x) && IsInt32(at.y) && IsInt32(to.x) && IsInt32(to.y)
    requires TeleporterAt(acc, at) && TeleporterAt(acc, to)
    ensures ParseLine(acc, Line(CoordFields(at) + ["teleporter"] + CoordFields(to))) ==
            Some((SetCellAt(acc, at, Teleporter(Some(to))), None))
  {
    CoordsBack(to);
    KeywordPlain("teleporter");
    AllPlainAppend(["teleporter"], CoordFields(to));
    var tail := ["teleporter"] + CoordFields(to);
    AppendAssoc(CoordFields(at), ["teleporter"], CoordFields(to));
    var args := CoordFields(at) + tail;
    var line := Line(args);
    CoordLine(at, tail);
    assert ParseLine(acc, line) == ParseEntry(acc, line, args, at);
    LowerWord("teleporter");
  }

  /** While the cells are being restored, every teleporter slot of the map still holds a teleporter. */
  lemma MixTeleporter(w: World, x: nat, y: nat, p: Vec)
    requires Savable(w) && 0 <= p.x < Width(w) && 0 <= p.y < Height(w) && w.grid[p.x][p.y].value.Teleporter?
    ensures Mix(w, x, y)[p.x][p.y].Some? && Mix(w, x, y)[p.x][p.y].value.Teleporter?
  {
  }

  /** Writing the original cell at (x, y) into the mixed grid moves the mix one place on. */
  lemma RestoreCell(acc: World, w: World, x: nat, y: nat)
    requires Savable(w) && x < Width(w) && y < Height(w) && acc.grid == Mix(w, x, y)
    ensures SetCellAt(acc, Vec(x, y), w.grid[x][y].value) == acc.(grid := Mix(w, x + 1, y))
  {
    MixStep(w, x, y);
  }

  /** The metadata line of the cell at (x, y) restores that cell. */
  lemma CellLineRead(acc: World, w: World, x: nat, y: nat)
    requires Savable(w) && CellsOk(w) && x < Width(w) && y < Height(w) && acc.grid == Mix(w, x, y)
    requires CellMeta(w.grid[x][y].value, Vec(x, y)) != []
    ensures ParseLine(acc, CellMeta(w.grid[x][y].value, Vec(x, y))[0]) == Some((acc.(grid := Mix(w, x + 1, y)), None))
  {
    var c, at := w.grid[x][y].value, Vec(x, y);
    assert CellOk(w, c);
    RestoreCell(acc, w, x, y);
    match c
    case ColouredDoor(colour) => ColouredDoorLineRead(acc, at, colour);
    case TokenDoor(n) => TokenDoorLineRead(acc, at, n);
    case Teleporter(link) =>
      MixTeleporter(w, x, y, at);
      MixTeleporter(w, x, y, link.value);
      TeleporterLineRead(acc, at, link.value);
  }

  /** The metadata of the cell at (x, y), if any, restores that cell and nothing else. */
  lemma CellStep(acc: World, w: World, x: nat, y: nat, rest: seq<string>)
    requires Savable(w) && CellsOk(w) && x < Width(w) && y < Height(w) && acc.grid == Mix(w, x, y)
    ensures ReadMeta(acc, CellMeta(w.grid[x][y].value, Vec(x, y)) + rest) == ReadMeta(acc.(grid := Mix(w, x + 1, y)), rest)
  {
    var meta := CellMeta(w.grid[x][y].value, Vec(x, y));
    if meta == [] {
      MixSkip(w, x, y);
      assert meta + rest == rest;
    } else {
      assert meta == [meta[0]];
      CellLineRead(acc, w, x, y);
      ReadMetaStep(acc, meta[0], rest, acc.(grid := Mix(w, x + 1, y)), None);
    }
  }

  /** Reading the cell metadata of row y from column x on finishes the row. */
  lemma {:induction false} RowMetaRead(acc: World, w: World, x: nat, y: nat, rest: seq<string>)
    requires Savable(w) && CellsOk(w) && x <= Width(w) && y < Height(w) && acc.grid == Mix(w, x, y)
    ensures ReadMeta(acc, RowMeta(w, x, y) + rest) == ReadMeta(acc.(grid := Mix(w, 0, y + 1)), rest)
    decreases Width(w) - x
  {
    if x == Width(w) {
      RowMetaEnd(acc, w, y, rest);
    } else {
      RowMetaRead(acc.(grid := Mix(w, x + 1, y)), w, x + 1, y, rest);
      CellMetaStep(acc, w, x, y, rest);
    }
  }

  /** At the end of a row there is no metadata left in it, and the mix has reached the next row. */
  lemma RowMetaEnd(acc: World, w: World, y: nat, rest: seq<string>)
    requires Savable(w) && y < Height(w) && acc.grid == Mix(w, Width(w), y)
    ensures ReadMeta(acc, RowMeta(w, Width(w), y) + rest) == ReadMeta(acc.(grid := Mix(w, 0, y + 1)), rest)
  {
    MixRowEnd(w, y);
    assert RowMeta(w, Width(w), y) + rest == rest;
  }

  /** One cell's metadata restores that cell; the cells after it then finish the row. */
  lemma CellMetaStep(acc: World, w: World, x: nat, y: nat, rest: seq<string>)
    requires Savable(w) && CellsOk(w) && x < Width(w) && y < Height(w) && acc.grid == Mix(w, x, y)
    requires ReadMeta(acc.(grid := Mix(w, x + 1, y)), RowMeta(w, x + 1, y) + rest) ==
             ReadMeta(acc.(grid := Mix(w, 0, y + 1)), rest)
    ensures ReadMeta(acc, RowMeta(w, x, y) + rest) == ReadMeta(acc.(grid := Mix(w, 0, y + 1)), rest)
  {
    var meta := CellMeta(w.grid[x][y].value, Vec(x, y));
    assert RowMeta(w, x, y) == meta + RowMeta(w, x + 1, y);
    AppendAssoc(meta, RowMeta(w, x + 1, y), rest);
    CellStep(acc, w, x, y, RowMeta(w, x + 1, y) + rest);
  }

  /** Past the last row there is no cell metadata left, and the grid is restored already. */
  lemma CellMetaEnd(acc: World, w: World, rest: seq<string>)
    requires Savable(w) && acc.grid == Mix(w, 0, Height(w))
    ensures ReadMeta(acc, CellMetaLines(w, Height(w)) + rest) == ReadMeta(acc.(grid := w.grid), rest)
  {
    MixDone(w);
    assert CellMetaLines(w, Height(w)) + rest == rest;
    assert acc.(grid := w.grid) == acc;
  }

  /** Reading the cell metadata of row y restores that row; the rows below it then finish the grid. */
  lemma CellRowRead(acc: World, w: World, y: nat, rest: seq<string>)
    requires Savable(w) && CellsOk(w) && y < Height(w) && acc.grid == Mix(w, 0, y)
    requires ReadMeta(acc.(grid := Mix(w, 0, y + 1)), CellMetaLines(w, y + 1) + rest) ==
             ReadMeta(acc.(grid := Mix(w, 0, y + 1)).(grid := w.grid), rest)
    ensures ReadMeta(acc, CellMetaLines(w, y) + rest) == ReadMeta(acc.(grid := w.grid), rest)
  {
    assert CellMetaLines(w, y) == RowMeta(w, 0, y) + CellMetaLines(w, y + 1);
    AppendAssoc(RowMeta(w, 0, y), CellMetaLines(w, y + 1), rest);
    RowMetaRead(acc, w, 0, y, CellMetaLines(w, y + 1) + rest);
    assert acc.(grid := Mix(w, 0, y + 1)).(grid := w.grid) == acc.(grid := w.grid);
  }

  /** Reading the cell metadata of rows y on restores every cell of the map. */
  lemma {:induction false} CellMetaRead(acc: World, w: World, y: nat, rest: seq<string>)
    requires Savable(w) && CellsOk(w) && y <= Height(w) && acc.grid == Mix(w, 0, y)
    ensures ReadMeta(acc, CellMetaLines(w, y) + rest) == ReadMeta(acc.(grid := w.grid), rest)
    decreases Height(w) - y
  {
    if y == Height(w) {
      CellMetaEnd(acc, w, rest);
    } else {
      CellMetaRead(acc.(grid := Mix(w, 0, y + 1)), w, y + 1, rest);
      CellRowRead(acc, w, y, rest);
    }
  }

  /** The saved time line sets the map's time back. */
  lemma TimeLineRead(acc: World, t: int)
    requires Int64Min <= t <= Int64Max
    ensures ParseLine(acc, TimeLine(t)) == Some((acc.(lastTime := t), None))
  {
    IntPlain(t);
    assert CoordFields(Origin) == ["0", "0"];
    var args := CoordFields(Origin) + ["time", IntToString(t)];
    assert ["0", "0", "time", IntToString(t)] == args;
    KeywordPlain("time");
    CoordLine(Origin, ["time", IntToString(t)]);
    var line := Line(args);
    assert ParseLine(acc, line) == ParseEntry(acc, line, args, Origin);
    LowerWord("time");
    ParseLongRoundTrip(t);
  }

  /** The saved cell rows read back as the placeholder grid: every symbol is known, and each gives its cell's placeholder. */
  lemma RowsRead(w: World)
    requires Savable(w)
    ensures ReadRows(NewMap(Width(w), Height(w)), RowLines(w, 0), 0) ==
            Some(NewMap(Width(w), Height(w)).(grid := Mix(w, 0, 0)))
  {
    var rows := RowLines(w, 0);
    var start := NewMap(Width(w), Height(w));
    forall b, a | 0 <= b < |rows| && 0 <= a < |rows[b]|
      ensures CellFromSymbol(LowerChar(rows[b][a])) == Some(Placeholder(w.grid[a][b].value))
    {
      assert rows[b] == RowLine(w, b);
      SymbolRoundTrip(w.grid[a][b].value);
    }
    var r := ReadRows(start, rows, 0);
    assert r.Some?;
    var g := r.value.grid;
    forall a | 0 <= a < Width(w) ensures g[a] == Mix(w, 0, 0)[a] {
      forall b | 0 <= b < Height(w) ensures g[a][b] == Mix(w, 0, 0)[a][b] {
        assert |rows[b]| == Width(w);
      }
    }
    assert g == Mix(w, 0, 0);
  }

  /** The map as a saved file brings it back: one player at most, and every cell and entity savable and readable. */
  predicate Reloadable(w: World)
  {
    Savable(w) && CellsOk(w) && Int64Min <= w.lastTime <= Int64Max &&
    (forall i | 0 <= i < |w.entities| :: EntityOk(w.entities[i])) &&
    |Players(w.entities)| <= 1
  }

  /**
   * The map a reload gives: the same grid and time; the non-player entities in order with
   * identities 0, 1, ...; the player's position as the spawn point and its inventory as the
   * start inventory (the origin and an empty inventory without a player); no player placed,
   * no hint shown, no signal raised.
   */
  function Reloaded(w: World): World
  {
    var players := Players(w.entities);
    World(w.grid, Renumbered(NonPlayers(w.entities), 0),
          if players == [] then Origin else players[0].pos,
          None,
          if players == [] then EmptyInventory else players[0].kind.inv,
          w.lastTime, "", [], |NonPlayers(w.entities)|)
  }

  /** Dropping the first two of five concatenated parts leaves the other three. */
  lemma DropTwo<T>(a: seq<T>, b: seq<T>, c: seq<T>, d: seq<T>, e: seq<T>)
    ensures (a + b + c + d + e)[|a| + |b|..] == c + (d + e)
  {
    var s := a + b + c + d + e;
    assert forall i | 0 <= i < |c + (d + e)| :: s[|a| + |b| + i] == (c + (d + e))[i];
  }

  /** The saved file splits into the header, the rows, the cell metadata, the entity metadata and the time. */
  lemma SavedParts(w: World)
    requires Savable(w)
    ensures var lines := SaveMap(w);
            lines[1 + Height(w)..] == CellMetaLines(w, 0) + (EntityMetaLines(w.entities) + [TimeLine(w.lastTime)])
  {
    DropTwo([VecToString(Vec(Width(w), Height(w)))], RowLines(w, 0), CellMetaLines(w, 0),
            EntityMetaLines(w.entities), [TimeLine(w.lastTime)]);
  }

  /** Loading the saved file gets past the header and the rows to the metadata, with the placeholder grid. */
  lemma LoadToMeta(w: World)
    requires Reloadable(w)
    ensures ReadMap(SaveMap(w)) ==
            ReadMeta(NewMap(Width(w), Height(w)).(grid := Mix(w, 0, 0)),
                     CellMetaLines(w, 0) + (EntityMetaLines(w.entities) + [TimeLine(w.lastTime)]))
  {
    var lines := SaveMap(w);
    var size := Vec(Width(w), Height(w));
    VecStringRoundTrip(size);
    RowsRead(w);
    SavedParts(w);
  }

  /** Reading the metadata of the saved file: the cells are restored, the entities re-added, the time set. */
  lemma MetaRead(w: World)
    requires Reloadable(w)
    ensures var m := NewMap(Width(w), Height(w)).(grid := Mix(w, 0, 0));
            ReadMeta(m, CellMetaLines(w, 0) + (EntityMetaLines(w.entities) + [TimeLine(w.lastTime)])) ==
            Ok(Restored(m.(grid := w.grid), w.entities).(lastTime := w.lastTime))
  {
    var m := NewMap(Width(w), Height(w)).(grid := Mix(w, 0, 0));
    var m1 := m.(grid := w.grid);
    CellMetaRead(m, w, 0, EntityMetaLines(w.entities) + [TimeLine(w.lastTime)]);
    EntityLinesRead(m1, w.entities, [TimeLine(w.lastTime)]);
    var m2 := Restored(m1, w.entities);
    TimeLineRead(m2, w.lastTime);
    assert [TimeLine(w.lastTime)] == [TimeLine(w.lastTime)] + [];
    ReadMetaStep(m2, TimeLine(w.lastTime), [], m2.(lastTime := w.lastTime), None);
  }

  /** The map the metadata loop ends with is the reloaded map. */
  lemma RestoredIsReloaded(w: World)
    requires Reloadable(w)
    ensures Restored(NewMap(Width(w), Height(w)).(grid := w.grid), w.entities).(lastTime := w.lastTime) == Reloaded(w)
  {
    var m1 := NewMap(Width(w), Height(w)).(grid := w.grid);
    var r := Restored(m1, w.entities).(lastTime := w.lastTime);
    var expected := Reloaded(w);
    RestoredEntities(m1, w.entities);
    EmptyAppend(Renumbered(NonPlayers(w.entities), 0));
    assert r.entities == expected.entities && r.nextId == expected.nextId;
    RestoredKeeps(m1, w.entities);
    assert r.grid == expected.grid && r.player == expected.player && r.lastTime == expected.lastTime;
    assert r.hint == expected.hint && r.signals == expected.signals;
    RestoredStart(m1, w.entities);
    var players := Players(w.entities);
    if players != [] {
      EmptyAppend(players[0].kind.inv.items);
    }
    assert r.spawn == expected.spawn && r.startInv == expected.startInv;
  }

  /**
   * Saving a map and loading the file gives the map back as a level: the grid with its doors
   * and teleporter links, the entities other than the player in order, the player's place
   * and inventory as the start, and the time.
   */
  lemma SaveLoadRoundTrip(w: World)
    requires Reloadable(w)
    ensures ReadMap(SaveMap(w)) == Ok(Reloaded(w))
  {
    LoadToMeta(w);
    MetaRead(w);
    assert NewMap(Width(w), Height(w)).(grid := Mix(w, 0, 0)).(grid := w.grid) == NewMap(Width(w), Height(w)).(grid := w.grid);
    RestoredIsReloaded(w);
  }
}
