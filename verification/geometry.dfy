/**
 * Grid coordinates (Vector2) and the four-way Direction with its validation rules.
 */
module Geometry {
  import opened Base
  import opened JavaText

  /** An integer grid coordinate; the default Vector2 is the origin. */
  datatype Vec = Vec(x: int, y: int)

  const Origin: Vec := Vec(0, 0)

  /** Vector2.addXY / addXYCreateNew: componentwise sum (values are immutable here). */
  function Plus(a: Vec, b: Vec): (r: Vec)
    ensures Minus(r, b) == a
  {
    Vec(a.x + b.x, a.y + b.y)
  }

  function Minus(a: Vec, b: Vec): Vec
  {
    Vec(a.x - b.x, a.y - b.y)
  }

  /** Vector2.toString: "x,y". */
  function VecToString(v: Vec): string
  {
    IntToString(v.x) + "," + IntToString(v.y)
  }

  /** The coordinate two decimal fields denote, as `new Vector2(parseInt(a), parseInt(b))`. */
  function ParseVec(a: string, b: string): (r: Option<Vec>)
    ensures r.Some? ==> IsInt32(r.value.x) && IsInt32(r.value.y)
  {
    match (ParseInt(a), ParseInt(b))
    case (Some(x), Some(y)) => Some(Vec(x, y))
    case _ => None
  }

  /** The rendering of a coordinate is its two fields joined by a comma. */
  lemma VecToStringFields(v: Vec)
    ensures VecToString(v) == Join([IntToString(v.x), IntToString(v.y)], ',')
  {
  }

  /** Parsing the two fields of "x,y" gives the coordinate back. */
  lemma VecStringRoundTrip(v: Vec)
    requires IsInt32(v.x) && IsInt32(v.y)
    ensures JavaSplit(VecToString(v), ',') == [IntToString(v.x), IntToString(v.y)]
    ensures ParseVec(IntToString(v.x), IntToString(v.y)) == Some(v)
  {
    var fields := [IntToString(v.x), IntToString(v.y)];
    assert forall i | 0 <= i < |fields| :: ',' !in fields[i] by {
      forall i | 0 <= i < |fields| ensures ',' !in fields[i] {
        var f := fields[i];
        assert forall k | 0 <= k < |f| :: f[k] == '-' || IsDigit(f[k]);
      }
    }
    assert fields[1] != "";
    JavaSplitJoin(fields, ',');
    ParseIntRoundTrip(v.x);
    ParseIntRoundTrip(v.y);
  }

  /** A direction has components in [-1, 1] and is never diagonal. */
  predicate IsDirection(v: Vec)
  {
    -1 <= v.x <= 1 && -1 <= v.y <= 1 && (v.x == 0 || v.y == 0)
  }

  type Direction = v: Vec | IsDirection(v) witness Vec(0, 0)

  const DirLeft: Direction := Vec(-1, 0)
  const DirRight: Direction := Vec(1, 0)
  const DirUp: Direction := Vec(0, -1)
  const DirDown: Direction := Vec(0, 1)
  const DirNone: Direction := Vec(0, 0)

  /** Direction.setX: rejects a magnitude above one and a diagonal result (None = exception). */
  function SetX(d: Direction, x: int): (r: Option<Direction>)
    ensures r.Some? <==> IsDirection(Vec(x, d.y))
    ensures r.Some? ==> r.value == Vec(x, d.y)
  {
    if x < -1 || x > 1 then None
    else if x != 0 && d.y != 0 then None
    else Some(Vec(x, d.y))
  }

  /** Direction.setY, the mirror image of SetX. */
  function SetY(d: Direction, y: int): (r: Option<Direction>)
    ensures r.Some? <==> IsDirection(Vec(d.x, y))
    ensures r.Some? ==> r.value == Vec(d.x, y)
  {
    if y < -1 || y > 1 then None
    else if d.x != 0 && y != 0 then None
    else Some(Vec(d.x, y))
  }

  /**
   * Direction.setXY: both components are zeroed before setX and setY run, so the old value
   * never causes a rejection; exactly the valid directions are accepted.
   */
  function SetXY(d: Direction, x: int, y: int): (r: Option<Direction>)
    ensures r.Some? <==> IsDirection(Vec(x, y))
    ensures r.Some? ==> r.value == Vec(x, y)
  {
    match SetX(DirNone, x)
    case None => None
    case Some(d1) => SetY(d1, y)
  }

  /** new Direction(x, y): the constructor validates through setXY. */
  function MakeDirection(x: int, y: int): (r: Option<Direction>)
    ensures r.Some? <==> IsDirection(Vec(x, y))
    ensures r.Some? ==> r.value == Vec(x, y)
  {
    SetXY(DirNone, x, y)
  }

  /** Direction.reverse. */
  function Reverse(d: Direction): (r: Direction)
    ensures Plus(d, r) == Origin
  {
    Vec(-d.x, -d.y)
  }

  /** Reverse goes through setXY(-x, -y), which always accepts. */
  lemma ReverseViaSetXY(d: Direction)
    ensures SetXY(d, -d.x, -d.y) == Some(Reverse(d))
    ensures Reverse(Reverse(d)) == d
  {
  }

  /**
   * Direction.getLeft: a quarter turn anticlockwise on a screen whose y axis points down.
   */
  function GetLeft(d: Direction): Direction
  {
    Vec(d.y, -d.x)
  }

  /** Turning left takes right to up, up to left, left to down and down to right. */
  lemma GetLeftTable()
    ensures GetLeft(DirRight) == DirUp && GetLeft(DirUp) == DirLeft
    ensures GetLeft(DirLeft) == DirDown && GetLeft(DirDown) == DirRight
    ensures GetLeft(DirNone) == DirNone
  {
  }

  /** getLeft negates x with setX and then swaps the components with setXY; neither throws. */
  lemma GetLeftViaSetters(d: Direction)
    ensures SetX(d, -d.x) == Some(Vec(-d.x, d.y))
    ensures SetXY(Vec(-d.x, d.y), d.y, -d.x) == Some(GetLeft(d))
  {
  }

  /** Direction.getRight: the left turn, reversed. */
  function GetRight(d: Direction): (r: Direction)
    ensures GetLeft(r) == d
  {
    Reverse(GetLeft(d))
  }

  /** Turning one way and then the other restores the direction. */
  lemma LeftRightInverse(d: Direction)
    ensures GetRight(GetLeft(d)) == d
    ensures GetLeft(GetRight(d)) == d
  {
  }

  /** Four left turns (or four right turns) are the identity; two are a reversal. */
  lemma FourTurns(d: Direction)
    ensures GetLeft(GetLeft(d)) == Reverse(d)
    ensures GetLeft(GetLeft(GetLeft(GetLeft(d)))) == d
    ensures GetRight(GetRight(GetRight(GetRight(d)))) == d
  {
  }

  /** Direction.toString: the lower-case word for each of the five directions. */
  function DirectionToString(d: Direction): (s: string)
    ensures HasNoUpper(s)
  {
    if d == DirLeft then "left"
    else if d == DirRight then "right"
    else if d == DirUp then "up"
    else if d == DirDown then "down"
    else "none"
  }

  /** Direction.createFromString: case-insensitive word match; anything else is null. */
  function DirectionFromString(s: string): (r: Option<Direction>)
    ensures r.Some? ==> DirectionToString(r.value) == ToLower(s)
  {
    var word := ToLower(s);
    if word == "left" then Some(DirLeft)
    else if word == "right" then Some(DirRight)
    else if word == "up" then Some(DirUp)
    else if word == "down" then Some(DirDown)
    else if word == "none" then Some(DirNone)
    else None
  }

  /**
   * The converse of DirectionFromString's contract: a word whose lower-case form is a
   * direction's name, in any mix of cases, is read as that direction.
   */
  lemma DirectionAnyCase(s: string, d: Direction)
    requires ToLower(s) == DirectionToString(d)
    ensures DirectionFromString(s) == Some(d)
  {
  }

  /** Every direction survives being written as a word and read back. */
  lemma DirectionStringRoundTrip(d: Direction)
    ensures DirectionFromString(DirectionToString(d)) == Some(d)
  {
    ToLowerFixesLowercase(DirectionToString(d));
  }
}
