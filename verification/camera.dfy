/**
 * Camera: the rectangle of grid cells the level screen draws, given by its top-left cell
 * and its size in cells. Coordinates are Java ints, so the sums wrap round past the int
 * range.
 */
module CameraView {
  import opened JavaText
  import opened Geometry

  datatype Camera = Camera(topLeft: Vec, size: Vec)

  /** A new camera of the given size, its top-left corner at the origin. */
  function NewCamera(size: Vec): Camera
  {
    Camera(Origin, size)
  }

  /**
   * centreOnPoint: put the top-left corner half the size (Java's truncating division) above
   * and to the left of the point; the size stays.
   */
  function CentreOnPoint(c: Camera, point: Vec): (r: Camera)
    ensures r.size == c.size
  {
    c.(topLeft := Vec(Wrap32(point.x - JavaDiv(c.size.x, 2)), Wrap32(point.y - JavaDiv(c.size.y, 2))))
  }

  /** isPointInView: the point lies in the half-open rectangle the camera covers. */
  predicate IsPointInView(c: Camera, point: Vec)
  {
    c.topLeft.x <= point.x < Wrap32(c.topLeft.x + c.size.x) &&
    c.topLeft.y <= point.y < Wrap32(c.topLeft.y + c.size.y)
  }

  /** The camera's arithmetic stays inside the int range once centred on the point. */
  predicate NoWrap(size: Vec, point: Vec)
  {
    IsInt32(size.x) && IsInt32(size.y) &&
    IsInt32(point.x - JavaDiv(size.x, 2)) && IsInt32(point.y - JavaDiv(size.y, 2)) &&
    IsInt32(point.x - JavaDiv(size.x, 2) + size.x) && IsInt32(point.y - JavaDiv(size.y, 2) + size.y)
  }

  /**
   * Centring on a point brings it into view exactly when the camera has a positive width
   * and height, whatever it showed before.
   */
  lemma CentredInView(c: Camera, point: Vec)
    requires NoWrap(c.size, point)
    ensures IsPointInView(CentreOnPoint(c, point), point) <==> c.size.x > 0 && c.size.y > 0
  {
    JavaDivision(c.size.x, 2);
    JavaDivision(c.size.y, 2);
  }

  /**
   * Centring leaves size/2 cells (rounded down) on the left of and above the point and the
   * rest of the width and height on the right and below; an odd size puts the point in the
   * middle, as the class's comment advises.
   */
  lemma CentredMargins(c: Camera, point: Vec)
    requires NoWrap(c.size, point) && c.size.x > 0 && c.size.y > 0
    ensures var r := CentreOnPoint(c, point);
            point.x - r.topLeft.x == c.size.x / 2 && point.y - r.topLeft.y == c.size.y / 2 &&
            (c.size.x % 2 == 1 ==> point.x - r.topLeft.x == r.topLeft.x + c.size.x - 1 - point.x) &&
            (c.size.y % 2 == 1 ==> point.y - r.topLeft.y == r.topLeft.y + c.size.y - 1 - point.y)
  {
    JavaDivision(c.size.x, 2);
    JavaDivision(c.size.y, 2);
  }

  /**
   * Near the largest int the right edge wraps round to a negative number, and the point the
   * camera was centred on is out of view.
   */
  lemma CentreNearIntMax()
    ensures !IsPointInView(CentreOnPoint(NewCamera(Vec(3, 3)), Vec(Int32Max, 0)), Vec(Int32Max, 0))
  {
    var r := CentreOnPoint(NewCamera(Vec(3, 3)), Vec(Int32Max, 0));
    assert JavaDiv(3, 2) == 1;
    assert r.topLeft.x == Int32Max - 1;
    Wrap32Overflow(Int32Max + 2);
  }
}
