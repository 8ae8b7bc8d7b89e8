/** The vector-to-raster adapter: a vector image is a list of integer line
    segments, a raster image is a list of grid points, and the adapter turns
    the first into the second so that the point renderer can draw it. */
module Adapter {

  datatype Line = Line(x1: int, y1: int, x2: int, y2: int)

  datatype Point = Point(x: int, y: int)

  datatype VectorImage = VectorImage(lines: seq<Line>)

  /** The outline of a width-by-height box whose top-left corner is (0, 0):
      top edge, left edge, right edge, bottom edge. */
  function NewRectangle(width: int, height: int): (vi: VectorImage)
    ensures |vi.lines| == 4
    ensures forall l :: l in vi.lines ==> l.x1 == l.x2 || l.y1 == l.y2
  {
    var w, h := width - 1, height - 1;
    VectorImage([Line(0, 0, w, 0), Line(0, 0, 0, h), Line(w, 0, w, h), Line(0, h, w, h)])
  }

  /** The two arguments in ascending order. */
  function MinMax(a: int, b: int): (r: (int, int))
    ensures r.0 <= r.1
    ensures (r.0 == a && r.1 == b) || (r.0 == b && r.1 == a)
  {
    if a < b then (a, b) else (b, a)
  }

  function Abs(n: int): nat { if n < 0 then -n else n }

  /** The points (x, lo), (x, lo + 1), ..., (x, hi); none when hi < lo. */
  function Column(x: int, lo: int, hi: int): (ps: seq<Point>)
  {
    if hi < lo then [] else seq(hi - lo + 1, i => Point(x, lo + i))
  }

  /** The points (lo, y), (lo + 1, y), ..., (hi, y); none when hi < lo. */
  function Row(y: int, lo: int, hi: int): (ps: seq<Point>)
  {
    if hi < lo then [] else seq(hi - lo + 1, i => Point(lo + i, y))
  }

  /** v lies between a and b, whichever of them is larger. */
  predicate Between(v: int, a: int, b: int)
  {
    (a <= v <= b) || (b <= v <= a)
  }

  /** p is a grid point of the axis-parallel segment: it shares the
      segment's constant coordinate and lies within its two ends. */
  predicate OnSegment(p: Point, line: Line)
  {
    ((line.x1 == line.x2 && p.x == line.x1) || (line.y1 == line.y2 && p.y == line.y1))
    && Between(p.x, line.x1, line.x2) && Between(p.y, line.y1, line.y2)
  }

  /** The points that rasterising one segment appends: a column when both
      ends share x, otherwise a row when both ends share y, otherwise (a
      diagonal segment) nothing at all. */
  function LinePoints(line: Line): (ps: seq<Point>)
    ensures forall p :: p in ps ==> OnSegment(p, line)
  {
    var (left, right) := MinMax(line.x1, line.x2);
    var (top, bottom) := MinMax(line.y1, line.y2);
    if right - left == 0 then Column(left, top, bottom)
    else if line.y2 - line.y1 == 0 then Row(top, left, right)
    else []
  }

  /** The points of all segments, segment after segment, in image order. */
  function Rasterize(lines: seq<Line>): seq<Point>
  {
    if lines == [] then [] else Rasterize(lines[..|lines| - 1]) + LinePoints(lines[|lines| - 1])
  }

  function SumOfCounts(lines: seq<Line>): nat
  {
    if lines == [] then 0 else SumOfCounts(lines[..|lines| - 1]) + |LinePoints(lines[|lines| - 1])|
  }

  lemma ColumnSnoc(x: int, lo: int, hi: int)
    requires lo <= hi + 1
    ensures Column(x, lo, hi + 1) == Column(x, lo, hi) + [Point(x, hi + 1)]
  {
  }

  lemma RowSnoc(y: int, lo: int, hi: int)
    requires lo <= hi + 1
    ensures Row(y, lo, hi + 1) == Row(y, lo, hi) + [Point(hi + 1, y)]
  {
  }

  /** A vertical segment gives |y2 - y1| + 1 points at its x, with y rising
      from the smaller end to the larger. */
  lemma VerticalLinePoints(line: Line)
    requires line.x1 == line.x2
    ensures |LinePoints(line)| == Abs(line.y2 - line.y1) + 1
    ensures forall i :: 0 <= i < |LinePoints(line)| ==>
      LinePoints(line)[i] == Point(line.x1, MinMax(line.y1, line.y2).0 + i)
    ensures LinePoints(line)[|LinePoints(line)| - 1].y == MinMax(line.y1, line.y2).1
  {
  }

  /** A horizontal, non-degenerate segment gives |x2 - x1| + 1 points at its
      y, with x rising from the smaller end to the larger. */
  lemma HorizontalLinePoints(line: Line)
    requires line.y1 == line.y2 && line.x1 != line.x2
    ensures |LinePoints(line)| == Abs(line.x2 - line.x1) + 1
    ensures forall i :: 0 <= i < |LinePoints(line)| ==>
      LinePoints(line)[i] == Point(MinMax(line.x1, line.x2).0 + i, line.y1)
    ensures LinePoints(line)[|LinePoints(line)| - 1].x == MinMax(line.x1, line.x2).1
  {
  }

  /** A diagonal segment is dropped silently; a segment whose two ends
      coincide gives exactly its one point. */
  lemma DiagonalAndDegenerateLines(line: Line)
    ensures line.x1 != line.x2 && line.y1 != line.y2 ==> LinePoints(line) == []
    ensures line.x1 == line.x2 && line.y1 == line.y2 ==> LinePoints(line) == [Point(line.x1, line.y1)]
  {
  }

  /** Every segment gives a sequence that is empty exactly when it is diagonal. */
  lemma EmptyIffDiagonal(line: Line)
    ensures LinePoints(line) == [] <==> (line.x1 != line.x2 && line.y1 != line.y2)
  {
  }

  /** Swapping a segment's two ends does not change the points it gives. */
  lemma SwapInvariance(line: Line)
    ensures LinePoints(Line(line.x2, line.y2, line.x1, line.y1)) == LinePoints(line)
  {
  }

  lemma {:induction false} RasterizeCount(lines: seq<Line>)
    ensures |Rasterize(lines)| == SumOfCounts(lines)
  {
    if lines != [] {
      RasterizeCount(lines[..|lines| - 1]);
    }
  }

  /** A rectangle's four edges give 2 * (|w - 1| + 1) + 2 * (|h - 1| + 1)
      points: every edge point is listed, corners twice. */
  lemma RectanglePointCount(width: int, height: int)
    ensures |Rasterize(NewRectangle(width, height).lines)|
         == 2 * (Abs(width - 1) + 1) + 2 * (Abs(height - 1) + 1)
  {
    var ls := NewRectangle(width, height).lines;
    RasterizeCount(ls);
    var w, h := width - 1, height - 1;
    var a, b, c, d := Line(0, 0, w, 0), Line(0, 0, 0, h), Line(w, 0, w, h), Line(0, h, w, h);
    assert |LinePoints(a)| == Abs(w) + 1;
    assert |LinePoints(b)| == Abs(h) + 1;
    assert |LinePoints(c)| == Abs(h) + 1;
    assert |LinePoints(d)| == Abs(w) + 1;
    assert ls == [a, b, c, d];
    assert ls[..3] == [a, b, c] && [a, b, c][..2] == [a, b] && [a, b][..1] == [a] && [a][..0] == [];
    assert SumOfCounts([a]) == |LinePoints(a)|;
    assert SumOfCounts([a, b]) == SumOfCounts([a]) + |LinePoints(b)|;
    assert SumOfCounts([a, b, c]) == SumOfCounts([a, b]) + |LinePoints(c)|;
    assert SumOfCounts(ls) == SumOfCounts([a, b, c]) + |LinePoints(d)|;
  }

  /** A 6-by-4 rectangle rasterises to 20 points. */
  lemma SixByFourRectangleHasTwentyPoints()
    ensures |Rasterize(NewRectangle(6, 4).lines)| == 20
  {
    RectanglePointCount(6, 4);
  }

  /** The adapter: the points accumulated so far, in the order they were
      produced. */
  class RasterAdapter {
    var points: seq<Point>

    constructor ()
      ensures points == []
    {
      points := [];
    }

    /** The raster view of the adapter: the accumulated points themselves. */
    function GetPoints(): (ps: seq<Point>)
      reads this
      ensures ps == points
    {
      points
    }

    /** Appends the points of one segment and nothing else. */
    method AddLine(line: Line)
      modifies this
      ensures points == old(points) + LinePoints(line)
    {
      var (left, right) := MinMax(line.x1, line.x2);
      var (top, bottom) := MinMax(line.y1, line.y2);
      var dx := right - left;
      var dy := line.y2 - line.y1;
      if dx == 0 {
        var y := top;
        while y <= bottom
          invariant top <= y <= bottom + 1
          invariant points == old(points) + Column(left, top, y - 1)
        {
          ColumnSnoc(left, top, y - 1);
          points := points + [Point(left, y)];
          y := y + 1;
        }
      } else if dy == 0 {
        var x := left;
        while x <= right
          invariant left <= x <= right + 1
          invariant points == old(points) + Row(top, left, x - 1)
        {
          RowSnoc(top, left, x - 1);
          points := points + [Point(x, top)];
          x := x + 1;
        }
      }
    }
  }

  /** A fresh adapter holding the points of every segment of the image. */
  method VectorToRaster(vi: VectorImage) returns (a: RasterAdapter)
    ensures fresh(a)
    ensures a.points == Rasterize(vi.lines)
  {
    a := new RasterAdapter();
    for i := 0 to |vi.lines|
      invariant a.points == Rasterize(vi.lines[..i])
    {
      assert vi.lines[..i + 1][..i] == vi.lines[..i];
      a.AddLine(vi.lines[i]);
    }
    assert vi.lines[..|vi.lines|] == vi.lines;
  }

  // ---------------------------------------------------------------------
  // Rendering points as a character grid.

  /** The largest x among the points, and 0 when there is none larger. */
  function MaxX(ps: seq<Point>): (m: int)
    ensures m >= 0
    ensures forall p :: p in ps ==> p.x <= m
    ensures m == 0 || exists p :: p in ps && p.x == m
  {
    if ps == [] then 0
    else
      var m := MaxX(ps[..|ps| - 1]);
      assert forall p :: p in ps[..|ps| - 1] ==> p in ps;
      if ps[|ps| - 1].x > m then ps[|ps| - 1].x else m
  }

  /** The largest y among the points, and 0 when there is none larger. */
  function MaxY(ps: seq<Point>): (m: int)
    ensures m >= 0
    ensures forall p :: p in ps ==> p.y <= m
    ensures m == 0 || exists p :: p in ps && p.y == m
  {
    if ps == [] then 0
    else
      var m := MaxY(ps[..|ps| - 1]);
      assert forall p :: p in ps[..|ps| - 1] ==> p in ps;
      if ps[|ps| - 1].y > m then ps[|ps| - 1].y else m
  }

  /** The character of the grid cell at column x, row y. */
  function Cell(ps: seq<Point>, x: int, y: int): char
  {
    if Point(x, y) in ps then '*' else ' '
  }

  /** Row y of a grid that is `width` cells wide, with its newline. */
  function RowText(ps: seq<Point>, y: int, width: nat): string
  {
    seq(width, x => Cell(ps, x, y)) + "\n"
  }

  /** Rows 0 .. height - 1, one after the other. */
  function Rows(ps: seq<Point>, width: nat, height: nat): string
  {
    if height == 0 then "" else Rows(ps, width, height - 1) + RowText(ps, height - 1, width)
  }

  /** The text the renderer produces for a list of points. */
  function Picture(ps: seq<Point>): string
  {
    Rows(ps, MaxX(ps) + 1, MaxY(ps) + 1)
  }

  /** The position of cell (x, y) in a grid of `width` cells and a newline
      per row; x == width is the row's newline. */
  function CellIndex(width: nat, height: nat, x: nat, y: nat): (k: nat)
    requires x <= width && y < height
    ensures k == y * (width + 1) + x
    ensures k < height * (width + 1)
  {
    RowStartsBefore(y, height, width + 1, x);
    y * (width + 1) + x
  }

  /** Rows(ps, width, height) has height rows of width + 1 characters: cell
      (x, y) sits at y * (width + 1) + x and each row ends in a newline. */
  lemma {:induction false} RowsAt(ps: seq<Point>, width: nat, height: nat, x: nat, y: nat)
    requires x <= width && y < height
    ensures |Rows(ps, width, height)| == height * (width + 1)
    ensures Rows(ps, width, height)[CellIndex(width, height, x, y)] == if x < width then Cell(ps, x, y) else '\n'
  {
    var w := width + 1;
    var prefix := Rows(ps, width, height - 1);
    RowsLength(ps, width, height - 1);
    RowsLength(ps, width, height);
    assert Rows(ps, width, height) == prefix + RowText(ps, height - 1, width);
    if y < height - 1 {
      RowsAt(ps, width, height - 1, x, y);
      assert CellIndex(width, height, x, y) == CellIndex(width, height - 1, x, y);
    } else {
      assert CellIndex(width, height, x, y) - |prefix| == x;
    }
  }

  lemma RowStartsBefore(y: nat, h: nat, w: nat, x: nat)
    requires y < h && x < w
    ensures y * w + x < h * w
  {
    assert (y + 1) * w <= h * w;
  }

  lemma {:induction false} RowsLength(ps: seq<Point>, width: nat, height: nat)
    ensures |Rows(ps, width, height)| == height * (width + 1)
  {
    if height > 0 {
      RowsLength(ps, width, height - 1);
      assert height * (width + 1) == (height - 1) * (width + 1) + width + 1;
    }
  }

  /** The rendered text has MaxY + 1 rows of MaxX + 1 cells and a newline;
      a cell is '*' exactly when some point lies on it. */
  lemma PictureCells(ps: seq<Point>, w: nat, h: nat, x: nat, y: nat)
    requires w == MaxX(ps) + 1 && h == MaxY(ps) + 1
    requires x <= w && y < h
    ensures |Picture(ps)| == h * (w + 1)
    ensures x < w ==> (Picture(ps)[CellIndex(w, h, x, y)] == '*' <==> Point(x, y) in ps)
    ensures x == w ==> Picture(ps)[CellIndex(w, h, x, y)] == '\n'
  {
    assert Picture(ps) == Rows(ps, w, h);
    GridCells(ps, w, h, x, y);
  }

  /** PictureCells for a grid of any size. */
  lemma GridCells(ps: seq<Point>, w: nat, h: nat, x: nat, y: nat)
    requires x <= w && y < h
    ensures |Rows(ps, w, h)| == h * (w + 1)
    ensures x < w ==> (Rows(ps, w, h)[CellIndex(w, h, x, y)] == '*' <==> Point(x, y) in ps)
    ensures x == w ==> Rows(ps, w, h)[CellIndex(w, h, x, y)] == '\n'
  {
    RowsAt(ps, w, h, x, y);
  }

  /** No points render as one blank cell; the single point (0, 0) as one star. */
  lemma SmallPictures()
    ensures Picture([]) == " \n"
    ensures Picture([Point(0, 0)]) == "*\n"
  {
    assert Rows([], 1, 1) == "" + RowText([], 0, 1);
    assert RowText([], 0, 1) == [' '] + "\n";
    var one := [Point(0, 0)];
    assert MaxX(one) == 0 && MaxY(one) == 0;
    assert Rows(one, 1, 1) == "" + RowText(one, 0, 1);
    assert RowText(one, 0, 1) == ['*'] + "\n";
  }

  /** Renders the points as text: a grid of MaxY + 1 rows and MaxX + 1
      columns, '*' where a point lies and ' ' elsewhere, each row ended by a
      newline. A negative coordinate would index outside the grid. */
  method DrawPoints(points: seq<Point>) returns (s: string)
    requires forall p :: p in points ==> 0 <= p.x && 0 <= p.y
    ensures s == Picture(points)
  {
    var maxX, maxY := Extent(points);
    maxX := maxX + 1;
    maxY := maxY + 1;
    var data := new char[maxY, maxX]((i, j) => ' ');
    MarkPoints(data, points);
    s := Serialize(data, points);
  }

  /** The first loop of the renderer: the largest x and y, starting from 0. */
  method Extent(points: seq<Point>) returns (maxX: int, maxY: int)
    ensures maxX == MaxX(points) && maxY == MaxY(points)
  {
    maxX, maxY := 0, 0;
    for k := 0 to |points|
      invariant maxX == MaxX(points[..k]) && maxY == MaxY(points[..k])
    {
      assert points[..k + 1][..k] == points[..k];
      if points[k].x > maxX {
        maxX := points[k].x;
      }
      if points[k].y > maxY {
        maxY := points[k].y;
      }
    }
    assert points[..|points|] == points;
  }

  /** The second loop: a '*' at row p.y, column p.x for every point p of a
      blank grid. */
  method MarkPoints(data: array2<char>, points: seq<Point>)
    requires forall i, j :: 0 <= i < data.Length0 && 0 <= j < data.Length1 ==> data[i, j] == ' '
    requires forall p :: p in points ==> 0 <= p.y < data.Length0 && 0 <= p.x < data.Length1
    modifies data
    ensures forall i, j :: 0 <= i < data.Length0 && 0 <= j < data.Length1 ==> data[i, j] == Cell(points, j, i)
  {
    for k := 0 to |points|
      invariant forall i, j :: 0 <= i < data.Length0 && 0 <= j < data.Length1 ==> data[i, j] == Cell(points[..k], j, i)
    {
      assert points[k] in points;
      data[points[k].y, points[k].x] := '*';
      assert points[..k + 1] == points[..k] + [points[k]];
    }
    assert points[..|points|] == points;
  }

  /** The third loop: the grid's rows, top to bottom, each followed by a
      newline. */
  method Serialize(data: array2<char>, points: seq<Point>) returns (s: string)
    requires forall i, j :: 0 <= i < data.Length0 && 0 <= j < data.Length1 ==> data[i, j] == Cell(points, j, i)
    ensures s == Rows(points, data.Length1, data.Length0)
  {
    s := "";
    for i := 0 to data.Length0
      invariant s == Rows(points, data.Length1, i)
    {
      var line := "";
      for j := 0 to data.Length1
        invariant line == seq(j, x => Cell(points, x, i))
      {
        line := line + [data[i, j]];
      }
      s := s + line + "\n";
    }
  }
}
