/** Rectangles and squares behind one sized-shape interface: a square's
    setters keep it square, which breaks a caller that sets one side and
    expects the other to stay. */
module Lsp {

  class Rectangle {
    var width: int
    var height: int

    constructor (width: int, height: int)
      ensures this.width == width && this.height == height
    {
      this.width := width;
      this.height := height;
    }

    function GetWidth(): (w: int)
      reads this
      ensures w == width
    {
      width
    }

    function GetHeight(): (h: int)
      reads this
      ensures h == height
    {
      height
    }

    /** Writes the width only. */
    method SetWidth(width: int)
      modifies this
      ensures this.width == width && height == old(height)
    {
      this.width := width;
    }

    /** Writes the height only. */
    method SetHeight(height: int)
      modifies this
      ensures this.height == height && width == old(width)
    {
      this.height := height;
    }
  }

  /** A square: both sides are always written together. */
  class Square {
    var width: int
    var height: int

    ghost predicate Valid()
      reads this
    {
      width == height
    }

    /** NewSquare: both sides set to the given size. */
    constructor (size: int)
      ensures width == size && height == size
      ensures Valid()
    {
      width := size;
      height := size;
    }

    function GetWidth(): (w: int)
      reads this
      ensures w == width
    {
      width
    }

    function GetHeight(): (h: int)
      reads this
      ensures h == height
    {
      height
    }

    /** Sets both sides, so the square stays square. */
    method SetWidth(width: int)
      modifies this
      ensures this.width == width && height == width
      ensures Valid()
    {
      this.width := width;
      height := width;
    }

    /** Sets both sides, so the square stays square. */
    method SetHeight(height: int)
      modifies this
      ensures width == height && this.height == height
      ensures Valid()
    {
      width := height;
      this.height := height;
    }
  }

  /** A value of the sized-shape interface: one of its two implementations. */
  datatype Sized = RectangleRef(r: Rectangle) | SquareRef(s: Square)
  {
    function Target(): object
    {
      match this
      case RectangleRef(r) => r
      case SquareRef(s) => s
    }

    function Width(): int
      reads Target()
    {
      match this
      case RectangleRef(r) => r.GetWidth()
      case SquareRef(s) => s.GetWidth()
    }
  }

  /** Reads the width, sets the height to 10, and returns the area a caller
      expects (10 times the width read) and the area it gets. For a
      rectangle the two agree; for a square the actual area is always 100,
      so they agree only for a square of side 10. */
  method UseIt(sized: Sized) returns (expectedArea: int, actualArea: int)
    modifies sized.Target()
    ensures expectedArea == 10 * old(sized.Width())
    ensures sized.RectangleRef? ==> actualArea == expectedArea
    ensures sized.SquareRef? ==> actualArea == 100
    ensures sized.SquareRef? ==> (actualArea == expectedArea <==> old(sized.Width()) == 10)
    ensures sized.RectangleRef? ==> sized.r.width == old(sized.r.width) && sized.r.height == 10
    ensures sized.SquareRef? ==> sized.s.width == 10 && sized.s.height == 10 && sized.s.Valid()
  {
    match sized
    case RectangleRef(r) =>
      var width := r.GetWidth();
      r.SetHeight(10);
      expectedArea := 10 * width;
      actualArea := r.GetWidth() * r.GetHeight();
    case SquareRef(s) =>
      var width := s.GetWidth();
      s.SetHeight(10);
      expectedArea := 10 * width;
      actualArea := s.GetWidth() * s.GetHeight();
  }

  /** The alternative: a square value that can hand out a rectangle. */
  datatype Square2 = Square2(side: int)

  /** A new rectangle whose width and height are both the side. */
  method Square2Rectangle(sq: Square2) returns (r: Rectangle)
    ensures fresh(r)
    ensures r.width == sq.side && r.height == sq.side
  {
    r := new Rectangle(sq.side, sq.side);
  }

  /** The demonstration's three calls: a 2 by 3 rectangle, a square of
      side 5, and the rectangle of a Square2 of side 5. */
  method LspDemo() returns (rect: (int, int), square: (int, int), fromSquare2: (int, int))
    ensures rect == (20, 20)
    ensures square == (50, 100)
    ensures fromSquare2 == (50, 50)
  {
    var rc := new Rectangle(2, 3);
    var e, a := UseIt(RectangleRef(rc));
    rect := (e, a);
    var sq := new Square(5);
    e, a := UseIt(SquareRef(sq));
    square := (e, a);
    var r2 := Square2Rectangle(Square2(5));
    e, a := UseIt(RectangleRef(r2));
    fromSquare2 := (e, a);
  }
}
