/** A console as a facade over a text buffer and a viewport onto it: the
    caller asks the console for a character and the console asks its first
    viewport, which reads the buffer at its offset. Nothing in the program
    writes a buffer or moves a viewport after construction, so their fields
    are constants here. */
module Facade {

  /** Go's rune, a 32-bit signed integer. */
  newtype Rune = x: int | -0x8000_0000 <= x < 0x8000_0000

  class Buffer {
    const width: int
    const height: int
    const buffer: seq<Rune>

    /** NewBuffer: width * height zero runes. Go's make panics on a
        negative length, hence the precondition. */
    constructor (width: int, height: int)
      requires width * height >= 0
      ensures this.width == width && this.height == height
      ensures |buffer| == width * height
      ensures forall i :: 0 <= i < |buffer| ==> buffer[i] == 0
    {
      this.width, this.height := width, height;
      buffer := seq(width * height, _ => 0);
    }

    /** The rune at a position; an index outside the slice panics in Go. */
    function At(index: int): (r: Rune)
      requires 0 <= index < |buffer|
      ensures r == buffer[index]
    {
      buffer[index]
    }
  }

  class Viewport {
    const buffer: Buffer
    const offset: int

    /** NewViewport: a view of the buffer from its start. */
    constructor (buffer: Buffer)
      ensures this.buffer == buffer && offset == 0
    {
      this.buffer, offset := buffer, 0;
    }

    /** The character index places past the viewport's offset. */
    function GetCharacterAt(index: int): (r: Rune)
      requires 0 <= offset + index < |buffer.buffer|
      ensures r == buffer.buffer[offset + index]
    {
      buffer.At(offset + index)
    }
  }

  class Console {
    const buffers: seq<Buffer>
    const viewports: seq<Viewport>
    const offset: int

    /** The default console: one buffer, one viewport on it, both at
        offset 0, and the buffer a 200 by 150 grid of zero runes. */
    ghost predicate Default()
    {
      |buffers| == 1 && |viewports| == 1
      && viewports[0].buffer == buffers[0] && viewports[0].offset == 0
      && buffers[0].width == 200 && buffers[0].height == 150
      && |buffers[0].buffer| == 30000
      && (forall i :: 0 <= i < |buffers[0].buffer| ==> buffers[0].buffer[i] == 0)
      && offset == 0
    }

    /** NewConsole builds the default console from new parts. */
    constructor ()
      ensures Default()
      ensures fresh(buffers[0]) && fresh(viewports[0])
    {
      var b := new Buffer(200, 150);
      var v := new Viewport(b);
      buffers, viewports, offset := [b], [v], 0;
    }

    /** Asks the first viewport; Go panics when there is none or when the
        position falls outside its buffer. */
    function GetCharacterAt(index: int): (r: Rune)
      requires |viewports| > 0
      requires 0 <= viewports[0].offset + index < |viewports[0].buffer.buffer|
      ensures r == viewports[0].buffer.buffer[viewports[0].offset + index]
    {
      viewports[0].GetCharacterAt(index)
    }
  }

  /** On the default console, the facade's answer for index i is element i
      of its one buffer, for every index of the 30000 cells, and it is the
      zero rune. */
  lemma DefaultConsoleReadsItsBuffer(c: Console, i: int)
    requires c.Default() && 0 <= i < 30000
    ensures c.GetCharacterAt(i) == c.buffers[0].At(i)
    ensures c.GetCharacterAt(i) == 0
  {
  }

  /** The demonstration asks a new console for the character at index 1,
      which is the zero rune. */
  method FacadeDemo() returns (u: Rune)
    ensures u == 0
  {
    var c := new Console();
    u := c.GetCharacterAt(1);
  }
}
