/** A drawing as a tree of graphic objects, printed one object per line
    with one star per level of depth. */
module GeometricShapes {

  datatype GraphicObject = GraphicObject(name: string, color: string, children: seq<GraphicObject>)
  {
    /** The printout from depth 0, so the root's line has no stars. */
    function String(): (s: string)
      ensures Label(this) + "\n" <= s
    {
      assert Stars(0) == [];
      Print(this, 0)
    }
  }

  /** The depth marker: n stars. */
  function Stars(n: nat): (s: string)
    ensures |s| == n && '\n' !in s
    ensures forall k :: 0 <= k < n ==> s[k] == '*'
  {
    seq(n, _ => '*')
  }

  /** The text of an object's own line: its colour and a space when it has
      a colour, then its name. */
  function Label(g: GraphicObject): string
  {
    (if |g.color| > 0 then g.color + " " else "") + g.name
  }

  /** The object's line at the given depth, then its children at one level
      deeper, in order. */
  function Print(g: GraphicObject, depth: nat): (r: string)
    ensures |r| > 0 && r[|r| - 1] == '\n'
    decreases g, 1
  {
    Stars(depth) + Label(g) + "\n" + PrintAll(g.children, depth + 1)
  }

  function PrintAll(gs: seq<GraphicObject>, depth: nat): (r: string)
    ensures gs == [] <==> r == []
    ensures r != [] ==> r[|r| - 1] == '\n'
    decreases gs, 0
  {
    if gs == [] then "" else PrintAll(gs[..|gs| - 1], depth) + Print(gs[|gs| - 1], depth)
  }

  /** A circle of the given colour, with no children. */
  function NewCircle(color: string): (g: GraphicObject)
    ensures g.name == "Circle" && g.color == color && g.children == []
  {
    GraphicObject("Circle", color, [])
  }

  /** A square of the given colour, with no children. */
  function NewSquare(color: string): (g: GraphicObject)
    ensures g.name == "Square" && g.color == color && g.children == []
  {
    GraphicObject("Square", color, [])
  }

  /** The printout starts with the depth's stars and the object's label on a
      line of its own. */
  lemma PrintStartsWithOwnLine(g: GraphicObject, depth: nat)
    ensures Stars(depth) + Label(g) + "\n" <= Print(g, depth)
  {
  }

  /** No newline in any name or colour of the tree. */
  predicate NoNewlines(g: GraphicObject)
  {
    '\n' !in g.name && '\n' !in g.color
      && forall i :: 0 <= i < |g.children| ==> NoNewlines(g.children[i])
  }

  /** The number of objects in the tree. */
  function Size(g: GraphicObject): nat
    decreases g, 1
  {
    1 + SizeAll(g.children)
  }

  function SizeAll(gs: seq<GraphicObject>): nat
    decreases gs, 0
  {
    if gs == [] then 0 else SizeAll(gs[..|gs| - 1]) + Size(gs[|gs| - 1])
  }

  function NewlineCount(s: string): nat
  {
    multiset(s)['\n']
  }

  lemma CountConcat(a: string, b: string)
    ensures NewlineCount(a + b) == NewlineCount(a) + NewlineCount(b)
  {
    assert multiset(a + b) == multiset(a) + multiset(b);
  }

  /** A label of newline-free parts holds no newline. */
  lemma LabelCount(g: GraphicObject)
    requires '\n' !in g.name && '\n' !in g.color
    ensures NewlineCount(Label(g)) == 0
  {
    var c := if |g.color| > 0 then g.color + " " else "";
    assert '\n' !in c;
    assert Label(g) == c + g.name;
    assert '\n' !in Label(g);
  }

  /** With newline-free names and colours, the printout has exactly one
      line per object of the tree. */
  lemma {:induction false} PrintNewlines(g: GraphicObject, depth: nat)
    requires NoNewlines(g)
    ensures NewlineCount(Print(g, depth)) == Size(g)
    decreases g, 1
  {
    PrintAllNewlines(g.children, depth + 1);
    LabelCount(g);
    OwnLineCount(Stars(depth), Label(g), PrintAll(g.children, depth + 1));
  }

  /** A line of newline-free text adds one newline to what follows it. */
  lemma OwnLineCount(s: string, l: string, rest: string)
    requires '\n' !in s && NewlineCount(l) == 0
    ensures NewlineCount(s + l + "\n" + rest) == NewlineCount(rest) + 1
  {
    assert NewlineCount(s) == 0;
    assert NewlineCount("\n") == 1;
    CountConcat(s, l);
    CountConcat(s + l, "\n");
    CountConcat(s + l + "\n", rest);
  }

  lemma {:induction false} PrintAllNewlines(gs: seq<GraphicObject>, depth: nat)
    requires forall i :: 0 <= i < |gs| ==> NoNewlines(gs[i])
    ensures NewlineCount(PrintAll(gs, depth)) == SizeAll(gs)
    decreases gs, 0
  {
    if gs != [] {
      var front := gs[..|gs| - 1];
      PrintAllNewlines(front, depth);
      PrintNewlines(gs[|gs| - 1], depth);
      CountConcat(PrintAll(front, depth), Print(gs[|gs| - 1], depth));
    }
  }

  /** The demonstration's two top-level shapes, each on its line. */
  lemma TopShapeLines()
    ensures Print(NewCircle("Red"), 1) == "*Red Circle\n"
    ensures Print(NewSquare("Yellow"), 1) == "*Yellow Square\n"
  {
    assert Stars(1) == "*";
    LeafPrint("Red", "Circle", 1);
    LeafPrint("Yellow", "Square", 1);
  }

  /** The demonstration's two blue shapes, each on its line. */
  lemma BlueShapeLines()
    ensures Print(NewCircle("Blue"), 2) == "**Blue Circle\n"
    ensures Print(NewSquare("Blue"), 2) == "**Blue Square\n"
  {
    assert Stars(2) == "**";
    LeafPrint("Blue", "Circle", 2);
    LeafPrint("Blue", "Square", 2);
  }

  /** The demonstration's group of two blue shapes, at depth 1. */
  lemma GroupLines()
    ensures Print(GraphicObject("Group 1", "", [NewCircle("Blue"), NewSquare("Blue")]), 1)
      == "*Group 1\n" + ("**Blue Circle\n" + "**Blue Square\n")
  {
    BlueShapeLines();
    var bc, bs := NewCircle("Blue"), NewSquare("Blue");
    assert [bc, bs][..1] == [bc] && [bc][..0] == [];
    assert PrintAll([bc], 2) == "**Blue Circle\n";
    assert PrintAll([bc, bs], 2) == "**Blue Circle\n" + "**Blue Square\n";
    assert Stars(1) + Label(GraphicObject("Group 1", "", [bc, bs])) + "\n" == "*Group 1\n";
  }

  /** The demonstration's drawing: a red circle, a yellow square and a group
      of two blue shapes, printed as six lines. */
  lemma DrawingPrintout()
    ensures var group := GraphicObject("Group 1", "", [NewCircle("Blue"), NewSquare("Blue")]);
            GraphicObject("My Drawing", "", [NewCircle("Red"), NewSquare("Yellow"), group]).String()
            == "My Drawing\n" + ("*Red Circle\n" + "*Yellow Square\n" + ("*Group 1\n" + ("**Blue Circle\n" + "**Blue Square\n")))
  {
    var group := GraphicObject("Group 1", "", [NewCircle("Blue"), NewSquare("Blue")]);
    var rc, ys := NewCircle("Red"), NewSquare("Yellow");
    TopShapeLines();
    GroupLines();
    assert [rc, ys, group][..2] == [rc, ys] && [rc, ys][..1] == [rc] && [rc][..0] == [];
    assert PrintAll([rc], 1) == "*Red Circle\n";
    assert PrintAll([rc, ys], 1) == "*Red Circle\n" + "*Yellow Square\n";
    assert PrintAll([rc, ys, group], 1) == "*Red Circle\n" + "*Yellow Square\n" + ("*Group 1\n" + ("**Blue Circle\n" + "**Blue Square\n"));
    assert Stars(0) + Label(GraphicObject("My Drawing", "", [rc, ys, group])) + "\n" == "My Drawing\n";
  }

  /** A coloured, childless object prints as one line. */
  lemma LeafPrint(color: string, name: string, depth: nat)
    requires |color| > 0
    ensures Print(GraphicObject(name, color, []), depth) == Stars(depth) + color + " " + name + "\n"
  {
    assert PrintAll([], depth + 1) == "";
  }
}
