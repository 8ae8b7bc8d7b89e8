/** An HTML element tree, its indented text rendering, and a builder that
    appends childless elements to a root. */
module Builder {

  /** Spaces per indentation level. */
  const IndentSize: nat := 2

  datatype HtmlElement = HtmlElement(name: string, text: string, elements: seq<HtmlElement>)
  {
    /** The rendering at depth 0, which opens with the element's own
        unindented tag. */
    function String(): (s: string)
      ensures "<" + name + ">\n" <= s
    {
      assert Spaces(0) == [];
      Render(this, 0)
    }
  }

  /** An indent of n spaces. */
  function Spaces(n: nat): (s: string)
    ensures |s| == n && '\n' !in s
    ensures forall k :: 0 <= k < n ==> s[k] == ' '
  {
    seq(n, _ => ' ')
  }

  function OpenTag(name: string, indent: nat): string
  {
    Spaces(IndentSize * indent) + "<" + name + ">\n"
  }

  function CloseTag(name: string, indent: nat): string
  {
    Spaces(IndentSize * indent) + "</" + name + ">\n"
  }

  /** The element at the given depth: its open tag, its text on a line of
      its own one level deeper when there is text, its children one level
      deeper, then its close tag. */
  function Render(e: HtmlElement, indent: nat): (r: string)
    ensures |r| > 0 && r[|r| - 1] == '\n'
    decreases e, 1
  {
    OpenTag(e.name, indent)
      + TextLine(e.text, indent)
      + RenderAll(e.elements, indent)
      + CloseTag(e.name, indent)
  }

  /** The children of an element at the given depth, rendered in order one
      level deeper. */
  function RenderAll(es: seq<HtmlElement>, indent: nat): (r: string)
    ensures es == [] <==> r == []
    ensures r != [] ==> r[|r| - 1] == '\n'
    decreases es, 0
  {
    if es == [] then ""
    else RenderAll(es[..|es| - 1], indent) + Render(es[|es| - 1], indent + 1)
  }

  /** The rendering opens and closes with the element's own tags at its
      depth. */
  lemma RenderFrame(e: HtmlElement, indent: nat)
    ensures OpenTag(e.name, indent) <= Render(e, indent)
    ensures var r, c := Render(e, indent), CloseTag(e.name, indent);
            |c| <= |r| && r[|r| - |c|..] == c
  {
    var r, c := Render(e, indent), CloseTag(e.name, indent);
    var body := OpenTag(e.name, indent) + TextLine(e.text, indent) + RenderAll(e.elements, indent);
    assert r == OpenTag(e.name, indent) + (body[|OpenTag(e.name, indent)|..] + c);
    assert r == body + c;
  }

  /** No newline in any name or text of the tree. */
  predicate NoNewlines(e: HtmlElement)
  {
    '\n' !in e.name && '\n' !in e.text
      && forall i :: 0 <= i < |e.elements| ==> NoNewlines(e.elements[i])
  }

  /** The lines a rendering takes: open and close tag for every element,
      plus one for every non-empty text. */
  function Lines(e: HtmlElement): nat
    decreases e, 1
  {
    2 + (if |e.text| > 0 then 1 else 0) + LinesAll(e.elements)
  }

  function LinesAll(es: seq<HtmlElement>): nat
    decreases es, 0
  {
    if es == [] then 0 else LinesAll(es[..|es| - 1]) + Lines(es[|es| - 1])
  }

  function NewlineCount(s: string): nat
  {
    multiset(s)['\n']
  }

  lemma CountConcat(a: string, b: string)
    ensures NewlineCount(a + b) == NewlineCount(a) + NewlineCount(b)
  {
    assert multiset(a + b) == multiset(a) + multiset(b);
  }

  lemma CountNone(s: string)
    requires '\n' !in s
    ensures NewlineCount(s) == 0
  {
  }

  /** A tag line, or a text line, with a newline-free word holds one newline. */
  lemma CountLine(prefix: string, word: string, suffix: string)
    requires '\n' !in prefix && '\n' !in word
    ensures NewlineCount(prefix + word + suffix + "\n") == NewlineCount(suffix) + 1
  {
    CountNone(prefix);
    CountNone(word);
    CountConcat(prefix, word);
    CountConcat(prefix + word, suffix);
    CountConcat(prefix + word + suffix, "\n");
  }

  /** Each tag line holds exactly one newline. */
  lemma TagCounts(name: string, indent: nat)
    requires '\n' !in name
    ensures NewlineCount(OpenTag(name, indent)) == 1
    ensures NewlineCount(CloseTag(name, indent)) == 1
  {
    var sp := Spaces(IndentSize * indent);
    assert OpenTag(name, indent) == sp + "<" + name + ">" + "\n";
    CountLine(sp + "<", name, ">");
    assert CloseTag(name, indent) == sp + "</" + name + ">" + "\n";
    CountLine(sp + "</", name, ">");
  }

  /** The lines of an element's text part: one iff the text is non-empty. */
  function TextLine(text: string, indent: nat): string
  {
    if |text| > 0 then Spaces(IndentSize * (indent + 1)) + text + "\n" else ""
  }

  lemma TextCount(text: string, indent: nat)
    requires '\n' !in text
    ensures NewlineCount(TextLine(text, indent)) == if |text| > 0 then 1 else 0
  {
    if |text| > 0 {
      var sp := Spaces(IndentSize * (indent + 1));
      assert TextLine(text, indent) == sp + text + "" + "\n";
      CountLine(sp, text, "");
    }
  }

  /** With newline-free names and texts, the rendering holds exactly one
      newline per line: the text line appears iff the text is non-empty. */
  lemma {:induction false} RenderNewlines(e: HtmlElement, indent: nat)
    requires NoNewlines(e)
    ensures NewlineCount(Render(e, indent)) == Lines(e)
    decreases e, 1
  {
    RenderAllNewlines(e.elements, indent);
    TagCounts(e.name, indent);
    TextCount(e.text, indent);
    var o, t, ch, c := OpenTag(e.name, indent), TextLine(e.text, indent), RenderAll(e.elements, indent), CloseTag(e.name, indent);
    assert Render(e, indent) == o + t + ch + c;
    CountConcat(o, t);
    CountConcat(o + t, ch);
    CountConcat(o + t + ch, c);
  }

  lemma {:induction false} RenderAllNewlines(es: seq<HtmlElement>, indent: nat)
    requires forall i :: 0 <= i < |es| ==> NoNewlines(es[i])
    ensures NewlineCount(RenderAll(es, indent)) == LinesAll(es)
    decreases es, 0
  {
    if es != [] {
      var front := es[..|es| - 1];
      RenderAllNewlines(front, indent);
      RenderNewlines(es[|es| - 1], indent + 1);
      CountConcat(RenderAll(front, indent), Render(es[|es| - 1], indent + 1));
    }
  }

  class HtmlBuilder {
    var rootName: string
    var root: HtmlElement

    /** NewHtmlBuilder: a childless root of the given name with no text. */
    constructor (rootName: string)
      ensures this.rootName == rootName
      ensures root == HtmlElement(rootName, "", [])
    {
      this.rootName := rootName;
      root := HtmlElement(rootName, "", []);
    }

    /** The root's rendering, opening with the root's tag. */
    function String(): (s: string)
      reads this
      ensures "<" + root.name + ">\n" <= s
    {
      root.String()
    }

    /** Appends one childless element after the root's existing children. */
    method AddChild(childName: string, childText: string)
      modifies this
      ensures rootName == old(rootName)
      ensures root == old(root).(elements := old(root.elements) + [HtmlElement(childName, childText, [])])
    {
      var e := HtmlElement(childName, childText, []);
      root := root.(elements := root.elements + [e]);
    }

    /** The same effect as AddChild, returning the builder for chaining. */
    method AddChildFluent(childName: string, childText: string) returns (b: HtmlBuilder)
      modifies this
      ensures b == this
      ensures rootName == old(rootName)
      ensures root == old(root).(elements := old(root.elements) + [HtmlElement(childName, childText, [])])
    {
      var e := HtmlElement(childName, childText, []);
      root := root.(elements := root.elements + [e]);
      b := this;
    }
  }

  /** A childless element renders as its open tag, its text line and its
      close tag. */
  lemma LeafRender(name: string, text: string, indent: nat)
    ensures Render(HtmlElement(name, text, []), indent) == OpenTag(name, indent) + TextLine(text, indent) + CloseTag(name, indent)
  {
    assert RenderAll([], indent) == "";
  }

  /** The tag and text lines of the demonstration, written out. */
  lemma ListPieces()
    ensures OpenTag("li", 1) == "  <li>\n" && CloseTag("li", 1) == "  </li>\n"
    ensures TextLine("hello", 1) == "    hello\n" && TextLine("world", 1) == "    world\n"
    ensures OpenTag("ul", 0) == "<ul>\n" && CloseTag("ul", 0) == "</ul>\n" && TextLine("", 0) == ""
  {
    assert Spaces(2) == "  " && Spaces(4) == "    " && Spaces(0) == "";
  }

  /** The demonstration's list: a ul root with two li children, one line
      per tag and per text. */
  lemma ListRendering()
    ensures HtmlElement("ul", "", [HtmlElement("li", "hello", []), HtmlElement("li", "world", [])]).String()
      == "<ul>\n" + ("  <li>\n" + "    hello\n" + "  </li>\n") + ("  <li>\n" + "    world\n" + "  </li>\n") + "</ul>\n"
  {
    var hello, world := HtmlElement("li", "hello", []), HtmlElement("li", "world", []);
    ListPieces();
    LeafRender("li", "hello", 1);
    LeafRender("li", "world", 1);
    assert [hello, world][..1] == [hello] && [hello][..0] == [];
    assert RenderAll([hello], 0) == Render(hello, 1);
    assert RenderAll([hello, world], 0) == Render(hello, 1) + Render(world, 1);
  }

  /** The list of the demonstration, built with plain and with fluent calls:
      both render the same text. */
  method ListDemo() returns (plain: string, fluent: string)
    ensures plain == "<ul>\n" + ("  <li>\n" + "    hello\n" + "  </li>\n") + ("  <li>\n" + "    world\n" + "  </li>\n") + "</ul>\n"
    ensures fluent == plain
  {
    var b := new HtmlBuilder("ul");
    b.AddChild("li", "hello");
    b.AddChild("li", "world");
    plain := b.String();
    var bf := new HtmlBuilder("ul");
    var chained := bf.AddChildFluent("li", "hello");
    chained := chained.AddChildFluent("li", "world");
    fluent := bf.String();
    var list := HtmlElement("ul", "", [HtmlElement("li", "hello", []), HtmlElement("li", "world", [])]);
    assert b.root == list && bf.root == list;
    ListRendering();
  }
}
