/** Product filters, first as one method per criterion and then through
    composable specifications. Go's filters return pointers into the input
    slice; here a result is the sequence of those positions. */
module Ocp {

  datatype Color = Red | Green | Blue
  datatype Size = Small | Medium | Large

  datatype Product = Product(name: string, color: Color, size: Size)

  /** A selection criterion on products. */
  datatype Specification =
    | ColorSpecification(color: Color)
    | SizeSpecification(size: Size)
    | AndSpecification(first: Specification, second: Specification)

  /** The colours a specification asks for, wherever they occur in it. */
  function Colors(spec: Specification): set<Color>
  {
    match spec
    case ColorSpecification(c) => {c}
    case SizeSpecification(_) => {}
    case AndSpecification(a, b) => Colors(a) + Colors(b)
  }

  /** The sizes a specification asks for, wherever they occur in it. */
  function Sizes(spec: Specification): set<Size>
  {
    match spec
    case ColorSpecification(_) => {}
    case SizeSpecification(s) => {s}
    case AndSpecification(a, b) => Sizes(a) + Sizes(b)
  }

  /** The IsSatisfied methods of the three specifications: a product
      satisfies a specification exactly when it has every colour and every
      size that the specification asks for. */
  predicate IsSatisfied(spec: Specification, p: Product)
    ensures IsSatisfied(spec, p) <==> Colors(spec) <= {p.color} && Sizes(spec) <= {p.size}
  {
    match spec
    case ColorSpecification(c) => p.color == c
    case SizeSpecification(s) => p.size == s
    case AndSpecification(a, b) => IsSatisfied(a, p) && IsSatisfied(b, p)
  }

  /** Positions strictly rising: input order, each product at most once. */
  predicate Increasing(r: seq<nat>)
  {
    forall a, b :: 0 <= a < b < |r| ==> r[a] < r[b]
  }

  /** The positions of the products the specification accepts, in order. */
  function Selected(products: seq<Product>, spec: Specification): seq<nat>
  {
    if products == [] then []
    else
      var last := |products| - 1;
      Selected(products[..last], spec) + (if IsSatisfied(spec, products[last]) then [last] else [])
  }

  /** A rising list stays rising when a larger position is appended. */
  lemma AppendLarger(r: seq<nat>, x: nat)
    requires Increasing(r)
    requires forall y: nat :: y in r ==> y < x
    ensures Increasing(r + [x])
  {
    forall a, b | 0 <= a < b < |r| + 1
      ensures (r + [x])[a] < (r + [x])[b]
    {
      if b == |r| {
        assert r[a] in r;
      }
    }
  }

  /** The last of a rising list is its largest member, and the list without
      it is rising and below it. */
  lemma LastIsLargest(r: seq<nat>)
    requires Increasing(r) && |r| > 0
    ensures forall x: nat :: x in r ==> x <= r[|r| - 1]
    ensures forall x: nat :: x in r[..|r| - 1] <==> x in r && x < r[|r| - 1]
    ensures Increasing(r[..|r| - 1])
  {
    forall x: nat | x in r
      ensures x <= r[|r| - 1]
    {
      var k :| 0 <= k < |r| && r[k] == x;
    }
    forall x: nat | x in r && x < r[|r| - 1]
      ensures x in r[..|r| - 1]
    {
      var k :| 0 <= k < |r| && r[k] == x;
      assert r[..|r| - 1][k] == x;
    }
  }

  /** The selection is an order-preserving pick of exactly the accepted
      products, never longer than the input. */
  lemma {:induction false} SelectedCharacterization(products: seq<Product>, spec: Specification)
    ensures Increasing(Selected(products, spec))
    ensures forall i: nat :: i in Selected(products, spec) <==> i < |products| && IsSatisfied(spec, products[i])
    ensures |Selected(products, spec)| <= |products|
  {
    if products != [] {
      var last := |products| - 1;
      var front := products[..last];
      SelectedCharacterization(front, spec);
      var rf := Selected(front, spec);
      var r := Selected(products, spec);
      assert r == rf + (if IsSatisfied(spec, products[last]) then [last] else []);
      forall i: nat
        ensures i in r <==> i < |products| && IsSatisfied(spec, products[i])
      {
        if i < last {
          assert front[i] == products[i];
        }
      }
      if IsSatisfied(spec, products[last]) {
        AppendLarger(rf, last);
      }
    }
  }

  /** Lists with the same members are empty together. */
  lemma SameMembersBothEmpty(r: seq<nat>, s: seq<nat>)
    requires forall x: nat :: x in r <==> x in s
    ensures |r| == 0 <==> |s| == 0
  {
    if |r| > 0 {
      assert r[0] in s;
    }
    if |s| > 0 {
      assert s[0] in r;
    }
  }

  /** Two rising position lists with the same members are the same list. */
  lemma {:induction false} IncreasingUnique(r: seq<nat>, s: seq<nat>)
    requires Increasing(r) && Increasing(s)
    requires forall x: nat :: x in r <==> x in s
    ensures r == s
  {
    SameMembersBothEmpty(r, s);
    if |r| > 0 {
      LastIsLargest(r);
      LastIsLargest(s);
      var lr, ls := r[|r| - 1], s[|s| - 1];
      assert lr in r && ls in s;
      assert lr == ls;
      var r', s' := r[..|r| - 1], s[..|s| - 1];
      forall x: nat
        ensures x in r' <==> x in s'
      {
        assert x in r' <==> x in r && x < lr;
        assert x in s' <==> x in s && x < ls;
      }
      IncreasingUnique(r', s');
      assert r == r' + [lr] && s == s' + [ls];
    }
  }

  /** The positions of the products of the given colour, in input order. */
  method FilterByColor(products: seq<Product>, color: Color) returns (result: seq<nat>)
    ensures Increasing(result)
    ensures forall i: nat :: i in result <==> i < |products| && products[i].color == color
  {
    result := [];
    for i := 0 to |products|
      invariant Increasing(result)
      invariant forall k: nat :: k in result <==> k < i && products[k].color == color
    {
      if products[i].color == color {
        AppendLarger(result, i);
        result := result + [i];
      }
    }
  }

  /** The positions of the products of the given size, in input order. */
  method FilterBySize(products: seq<Product>, size: Size) returns (result: seq<nat>)
    ensures Increasing(result)
    ensures forall i: nat :: i in result <==> i < |products| && products[i].size == size
  {
    result := [];
    for i := 0 to |products|
      invariant Increasing(result)
      invariant forall k: nat :: k in result <==> k < i && products[k].size == size
    {
      if products[i].size == size {
        AppendLarger(result, i);
        result := result + [i];
      }
    }
  }

  /** The positions of the products of both the given size and colour. */
  method FilterBySizeAndColor(products: seq<Product>, size: Size, color: Color) returns (result: seq<nat>)
    ensures Increasing(result)
    ensures forall i: nat :: i in result <==> i < |products| && products[i].size == size && products[i].color == color
  {
    result := [];
    for i := 0 to |products|
      invariant Increasing(result)
      invariant forall k: nat :: k in result <==> k < i && products[k].size == size && products[k].color == color
    {
      if products[i].size == size && products[i].color == color {
        AppendLarger(result, i);
        result := result + [i];
      }
    }
  }

  /** The specification-driven filter: works for any specification. */
  method Filter(products: seq<Product>, spec: Specification) returns (result: seq<nat>)
    ensures result == Selected(products, spec)
  {
    result := [];
    for i := 0 to |products|
      invariant result == Selected(products[..i], spec)
    {
      assert products[..i + 1][..i] == products[..i];
      if IsSatisfied(spec, products[i]) {
        result := result + [i];
      }
    }
    assert products[..|products|] == products;
  }

  /** An AND specification accepts exactly the products both parts accept. */
  lemma AndSelectsBoth(products: seq<Product>, a: Specification, b: Specification)
    ensures forall i: nat :: i in Selected(products, AndSpecification(a, b)) <==>
      i in Selected(products, a) && i in Selected(products, b)
  {
    SelectedCharacterization(products, AndSpecification(a, b));
    SelectedCharacterization(products, a);
    SelectedCharacterization(products, b);
  }

  /** Any list FilterByColor can return is what a colour specification selects. */
  lemma ColorFilterAgrees(products: seq<Product>, color: Color, result: seq<nat>)
    requires Increasing(result)
    requires forall i: nat :: i in result <==> i < |products| && products[i].color == color
    ensures result == Selected(products, ColorSpecification(color))
  {
    SelectedCharacterization(products, ColorSpecification(color));
    IncreasingUnique(result, Selected(products, ColorSpecification(color)));
  }

  /** Any list FilterBySize can return is what a size specification selects. */
  lemma SizeFilterAgrees(products: seq<Product>, size: Size, result: seq<nat>)
    requires Increasing(result)
    requires forall i: nat :: i in result <==> i < |products| && products[i].size == size
    ensures result == Selected(products, SizeSpecification(size))
  {
    SelectedCharacterization(products, SizeSpecification(size));
    IncreasingUnique(result, Selected(products, SizeSpecification(size)));
  }

  /** Any list FilterBySizeAndColor can return is what the AND of a colour and
      a size specification selects. */
  lemma SizeAndColorFilterAgrees(products: seq<Product>, size: Size, color: Color, result: seq<nat>)
    requires Increasing(result)
    requires forall i: nat :: i in result <==> i < |products| && products[i].size == size && products[i].color == color
    ensures result == Selected(products, AndSpecification(ColorSpecification(color), SizeSpecification(size)))
  {
    var spec := AndSpecification(ColorSpecification(color), SizeSpecification(size));
    var sel := Selected(products, spec);
    SelectedCharacterization(products, spec);
    forall i: nat
      ensures i in result <==> i in sel
    {
      if i < |products| {
        assert IsSatisfied(spec, products[i]) <==> products[i].size == size && products[i].color == color;
      }
    }
    IncreasingUnique(result, sel);
  }

  /** The apple, tree and house of the demonstration: green selects the
      first two, large the last two, large and green only the tree. */
  lemma DemoSelections()
    ensures var ps := [Product("Apple", Green, Small), Product("Tree", Green, Large), Product("House", Blue, Large)];
            Selected(ps, ColorSpecification(Green)) == [0, 1]
            && Selected(ps, SizeSpecification(Large)) == [1, 2]
            && Selected(ps, AndSpecification(ColorSpecification(Green), SizeSpecification(Large))) == [1]
  {
    var apple, tree, house := Product("Apple", Green, Small), Product("Tree", Green, Large), Product("House", Blue, Large);
    var ps := [apple, tree, house];
    assert ps[..2] == [apple, tree] && [apple, tree][..1] == [apple] && [apple][..0] == [];
    var green, large := ColorSpecification(Green), SizeSpecification(Large);
    var both := AndSpecification(green, large);
    assert Selected([], green) == [] && Selected([], large) == [] && Selected([], both) == [];
    assert IsSatisfied(green, apple) && !IsSatisfied(large, apple) && !IsSatisfied(both, apple);
    assert Selected([apple], green) == [0];
    assert Selected([apple], large) == [] && Selected([apple], both) == [];
    assert Selected([apple, tree], green) == [0, 1];
    assert Selected([apple, tree], large) == [1];
    assert Selected([apple, tree], both) == [1];
  }
}
