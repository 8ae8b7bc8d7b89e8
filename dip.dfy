/** A store of family relations between people, with one query over it.
    People are heap objects: a relation refers to them, and the query
    returns references to them. */
module Dip {

  class Person {
    const name: string

    constructor (name: string)
      ensures this.name == name
    {
      this.name := name;
    }
  }

  datatype Relationship = Parent | Child | Sibling

  /** One relation: from is the relationship of to. */
  datatype Info = Info(from: Person, relationship: Relationship, to: Person)

  /** The to-person of every Parent relation whose from-person has the
      given name, in store order. */
  function ChildrenOf(relations: seq<Info>, name: string): seq<Person>
  {
    if relations == [] then []
    else
      var last := relations[|relations| - 1];
      ChildrenOf(relations[..|relations| - 1], name)
        + (if last.relationship == Parent && last.from.name == name then [last.to] else [])
  }

  /** The query distributes over concatenation of stores. */
  lemma {:induction false} ChildrenOfAppend(relations: seq<Info>, more: seq<Info>, name: string)
    ensures ChildrenOf(relations + more, name) == ChildrenOf(relations, name) + ChildrenOf(more, name)
  {
    if more == [] {
      assert relations + more == relations;
    } else {
      var front := more[..|more| - 1];
      ChildrenOfAppend(relations, front, name);
      assert (relations + more)[..|relations + more| - 1] == relations + front;
      assert (relations + more)[|relations + more| - 1] == more[|more| - 1];
    }
  }

  /** A person is in the result exactly when some Parent relation from a
      person of that name leads to them; Child and Sibling relations never
      contribute. The result is never longer than the store. */
  lemma {:induction false} ChildrenOfMembers(relations: seq<Info>, name: string)
    ensures forall p :: p in ChildrenOf(relations, name) <==>
      exists i :: 0 <= i < |relations| && relations[i].relationship == Parent
        && relations[i].from.name == name && relations[i].to == p
    ensures |ChildrenOf(relations, name)| <= |relations|
  {
    if relations != [] {
      var front := relations[..|relations| - 1];
      ChildrenOfMembers(front, name);
      forall p
        ensures p in ChildrenOf(relations, name) <==>
          exists i :: 0 <= i < |relations| && relations[i].relationship == Parent
            && relations[i].from.name == name && relations[i].to == p
      {
        if p in ChildrenOf(front, name) {
          var i :| 0 <= i < |front| && front[i].relationship == Parent && front[i].from.name == name && front[i].to == p;
          assert relations[i] == front[i];
        }
        if exists i :: 0 <= i < |relations| && relations[i].relationship == Parent
            && relations[i].from.name == name && relations[i].to == p {
          var i :| 0 <= i < |relations| && relations[i].relationship == Parent
            && relations[i].from.name == name && relations[i].to == p;
          if i < |front| {
            assert front[i] == relations[i];
          }
        }
      }
    }
  }

  class Relationships {
    var relations: seq<Info>

    constructor ()
      ensures relations == []
    {
      relations := [];
    }

    /** Records both directions: the parent's Parent relation, then the
        child's Child relation. Earlier relations are kept as they were. */
    method AddParentAndChild(parent: Person, child: Person)
      modifies this
      ensures relations == old(relations) + [Info(parent, Parent, child), Info(child, Child, parent)]
    {
      relations := relations + [Info(parent, Parent, child)];
      relations := relations + [Info(child, Child, parent)];
    }

    /** The children recorded for a name, in store order; the store is not
        changed. */
    method FindAllChildrenOf(name: string) returns (result: seq<Person>)
      ensures result == ChildrenOf(relations, name)
    {
      result := [];
      for i := 0 to |relations|
        invariant result == ChildrenOf(relations[..i], name)
      {
        assert relations[..i + 1][..i] == relations[..i];
        var v := relations[i];
        if v.relationship == Parent && v.from.name == name {
          result := result + [relations[i].to];
        }
      }
      assert relations[..|relations|] == relations;
    }
  }

  /** After recording parent and child, a query for the parent's name gives
      what it gave before followed by the child, and the child's Child
      relation adds nothing. */
  lemma AddedChildIsFound(relations: seq<Info>, parent: Person, child: Person)
    ensures ChildrenOf(relations + [Info(parent, Parent, child), Info(child, Child, parent)], parent.name)
      == ChildrenOf(relations, parent.name) + [child]
  {
    var pair := [Info(parent, Parent, child), Info(child, Child, parent)];
    ChildrenOfAppend(relations, pair, parent.name);
    assert pair[..1] == [pair[0]] && [pair[0]][..0] == [];
    assert ChildrenOf([pair[0]], parent.name) == [child];
    assert ChildrenOf(pair, parent.name) == [child];
  }

  /** Recording a pair never takes anyone out of a query's answer. */
  lemma AddingKeepsChildren(relations: seq<Info>, parent: Person, child: Person, name: string)
    ensures ChildrenOf(relations, name) <= ChildrenOf(relations + [Info(parent, Parent, child), Info(child, Child, parent)], name)
  {
    ChildrenOfAppend(relations, [Info(parent, Parent, child), Info(child, Child, parent)], name);
  }
}
