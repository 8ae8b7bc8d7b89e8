/** A builder that records modifications as functions and runs them only
    when the person is built. */
module FunctionalBuilder {

  datatype PersonF = PersonF(name: string, position: string)

  /** A recorded modification of a person. */
  type PersonMod = PersonF -> PersonF

  /** The modification Called records: it sets the name and keeps the
      position. */
  function SetName(name: string): (m: PersonMod)
    ensures forall p :: m(p).name == name && m(p).position == p.position
  {
    (p: PersonF) => p.(name := name)
  }

  /** The modification WorksAsA records: it sets the position and keeps
      the name. */
  function SetPosition(position: string): (m: PersonMod)
    ensures forall p :: m(p).position == position && m(p).name == p.name
  {
    (p: PersonF) => p.(position := position)
  }

  /** The person after the modifications, in order, starting from p. */
  function ApplyAll(actions: seq<PersonMod>, p: PersonF): PersonF
  {
    if actions == [] then p else actions[|actions| - 1](ApplyAll(actions[..|actions| - 1], p))
  }

  class PersonFBuilder {
    var actions: seq<PersonMod>

    constructor ()
      ensures actions == []
    {
      actions := [];
    }

    /** Records a name change; no person is touched yet. */
    method Called(name: string) returns (b: PersonFBuilder)
      modifies this
      ensures b == this
      ensures actions == old(actions) + [SetName(name)]
    {
      actions := actions + [SetName(name)];
      b := this;
    }

    /** Records a position change; no person is touched yet. */
    method WorksAsA(position: string) returns (b: PersonFBuilder)
      modifies this
      ensures b == this
      ensures actions == old(actions) + [SetPosition(position)]
    {
      actions := actions + [SetPosition(position)];
      b := this;
    }

    /** Runs every recorded action, in order, on an empty person. The
        actions are not consumed, so building twice gives equal people. */
    method Build() returns (p: PersonF)
      ensures p == ApplyAll(actions, PersonF("", ""))
    {
      p := PersonF("", "");
      for i := 0 to |actions|
        invariant p == ApplyAll(actions[..i], PersonF("", ""))
      {
        assert actions[..i + 1][..i] == actions[..i];
        p := actions[i](p);
      }
      assert actions[..|actions|] == actions;
    }
  }

  /** The last recorded name is the built name, whatever came before. */
  lemma LastNameWins(actions: seq<PersonMod>, name: string, p: PersonF)
    ensures ApplyAll(actions + [SetName(name)], p).name == name
  {
    assert (actions + [SetName(name)])[..|actions|] == actions;
  }

  /** A recorded position change leaves the name as it was, and a name
      change leaves the position. */
  lemma ChangesAreIndependent(actions: seq<PersonMod>, name: string, position: string, p: PersonF)
    ensures ApplyAll(actions + [SetPosition(position)], p).name == ApplyAll(actions, p).name
    ensures ApplyAll(actions + [SetPosition(position)], p).position == position
    ensures ApplyAll(actions + [SetName(name)], p).position == ApplyAll(actions, p).position
  {
    assert (actions + [SetPosition(position)])[..|actions|] == actions;
    assert (actions + [SetName(name)])[..|actions|] == actions;
  }

  /** Running two recorded lists one after the other is running their
      concatenation. */
  lemma {:induction false} ApplyAllAppend(first: seq<PersonMod>, second: seq<PersonMod>, p: PersonF)
    ensures ApplyAll(first + second, p) == ApplyAll(second, ApplyAll(first, p))
  {
    if second == [] {
      assert first + second == first;
    } else {
      var front := second[..|second| - 1];
      ApplyAllAppend(first, front, p);
      assert (first + second)[..|first + second| - 1] == first + front;
    }
  }

  /** The demonstration's chain builds Dmitri the Developer. */
  method FunctionalDemo() returns (p: PersonF)
    ensures p == PersonF("Dmitri", "Developer")
  {
    var pfb := new PersonFBuilder();
    var b := pfb.Called("Dmitri");
    b := b.WorksAsA("Developer");
    p := b.Build();
    assert pfb.actions == [SetName("Dmitri"), SetPosition("Developer")];
    assert pfb.actions[..1] == [SetName("Dmitri")];
  }
}
