/** A factory that returns an interface: people over a hundred come back
    as tired people, who refuse to greet. */
module InterfaceFactory {
  import Decimal

  /** The two implementations of the Human interface. */
  datatype Human = Person(name: string, age: int) | TiredPerson(name: string, age: int)

  /** NewHuman: a tired person exactly when the age is over 100, with the
      name and age stored as given. */
  function NewHuman(name: string, age: int): (h: Human)
    ensures h.TiredPerson? <==> age > 100
    ensures h.name == name && h.age == age
  {
    if age > 100 then TiredPerson(name, age) else Person(name, age)
  }

  const Refusal := "Sorry, I'm too tired to talk\n"

  /** What SayHello prints, newline included: a person introduces itself
      by name and by its age in "%d" form, a tired person refuses, and an
      introduction is never the refusal. */
  function SayHello(h: Human): (g: string)
    ensures h.TiredPerson? ==> g == Refusal
    ensures h.Person? ==>
      g == "Hi, my name is " + h.name + ", I am " + Decimal.IntToString(h.age) + " years old\n"
      && g != Refusal
  {
    match h
    case Person(name, age) =>
      var prefix := "Hi, my name is " + name + ", I am ";
      var g := prefix + (Decimal.IntToString(age) + " years old\n");
      assert g[0] == 'H' && Refusal[0] == 'S';
      g
    case TiredPerson(_, _) => Refusal
  }

  /** A human greets with its name and age unless it is over 100, in which
      case it gives the refusal; the two never coincide. The greeting of a
      person of age 0 to 100 starts with the name, ends with " years old",
      and between the two holds decimal digits that read back as the age. */
  lemma {:induction false} GreetingByAge(name: string, age: int)
    ensures SayHello(NewHuman(name, age)) == Refusal <==> age > 100
    ensures age <= 100 ==> "Hi, my name is " + name + ", I am " <= SayHello(NewHuman(name, age))
    ensures 0 <= age <= 100 ==>
      var g, n := SayHello(NewHuman(name, age)), |"Hi, my name is " + name + ", I am "|;
      n + 11 <= |g| && g[|g| - 11..] == " years old\n"
      && (forall c :: c in g[n..|g| - 11] ==> Decimal.IsDigit(c))
      && Decimal.ParseNat(g[n..|g| - 11]) == age
  {
    if age <= 100 {
      var prefix := "Hi, my name is " + name + ", I am ";
      var digits := Decimal.IntToString(age);
      var g := SayHello(NewHuman(name, age));
      assert g == prefix + digits + " years old\n";
      if 0 <= age {
        assert digits == Decimal.NatToString(age);
        assert g[|prefix|..|g| - 11] == digits;
        assert g[|g| - 11..] == " years old\n";
        Decimal.ParseNatToString(age);
      }
    }
  }

  /** The demonstration: James, 34, greets; Eleanor, 101, refuses. */
  method InterfaceFactoryDemo() returns (g1: string, g2: string)
    ensures g1 == "Hi, my name is James, I am 34 years old\n"
    ensures g2 == "Sorry, I'm too tired to talk\n"
  {
    assert Decimal.IntToString(34) == "34" by {
      assert Decimal.NatToString(3) == "3";
      assert Decimal.DigitChar(4) == '4';
    }
    g1 := SayHello(NewHuman("James", 34));
    g2 := SayHello(NewHuman("Eleanor", 101));
  }
}
