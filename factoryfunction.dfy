/** A factory function that fills in the one field callers should not
    choose: every person it makes has two eyes. */
module FactoryFunction {

  datatype Person = Person(name: string, age: int, eyeCount: int)

  /** NewPerson: the given name and age, and an eye count of 2 whatever the
      arguments. */
  function NewPerson(name: string, age: int): (p: Person)
    ensures p.name == name && p.age == age && p.eyeCount == 2
  {
    Person(name, age, 2)
  }

  /** Two people made by the factory are equal exactly when their names and
      ages are. */
  lemma NewPersonInjective(n1: string, a1: int, n2: string, a2: int)
    ensures NewPerson(n1, a1) == NewPerson(n2, a2) <==> n1 == n2 && a1 == a2
  {
  }

  /** The demonstration: the factory's Jane equals the literal with two
      eyes, as the hand-built John does. */
  method FactoryFunctionDemo() returns (p: Person, p2: Person)
    ensures p == Person("John", 22, 2) && p2 == Person("Jane", 24, 2)
    ensures p.eyeCount == p2.eyeCount
  {
    p := Person("John", 22, 2);
    p2 := NewPerson("Jane", 24);
  }
}
