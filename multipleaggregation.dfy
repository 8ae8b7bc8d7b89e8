/** A dragon that is both a bird and a lizard: it holds one of each and
    keeps their ages equal, flies through the bird and crawls through the
    lizard. Fly and Crawl return whether the Go method would print. */
module MultipleAggregation {

  /** The age at which a bird starts to fly and a lizard stops crawling. */
  const Threshold := 10

  class Bird {
    var age: int

    /** Go's zero value Bird{}. */
    constructor ()
      ensures age == 0
    {
      age := 0;
    }

    function Age(): (a: int)
      reads this
      ensures a == age
    {
      age
    }

    method SetAge(age: int)
      modifies this
      ensures Age() == age
    {
      this.age := age;
    }

    /** Whether the bird flies: from age 10 on. */
    predicate Fly()
      reads this
      ensures Fly() <==> Age() >= 10
    {
      age >= Threshold
    }
  }

  class Lizard {
    var age: int

    /** Go's zero value Lizard{}. */
    constructor ()
      ensures age == 0
    {
      age := 0;
    }

    function Age(): (a: int)
      reads this
      ensures a == age
    {
      age
    }

    method SetAge(age: int)
      modifies this
      ensures Age() == age
    {
      this.age := age;
    }

    /** Whether the lizard crawls: before age 10. */
    predicate Crawl()
      reads this
      ensures Crawl() <==> Age() < 10
    {
      age < Threshold
    }
  }

  /** Go embeds the bird and the lizard by value; here they are two objects
      that belong to the dragon alone. */
  class Dragon {
    const bird: Bird
    const lizard: Lizard

    /** The dragon's two halves are of the same age. */
    ghost predicate Valid()
      reads this, bird, lizard
    {
      bird.age == lizard.age
    }

    /** NewDragon: a newborn bird and lizard. */
    constructor ()
      ensures fresh(bird) && fresh(lizard)
      ensures bird.age == 0 && lizard.age == 0 && Valid()
    {
      bird := new Bird();
      lizard := new Lizard();
    }

    /** The dragon's age is its bird's. */
    function Age(): (a: int)
      reads this, bird
      ensures a == bird.Age()
    {
      bird.age
    }

    /** Sets both halves, so they stay equal. */
    method SetAge(age: int)
      modifies bird, lizard
      ensures bird.age == age && lizard.age == age
      ensures Valid() && Age() == age
    {
      bird.age := age;
      lizard.age := age;
    }

    /** The dragon flies through its bird, so from its own age 10 on. */
    predicate Fly()
      reads this, bird
      ensures Fly() <==> Age() >= 10
    {
      bird.Fly()
    }

    /** The dragon crawls through its lizard; while the halves agree, that
        is exactly when it does not fly. */
    predicate Crawl()
      reads this, bird, lizard
      ensures Valid() ==> (Crawl() <==> !Fly())
    {
      lizard.Crawl()
    }
  }

  /** A dragon whose halves agree does exactly one of flying and crawling:
      it flies from age 10 on and crawls before. */
  lemma ExactlyOneMove(d: Dragon)
    requires d.Valid()
    ensures d.Fly() <==> !d.Crawl()
    ensures d.Fly() <==> d.Age() >= 10
  {
  }

  /** The demonstration: a new dragon aged 11 flies and does not crawl. */
  method DragonDemo() returns (flies: bool, crawls: bool)
    ensures flies && !crawls
  {
    var d := new Dragon();
    d.SetAge(11);
    flies := d.Fly();
    crawls := d.Crawl();
  }
}
