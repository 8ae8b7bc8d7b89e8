/** One person built through two facets: an address builder and a job
    builder. Every builder refers to the same Person object, so a write
    through any facet shows in what Build returns. */
module BuilderFacets {

  /** The fields of a person, as a value. */
  datatype PersonData = PersonData(
    streetAddress: string, postcode: string, city: string,
    companyName: string, position: string, annualIncome: int)

  const Empty := PersonData("", "", "", "", "", 0)

  class Person {
    var streetAddress: string
    var postcode: string
    var city: string
    var companyName: string
    var position: string
    var annualIncome: int

    /** A person with every field empty or zero. */
    constructor ()
      ensures Data() == Empty
    {
      streetAddress, postcode, city := "", "", "";
      companyName, position, annualIncome := "", "", 0;
    }

    function Data(): PersonData
      reads this
    {
      PersonData(streetAddress, postcode, city, companyName, position, annualIncome)
    }
  }

  class PersonBuilder {
    const person: Person

    /** NewPersonBuilder: a builder of a new, empty person. */
    constructor ()
      ensures fresh(person) && person.Data() == Empty
    {
      person := new Person();
    }

    /** The address facet, on the same person. */
    method Lives() returns (pab: PersonAddressBuilder)
      ensures fresh(pab) && pab.person == person
    {
      pab := new PersonAddressBuilder(person);
    }

    /** The job facet, on the same person. */
    method Works() returns (pjb: PersonJobBuilder)
      ensures fresh(pjb) && pjb.person == person
    {
      pjb := new PersonJobBuilder(person);
    }

    /** The person being built, shared with every facet. */
    method Build() returns (p: Person)
      ensures p == person
    {
      p := person;
    }
  }

  /** The address facet. In Go it embeds a copy of the person builder, so it
      also offers Lives, Works and Build on the same person. */
  class PersonAddressBuilder {
    const person: Person

    constructor (person: Person)
      ensures this.person == person
    {
      this.person := person;
    }

    method AtStreet(streetAddress: string) returns (pab: PersonAddressBuilder)
      modifies person
      ensures pab == this
      ensures person.Data() == old(person.Data()).(streetAddress := streetAddress)
    {
      person.streetAddress := streetAddress;
      pab := this;
    }

    method InCity(city: string) returns (pab: PersonAddressBuilder)
      modifies person
      ensures pab == this
      ensures person.Data() == old(person.Data()).(city := city)
    {
      person.city := city;
      pab := this;
    }

    method WithPostalCode(postalCode: string) returns (pab: PersonAddressBuilder)
      modifies person
      ensures pab == this
      ensures person.Data() == old(person.Data()).(postcode := postalCode)
    {
      person.postcode := postalCode;
      pab := this;
    }

    method Lives() returns (pab: PersonAddressBuilder)
      ensures fresh(pab) && pab.person == person
    {
      pab := new PersonAddressBuilder(person);
    }

    method Works() returns (pjb: PersonJobBuilder)
      ensures fresh(pjb) && pjb.person == person
    {
      pjb := new PersonJobBuilder(person);
    }

    method Build() returns (p: Person)
      ensures p == person
    {
      p := person;
    }
  }

  /** The job facet, likewise embedding the person builder. */
  class PersonJobBuilder {
    const person: Person

    constructor (person: Person)
      ensures this.person == person
    {
      this.person := person;
    }

    method AtCompany(companyName: string) returns (pjb: PersonJobBuilder)
      modifies person
      ensures pjb == this
      ensures person.Data() == old(person.Data()).(companyName := companyName)
    {
      person.companyName := companyName;
      pjb := this;
    }

    method AsA(position: string) returns (pjb: PersonJobBuilder)
      modifies person
      ensures pjb == this
      ensures person.Data() == old(person.Data()).(position := position)
    {
      person.position := position;
      pjb := this;
    }

    method Earning(annualIncome: int) returns (pjb: PersonJobBuilder)
      modifies person
      ensures pjb == this
      ensures person.Data() == old(person.Data()).(annualIncome := annualIncome)
    {
      person.annualIncome := annualIncome;
      pjb := this;
    }

    method Lives() returns (pab: PersonAddressBuilder)
      ensures fresh(pab) && pab.person == person
    {
      pab := new PersonAddressBuilder(person);
    }

    method Works() returns (pjb: PersonJobBuilder)
      ensures fresh(pjb) && pjb.person == person
    {
      pjb := new PersonJobBuilder(person);
    }

    method Build() returns (p: Person)
      ensures p == person
    {
      p := person;
    }
  }

  /** The demonstration's chain: three address writes, a switch to the job
      facet, three job writes; the built person holds all six. */
  method FacetsDemo() returns (built: PersonData)
    ensures built == PersonData("123 London Road", "SW12BC", "London", "Fabrikam", "Programmer", 123000)
  {
    var pb := new PersonBuilder();
    var pab := pb.Lives();
    pab := pab.AtStreet("123 London Road");
    pab := pab.InCity("London");
    pab := pab.WithPostalCode("SW12BC");
    var pjb := pab.Works();
    pjb := pjb.AtCompany("Fabrikam");
    pjb := pjb.AsA("Programmer");
    pjb := pjb.Earning(123000);
    var person := pb.Build();
    built := person.Data();
  }
}
