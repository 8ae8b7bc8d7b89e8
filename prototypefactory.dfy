/** Employees made by copying an office prototype and filling in the name
    and suite. The copy goes through JSON in Go; since every field is
    exported and a string or an int, it is a value copy into a new object. */
module PrototypeFactory {

  datatype PFAddress = PFAddress(suite: int, streetAddress: string, city: string)

  class PFEmployee {
    var name: string
    var office: PFAddress

    constructor (name: string, office: PFAddress)
      ensures this.name == name && this.office == office
    {
      this.name, this.office := name, office;
    }

    /** The serialisation round trip: a new employee with equal fields. */
    method DeepCopy() returns (r: PFEmployee)
      ensures fresh(r) && r.name == name && r.office == office
    {
      r := new PFEmployee(name, office);
    }
  }

  /** The two package-level prototype employees, nameless and in suite 0. */
  class Prototypes {
    const mainOffice: PFEmployee
    const auxiliaryOffice: PFEmployee

    ghost predicate Valid()
      reads this, mainOffice, auxiliaryOffice
    {
      mainOffice.name == "" && mainOffice.office == PFAddress(0, "123 East Dr", "London")
      && auxiliaryOffice.name == "" && auxiliaryOffice.office == PFAddress(0, "666 West Dr", "London")
    }

    constructor ()
      ensures Valid() && fresh(mainOffice) && fresh(auxiliaryOffice)
    {
      mainOffice := new PFEmployee("", PFAddress(0, "123 East Dr", "London"));
      auxiliaryOffice := new PFEmployee("", PFAddress(0, "666 West Dr", "London"));
    }
  }

  /** newPFEmployee: a new employee with the given name and suite and the
      prototype's street and city. The prototype is only read. */
  method NewPFEmployee(proto: PFEmployee, name: string, suite: int) returns (r: PFEmployee)
    ensures fresh(r)
    ensures r.name == name && r.office == proto.office.(suite := suite)
  {
    r := proto.DeepCopy();
    r.name := name;
    r.office := r.office.(suite := suite);
  }

  /** A new employee at 123 East Dr, London; the prototypes stay as they
      were. */
  method NewMainOfficePFEmployee(protos: Prototypes, name: string, suite: int) returns (r: PFEmployee)
    requires protos.Valid()
    ensures fresh(r) && protos.Valid()
    ensures r.name == name && r.office == PFAddress(suite, "123 East Dr", "London")
  {
    r := NewPFEmployee(protos.mainOffice, name, suite);
  }

  /** A new employee at 666 West Dr, London; the prototypes stay as they
      were. */
  method NewAuxiliaryOfficePFEmployee(protos: Prototypes, name: string, suite: int) returns (r: PFEmployee)
    requires protos.Valid()
    ensures fresh(r) && protos.Valid()
    ensures r.name == name && r.office == PFAddress(suite, "666 West Dr", "London")
  {
    r := NewPFEmployee(protos.auxiliaryOffice, name, suite);
  }

  /** The demonstration: John in suite 100 of the main office and Jane in
      suite 200 of the auxiliary office, two distinct objects. */
  method PrototypeFactoryDemo() returns (john: PFEmployee, jane: PFEmployee)
    ensures john != jane
    ensures john.name == "John" && john.office == PFAddress(100, "123 East Dr", "London")
    ensures jane.name == "Jane" && jane.office == PFAddress(200, "666 West Dr", "London")
  {
    var protos := new Prototypes();
    john := NewMainOfficePFEmployee(protos, "John", 100);
    jane := NewAuxiliaryOfficePFEmployee(protos, "Jane", 200);
  }
}
