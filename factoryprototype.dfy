/** A factory of prototype employees chosen by role: a position and a
    salary filled in, the name left for the caller. */
module FactoryPrototype {

  /** The roles, numbered as Go's iota numbers them. */
  const Developer := 0
  const Manager := 1

  class PrototypeEmployee {
    var name: string
    var position: string
    var annualIncome: int

    constructor (name: string, position: string, annualIncome: int)
      ensures this.name == name && this.position == position && this.annualIncome == annualIncome
    {
      this.name, this.position, this.annualIncome := name, position, annualIncome;
    }
  }

  /** NewPrototypeEmployee: a new, nameless developer on 60000 or manager
      on 80000. Any other role panics in Go, hence the precondition. */
  method NewPrototypeEmployee(role: int) returns (e: PrototypeEmployee)
    requires role == Developer || role == Manager
    ensures fresh(e) && e.name == ""
    ensures role == Developer ==> e.position == "Developer" && e.annualIncome == 60000
    ensures role == Manager ==> e.position == "Manager" && e.annualIncome == 80000
  {
    if role == Developer {
      e := new PrototypeEmployee("", "Developer", 60000);
    } else {
      e := new PrototypeEmployee("", "Manager", 80000);
    }
  }

  /** The demonstration names a new manager; the next manager made is a
      different object and is still nameless. */
  method PrototypeFactoryDemo() returns (m: PrototypeEmployee, next: PrototypeEmployee)
    ensures m != next
    ensures m.name == "Pedro" && m.position == "Manager" && m.annualIncome == 80000
    ensures next.name == "" && next.position == "Manager"
  {
    m := NewPrototypeEmployee(Manager);
    m.name := "Pedro";
    next := NewPrototypeEmployee(Manager);
  }
}
