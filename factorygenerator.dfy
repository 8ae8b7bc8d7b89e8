/** Factories of employees with a fixed position and income: a functional
    one, a closure over the two values, and a structural one, an object
    whose public fields Create reads at each call. */
module FactoryGenerator {

  datatype Employee = Employee(name: string, position: string, annualIncome: int)

  /** NewFunctionalEmployeeFactory: the function from a name to an employee
      with that name and the captured position and income. */
  function NewFunctionalEmployeeFactory(position: string, annualIncome: int): (f: string -> Employee)
    ensures forall name :: f(name).name == name && f(name).position == position
                           && f(name).annualIncome == annualIncome
  {
    name => Employee(name, position, annualIncome)
  }

  /** Every employee of a functional factory has the name asked for and the
      factory's position and income. */
  lemma FunctionalFactoryMakes(position: string, annualIncome: int, name: string)
    ensures var e := NewFunctionalEmployeeFactory(position, annualIncome)(name);
            e.name == name && e.position == position && e.annualIncome == annualIncome
  {
  }

  class EmployeeFactory {
    var position: string
    var annualIncome: int

    /** NewStructuralEmployeeFactory: stores the position and income. */
    constructor (position: string, annualIncome: int)
      ensures this.position == position && this.annualIncome == annualIncome
    {
      this.position, this.annualIncome := position, annualIncome;
    }

    /** An employee with the name asked for and the factory's current
        position and income. */
    function Create(name: string): (e: Employee)
      reads this
      ensures e.name == name && e.position == position && e.annualIncome == annualIncome
    {
      Employee(name, position, annualIncome)
    }
  }

  /** A structural factory makes, for every name, the employee a functional
      factory with its current position and income makes. */
  lemma FactoriesAgree(f: EmployeeFactory, name: string)
    ensures f.Create(name) == NewFunctionalEmployeeFactory(f.position, f.annualIncome)(name)
  {
  }

  /** The demonstration: a developer and a manager from functional
      factories, then a boss from a structural factory whose income was
      raised after creation. */
  method FactoryGeneratorDemo() returns (adam: Employee, jane: Employee, boss: Employee)
    ensures adam == Employee("Adam", "Developer", 60000)
    ensures jane == Employee("Jane", "Manager", 80000)
    ensures boss == Employee("Amanda", "CEO", 110000)
  {
    var developerFactory := NewFunctionalEmployeeFactory("Developer", 60000);
    var managerFactory := NewFunctionalEmployeeFactory("Manager", 80000);
    adam := developerFactory("Adam");
    jane := managerFactory("Jane");
    var bossFactory := new EmployeeFactory("CEO", 100000);
    bossFactory.annualIncome := 110000;
    boss := bossFactory.Create("Amanda");
  }
}
