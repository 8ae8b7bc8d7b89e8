/** Summing city populations through a database the caller passes in, so a
    dummy database can stand in for the real singleton. The dummy fills its
    table on first use. */
module Singleton {

  /** The dummy's table once filled. */
  const Seed: map<string, int> := map["alpha" := 1, "beta" := 2, "gamma" := 3]

  /** A Go map lookup: the zero value for a missing key. */
  function Lookup(data: map<string, int>, name: string): (v: int)
    ensures name in data ==> v == data[name]
    ensures name !in data ==> v == 0
  {
    if name in data then data[name] else 0
  }

  /** The table after a lookup: the seed if it was empty, else unchanged. */
  function Filled(data: map<string, int>): (r: map<string, int>)
    ensures |r| > 0
    ensures |data| == 0 ==> r == Seed
    ensures |data| > 0 ==> r == data
  {
    if |data| == 0 then
      assert "alpha" in Seed;
      Seed
    else data
  }

  /** Filling is done at most once: a filled table stays as it is. */
  lemma FilledIsStable(data: map<string, int>)
    ensures Filled(Filled(data)) == Filled(data)
  {
  }

  /** The sum of the lookups of the cities, in order. */
  function Total(data: map<string, int>, cities: seq<string>): int
  {
    if cities == [] then 0 else Total(data, cities[..|cities| - 1]) + Lookup(data, cities[|cities| - 1])
  }

  /** The total over two lists one after the other is the sum of their
      totals. */
  lemma {:induction false} TotalAppend(data: map<string, int>, a: seq<string>, b: seq<string>)
    ensures Total(data, a + b) == Total(data, a) + Total(data, b)
  {
    if b == [] {
      assert a + b == a;
    } else {
      TotalAppend(data, a, b[..|b| - 1]);
      assert (a + b)[..|a + b| - 1] == a + b[..|b| - 1];
    }
  }

  /** Unknown cities add nothing to the total. */
  lemma {:induction false} UnknownCitiesCountZero(data: map<string, int>, cities: seq<string>)
    requires forall i :: 0 <= i < |cities| ==> cities[i] !in data
    ensures Total(data, cities) == 0
  {
    if cities != [] {
      UnknownCitiesCountZero(data, cities[..|cities| - 1]);
    }
  }

  class DummyDatabase {
    var dummyData: map<string, int>

    /** Go's zero value: no table yet. */
    constructor ()
      ensures dummyData == map[]
    {
      dummyData := map[];
    }

    /** Fills the table with the seed when it is empty, then looks the name
        up; an unknown name has population 0. */
    method GetPopulation(name: string) returns (p: int)
      modifies this
      ensures dummyData == Filled(old(dummyData))
      ensures p == Lookup(dummyData, name)
    {
      if |dummyData| == 0 {
        dummyData := Seed;
      }
      p := if name in dummyData then dummyData[name] else 0;
    }
  }

  /** GetTotalPopulationEx: the sum of the database's answers for the
      cities. The table is filled by the first lookup, if any. */
  method GetTotalPopulationEx(db: DummyDatabase, cities: seq<string>) returns (result: int)
    modifies db
    ensures result == Total(Filled(old(db.dummyData)), cities)
    ensures db.dummyData == if cities == [] then old(db.dummyData) else Filled(old(db.dummyData))
  {
    result := 0;
    for i := 0 to |cities|
      invariant result == Total(Filled(old(db.dummyData)), cities[..i])
      invariant db.dummyData == if i == 0 then old(db.dummyData) else Filled(old(db.dummyData))
    {
      assert cities[..i + 1][..i] == cities[..i];
      FilledIsStable(old(db.dummyData));
      var p := db.GetPopulation(cities[i]);
      result := result + p;
    }
    assert cities[..|cities|] == cities;
  }

  /** The demonstration: alpha and gamma make 4 on a new dummy database. */
  method SingletonAndDependencyInversion() returns (tp: int)
    ensures tp == 4
  {
    var db := new DummyDatabase();
    tp := GetTotalPopulationEx(db, ["alpha", "gamma"]);
    assert ["alpha", "gamma"][..1] == ["alpha"] && ["alpha"][..0] == [];
    assert Total(Seed, ["alpha"]) == 1;
  }
}
