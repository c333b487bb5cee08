/**
 * Flyweight: car types are shared through a table keyed by
 * model + "_" + manufacturer; each car keeps only its owner and a reference
 * (here: the key) to the shared type.
 */
module Flyweight {

  datatype CarClass = Comfort | Buisness | Premium | Luxury

  /** The shared state of a car. */
  datatype CarType = CarType(model: string, manufacturer: string, carClass: CarClass,
                             isoType: char, maxSpeed: int)

  /** `CarType` built with every constructor argument left at its default. */
  function DefaultCarType(): (t: CarType)
    ensures t.model == "" && t.manufacturer == "" && t.carClass == Comfort
    ensures t.isoType == 'A' && t.maxSpeed == 220
  {
    CarType("", "", Comfort, 'A', 220)
  }

  /** `CarType(model, manufacturer, car_class)` with the last two arguments at their defaults. */
  function NewCarType(model: string, manufacturer: string, carClass: CarClass): (t: CarType)
    ensures t.model == model && t.manufacturer == manufacturer && t.carClass == carClass
    ensures t.isoType == 'A' && t.maxSpeed == 220
  {
    CarType(model, manufacturer, carClass, 'A', 220)
  }

  /** `FlyweightFactory::hash_car_type`. */
  function HashCarType(t: CarType): (key: string)
    ensures |key| == |t.model| + 1 + |t.manufacturer|
    ensures key[..|t.model|] == t.model && key[|t.model|] == '_' && key[|t.model| + 1..] == t.manufacturer
  {
    t.model + "_" + t.manufacturer
  }

  /** Only model and manufacturer decide the key. */
  lemma KeyIgnoresOtherFields(t: CarType, u: CarType)
    requires t.model == u.model && t.manufacturer == u.manufacturer
    ensures HashCarType(t) == HashCarType(u)
  {
  }

  /** The key does not always tell model and manufacturer apart: an underscore may move across. */
  lemma KeyCanCollide()
    ensures HashCarType(NewCarType("A_B", "C", Comfort)) == HashCarType(NewCarType("A", "B_C", Comfort))
  {
  }

  /** The table the constructor builds: each type stored under its key, later ones overwriting. */
  function Table(types: seq<CarType>): (table: map<string, CarType>)
    decreases |types|
  {
    if types == [] then map[]
    else Table(types[..|types| - 1])[HashCarType(types[|types| - 1]) := types[|types| - 1]]
  }

  /** The keys of the built table are exactly the keys of the initial types. */
  lemma {:induction false} TableKeys(types: seq<CarType>)
    ensures Table(types).Keys == set t | t in types :: HashCarType(t)
    decreases |types|
  {
    if types != [] {
      var init := types[..|types| - 1];
      TableKeys(init);
      assert types == init + [types[|types| - 1]];
    }
  }

  /** Under each key the table holds the last initial type with that key. */
  lemma {:induction false} TableHoldsLast(types: seq<CarType>, i: nat)
    requires i < |types|
    requires forall j :: i < j < |types| ==> HashCarType(types[j]) != HashCarType(types[i])
    ensures HashCarType(types[i]) in Table(types)
    ensures Table(types)[HashCarType(types[i])] == types[i]
    decreases |types|
  {
    if i < |types| - 1 {
      TableHoldsLast(types[..|types| - 1], i);
    }
  }

  /** `FlyweightFactory`; `table` is `_hash_table`, each `Flyweight` holding one `CarType`. */
  class FlyweightFactory {
    var table: map<string, CarType>

    constructor (types: seq<CarType>)
      ensures table == Table(types)
    {
      table := map[];
      new;
      var i := 0;
      while i < |types|
        invariant 0 <= i <= |types|
        invariant table == Table(types[..i])
      {
        assert types[..i + 1][..i] == types[..i];
        table := table[HashCarType(types[i]) := types[i]];
        i := i + 1;
      }
      assert types[..i] == types;
    }

    /**
     * `get_flyweight`: `operator[]` returns the stored entry, or inserts a
     * default-constructed one (not the requested type) when the key is absent.
     */
    method GetFlyweight(t: CarType) returns (entry: CarType)
      modifies this
      ensures HashCarType(t) in table && entry == table[HashCarType(t)]
      ensures HashCarType(t) in old(table) ==> table == old(table)
      ensures HashCarType(t) !in old(table) ==>
                table == old(table)[HashCarType(t) := DefaultCarType()] && |table| == |old(table)| + 1
    {
      var key := HashCarType(t);
      if key !in table {
        table := table[key := DefaultCarType()];
      }
      entry := table[key];
    }
  }

  /** A car: its own owner and the key of its shared type. */
  datatype Car = Car(owner: string, key: string)

  /** `operator<<` on a car: two lines, owner then manufacturer and model. */
  function CarText(car: Car, table: map<string, CarType>): (text: string)
    requires car.key in table
    ensures |text| == 15 + |car.owner| + |table[car.key].manufacturer| + |table[car.key].model|
    ensures text[..7] == "Owner: " && text[7..7 + |car.owner|] == car.owner
    ensures text[|text| - |table[car.key].model|..] == table[car.key].model
  {
    "Owner: " + car.owner + "\n" + "Info: " + table[car.key].manufacturer + " " + table[car.key].model
  }

  /** The owner line stops at the first newline when the owner has none. */
  lemma CarTextOwnerLine(car: Car, table: map<string, CarType>)
    requires car.key in table && '\n' !in car.owner
    ensures var text := CarText(car, table);
            var k := 7 + |car.owner|;
            k < |text| && text[k] == '\n' && text[7..k] == car.owner &&
            (forall j :: 0 <= j < k ==> text[j] != '\n') &&
            text[k + 1..] == "Info: " + table[car.key].manufacturer + " " + table[car.key].model
  {
    var text := CarText(car, table);
    var k := 7 + |car.owner|;
    assert text == "Owner: " + car.owner + "\n" +
                   ("Info: " + table[car.key].manufacturer + " " + table[car.key].model);
    assert text[..7] == "Owner: ";
    assert text[7..k] == car.owner;
  }

  /** The three car types of the demonstration. */
  function DemoTypes(): seq<CarType>
  {
    [NewCarType("S-Class", "Mercedes-Benz", Premium),
     NewCarType("E-Class", "Mercedes-Benz", Buisness),
     NewCarType("A-Class", "Mercedes-Benz", Comfort)]
  }

  /** A key starts with the first letter of a non-empty model name. */
  lemma KeyStartsWithModel(t: CarType)
    requires |t.model| > 0
    ensures |HashCarType(t)| > 0 && HashCarType(t)[0] == t.model[0]
  {
  }

  /** With pairwise distinct keys, the table holds every type and one entry per type. */
  lemma {:induction false} DistinctKeysTable(types: seq<CarType>)
    requires forall i, j :: 0 <= i < j < |types| ==> HashCarType(types[i]) != HashCarType(types[j])
    ensures |Table(types)| == |types|
    ensures forall i :: 0 <= i < |types| ==>
              HashCarType(types[i]) in Table(types) && Table(types)[HashCarType(types[i])] == types[i]
    decreases |types|
  {
    if types != [] {
      var init, last := types[..|types| - 1], types[|types| - 1];
      DistinctKeysTable(init);
      TableKeys(init);
      assert HashCarType(last) !in Table(init);
    }
  }

  /** The demonstration's initial table holds its three types under three distinct keys. */
  lemma DemoTable()
    ensures forall i :: 0 <= i < 3 ==>
              HashCarType(DemoTypes()[i]) in Table(DemoTypes()) &&
              Table(DemoTypes())[HashCarType(DemoTypes()[i])] == DemoTypes()[i]
    ensures |Table(DemoTypes())| == 3
  {
    var ts := DemoTypes();
    KeyStartsWithModel(ts[0]);
    KeyStartsWithModel(ts[1]);
    KeyStartsWithModel(ts[2]);
    DistinctKeysTable(ts);
  }

  /** The three cars each round of the demonstration adds. */
  function DemoRound(): seq<Car>
  {
    [Car("John", HashCarType(DemoTypes()[0])), Car("Alex", HashCarType(DemoTypes()[1])),
     Car("Rick", HashCarType(DemoTypes()[2]))]
  }

  /** What the demonstration prints for the first car of each round. */
  lemma DemoFirstCarText()
    ensures DemoRound()[0].key in Table(DemoTypes())
    ensures CarText(DemoRound()[0], Table(DemoTypes())) == "Owner: John\nInfo: Mercedes-Benz S-Class"
  {
    DemoTable();
    var premium := DemoTypes()[0];
    assert Table(DemoTypes())[DemoRound()[0].key] == premium;
    JohnsCarText(premium.manufacturer, premium.model);
  }

  lemma JohnsCarText(manufacturer: string, model: string)
    requires manufacturer == "Mercedes-Benz" && model == "S-Class"
    ensures "Owner: " + "John" + "\n" + "Info: " + manufacturer + " " + model ==
            "Owner: John\nInfo: Mercedes-Benz S-Class"
  {
    assert "Owner: " + "John" + "\n" + "Info: " == "Owner: John\nInfo: ";
    assert manufacturer + " " + model == "Mercedes-Benz S-Class";
  }

  /** Appending one more round keeps car j equal to the (j mod 3)-th car of a round. */
  lemma AppendRound(cars: seq<Car>)
    requires |cars| % 3 == 0
    requires forall j :: 0 <= j < |cars| ==> cars[j] == DemoRound()[j % 3]
    ensures forall j :: 0 <= j < |cars| + 3 ==> (cars + DemoRound())[j] == DemoRound()[j % 3]
  {
    forall j | |cars| <= j < |cars| + 3
      ensures (cars + DemoRound())[j] == DemoRound()[j % 3]
    {
      assert j % 3 == j - |cars|;
    }
  }

  /** The demonstration: three types, then 100 rounds of three cars; the table stays at 3 entries. */
  method Client() returns (cars: seq<Car>, table: map<string, CarType>)
    ensures |cars| == 300 && |table| == 3
    ensures forall c :: c in cars ==> c.key in table
    ensures forall j :: 0 <= j < 300 ==> cars[j] == DemoRound()[j % 3]
    ensures table == Table(DemoTypes())
  {
    var types := DemoTypes();
    var factory := new FlyweightFactory(types);
    DemoTable();
    ghost var initial := factory.table;
    cars := [];
    var i := 0;
    while i < 100
      invariant 0 <= i <= 100
      invariant factory.table == initial
      invariant |cars| == 3 * i
      invariant forall c :: c in cars ==> c in DemoRound()
      invariant forall j :: 0 <= j < |cars| ==> cars[j] == DemoRound()[j % 3]
    {
      var premium := factory.GetFlyweight(types[0]);
      var buisness := factory.GetFlyweight(types[1]);
      var comfort := factory.GetFlyweight(types[2]);
      assert premium == types[0] && buisness == types[1] && comfort == types[2];
      var round := [Car("John", HashCarType(types[0])), Car("Alex", HashCarType(types[1])),
                    Car("Rick", HashCarType(types[2]))];
      assert round == DemoRound();
      AppendRound(cars);
      cars := cars + round;
      i := i + 1;
    }
    table := factory.table;
  }
}
