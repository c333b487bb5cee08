/**
 * Builder: a `CarBuilder` holds a car and offers setters. Each setter changes
 * one field of the builder's own car and then returns a COPY of the builder,
 * so in a chain of calls only the first setter changes the original builder.
 */
module Builder {
  import Decimal
  import opened Wrappers

  /** `Engine::Type`; its enumerators print as 0, 1, 2 and 3. */
  datatype EngineType = Undefined | Slow | Medium | Fast

  function TypeValue(t: EngineType): (v: nat)
    ensures v < 4
  {
    match t
    case Undefined => 0
    case Slow => 1
    case Medium => 2
    case Fast => 3
  }

  /** The printed value tells the engine type apart. */
  lemma TypeValueInjective(s: EngineType, t: EngineType)
    ensures TypeValue(s) == TypeValue(t) <==> s == t
  {
  }

  datatype Engine = Engine(manufacturer: string, typ: EngineType)

  /** `Engine()`: no manufacturer, a slow engine. */
  function DefaultEngine(): (e: Engine)
    ensures e.manufacturer == "" && e.typ == Slow
  {
    Engine("", Slow)
  }

  /** `Engine(manufacturer, type = Undefined)`. */
  function NewEngine(manufacturer: string, typ: EngineType := Undefined): (e: Engine)
    ensures e.manufacturer == manufacturer && e.typ == typ
  {
    Engine(manufacturer, typ)
  }

  /** An `unsigned int` value. */
  newtype Uint32 = x: int | 0 <= x < 0x1_0000_0000

  datatype Car = Car(name: string, engine: Engine, owner: string, mileage: Uint32)

  /** `Car(name)`: the given name, the default engine, no owner, mileage 0. */
  function NewCar(name: string): (c: Car)
    ensures c.name == name && c.engine == DefaultEngine() && c.owner == "" && c.mileage == 0
  {
    Car(name, DefaultEngine(), "", 0)
  }

  /** `CarBuilder`; `car` is its private car. */
  class CarBuilder {
    var car: Car

    /** The builder's car is named "undefined" unless a name is given. */
    constructor (name: string := "undefined")
      ensures car == NewCar(name)
    {
      car := NewCar(name);
    }

    /** A builder holding a copy of the given car (the implicit copy constructor). */
    constructor Copy(car: Car)
      ensures this.car == car
    {
      this.car := car;
    }

    method SetName(name: string) returns (copy: CarBuilder)
      modifies this
      ensures car == old(car).(name := name)
      ensures fresh(copy) && copy.car == car
    {
      car := car.(name := name);
      copy := new CarBuilder.Copy(car);
    }

    method SetEngine(engine: Engine) returns (copy: CarBuilder)
      modifies this
      ensures car == old(car).(engine := engine)
      ensures fresh(copy) && copy.car == car
    {
      car := car.(engine := engine);
      copy := new CarBuilder.Copy(car);
    }

    method SetOwner(owner: string) returns (copy: CarBuilder)
      modifies this
      ensures car == old(car).(owner := owner)
      ensures fresh(copy) && copy.car == car
    {
      car := car.(owner := owner);
      copy := new CarBuilder.Copy(car);
    }

    method SetMileage(mileage: Uint32) returns (copy: CarBuilder)
      modifies this
      ensures car == old(car).(mileage := mileage)
      ensures fresh(copy) && copy.car == car
    {
      car := car.(mileage := mileage);
      copy := new CarBuilder.Copy(car);
    }

    /** `get_car`: a copy of the current car. */
    method GetCar() returns (c: Car)
      ensures c == car
    {
      c := car;
    }
  }

  /** `operator<<` on a car: one line with the four fields, the engine type as its number. */
  function CarText(car: Car): (text: string)
    ensures |text| > 6 + |car.name| && text[|text| - 1] == '\n'
    ensures text[..6] == "Name: " && text[6..6 + |car.name|] == car.name
  {
    "Name: " + car.name + "  |  " + "Engine: " + Decimal.NatToString(TypeValue(car.engine.typ)) + "  |  "
    + "Owner: " + car.owner + "  |  " + "Mileage:" + Decimal.NatToString(car.mileage as nat) + "\n"
  }

  /** The line ends with "Mileage:", the mileage's digits and a newline, so the mileage can be read back. */
  lemma MileageReadBack(car: Car)
    ensures var text, digits := CarText(car), Decimal.NatToString(car.mileage as nat);
            |text| >= |digits| + 9 &&
            text[|text| - |digits| - 9..|text| - |digits| - 1] == "Mileage:" &&
            text[|text| - 1] == '\n' &&
            Decimal.ParseNat(text[|text| - |digits| - 1..|text| - 1]) == Some(car.mileage as nat)
  {
    var digits := Decimal.NatToString(car.mileage as nat);
    var head := "Name: " + car.name + "  |  " + "Engine: " + Decimal.NatToString(TypeValue(car.engine.typ))
                + "  |  " + "Owner: " + car.owner + "  |  ";
    var text := CarText(car);
    assert text == head + "Mileage:" + digits + "\n";
    assert text[|text| - |digits| - 1..|text| - 1] == digits;
    assert text[|text| - |digits| - 9..|text| - |digits| - 1] == "Mileage:";
    Decimal.NatRoundTrip(car.mileage as nat);
  }

  /** The engine field prints its type as a single digit. */
  lemma EngineDigit(car: Car)
    ensures Decimal.NatToString(TypeValue(car.engine.typ)) == [Decimal.DigitChar(TypeValue(car.engine.typ))]
  {
  }

  /**
   * The demonstration: three chains on one builder. Only the first setter
   * of each chain reaches `car_builder`, so the third car keeps the fast
   * engine the first chain set.
   */
  method Client() returns (bmw: Car, mercedes: Car, kia: Car, lines: seq<string>)
    ensures bmw == Car("BMW", Engine("BMW", Fast), "Vladislav", 10000)
    ensures mercedes == Car("Mercedes", Engine("Mercedes", Medium), "Alex", 15000)
    ensures kia == Car("Kia", Engine("BMW", Fast), "Stan", 50000)
    ensures lines == ["Name: BMW  |  Engine: 3  |  Owner: Vladislav  |  Mileage:10000\n",
                      "Name: Mercedes  |  Engine: 2  |  Owner: Alex  |  Mileage:15000\n",
                      "Name: Kia  |  Engine: 3  |  Owner: Stan  |  Mileage:50000\n"]
  {
    var bmwEngine := NewEngine("BMW", Fast);
    var mercedesEngine := NewEngine("Mercedes", Medium);
    var carBuilder := new CarBuilder("BMW");

    var b := carBuilder.SetEngine(bmwEngine);
    b := b.SetMileage(10000);
    b := b.SetOwner("Vladislav");
    bmw := b.GetCar();

    b := carBuilder.SetName("Mercedes");
    b := b.SetOwner("Alex");
    b := b.SetMileage(15000);
    b := b.SetEngine(mercedesEngine);
    mercedes := b.GetCar();

    b := carBuilder.SetName("Kia");
    b := b.SetOwner("Stan");
    b := b.SetMileage(50000);
    kia := b.GetCar();
    lines := [CarText(bmw), CarText(mercedes), CarText(kia)];
    DemoLines(lines, bmw, mercedes, kia);
  }

  /** The decimal text of the numbers on the third car's line. */
  lemma KiaNumbers()
    ensures Decimal.NatToString(TypeValue(Fast)) == "3"
    ensures Decimal.NatToString(50000) == "50000"
  {
    assert Decimal.NatToString(5) == "5";
    assert Decimal.NatToString(50) == "50";
    assert Decimal.NatToString(500) == "500";
    assert Decimal.NatToString(5000) == "5000";
  }

  /** The decimal text of the numbers on the first two cars' lines. */
  lemma BmwAndMercedesNumbers()
    ensures Decimal.NatToString(TypeValue(Fast)) == "3"
    ensures Decimal.NatToString(TypeValue(Medium)) == "2"
    ensures Decimal.NatToString(10000) == "10000"
    ensures Decimal.NatToString(15000) == "15000"
  {
    assert Decimal.NatToString(1) == "1";
    assert Decimal.NatToString(10) == "10";
    assert Decimal.NatToString(100) == "100";
    assert Decimal.NatToString(1000) == "1000";
    assert Decimal.NatToString(15) == "15";
    assert Decimal.NatToString(150) == "150";
    assert Decimal.NatToString(1500) == "1500";
  }

  /** What the demonstration prints for the first car. */
  lemma BmwText()
    ensures CarText(Car("BMW", Engine("BMW", Fast), "Vladislav", 10000)) ==
            "Name: BMW  |  Engine: 3  |  Owner: Vladislav  |  Mileage:10000\n"
  {
    BmwAndMercedesNumbers();
    assert "Name: " + "BMW" + "  |  " == "Name: BMW  |  ";
    assert "Name: BMW  |  " + "Engine: " + "3" == "Name: BMW  |  Engine: 3";
    assert "Name: BMW  |  Engine: 3" + "  |  " + "Owner: " == "Name: BMW  |  Engine: 3  |  Owner: ";
    assert "Name: BMW  |  Engine: 3  |  Owner: " + "Vladislav" + "  |  " == "Name: BMW  |  Engine: 3  |  Owner: Vladislav  |  ";
    assert "Name: BMW  |  Engine: 3  |  Owner: Vladislav  |  " + "Mileage:" == "Name: BMW  |  Engine: 3  |  Owner: Vladislav  |  Mileage:";
    assert "Name: BMW  |  Engine: 3  |  Owner: Vladislav  |  Mileage:" + "10000" + "\n"
        == "Name: BMW  |  Engine: 3  |  Owner: Vladislav  |  Mileage:10000\n";
  }

  /** What the demonstration prints for the second car. */
  lemma MercedesText()
    ensures CarText(Car("Mercedes", Engine("Mercedes", Medium), "Alex", 15000)) ==
            "Name: Mercedes  |  Engine: 2  |  Owner: Alex  |  Mileage:15000\n"
  {
    BmwAndMercedesNumbers();
    assert "Name: " + "Mercedes" + "  |  " == "Name: Mercedes  |  ";
    assert "Name: Mercedes  |  " + "Engine: " + "2" == "Name: Mercedes  |  Engine: 2";
    assert "Name: Mercedes  |  Engine: 2" + "  |  " + "Owner: " == "Name: Mercedes  |  Engine: 2  |  Owner: ";
    assert "Name: Mercedes  |  Engine: 2  |  Owner: " + "Alex" + "  |  " == "Name: Mercedes  |  Engine: 2  |  Owner: Alex  |  ";
    assert "Name: Mercedes  |  Engine: 2  |  Owner: Alex  |  " + "Mileage:" == "Name: Mercedes  |  Engine: 2  |  Owner: Alex  |  Mileage:";
    assert "Name: Mercedes  |  Engine: 2  |  Owner: Alex  |  Mileage:" + "15000" + "\n"
        == "Name: Mercedes  |  Engine: 2  |  Owner: Alex  |  Mileage:15000\n";
  }

  /** What the demonstration prints for the third car: engine 3, inherited from the first chain. */
  lemma KiaText()
    ensures CarText(Car("Kia", Engine("BMW", Fast), "Stan", 50000)) ==
            "Name: Kia  |  Engine: 3  |  Owner: Stan  |  Mileage:50000\n"
  {
    KiaNumbers();
    assert "Name: " + "Kia" + "  |  " == "Name: Kia  |  ";
    assert "Name: Kia  |  " + "Engine: " + "3" == "Name: Kia  |  Engine: 3";
    assert "Name: Kia  |  Engine: 3" + "  |  " + "Owner: " == "Name: Kia  |  Engine: 3  |  Owner: ";
    assert "Name: Kia  |  Engine: 3  |  Owner: " + "Stan" + "  |  " == "Name: Kia  |  Engine: 3  |  Owner: Stan  |  ";
    assert "Name: Kia  |  Engine: 3  |  Owner: Stan  |  " + "Mileage:" == "Name: Kia  |  Engine: 3  |  Owner: Stan  |  Mileage:";
    assert "Name: Kia  |  Engine: 3  |  Owner: Stan  |  Mileage:" + "50000" + "\n"
        == "Name: Kia  |  Engine: 3  |  Owner: Stan  |  Mileage:50000\n";
  }

  /** The three lines the demonstration prints, given the three cars it builds. */
  lemma DemoLines(lines: seq<string>, bmw: Car, mercedes: Car, kia: Car)
    requires bmw == Car("BMW", Engine("BMW", Fast), "Vladislav", 10000)
    requires mercedes == Car("Mercedes", Engine("Mercedes", Medium), "Alex", 15000)
    requires kia == Car("Kia", Engine("BMW", Fast), "Stan", 50000)
    requires lines == [CarText(bmw), CarText(mercedes), CarText(kia)]
    ensures lines == ["Name: BMW  |  Engine: 3  |  Owner: Vladislav  |  Mileage:10000\n",
                      "Name: Mercedes  |  Engine: 2  |  Owner: Alex  |  Mileage:15000\n",
                      "Name: Kia  |  Engine: 3  |  Owner: Stan  |  Mileage:50000\n"]
  {
    BmwText();
    MercedesText();
    KiaText();
  }
}
