/**
 * The `Car` hierarchy of the object-oriented tutorial. The subclasses
 * `ElectricCar`, `HybridCar` and `SmartElectricCar` differ from `Car` only in
 * the extra attributes they keep and the methods they override, so the
 * concrete class is the datatype `Kind` carried by every car. The class
 * variable `Car.total_car` lives in a `Registry` object that every
 * constructor updates.
 */
module Cars {
  import opened Wrappers
  import opened Text

  /** The concrete class of a car, with the attributes its constructor adds. */
  datatype Kind =
    | Petrol
    | Electric(batterySize: string)
    | Hybrid(batterySize: string, engineSize: string)
    | SmartElectric(batterySize: string)

  /** `fuel_type()` as each class overrides it. */
  function FuelType(kind: Kind): (r: string)
    // each answer names exactly one class
    ensures r == "Petrol or Diesel" <==> kind.Petrol?
    ensures r == "Electric Charge" <==> kind.Electric?
    ensures r == "Hybrid (Electric + Petrol)" <==> kind.Hybrid?
    ensures r == "Smart Electric Charge" <==> kind.SmartElectric?
  {
    match kind
    case Petrol => "Petrol or Diesel"
    case Electric(_) => "Electric Charge"
    case Hybrid(_, _) => "Hybrid (Electric + Petrol)"
    case SmartElectric(_) => "Smart Electric Charge"
  }

  /**
   * The fuel type depends on the class alone, never on the attributes, and
   * each class answers differently.
   */
  lemma FuelTypeIsPerClass(k1: Kind, k2: Kind)
    ensures FuelType(k1) == FuelType(k2) <==>
              (k1.Petrol? && k2.Petrol?) || (k1.Electric? && k2.Electric?)
              || (k1.Hybrid? && k2.Hybrid?) || (k1.SmartElectric? && k2.SmartElectric?)
  {
    assert FuelType(Electric(""))[0] != FuelType(SmartElectric(""))[0];
    assert FuelType(Petrol)[0] != FuelType(Hybrid("", ""))[0];
    assert FuelType(Electric(""))[0] != FuelType(Petrol)[0];
    assert FuelType(Electric(""))[0] != FuelType(Hybrid("", ""))[0];
    assert FuelType(SmartElectric(""))[0] != FuelType(Petrol)[0];
    assert FuelType(SmartElectric(""))[0] != FuelType(Hybrid("", ""))[0];
  }

  /** `Car.general_description()` */
  const GeneralDescription: string := "Cars are means of Transport"

  /** Raised by the setters. */
  datatype ValueError = ValueError(message: string)

  /** The class variable `Car.total_car`. */
  class Registry {
    var totalCar: nat

    constructor ()
      ensures totalCar == 0
    {
      totalCar := 0;
    }
  }

  class Car {
    const kind: Kind
    var brand: string
    var model: string

    /**
     * `Car(brand, model)` and the subclass constructors that call it: the
     * values are stored as given, without the setters' check, and the count
     * of cars goes up by one.
     */
    constructor (registry: Registry, brand: string, model: string, kind: Kind)
      modifies registry
      ensures this.brand == brand && this.model == model && this.kind == kind
      ensures registry.totalCar == old(registry.totalCar) + 1
    {
      this.brand := brand;
      this.model := model;
      this.kind := kind;
      registry.totalCar := registry.totalCar + 1;
    }

    /** `full_name()`: the brand, one space, the model. */
    function FullName(): (r: string)
      reads this
      ensures |r| == |brand| + 1 + |model|
      ensures r[..|brand|] == brand && r[|brand|] == ' ' && r[|brand| + 1..] == model
    {
      brand + " " + model
    }

    /** `get_brand()`: the brand with an exclamation mark; the `brand` property is the field itself. */
    function GetBrand(): (r: string)
      reads this
      ensures |r| == |brand| + 1 && r[..|brand|] == brand && r[|brand|] == '!'
    {
      brand + "!"
    }

    /** The `model` setter: a non-empty value is stored; `None` or "" raise and change nothing. */
    method SetModel(newModel: Option<string>) returns (r: Result<(), ValueError>)
      modifies this
      ensures r.Success? <==> newModel.Some? && |newModel.value| > 0
      ensures r.Success? ==> model == newModel.value
      ensures r.Failure? ==> r.error == ValueError("Model cannot be empty") && model == old(model)
      ensures brand == old(brand)
    {
      if newModel.Some? && |newModel.value| > 0 {
        model := newModel.value;
        return Success(());
      }
      return Failure(ValueError("Model cannot be empty"));
    }

    /** The `brand` setter: a non-empty value is stored; `None` or "" raise and change nothing. */
    method SetBrand(newBrand: Option<string>) returns (r: Result<(), ValueError>)
      modifies this
      ensures r.Success? <==> newBrand.Some? && |newBrand.value| > 0
      ensures r.Success? ==> brand == newBrand.value
      ensures r.Failure? ==> r.error == ValueError("Brand cannot be empty") && brand == old(brand)
      ensures model == old(model)
    {
      if newBrand.Some? && |newBrand.value| > 0 {
        brand := newBrand.value;
        return Success(());
      }
      return Failure(ValueError("Brand cannot be empty"));
    }

    /** `ElectricCar.charging_time()`; only electric cars have it. */
    function ChargingTime(): string
      requires kind.Electric?
    {
      "Charging time for " + kind.batterySize + " battery: 8 hours"
    }

    /** `SmartElectricCar.all_features()`: the three mixin answers and its own fuel type. */
    function AllFeatures(): (r: seq<string>)
      requires kind.SmartElectric?
      ensures r == ["This is Battery", "This is Engine", "GPS Navigation enabled", "Smart Electric Charge"]
    {
      ["This is Battery", "This is Engine", "GPS Navigation enabled", FuelType(kind)]
    }
  }

  /**
   * The full name of a car whose brand and model are single words splits back
   * into the brand and the model.
   */
  lemma FullNameSplitsIntoBrandAndModel(car: Car)
    requires IsWord(car.brand) && IsWord(car.model)
    ensures Words(car.FullName()) == [car.brand, car.model]
  {
    SplitJoin([car.brand, car.model]);
    assert JoinWords([car.brand, car.model]) == car.FullName() by {
      assert JoinWords([car.model]) == car.model;
    }
  }

  /**
   * The tutorial's run: five cars of the four classes give a count of 5, one
   * more gives 6, and the model update of the Nexon is kept while the empty
   * model that follows is refused.
   */
  method CarsScenario() returns (countBefore: nat, countAfter: nat, nexonModel: string, refused: Result<(), ValueError>)
    ensures countBefore == 5 && countAfter == 6
    ensures nexonModel == "Nexon EV"
    ensures refused == Failure(ValueError("Model cannot be empty"))
  {
    var registry := new Registry();
    var regularCar := new Car(registry, "Toyota", "Camry", Petrol);
    var myTesla := new Car(registry, "Tesla", "Model S", Electric("85kWh"));
    var civic := new Car(registry, "Honda", "Civic", Petrol);
    var model3 := new Car(registry, "Tesla", "Model 3", Electric("75kWh"));
    var prius := new Car(registry, "Toyota", "Prius", Hybrid("10kWh", "1.8L"));
    countBefore := registry.totalCar;
    var anotherCar := new Car(registry, "BMW", "X5", Petrol);
    countAfter := registry.totalCar;
    var nexon := new Car(registry, "Tata", "Nexon", Petrol);
    var updated := nexon.SetModel(Some("Nexon EV"));
    refused := nexon.SetModel(Some(""));
    nexonModel := nexon.model;
  }

  /**
   * The constructor accepts an empty brand, which the setter would refuse:
   * the refused update leaves the empty brand in place.
   */
  method EmptyBrandScenario() returns (brand: string, refused: Result<(), ValueError>)
    ensures brand == "" && refused.Failure?
  {
    var registry := new Registry();
    var car := new Car(registry, "", "Camry", Petrol);
    refused := car.SetBrand(Some(""));
    brand := car.brand;
  }
}
