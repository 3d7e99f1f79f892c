/**
 * The creational-patterns page: Factory Method, Abstract Factory, Prototype,
 * Builder and Singleton. As on the other pages, a `print` is an `Event` and a
 * scenario method returns the trace of the section's script.
 */
module Creational {

  import opened Optional

  /** A plane's wing span: a floating-point value the model only copies, never inspects. */
  type Wingspan(==)

  datatype Event =
    // the three Factory Method products drive
    | CarDriven
    | TrackDriven
    | BusDriven
    // the two Abstract Factory products drive
    | BMWDriving
    | MercedesDriving
    // a plane or a house is described
    | PlanePrinted(plane: Plane)
    | HousePrinted(walls: Option<string>, windows: Option<string>)

  // --------------------------------------------------------- Factory Method

  datatype Vehicle = BMWx5 | KAMAZ | MercedesTourismo

  /** The concrete classes conforming to `Drivable`. */
  datatype Drivable = Car | Track | Bus

  function Drive(product: Drivable): Event
  {
    match product
    case Car => CarDriven
    case Track => TrackDriven
    case Bus => BusDriven
  }

  /**
   * `VehicleFactory.drive(for:)`: every vehicle has a product, each vehicle
   * its own (BMWx5 a car, KAMAZ a track, MercedesTourismo a bus).
   */
  function VehicleFactoryDrive(car: Vehicle): (product: Drivable)
    ensures product == Car <==> car == BMWx5
    ensures product == Track <==> car == KAMAZ
    ensures product == Bus <==> car == MercedesTourismo
  {
    match car
    case BMWx5 => Car
    case KAMAZ => Track
    case MercedesTourismo => Bus
  }

  /** Distinct vehicles give products that drive differently. */
  lemma VehicleFactoryIsInjective(v: Vehicle, w: Vehicle)
    requires v != w
    ensures Drive(VehicleFactoryDrive(v)) != Drive(VehicleFactoryDrive(w))
  {
  }

  /** The script of the Factory Method section: drive each vehicle's product. */
  method FactoryMethodScenario() returns (trace: seq<Event>)
    ensures trace == [CarDriven, TrackDriven, BusDriven]
  {
    trace := [Drive(VehicleFactoryDrive(BMWx5))];
    trace := trace + [Drive(VehicleFactoryDrive(KAMAZ))];
    trace := trace + [Drive(VehicleFactoryDrive(MercedesTourismo))];
  }

  // ------------------------------------------------------- Abstract Factory

  datatype Brand = BMW | Mercedes

  /** The concrete classes conforming to `VehicleDrivable`. */
  datatype VehicleDrivable = BMWCars | MercedesCars

  function BrandOf(car: VehicleDrivable): Brand
  {
    match car
    case BMWCars => BMW
    case MercedesCars => Mercedes
  }

  function DriveCar(car: VehicleDrivable): Event
  {
    match car
    case BMWCars => BMWDriving
    case MercedesCars => MercedesDriving
  }

  datatype CarsFactoryType = bmw | mercedes

  /** The three types conforming to `CarAbstractFactory`. */
  datatype CarAbstractFactory =
    | BMWFactory
    | MercedesFactory
    | FactoryType(kind: CarsFactoryType)

  /** The family a factory belongs to. */
  function FactoryBrand(factory: CarAbstractFactory): Brand
  {
    match factory
    case BMWFactory => BMW
    case MercedesFactory => Mercedes
    case FactoryType(kind) => if kind == bmw then BMW else Mercedes
  }

  /** The concrete factory a `CarsFactoryType` case hands the work to. */
  function ConcreteFactory(kind: CarsFactoryType): (factory: CarAbstractFactory)
    ensures !factory.FactoryType?
    ensures FactoryBrand(factory) == FactoryBrand(FactoryType(kind))
  {
    if kind == bmw then BMWFactory else MercedesFactory
  }

  /** A factory only ever makes a car of its own family. */
  function CreateCar(factory: CarAbstractFactory): (car: VehicleDrivable)
    decreases if factory.FactoryType? then 1 else 0
    ensures BrandOf(car) == FactoryBrand(factory)
  {
    match factory
    case BMWFactory => BMWCars
    case MercedesFactory => MercedesCars
    case FactoryType(kind) => CreateCar(ConcreteFactory(kind))
  }

  /** Each `CarsFactoryType` case makes what its concrete factory makes, which is never the other family's car. */
  lemma FactoryTypeAgreesWithConcrete(kind: CarsFactoryType)
    ensures CreateCar(FactoryType(kind)) == CreateCar(ConcreteFactory(kind))
    ensures kind == bmw ==> CreateCar(FactoryType(kind)) == BMWCars
    ensures kind == mercedes ==> CreateCar(FactoryType(kind)) == MercedesCars
  {
  }

  /** The script of the Abstract Factory section. */
  method AbstractFactoryScenario() returns (trace: seq<Event>)
    ensures trace == [BMWDriving, MercedesDriving]
  {
    trace := [DriveCar(CreateCar(FactoryType(bmw)))];
    trace := trace + [DriveCar(CreateCar(FactoryType(mercedes)))];
  }

  // -------------------------------------------------------------- Prototype

  /** A struct, so a value: a copy never shares state with its source. */
  datatype Plane = Plane(name: string, wingspan: Wingspan)

  /** A clone has the prototype's name and wing span. */
  function Clone(prototype: Plane): (copy: Plane)
    ensures copy.name == prototype.name && copy.wingspan == prototype.wingspan
  {
    Plane(prototype.name, prototype.wingspan)
  }

  /**
   * `name += suffix` on a clone: the clone is renamed and keeps its wing span. The
   * prototype is untouched because `Plane` is a value, so the clone shares nothing with it.
   */
  lemma RenamedCloneIsIndependent(prototype: Plane, suffix: string)
    ensures Clone(prototype).(name := Clone(prototype).name + suffix).name == prototype.name + suffix
    ensures Clone(prototype).(name := Clone(prototype).name + suffix).wingspan == prototype.wingspan
  {
  }

  /**
   * The script of the Prototype section: three clones of the IL-96, each
   * renamed after cloning; the prototype keeps its name throughout.
   */
  method PrototypeScenario(wingspan: Wingspan) returns (prototype: Plane, trace: seq<Event>)
    ensures prototype == Plane("IL-96", wingspan)
    ensures trace == [PlanePrinted(Plane("IL-96-400", wingspan)),
                      PlanePrinted(Plane("IL-96-300", wingspan)),
                      PlanePrinted(Plane("IL-96MD", wingspan))]
  {
    prototype := Plane("IL-96", wingspan);

    var il96_400 := Clone(prototype);
    il96_400 := il96_400.(name := il96_400.name + "-400");
    assert il96_400.name == "IL-96-400";
    trace := [PlanePrinted(il96_400)];

    var il96_300 := Clone(prototype);
    il96_300 := il96_300.(name := il96_300.name + "-300");
    assert il96_300.name == "IL-96-300";
    trace := trace + [PlanePrinted(il96_300)];

    var il96_MD := Clone(prototype);
    il96_MD := il96_MD.(name := il96_MD.name + "MD");
    assert il96_MD.name == "IL-96MD";
    trace := trace + [PlanePrinted(il96_MD)];
  }

  // ---------------------------------------------------------------- Builder

  /**
   * Builds walls. Its initialiser hands the new builder to a closure; the
   * closure is given here by what it does to the one stored property.
   */
  class WallBuiler {
    var walls: Option<string>

    /** The closure runs once, on the builder whose `walls` is still nil. */
    constructor (wallBuildClosure: Option<string> -> Option<string>)
      ensures walls == wallBuildClosure(None)
    {
      walls := None;
      new;
      walls := wallBuildClosure(walls);
    }
  }

  class WindowsBuiler {
    var windows: Option<string>

    /** The closure runs once, on the builder whose `windows` is still nil. */
    constructor (windowsBuildClosure: Option<string> -> Option<string>)
      ensures windows == windowsBuildClosure(None)
    {
      windows := None;
      new;
      windows := windowsBuildClosure(windows);
    }
  }

  class HouseBuilder {
    var walls: Option<string>
    var windows: Option<string>

    /**
     * The failable initialiser, which has no path that fails. A part is taken
     * from its builder when the builder is there and has one, and is nil otherwise.
     */
    constructor (wallBuilder: WallBuiler?, windowsBuiler: WindowsBuiler?)
      ensures walls == if wallBuilder == null then None else wallBuilder.walls
      ensures windows == if windowsBuiler == null then None else windowsBuiler.windows
    {
      walls := None;
      windows := None;
      if wallBuilder != null && wallBuilder.walls.Some? {
        walls := Some(wallBuilder.walls.value);
      }
      if windowsBuiler != null && windowsBuiler.windows.Some? {
        windows := Some(windowsBuiler.windows.value);
      }
    }
  }

  /** The script of the Builder section: both builders set their part, so the house has both. */
  method BuilderScenario(wallsText: string, windowsText: string) returns (trace: seq<Event>)
    ensures trace == [HousePrinted(Some(wallsText), Some(windowsText))]
  {
    var wallbuilder := new WallBuiler(_ => Some(wallsText));
    var windowsBilder := new WindowsBuiler(_ => Some(windowsText));
    var house := new HouseBuilder(wallbuilder, windowsBilder);
    trace := [HousePrinted(house.walls, house.windows)];
  }

  // -------------------------------------------------------------- Singleton

  /** The singleton; its initialiser is private and has nothing to do. */
  class Singletone {
    constructor ()
    {
    }
  }

  /** The storage behind `static let shared`: empty until first read. */
  class SingletoneStatics {
    var shared: Singletone?

    constructor ()
      ensures shared == null
    {
      shared := null;
    }

    /** Reading `shared`: the first read creates the instance, every later read returns that same one. */
    method Shared() returns (instance: Singletone)
      modifies this
      ensures old(shared) != null ==> instance == old(shared)
      ensures old(shared) == null ==> fresh(instance)
      ensures shared == instance
    {
      if shared == null {
        shared := new Singletone();
      }
      instance := shared;
    }
  }

  /** Any two reads of `shared` yield one and the same instance. */
  method SharedTwice(statics: SingletoneStatics) returns (first: Singletone, second: Singletone)
    modifies statics
    ensures first == second
    ensures statics.shared == first
  {
    first := statics.Shared();
    second := statics.Shared();
  }
}
