/**
 * The structural-patterns page: Adapter and Bridge. A `print` is an `Event`;
 * every operation here only forwards, so each returns the events printed by
 * the calls it forwards to.
 */
module Structural {

  datatype Event =
    // Adapter: the two ways of travelling
    | DrivingOnRoad
    | CamelMovingOnSand
    // Bridge: the implementors' primitive operations
    | CppCompiled
    | BinaryLaunched
    | SwiftCompiled
    | IpaLaunched
    // Bridge: the refined abstractions' own operation
    | FeeReceived
    | SalaryReceived

  // ---------------------------------------------------------------- Adapter

  /** The adaptee, with its own incompatible operation. */
  datatype Camel = Camel

  function CamelMove(camel: Camel): Event { CamelMovingOnSand }

  /** The types conforming to the target `Driveable`: a car, and the adapter that wraps a camel. */
  datatype Driveable = Auto | CamelToTransportAdapter(camel: Camel)

  /** Driving an `Auto` is its own action; driving the adapter is exactly one move of its camel. */
  function Drive(transport: Driveable): (t: seq<Event>)
    ensures |t| == 1
    ensures t == [DrivingOnRoad] <==> transport == Auto
    ensures transport.CamelToTransportAdapter? ==> t == [CamelMove(transport.camel)]
  {
    match transport
    case Auto => [DrivingOnRoad]
    case CamelToTransportAdapter(camel) => [CamelMove(camel)]
  }

  /** The client. */
  datatype Man = Man

  /** Travelling drives the transport once and does nothing else. */
  function Travel(man: Man, transport: Driveable): (t: seq<Event>)
    ensures |t| == 1
    ensures transport == Auto ==> t == [DrivingOnRoad]
    ensures transport.CamelToTransportAdapter? ==> t == [CamelMove(transport.camel)]
  {
    Drive(transport)
  }

  /** Travelling by car drives on the road; travelling by the adapted camel moves on sand. */
  lemma TravelDistinguishesTransport(man: Man, camel: Camel)
    ensures Travel(man, Auto) == [DrivingOnRoad]
    ensures Travel(man, CamelToTransportAdapter(camel)) == [CamelMovingOnSand]
    ensures Travel(man, Auto) != Travel(man, CamelToTransportAdapter(camel))
  {
  }

  /** The script of the Adapter section: travel by car, then by the adapted camel. */
  method AdapterScenario() returns (trace: seq<Event>)
    ensures trace == [DrivingOnRoad, CamelMovingOnSand]
  {
    var man := Man;
    var auto := Auto;
    trace := Travel(man, auto);
    var camel := Camel;
    var camelAdapter := CamelToTransportAdapter(camel);
    trace := trace + Travel(man, camelAdapter);
  }

  // ----------------------------------------------------------------- Bridge

  /** The concrete implementors. */
  datatype Language = CPPLanguage | SwiftLanguage

  function Build(language: Language): Event
  {
    match language
    case CPPLanguage => CppCompiled
    case SwiftLanguage => SwiftCompiled
  }

  function Execute(language: Language): Event
  {
    match language
    case CPPLanguage => BinaryLaunched
    case SwiftLanguage => IpaLaunched
  }

  /** The refined abstractions, each holding one implementor. */
  datatype Programmer =
    | FreelanceProgrammer(language: Language)
    | CorporateProgrammer(language: Language)

  /** The shared default: build with the language, then execute with it. */
  function DoWork(programmer: Programmer): (t: seq<Event>)
    ensures |t| == 2
    ensures t[0] == Build(programmer.language) && t[1] == Execute(programmer.language)
    ensures programmer.language == CPPLanguage ==> t == [CppCompiled, BinaryLaunched]
    ensures programmer.language == SwiftLanguage ==> t == [SwiftCompiled, IpaLaunched]
  {
    [Build(programmer.language), Execute(programmer.language)]
  }

  /** How a programmer is paid: a fee for a freelancer, a salary for a corporate one. */
  function EarnMoney(programmer: Programmer): (t: seq<Event>)
    ensures t == [FeeReceived] <==> programmer.FreelanceProgrammer?
    ensures t == [SalaryReceived] <==> programmer.CorporateProgrammer?
  {
    match programmer
    case FreelanceProgrammer(_) => [FeeReceived]
    case CorporateProgrammer(_) => [SalaryReceived]
  }

  /** The two hierarchies vary independently: work depends only on the language, pay only on the variant. */
  lemma AbstractionAndImplementorIndependent(p: Programmer, q: Programmer)
    ensures p.language == q.language ==> DoWork(p) == DoWork(q)
    ensures p.FreelanceProgrammer? == q.FreelanceProgrammer? ==> EarnMoney(p) == EarnMoney(q)
  {
  }

  /** Reassigning the language changes the work to the new implementor's and keeps the variant and its pay. */
  lemma LanguageSwap(p: Programmer, language: Language)
    ensures DoWork(p.(language := language)) == [Build(language), Execute(language)]
    ensures p.(language := language).FreelanceProgrammer? == p.FreelanceProgrammer?
    ensures EarnMoney(p.(language := language)) == EarnMoney(p)
  {
  }

  /** The script of the Bridge section: a freelancer works in C++, then, with the language swapped, in Swift. */
  method BridgeScenario() returns (freelancer: Programmer, trace: seq<Event>)
    ensures freelancer == FreelanceProgrammer(SwiftLanguage)
    ensures trace == [CppCompiled, BinaryLaunched, FeeReceived, SwiftCompiled, IpaLaunched, FeeReceived]
  {
    freelancer := FreelanceProgrammer(CPPLanguage);
    trace := DoWork(freelancer);
    trace := trace + EarnMoney(freelancer);

    freelancer := freelancer.(language := SwiftLanguage);
    trace := trace + DoWork(freelancer);
    trace := trace + EarnMoney(freelancer);
  }
}
