/**
 * The behavioural-patterns page: Command, Strategy, Mediator, Template Method
 * and Memento. Every `print` of the playground is an `Event`; an operation
 * returns the events it prints, in order, and a scenario method concatenates
 * them into the page's output trace.
 */
module Behavioral {

  import opened Optional

  datatype Event =
    // the microwave receiver (Command)
    | FoodHeating
    | FoodHeated
    | HeatingCancelled
    // the two movement strategies (Strategy)
    | MovedOnPetrol
    | MovedOnElectricity
    // a colleague is told a message (Mediator)
    | Notified(recipient: Kind, message: string)
    // the steps of a school education (Template Method)
    | EnteredFirstGrade
    | AttendedLessons
    | PassedFinalExams
    | ReceivedCertificate
    // the hero and its snapshots (Memento)
    | Shot(patronsLeft: int)
    | OutOfPatrons
    | Saved(patrons: int, lives: int)
    | Restored(patrons: int, lives: int)

  // ---------------------------------------------------------------- Command

  /** The receiver; each of its actions prints one line. */
  datatype Microwave = Microwave

  function StartCooking(m: Microwave): Event { FoodHeating }

  function StopCooking(m: Microwave): Event { FoodHeated }

  function CancelCooking(m: Microwave): Event { HeatingCancelled }

  /** The concrete command, holding its receiver. */
  datatype MicrowaveCommand = MicrowaveCommand(microwave: Microwave)

  /** Executing heats the food and then reports it heated, both by the receiver. */
  function Execute(command: MicrowaveCommand): (t: seq<Event>)
    ensures t == [FoodHeating, FoodHeated]
  {
    [StartCooking(command.microwave), StopCooking(command.microwave)]
  }

  /** Undoing only cancels; it does not depend on an earlier `Execute`. */
  function Undo(command: MicrowaveCommand): (t: seq<Event>)
    ensures t == [HeatingCancelled]
  {
    [CancelCooking(command.microwave)]
  }

  /** Undo never replays an action of Execute. */
  lemma UndoSharesNothingWithExecute(command: MicrowaveCommand)
    ensures forall e :: e in Undo(command) ==> e !in Execute(command)
  {
  }

  /** The script of the Command section: execute, then undo. */
  method CommandScenario() returns (trace: seq<Event>)
    ensures trace == [FoodHeating, FoodHeated, HeatingCancelled]
  {
    var microwave := Microwave;
    var command := MicrowaveCommand(microwave);
    trace := Execute(command);
    trace := trace + Undo(command);
  }

  // --------------------------------------------------------------- Strategy

  datatype Movable = PetrolMove | ElectricMove

  function StrategyMove(strategy: Movable): Event
  {
    match strategy
    case PetrolMove => MovedOnPetrol
    case ElectricMove => MovedOnElectricity
  }

  /** The context: a car holding one swappable strategy. */
  datatype Car = Car(passengers: int, model: string, strategy: Movable)

  /** A car moves exactly the way its current strategy does, and in no other way. */
  function CarMove(car: Car): (t: seq<Event>)
    ensures |t| == 1
    ensures t[0] == MovedOnPetrol <==> car.strategy == PetrolMove
    ensures t[0] == MovedOnElectricity <==> car.strategy == ElectricMove
  {
    [StrategyMove(car.strategy)]
  }

  /** Reassigning the strategy changes how the car moves and nothing else about it. */
  lemma StrategySwap(car: Car, strategy: Movable)
    ensures CarMove(car.(strategy := strategy)) == [StrategyMove(strategy)]
    ensures car.(strategy := strategy).passengers == car.passengers
    ensures car.(strategy := strategy).model == car.model
  {
  }

  /** The script of the Strategy section: move on petrol, swap, move on electricity. */
  method StrategyScenario() returns (auto: Car, trace: seq<Event>)
    ensures auto == Car(4, "Volvo", ElectricMove)
    ensures trace == [MovedOnPetrol, MovedOnElectricity]
  {
    auto := Car(4, "Volvo", PetrolMove);
    trace := CarMove(auto);
    auto := auto.(strategy := ElectricMove);
    trace := trace + CarMove(auto);
  }

  // --------------------------------------------------------------- Mediator

  /** The three colleague types, told apart by the mediator's `is` tests. */
  datatype Kind = Customer | Programmer | Tester

  /** A colleague is a value that knows its mediator. */
  datatype Colleague = Colleague(kind: Kind, mediator: ManagerMediator)

  function Notify(colleague: Colleague, message: string): Event
  {
    Notified(colleague.kind, message)
  }

  /** The routing rule, as a table: whose slot a sender's message goes to. */
  function Route(sender: Kind): Kind
  {
    match sender
    case Customer => Programmer
    case Programmer => Tester
    case Tester => Customer
  }

  /** No sender is routed to itself, no two senders share a recipient, and three hops come back. */
  lemma RouteIsCycle()
    ensures forall k :: Route(k) != k
    ensures forall j, k :: Route(j) == Route(k) ==> j == k
    ensures forall k :: Route(Route(Route(k))) == k
  {
  }

  class ManagerMediator {
    var customer: Option<Colleague>
    var programmer: Option<Colleague>
    var tester: Option<Colleague>

    /** A new mediator has no colleagues. */
    constructor ()
      ensures customer == None && programmer == None && tester == None
    {
      customer, programmer, tester := None, None, None;
    }

    /** The field that holds the colleague for a given role. */
    function Slot(role: Kind): Option<Colleague>
      reads this
    {
      match role
      case Customer => customer
      case Programmer => programmer
      case Tester => tester
    }

    /** The slots hold colleagues of their own kind, as the playground wires them. */
    predicate WiredByKind()
      reads this
    {
      forall role :: Slot(role).Some? ==> Slot(role).value.kind == role
    }

    /**
     * Routes by the sender's kind to at most one colleague: the one in the
     * slot the routing table names, and nobody when that slot is unset.
     */
    function Send(message: string, colleague: Colleague): (t: seq<Event>)
      reads this
      ensures |t| <= 1
      ensures t == [] <==> Slot(Route(colleague.kind)) == None
      ensures t != [] ==> t[0] == Notify(Slot(Route(colleague.kind)).value, message)
    {
      if colleague.kind == Customer then
        (if programmer.Some? then [Notify(programmer.value, message)] else [])
      else if colleague.kind == Programmer then
        (if tester.Some? then [Notify(tester.value, message)] else [])
      else
        (if customer.Some? then [Notify(customer.value, message)] else [])
    }
  }

  /** With the slots wired by kind, a message reaches only the routed role, never its sender. */
  lemma SendReachesOnlyRoutedRole(mediator: ManagerMediator, message: string, colleague: Colleague)
    requires mediator.WiredByKind()
    ensures forall e :: e in mediator.Send(message, colleague) ==>
              e == Notified(Route(colleague.kind), message) && e.recipient != colleague.kind
  {
  }

  /** A colleague's `send`: hand the message to its own mediator with itself as the sender. */
  function ColleagueSend(colleague: Colleague, message: string): (t: seq<Event>)
    reads colleague.mediator
    ensures |t| <= 1
    ensures t == [] <==> colleague.mediator.Slot(Route(colleague.kind)) == None
    ensures forall e :: e in t ==> e.Notified? && e.message == message
    ensures t != [] ==> t[0] == Notify(colleague.mediator.Slot(Route(colleague.kind)).value, message)
  {
    colleague.mediator.Send(message, colleague)
  }

  /** The script of the Mediator section: the order goes customer, programmer, tester and back. */
  method MediatorScenario(order: string, built: string, tested: string) returns (trace: seq<Event>)
    ensures trace == [Notified(Programmer, order), Notified(Tester, built), Notified(Customer, tested)]
  {
    var mediator := new ManagerMediator();
    var customer := Colleague(Customer, mediator);
    var programmer := Colleague(Programmer, mediator);
    var tester := Colleague(Tester, mediator);

    mediator.customer := Some(customer);
    mediator.programmer := Some(programmer);
    mediator.tester := Some(tester);

    trace := ColleagueSend(customer, order);
    trace := trace + ColleagueSend(programmer, built);
    trace := trace + ColleagueSend(tester, tested);
  }

  // -------------------------------------------------------- Template Method

  /** The conforming types of `Education`; the playground has one. */
  datatype Education = School

  function Enter(e: Education): Event { match e case School => EnteredFirstGrade }

  function Study(e: Education): Event { match e case School => AttendedLessons }

  /** The step every education shares: the protocol extension's default. */
  function PassExams(e: Education): Event { PassedFinalExams }

  function GetDocument(e: Education): Event { match e case School => ReceivedCertificate }

  /** The template: enter, study, pass exams, get the document, in that order. */
  function Learn(e: Education): (t: seq<Event>)
    ensures |t| == 4
    ensures t[0] == Enter(e) && t[1] == Study(e) && t[2] == PassExams(e) && t[3] == GetDocument(e)
    ensures e == School ==> t == [EnteredFirstGrade, AttendedLessons, PassedFinalExams, ReceivedCertificate]
  {
    [Enter(e), Study(e), PassExams(e), GetDocument(e)]
  }

  // ---------------------------------------------------------------- Memento

  /** The hero's counters as a value: what a memento captures. */
  datatype HeroState = HeroState(patrons: int, lives: int)

  /** One shot: a patron is spent while there is one; otherwise nothing changes. */
  function ShootStep(s: HeroState): (r: HeroState)
    ensures r.lives == s.lives
    ensures s.patrons > 0 ==> r.patrons == s.patrons - 1
    ensures s.patrons <= 0 ==> r == s
  {
    if s.patrons > 0 then s.(patrons := s.patrons - 1) else s
  }

  /** `n` shots in a row. */
  function Shots(s: HeroState, n: nat): HeroState
    decreases n
  {
    if n == 0 then s else Shots(ShootStep(s), n - 1)
  }

  /** One more shot after `n` shots is one shot applied to their result. */
  lemma {:induction false} ShotsThenOneMore(s: HeroState, n: nat)
    decreases n
    ensures Shots(s, n + 1) == ShootStep(Shots(s, n))
  {
    if n > 0 {
      ShotsThenOneMore(ShootStep(s), n - 1);
    }
  }

  /** Shooting any number of times spends patrons down to zero and no further, and keeps the lives. */
  lemma {:induction false} ShotsFromValid(s: HeroState, n: nat)
    requires s.patrons >= 0
    decreases n
    ensures Shots(s, n) == HeroState(if n <= s.patrons then s.patrons - n else 0, s.lives)
    ensures Shots(s, n).patrons >= 0
  {
    if n > 0 {
      ShotsFromValid(ShootStep(s), n - 1);
    }
  }

  /** The memento: a plain object holding copies of the two counters. */
  class HeroMemento {
    var patrons: int
    var lives: int

    constructor (patrons: int, lives: int)
      ensures this.patrons == patrons && this.lives == lives
    {
      this.patrons := patrons;
      this.lives := lives;
    }
  }

  /** The originator. */
  class Hero {
    var patrons: int
    var lives: int

    /**
     * Neither counter is negative: established by the constructor, preserved
     * by `Shoot`, and kept by `RestoreState` for a memento with non-negative counters.
     */
    predicate Valid()
      reads this
    {
      patrons >= 0 && lives >= 0
    }

    function State(): HeroState
      reads this
    {
      HeroState(patrons, lives)
    }

    /** A new hero has 10 patrons and 5 lives. */
    constructor ()
      ensures State() == HeroState(10, 5) && Valid()
    {
      patrons := 10;
      lives := 5;
    }

    /** Spends one patron if there is one and reports how many are left; otherwise reports none left. */
    method Shoot() returns (e: Event)
      modifies this
      ensures State() == ShootStep(old(State()))
      ensures e == if old(patrons) > 0 then Shot(patrons) else OutOfPatrons
      ensures old(Valid()) ==> Valid()
    {
      if patrons > 0 {
        patrons := patrons - 1;
        e := Shot(patrons);
      } else {
        e := OutOfPatrons;
      }
    }

    /** Returns a memento holding the current counters, leaving the hero as it is. */
    method SaveState() returns (memento: HeroMemento, e: Event)
      ensures fresh(memento)
      ensures memento.patrons == patrons && memento.lives == lives
      ensures e == Saved(patrons, lives)
    {
      e := Saved(patrons, lives);
      memento := new HeroMemento(patrons, lives);
    }

    /** Overwrites both counters with the memento's, whatever they were before. */
    method RestoreState(memento: HeroMemento) returns (e: Event)
      modifies this
      ensures State() == HeroState(memento.patrons, memento.lives)
      ensures e == Restored(memento.patrons, memento.lives)
      ensures memento.patrons >= 0 && memento.lives >= 0 ==> Valid()
    {
      patrons := memento.patrons;
      lives := memento.lives;
      e := Restored(patrons, lives);
    }
  }

  /** The caretaker: an array of mementos it never looks into. */
  class GameHistory {
    var History: seq<HeroMemento>

    constructor ()
      ensures History == []
    {
      History := [];
    }

    /** Swift's `last`: the newest memento, or nil when there is none. */
    function Last(): (r: Option<HeroMemento>)
      reads this
      ensures r == None <==> History == []
      ensures r.Some? ==> r.value == History[|History| - 1]
    {
      if History == [] then None else Some(History[|History| - 1])
    }

    /** `History.append`: one more memento, which becomes the last. */
    method Append(memento: HeroMemento)
      modifies this
      ensures History == old(History) + [memento]
      ensures Last() == Some(memento)
    {
      History := History + [memento];
    }
  }

  /**
   * `n` calls of `Shoot` take the hero through `Shots`; from non-negative
   * patrons that is `n` patrons fewer, down to zero and no further.
   */
  method ShootTimes(hero: Hero, n: nat)
    modifies hero
    ensures hero.State() == Shots(old(hero.State()), n)
    ensures old(hero.patrons) >= 0 ==>
              hero.State() == HeroState(if n <= old(hero.patrons) then old(hero.patrons) - n else 0, old(hero.lives))
  {
    var i := 0;
    while i < n
      invariant 0 <= i <= n
      invariant hero.State() == Shots(old(hero.State()), i)
    {
      var e := hero.Shoot();
      ShotsThenOneMore(old(hero.State()), i);
      i := i + 1;
    }
    if old(hero.patrons) >= 0 {
      ShotsFromValid(old(hero.State()), n);
    }
  }

  /**
   * The round trip: save, shoot any number of times, restore that memento,
   * and the hero's counters are back to what was saved.
   */
  method SaveShootRestore(hero: Hero, n: nat) returns (memento: HeroMemento)
    modifies hero
    ensures fresh(memento)
    ensures memento.patrons == old(hero.patrons) && memento.lives == old(hero.lives)
    ensures hero.State() == old(hero.State())
  {
    var e;
    memento, e := hero.SaveState();
    ShootTimes(hero, n);
    e := hero.RestoreState(memento);
  }

  /**
   * The script of the Memento section: shoot, save, shoot, restore the last
   * save, shoot. The restore undoes the second shot, so the third leaves 8.
   */
  method MementoScenario() returns (final: HeroState, trace: seq<Event>)
    ensures final == HeroState(8, 5)
    ensures trace == [Shot(9), Saved(9, 5), Shot(8), Restored(9, 5), Shot(8)]
  {
    var hero := new Hero();
    var e := hero.Shoot();
    trace := [e];
    var game := new GameHistory();

    var memento;
    memento, e := hero.SaveState();
    game.Append(memento);
    trace := trace + [e];

    e := hero.Shoot();
    trace := trace + [e];

    var last := game.Last();
    e := hero.RestoreState(last.value);
    trace := trace + [e];

    e := hero.Shoot();
    trace := trace + [e];
    final := hero.State();
  }
}
