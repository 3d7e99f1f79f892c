# GoF patterns playground, modelled in Dafny

A model of the executable parts of a Swift playground that demonstrates
Gang-of-Four design patterns on three pages: behavioural (Command, Strategy,
Mediator, Template Method, Memento), creational (Factory Method, Abstract
Factory, Prototype, Builder, Singleton) and structural (Adapter, Bridge).

Each page's `print` calls become constructors of that page's `Event`
datatype. An operation returns the events it prints, in order. A "scenario"
method replays the top-level script of a section and states the whole trace
it prints.

- `optional.dfy`: module `Optional`, Swift's `Optional` as `Option<T>`.
- `behavioral.dfy`: module `Behavioral`.
  - `Hero`, `GameHistory` and `ManagerMediator` are classes, because the playground updates their fields in place.
  - `HeroMemento` is a class because Swift declares it `class HeroMemento`. Its `var` fields are never written after initialisation.
  - The microwave command, the strategy `Car`, the colleagues and the school are values.
  - Every Swift `is` test and protocol dispatch becomes a closed tagged variant. For example, `Kind` names the three colleague types.
- `creational.dfy`: module `Creational`.
  - The factories, their products and `Plane` are values. `Plane` is a Swift struct.
  - The builders are classes whose initialisers set their fields.
  - `SingletoneStatics` holds the lazily filled `static let shared` slot.
- `structural.dfy`: module `Structural`.
  - The adapter, the transports, the programmers and the languages are values.
  - Reassigning `freelancer.language` is a datatype update.

Swift's `Int` is 64 bits wide. The hero's counters only go down while they are
positive, and otherwise they are only copied, so they never overflow. The model
therefore uses unbounded `int`.

Names that are misspelt in the source are kept as written: `Track`,
`WallBuiler`, `WindowsBuiler`, `Singletone`.

Where the pattern descriptions and the code disagree, the model follows the code:

- `MicrowaveCommand.Undo` cancels unconditionally. It is not a no-op when
  `Execute` has not run.
- `Learn` is a protocol requirement with a default body, so in Swift a
  conforming type could override it. The model has one `Learn` with no override point.
- A memento's fields are declared `var`, although a snapshot is meant to be
  immutable. Nothing writes them after initialisation, and the model keeps them `var`.
- `doWork` is a protocol requirement with a default body, like `Learn`, so a
  conforming type could override it. The model has one `DoWork` with no override point.
- `RestoreState` takes a non-optional `HeroMemento`, so a nil snapshot is not a
  possible input. The model's parameter is non-null as well.

## Model

| member | source | states |
|---|---|---|
| `Behavioral.Execute` | GoFPatterns.playground/Pages/BehavioralPatterns.xcplaygroundpage/Contents.swift:27-48 | executing the command heats the food and then reports it heated, both through the receiver, in that order |
| `Behavioral.Undo` | GoFPatterns.playground/Pages/BehavioralPatterns.xcplaygroundpage/Contents.swift:36-52 | undo emits only the receiver's cancel event |
| `Behavioral.UndoSharesNothingWithExecute` | GoFPatterns.playground/Pages/BehavioralPatterns.xcplaygroundpage/Contents.swift:45-52 | undo never replays an action of execute |
| `Behavioral.CommandScenario` | GoFPatterns.playground/Pages/BehavioralPatterns.xcplaygroundpage/Contents.swift:59-62 | the Command script prints heating, heated, cancelled |
| `Behavioral.CarMove` | GoFPatterns.playground/Pages/BehavioralPatterns.xcplaygroundpage/Contents.swift:80-107 | a car makes exactly one move, and it moves on petrol iff its strategy is `PetrolMove`, on electricity iff it is `ElectricMove` |
| `Behavioral.StrategySwap` | GoFPatterns.playground/Pages/BehavioralPatterns.xcplaygroundpage/Contents.swift:97-112 | after the strategy is reassigned the car moves the new strategy's way, and passengers and model are unchanged |
| `Behavioral.StrategyScenario` | GoFPatterns.playground/Pages/BehavioralPatterns.xcplaygroundpage/Contents.swift:110-113 | the Strategy script prints a petrol move then an electric move, and leaves the Volvo with 4 passengers on the electric strategy |
| `Behavioral.RouteIsCycle` | GoFPatterns.playground/Pages/BehavioralPatterns.xcplaygroundpage/Contents.swift:181-197 | the routing table never sends a message back to its sender's role, gives each recipient role one sender, and returns after three hops (customer, programmer, tester) |
| `Behavioral.ManagerMediator.constructor` | GoFPatterns.playground/Pages/BehavioralPatterns.xcplaygroundpage/Contents.swift:175-179 | a new mediator has all three colleague slots nil |
| `Behavioral.ManagerMediator.Send` | GoFPatterns.playground/Pages/BehavioralPatterns.xcplaygroundpage/Contents.swift:149-197 | a message produces at most one notification. It goes to the colleague in the slot the table routes the sender's kind to (customer → programmer, programmer → tester, tester → customer), and produces nothing when that slot is nil. The notification is that colleague's `notify`, which reports the message addressed to the colleague's own role (`Notify`) |
| `Behavioral.SendReachesOnlyRoutedRole` | GoFPatterns.playground/Pages/BehavioralPatterns.xcplaygroundpage/Contents.swift:181-197 | when every slot holds a colleague of its own kind, the only notification is to the routed role, with the sent message, and never to the sender's role |
| `Behavioral.ColleagueSend` | GoFPatterns.playground/Pages/BehavioralPatterns.xcplaygroundpage/Contents.swift:142-146 | a colleague's `send` yields at most one notification, carrying its message, addressed to the colleague in the slot the routing table names for the sender's kind, and none exactly when that slot is nil |
| `Behavioral.MediatorScenario` | GoFPatterns.playground/Pages/BehavioralPatterns.xcplaygroundpage/Contents.swift:200-211 | with the slots assigned after construction, the three sends notify the programmer, the tester and the customer, in that order, each with its message |
| `Behavioral.Learn` | GoFPatterns.playground/Pages/BehavioralPatterns.xcplaygroundpage/Contents.swift:226-265 | learning is exactly four steps: Enter, Study, PassExams (the shared default), GetDocument, in that order. For `School` these are first grade, lessons, final exams, certificate |
| `Behavioral.ShootStep` | GoFPatterns.playground/Pages/BehavioralPatterns.xcplaygroundpage/Contents.swift:297-304 | a shot spends exactly one patron when there is one and changes nothing otherwise; lives never change |
| `Behavioral.ShotsFromValid` | GoFPatterns.playground/Pages/BehavioralPatterns.xcplaygroundpage/Contents.swift:297-304 | from non-negative patrons, n shots leave max(patrons − n, 0) patrons and the same lives, so patrons never become negative |
| `Behavioral.HeroMemento.constructor` | GoFPatterns.playground/Pages/BehavioralPatterns.xcplaygroundpage/Contents.swift:281-290 | a memento holds the two counters it was given |
| `Behavioral.Hero.constructor` | GoFPatterns.playground/Pages/BehavioralPatterns.xcplaygroundpage/Contents.swift:293-295 | a new hero has 10 patrons and 5 lives, and both counters are non-negative |
| `Behavioral.Hero.Shoot` | GoFPatterns.playground/Pages/BehavioralPatterns.xcplaygroundpage/Contents.swift:297-304 | the new state is one `ShootStep` from the old one. It reports the patrons left, or that none are left. It keeps the non-negativity invariant |
| `Behavioral.Hero.SaveState` | GoFPatterns.playground/Pages/BehavioralPatterns.xcplaygroundpage/Contents.swift:306-309 | the returned memento is a new object holding the hero's current patrons and lives, and the hero is not modified (no `modifies`) |
| `Behavioral.Hero.RestoreState` | GoFPatterns.playground/Pages/BehavioralPatterns.xcplaygroundpage/Contents.swift:312-316 | both counters are overwritten with the memento's, whatever they were, which closes the save/shoot/restore round trip stated by `SaveShootRestore`. A memento with non-negative counters gives a valid hero |
| `Behavioral.GameHistory.constructor` | GoFPatterns.playground/Pages/BehavioralPatterns.xcplaygroundpage/Contents.swift:320-322 | a new history is empty |
| `Behavioral.GameHistory.Last` | GoFPatterns.playground/Pages/BehavioralPatterns.xcplaygroundpage/Contents.swift:332 | `last` is nil exactly when the history is empty, and otherwise is its final memento |
| `Behavioral.GameHistory.Append` | GoFPatterns.playground/Pages/BehavioralPatterns.xcplaygroundpage/Contents.swift:328 | appending adds exactly one memento at the end, which becomes `last` |
| `Behavioral.ShotsThenOneMore` | GoFPatterns.playground/Pages/BehavioralPatterns.xcplaygroundpage/Contents.swift:297-304 | one shot after n shots gives the state of n + 1 shots, which ties `Shots` to successive calls of `Shoot` (used by `ShootTimes`) |
| `Behavioral.ShootTimes` | GoFPatterns.playground/Pages/BehavioralPatterns.xcplaygroundpage/Contents.swift:297-304 | n calls of `Shoot` on a hero leave it in state `Shots(old state, n)`; from non-negative patrons that is max(patrons − n, 0) patrons and the same lives |
| `Behavioral.SaveShootRestore` | GoFPatterns.playground/Pages/BehavioralPatterns.xcplaygroundpage/Contents.swift:306-316 | save, then any number of `Shoot` calls, then restore with that memento: the memento holds the saved counters throughout, and the hero ends with exactly the counters it had before saving |
| `Behavioral.MementoScenario` | GoFPatterns.playground/Pages/BehavioralPatterns.xcplaygroundpage/Contents.swift:324-334 | the script prints shot (9 left), saved (9, 5), shot (8 left), restored (9, 5), shot (8 left), and ends with 8 patrons and 5 lives |
| `Creational.VehicleFactoryDrive` | GoFPatterns.playground/Pages/CreationalPatterns.xcplaygroundpage/Contents.swift:35-51 | the factory is total, and the product is a car iff BMWx5, a track iff KAMAZ, a bus iff MercedesTourismo |
| `Creational.VehicleFactoryIsInjective` | GoFPatterns.playground/Pages/CreationalPatterns.xcplaygroundpage/Contents.swift:17-51 | distinct vehicles give products that drive differently |
| `Creational.FactoryMethodScenario` | GoFPatterns.playground/Pages/CreationalPatterns.xcplaygroundpage/Contents.swift:53-55 | the script prints car, track and bus driving, in that order |
| `Creational.ConcreteFactory` | GoFPatterns.playground/Pages/CreationalPatterns.xcplaygroundpage/Contents.swift:98-104 | each `CarsFactoryType` case hands the work to a concrete factory of its own family (`.bmw` to the BMW factory, `.mercedes` to the Mercedes one), never to another `CarsFactoryType` |
| `Creational.CreateCar` | GoFPatterns.playground/Pages/CreationalPatterns.xcplaygroundpage/Contents.swift:77-105 | every factory, concrete or enum case, makes a car of its own family only |
| `Creational.FactoryTypeAgreesWithConcrete` | GoFPatterns.playground/Pages/CreationalPatterns.xcplaygroundpage/Contents.swift:81-105 | `.bmw` makes what `BMWFactory` makes (a BMW) and `.mercedes` what `MercedesFactory` makes (a Mercedes) |
| `Creational.AbstractFactoryScenario` | GoFPatterns.playground/Pages/CreationalPatterns.xcplaygroundpage/Contents.swift:61-109 | the script prints BMW driving, then Mercedes driving: the `.bmw` factory's product is a `BMWCars`, whose `Drive` prints BMW driving, and the `.mercedes` factory's is a `MercedesCars`, whose `Drive` prints Mercedes driving (`DriveCar`) |
| `Creational.Clone` | GoFPatterns.playground/Pages/CreationalPatterns.xcplaygroundpage/Contents.swift:129-131 | a clone has the prototype's name and wing span |
| `Creational.RenamedCloneIsIndependent` | GoFPatterns.playground/Pages/CreationalPatterns.xcplaygroundpage/Contents.swift:134-146 | appending a suffix to a clone's name gives the prototype's name plus the suffix, and the wing span is kept |
| `Creational.PrototypeScenario` | GoFPatterns.playground/Pages/CreationalPatterns.xcplaygroundpage/Contents.swift:134-146 | the three renamed clones print as IL-96-400, IL-96-300 and IL-96MD with the prototype's wing span, and the prototype is still IL-96 |
| `Creational.WallBuiler.constructor` | GoFPatterns.playground/Pages/CreationalPatterns.xcplaygroundpage/Contents.swift:151-157 | the configuration closure is applied once to the new builder, whose `walls` starts nil |
| `Creational.WindowsBuiler.constructor` | GoFPatterns.playground/Pages/CreationalPatterns.xcplaygroundpage/Contents.swift:159-165 | the configuration closure is applied once to the new builder, whose `windows` starts nil |
| `Creational.HouseBuilder.constructor` | GoFPatterns.playground/Pages/CreationalPatterns.xcplaygroundpage/Contents.swift:167-179 | the initialiser always yields a house. `walls` is the wall builder's `walls` when that builder is present, and nil otherwise. `windows` follows the same rule |
| `Creational.BuilderScenario` | GoFPatterns.playground/Pages/CreationalPatterns.xcplaygroundpage/Contents.swift:182-192 | builders whose closures set their part give a house with both parts, and that house is what the script prints |
| `Creational.SingletoneStatics.constructor` | GoFPatterns.playground/Pages/CreationalPatterns.xcplaygroundpage/Contents.swift:203 | before the first access no instance exists |
| `Creational.SingletoneStatics.Shared` | GoFPatterns.playground/Pages/CreationalPatterns.xcplaygroundpage/Contents.swift:202-207 | the first access creates the instance, and every later access returns that same instance |
| `Creational.SharedTwice` | GoFPatterns.playground/Pages/CreationalPatterns.xcplaygroundpage/Contents.swift:202-209 | two accesses to `shared` yield one and the same instance, the one stored |
| `Structural.Drive` | GoFPatterns.playground/Pages/StructuralPatterns.xcplaygroundpage/Contents.swift:37-68 | driving is one event. It is the road event exactly for `Auto`, and the adapter's drive is exactly its wrapped camel's move |
| `Structural.Travel` | GoFPatterns.playground/Pages/StructuralPatterns.xcplaygroundpage/Contents.swift:29-35 | travelling drives the transport once and does nothing else |
| `Structural.TravelDistinguishesTransport` | GoFPatterns.playground/Pages/StructuralPatterns.xcplaygroundpage/Contents.swift:37-68 | travelling by `Auto` drives on the road, and travelling by the camel adapter moves on sand |
| `Structural.AdapterScenario` | GoFPatterns.playground/Pages/StructuralPatterns.xcplaygroundpage/Contents.swift:71-81 | the script prints driving on the road, then the camel moving on sand |
| `Structural.DoWork` | GoFPatterns.playground/Pages/StructuralPatterns.xcplaygroundpage/Contents.swift:98-138 | work is the language's Build event followed by its Execute event. For C++ that is compile then run the binary; for Swift, compile then run the .ipa |
| `Structural.EarnMoney` | GoFPatterns.playground/Pages/StructuralPatterns.xcplaygroundpage/Contents.swift:141-156 | a freelancer is paid a fee and a corporate programmer a salary, each iff of that variant |
| `Structural.AbstractionAndImplementorIndependent` | GoFPatterns.playground/Pages/StructuralPatterns.xcplaygroundpage/Contents.swift:127-156 | the work depends only on the language, and the pay only on the programmer variant, never on the language |
| `Structural.LanguageSwap` | GoFPatterns.playground/Pages/StructuralPatterns.xcplaygroundpage/Contents.swift:159-166 | after the language is reassigned, the work is the new language's, and the variant and its pay are unchanged |
| `Structural.BridgeScenario` | GoFPatterns.playground/Pages/StructuralPatterns.xcplaygroundpage/Contents.swift:159-166 | the script prints C++ work, a fee, Swift work, a fee, and leaves a freelancer on Swift |

## Left out

- Console text. The Russian strings and their formatting are presentation; each `print` is an abstract event. Messages that the script passes as data (the mediator's messages, the builders' strings) are parameters of the scenario methods.
- Playground navigation links, doc-comment markup and `import Foundation`. `Intro.xcplaygroundpage/Contents.swift` contains no code and is not part of this model.
- The Composite section of the structural page. It is prose only, with no implementation.
- `Plane.wingspan` is a `Double`. It is an opaque type `Wingspan` that is only copied, so there is no floating-point reasoning.
- Thread safety of the lazy `static let shared` initialisation. It is a Swift runtime guarantee about concurrency, and the model is sequential.
- `Singletone`'s `private init`. Dafny has no access control without export sets, so the model cannot state that nothing else constructs a `Singletone`. It only states that `shared` always yields the one stored instance. The slot is a writable `var`, unlike Swift's `static let`, so a method allowed to modify `SingletoneStatics` could reset or replace it; the "same instance on every access" promise holds only while nothing else writes the slot.
- `ManagerMediator.Send`: the `is` tests are over an open protocol. A fourth conforming colleague type would match none of them and be dropped silently. The model's `Kind` is closed, so that case does not arise.
- `WallBuiler.constructor` and `WindowsBuiler.constructor`: the Swift closure receives the whole builder. The model gives the closure as its effect on the builder's one stored property, so a closure with other side effects is not captured.
- `GameHistory.Last` returns nil on an empty history. The trap of `last!` on nil is not modelled as a failure, and the script never reaches it.
- Colleagues, the adapter and the programmers are modelled as values. In Swift they are structs, except the adapter, which is a class that is never mutated, so sharing it cannot be observed.
