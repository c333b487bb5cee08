# Design patterns in C++, modelled in Dafny

This project models a collection of small C++ programs. Each program shows one
design pattern: Factory Method, Flyweight, Observer, Strategy, Chain of
Responsibility, Builder, Decorator, Bridge, Visitor, Template Method, State,
Command, Mediator, Singleton, and Prototype through a cloning factory. Each
program is one Dafny module in its own file. Two support modules complete the
project. `Wrappers` holds `Option`. `Decimal` holds the decimal text of integers
that `std::to_string` and `operator<<` produce, with a parser and round-trip
lemmas.

Each program's output lines are returned as strings or as a sequence of
strings, in the order the program writes them. Objects whose fields the program
updates in place are Dafny classes:

- `FactoryLikeCreator`, `FlyweightFactory`, `Subject` and `SimpleObserver`;
- the Strategy `Context`, the chain `Handler`, `CarBuilder` and `ClientClass`;
- the State `State` and `Context`, the `Invoker`, and the Mediator components;
- the Singleton's static storage and `Checker`'s static counter.

Pure code is written as datatypes, functions and lemmas. Each `main` or
`client` is a `Client` member. Its contract states what the program builds or
prints, either as literal lines or through the module's own text functions
(`HandledMessage`, `OutputLine`, `Message`). The exceptions:

- In Bridge and Visitor, a lemma beside `Client` gives the listed output
  (`Bridge.ClientLines`, `Visitor.ClientOutput`).
- Flyweight's `Client` states the cars and the table. The text printed for a
  car is stated by `Flyweight.CarText`, `Flyweight.CarTextOwnerLine` and
  `Flyweight.DemoFirstCarText`.

## Model

| member | source | states |
|---|---|---|
| Decimal.NatToString | Builder.cpp:66 | An unsigned number prints as at least one digit, all digits, and a text of more than one digit does not start with '0'. |
| Decimal.IntToString | Visitor.cpp:52 | An integer prints as digits, with a leading '-' exactly when it is negative. |
| Decimal.NatRoundTrip | Builder.cpp:66 | The decimal text of a natural number reads back as that number. |
| Decimal.IntRoundTrip | Visitor.cpp:52 | The decimal text of any integer, with its sign, reads back as that integer. |
| Decimal.IntToStringInjective | Visitor.cpp:52 | Different integers get different decimal texts. |
| FactoryMethod.NameOfProduct | FactoryMethod.cpp:15-27 | `get_name_of_product` is non-empty, and starts with 'L' exactly for a Laptop. |
| FactoryMethod.ProductNamesDistinct | FactoryMethod.cpp:9-27 | Two products report the same name exactly when they are the same product. |
| FactoryMethod.SmartphoneCreate | FactoryMethod.cpp:38-43 | `SmartphoneCreator` always yields a product named "Smartphone". |
| FactoryMethod.LaptopCreate | FactoryMethod.cpp:45-50 | `LaptopCreator` always yields a product named "Laptop". |
| FactoryMethod.Step | FactoryMethod.cpp:55-63 | A counter in 0..2 stays in 0..2 and becomes (counter + 1) mod 3. A Laptop comes out exactly when the counter was 2. |
| FactoryMethod.RunAt | FactoryMethod.cpp:55-66 | From counter c, call i yields a Laptop exactly when (c + i) mod 3 == 2. |
| FactoryMethod.FreshRunIsCycle | FactoryMethod.cpp:80-91 | From a fresh creator, call i (from 0) yields a Laptop iff i mod 3 == 2: one laptop after every two smartphones. |
| FactoryMethod.FactoryLikeCreator.constructor | FactoryMethod.cpp:66 | The counter starts at 0. |
| FactoryMethod.FactoryLikeCreator.CreateObject | FactoryMethod.cpp:55-63 | The new counter and the product are `Step` of the old counter: at counter 2 it resets to 0 and returns a Laptop. Otherwise it increments and returns a Smartphone. The counter stays in 0..2 and equals the number of calls mod 3. |
| FactoryMethod.Client | FactoryMethod.cpp:69-78 | Line i of ten is "i = " + i + "; Product: " + the name, with Laptop exactly at i = 2, 5, 8. |
| Flyweight.DefaultCarType | Flyweight.cpp:22-28 | A default `CarType` is "", "", Comfort, 'A', 220. |
| Flyweight.NewCarType | Flyweight.cpp:22-28 | The three-argument `CarType` keeps its arguments and defaults the ISO type to 'A' and the speed to 220. |
| Flyweight.HashCarType | Flyweight.cpp:69-71 | The key is the model, then '_', then the manufacturer. |
| Flyweight.KeyIgnoresOtherFields | Flyweight.cpp:69-71 | Types that agree on model and manufacturer get the same key, whatever their class, ISO type and speed. |
| Flyweight.KeyCanCollide | Flyweight.cpp:69-71 | Different (model, manufacturer) pairs can share a key when an underscore moves across. |
| Flyweight.TableKeys | Flyweight.cpp:57-61 | The constructed table's keys are exactly the keys of the initial types. |
| Flyweight.TableHoldsLast | Flyweight.cpp:57-61 | Under each key the table holds the last initial type with that key, so later types overwrite earlier ones. |
| Flyweight.DistinctKeysTable | Flyweight.cpp:57-61 | With pairwise distinct keys the table has one entry per type, and every type is found under its key. |
| Flyweight.FlyweightFactory.constructor | Flyweight.cpp:57-61 | The loop builds the table that stores each type under its key in order. |
| Flyweight.FlyweightFactory.GetFlyweight | Flyweight.cpp:64 | A present key returns the stored entry and leaves the table unchanged. An absent key inserts a default `CarType`, not the requested one, grows the table by one and returns that default entry. |
| Flyweight.CarText | Flyweight.cpp:84-88 | A printed car starts "Owner: " + owner and ends with the shared type's model. Its length is 15 plus the lengths of owner, manufacturer and model. |
| Flyweight.CarTextOwnerLine | Flyweight.cpp:84-88 | A printed car starts "Owner: " + owner, and its first newline comes right after the owner. The rest is "Info: " + manufacturer + " " + model. |
| Flyweight.DemoTable | Flyweight.cpp:105-109 | The three demonstration types get three distinct keys; the table has size 3 and holds each type. |
| Flyweight.DemoFirstCarText | Flyweight.cpp:113-119 | John's car prints "Owner: John", a newline, then "Info: Mercedes-Benz S-Class". |
| Flyweight.Client | Flyweight.cpp:104-123 | 300 cars are made: car j is the (j mod 3)-th car of a round (John, Alex, Rick), each keyed by `hash_car_type` of the type requested for it. Every key is in the table, and the table still has 3 entries. |
| Observer.Message | Observer.cpp:43 | The message is "New state: " followed by exactly the state's type. |
| Observer.SimpleObserver.constructor | Observer.cpp:78 | A new observer holds the empty message. |
| Observer.SimpleObserver.Update | Observer.cpp:69-71 | Only the most recent message is kept. |
| Observer.Subject.constructor | Observer.cpp:28 | A default subject has no observers and an empty state. |
| Observer.Subject.FromState | Observer.cpp:29-30 | A subject built from a state holds it and has no observers. |
| Observer.Subject.Attach | Observer.cpp:33-36 | Set insertion: attaching twice keeps one copy. It returns the same subject, so calls chain. |
| Observer.Subject.Detach | Observer.cpp:38-40 | Set removal: detaching an absent observer changes nothing. |
| Observer.Subject.Notify | Observer.cpp:42-47 | Every attached observer ends up holding "New state: " + the type. Only attached observers are modified. |
| Observer.Subject.ChangeStateValues | Observer.cpp:56-59 | Type and name are replaced; the observers are unchanged. |
| Observer.Subject.ChangeSubject | Observer.cpp:50-53 | The state changes first, then every attached observer holds the message for the new type. |
| Observer.Client | Observer.cpp:82-94 | Both attached observers hold "New state: New type". |
| Observer.DetachedObserverNotUpdated | Observer.cpp:38-47 | A detached observer keeps its old message while an attached one is updated. |
| Strategy.InsertPermutes | Strategy.cpp:22-34 | `Insert`, one step of the strategies' `operator()`, adds exactly one copy of the element. |
| Strategy.InsertKeepsSorted | Strategy.cpp:22-34 | Inserting into a sequence sorted by the strategy's order keeps it sorted. |
| Strategy.SortCorrect | Strategy.cpp:22-34 | `Sort`, the strategies' `operator()`: ascending sort gives a non-decreasing permutation of the input, and descending sort a non-increasing one. |
| Strategy.SortedUnique | Strategy.cpp:22-34 | Two sequences sorted by the same order with the same multiset are equal, so a sort's result is determined. |
| Strategy.SortIsTheSortedPermutation | Strategy.cpp:22-34 | Any sorted permutation of the input is exactly what the strategy produces. |
| Strategy.Context.constructor | Strategy.cpp:38-40 | The one-argument constructor stores the numbers and installs ascending sort. |
| Strategy.Context.WithSort | Strategy.cpp:42-44 | The two-argument constructor stores the numbers and the given strategy. |
| Strategy.Context.SetNewSortAlgorithm | Strategy.cpp:47-49 | Replaces the strategy and leaves the numbers alone. |
| Strategy.Context.SortNums | Strategy.cpp:51-53 | The numbers become their sorted permutation under the current strategy. Length and multiset are preserved; the strategy is unchanged. |
| Strategy.ExampleAscending | Strategy.cpp:72-74 | [5,3,6,3,7,8,5] sorts ascending to [3,3,5,5,6,7,8]. |
| Strategy.ExampleDescending | Strategy.cpp:76-79 | [3,3,5,5,6,7,8] sorts descending to [8,7,6,5,5,3,3]. |
| Strategy.Client | Strategy.cpp:71-82 | The numbers read 3 3 5 5 6 7 8, then 8 7 6 5 5 3 3 after the switch to descending. |
| ChainOfResponsibility.DefaultRequest | ChainOfResponsibility.cpp:12-16 | A default request has priority 0. |
| ChainOfResponsibility.HandledMessage | ChainOfResponsibility.cpp:44-88 | Each handler prints a non-empty line, and only the undefined-priority handler's line starts with 'E' ("Error!"). |
| ChainOfResponsibility.Route | ChainOfResponsibility.cpp:44-88 | A handled request is handled by a handler of the chain whose condition holds for it. |
| ChainOfResponsibility.RouteFirstMatch | ChainOfResponsibility.cpp:44-88 | The first handler in the chain whose condition (`Handles`: priority 2, 1, 0, or any for the undefined handler) matches handles the request. |
| ChainOfResponsibility.RouteHandledBy | ChainOfResponsibility.cpp:44-88 | A handled request was handled by a handler in the chain that matches, and no earlier handler matches. |
| ChainOfResponsibility.RouteNullNext | ChainOfResponsibility.cpp:44-78 | The chain runs off its null end exactly when no handler matches. |
| ChainOfResponsibility.EndsInUndefinedNeverNull | ChainOfResponsibility.cpp:82-89 | A chain ending in `UndefinedPriorityHandler` handles every request. |
| ChainOfResponsibility.Handler.constructor | ChainOfResponsibility.cpp:25 | The next handler starts as null. |
| ChainOfResponsibility.Handler.SetHandler | ChainOfResponsibility.cpp:29-32 | Sets the next link and returns its argument. |
| ChainOfResponsibility.Handler.ProcessRequest | ChainOfResponsibility.cpp:44-88 | Following the links gives the first-match outcome of the chain of handler kinds. |
| ChainOfResponsibility.DemoRoutes | ChainOfResponsibility.cpp:92-112 | In High, Medium, Low, Undefined order, priorities 2, 1, 0 and 5 go to high, medium, low and undefined. |
| ChainOfResponsibility.BuildDemoChain | ChainOfResponsibility.cpp:105-112 | Four handlers linked High, Medium, Low, Undefined through the pointers `set_handler` returns, the last link null. |
| ChainOfResponsibility.Client | ChainOfResponsibility.cpp:92-114 | The four lines are the high, medium and low handler messages and the undefined-priority error. |
| Builder.TypeValue | Builder.cpp:12 | Engine types have values below 4. |
| Builder.TypeValueInjective | Builder.cpp:12 | Undefined, Slow, Medium and Fast have distinct values. |
| Builder.DefaultEngine | Builder.cpp:15-16 | A default engine is Slow with an empty manufacturer. |
| Builder.NewEngine | Builder.cpp:18-19 | `Engine(manufacturer)` keeps the manufacturer; its type is the given one, Undefined by default. |
| Builder.NewCar | Builder.cpp:31-32 | A new car has the given name, the default engine, an empty owner and mileage 0. |
| Builder.CarBuilder.constructor | Builder.cpp:48-49 | A builder starts with a new car named as given, "undefined" by default. |
| Builder.CarBuilder.Copy | Builder.cpp:51-54 | The copy of a builder holds the same car. |
| Builder.CarBuilder.SetName | Builder.cpp:51 | Only the name changes; a fresh copy of the builder is returned. |
| Builder.CarBuilder.SetEngine | Builder.cpp:52 | Only the engine changes; a fresh copy of the builder is returned. |
| Builder.CarBuilder.SetOwner | Builder.cpp:53 | Only the owner changes; a fresh copy of the builder is returned. |
| Builder.CarBuilder.SetMileage | Builder.cpp:54 | Only the mileage changes; a fresh copy of the builder is returned. |
| Builder.CarBuilder.GetCar | Builder.cpp:56 | Returns the current car. |
| Builder.CarText | Builder.cpp:62-69 | A printed car starts "Name: " + name and ends with a newline. |
| Builder.MileageReadBack | Builder.cpp:62-69 | The line ends with "Mileage:", the mileage's digits and a newline, and the digits read back as the mileage. |
| Builder.EngineDigit | Builder.cpp:64 | The engine type prints as one digit. |
| Builder.Client | Builder.cpp:71-83 | The three cars are BMW/Fast/Vladislav/10000, Mercedes/Medium/Alex/15000 and Kia/Fast/Stan/50000. Kia inherits the fast engine. The three printed lines are the ones listed beside the program. |
| Builder.BmwText | Builder.cpp:77-81 | The first car prints "Name: BMW  \|  Engine: 3  \|  Owner: Vladislav  \|  Mileage:10000" and a newline. |
| Builder.MercedesText | Builder.cpp:78-82 | The second car prints "Name: Mercedes  \|  Engine: 2  \|  Owner: Alex  \|  Mileage:15000" and a newline. |
| Builder.DemoLines | Builder.cpp:81-83 | The three demonstration cars print the three lines listed beside the program. |
| Builder.KiaText | Builder.cpp:79-83 | The third car prints "Name: Kia  \|  Engine: 3  \|  Owner: Stan  \|  Mileage:50000" and a newline. |
| Decorator.Call | Decorator.cpp:20-77 | Every output has at least 18 characters, and ends with ')' exactly when some layer is A or B. A plain `Decorator` passes the inner output through unchanged. |
| Decorator.CallLength | Decorator.cpp:60-76 | Each A or B layer adds exactly 13 characters around the output of the component it wraps. |
| Decorator.StripKeepsCall | Decorator.cpp:42-44 | Removing every plain `Decorator` layer leaves the output unchanged, so a plain decorator passes output through. |
| Decorator.StripHasNoPassThrough | Decorator.cpp:36-77 | After removing plain decorators only A and B layers remain over a base component. |
| Decorator.FirstChar | Decorator.cpp:20-76 | When the outer layer is not a plain `Decorator`, the output starts with 'D' exactly when that layer is A or B. |
| Decorator.LayerLetter | Decorator.cpp:60-76 | The eleventh character of a layered output names the outer layer: 'A' or 'B'. |
| Decorator.CallInjective | Decorator.cpp:20-76 | Without plain decorators, equal outputs mean equal components. |
| Decorator.CallDeterminesNesting | Decorator.cpp:20-77 | The output determines the base component and the whole nesting of A and B layers. |
| Decorator.DemoDecoratorA | Decorator.cpp:84-88 | A over the concrete component gives "Decorator A(Concrete Component)". |
| Decorator.DemoDecoratorB | Decorator.cpp:85-89 | B over the new component gives "Decorator B(New Cool Concrete Component!)". |
| Decorator.DemoNested | Decorator.cpp:86-90 | A over B over the new component gives "Decorator A(Decorator B(New Cool Concrete Component!))". |
| Decorator.Client | Decorator.cpp:80-91 | The three lines are "Decorator A(Concrete Component)", "Decorator B(New Cool Concrete Component!)" and "Decorator A(Decorator B(New Cool Concrete Component!))". |
| Bridge.CreateWindow | Bridge.cpp:23-42 | Each API returns a non-empty system name. |
| Bridge.ApiOfName | Bridge.cpp:23-42 | A recognised name is the name of the API it maps to. |
| Bridge.ApiRoundTrip | Bridge.cpp:23-42 | "Windows", "Mac OS" and "UNIX" each identify their API. |
| Bridge.DrawWindow | Bridge.cpp:58-72 | The drawn text is the window kind's prefix followed by the API's name. |
| Bridge.DrawRoundTrip | Bridge.cpp:58-72 | The drawn text reads back as the window kind and API. |
| Bridge.DrawWindowInjective | Bridge.cpp:45-72 | The output is determined by, and determines, the pair (window kind, API), and any pair may be combined. |
| Bridge.Client | Bridge.cpp:80-98 | The demonstration draws four windows. |
| Bridge.ClientLines | Bridge.cpp:87-94 | The lines are "Dialog on system: Mac OS", "Dialog on system: Windows", "Dashboard on system: Windows" and "Dashboard on system: UNIX". |
| Visitor.NewSymbol | Visitor.cpp:31-32 | A symbol holds its character, 'a' by default. |
| Visitor.NewRow | Visitor.cpp:48-56 | The row getters return the constructor arguments unchanged. |
| Visitor.GlyphInfo | Visitor.cpp:34-53 | A symbol's info is the one-character string of its character. A row's info starts with "Row ". |
| Visitor.GlyphInfoRoundTrip | Visitor.cpp:34-53 | "Row " + n + " with " + m + " elements" reads back as the row (n, m), and a symbol's info reads back as the symbol. |
| Visitor.GlyphInfoInjective | Visitor.cpp:34-53 | Different glyphs have different info texts. |
| Visitor.VisitSymbol | Visitor.cpp:75-93 | Both visitors write their name, then the symbol's info. |
| Visitor.VisitRow | Visitor.cpp:70-88 | The simple visitor writes two lines and the advanced one four, each starting with the visitor's name. |
| Visitor.Accept | Visitor.cpp:38-60 | Accept runs the overload for the glyph's own kind: four lines only for a row under the advanced visitor. |
| Visitor.SimpleVisitorShowsGlyph | Visitor.cpp:68-79 | The simple visitor's second line reads back as the visited glyph. |
| Visitor.AdvancedVisitorReportsRow | Visitor.cpp:83-88 | On a row the advanced visitor's lines read back as the row number, the element count and their product. |
| Visitor.Client | Visitor.cpp:96-108 | Twelve lines, with empty lines between the three visits. |
| Visitor.SimpleVisitRowExample | Visitor.cpp:113-114 | Row (2, 3) under the simple visitor gives "Simple visitor" and "Row 2 with 3 elements". |
| Visitor.AdvancedVisitRowExample1 | Visitor.cpp:116-119 | Row (2, 3) under the advanced visitor reports 2, 3 and 6. |
| Visitor.AdvancedVisitRowExample2 | Visitor.cpp:121-124 | Row (3, 13) under the advanced visitor reports 3, 13 and 39. |
| Visitor.ClientOutput | Visitor.cpp:110-125 | The whole demonstration output as listed beside the program. |
| TemplateMethod.Step1 | TemplateMethod.cpp:34-53 | Step 1 writes a line naming step 1 and ending with the class's number. |
| TemplateMethod.Step2 | TemplateMethod.cpp:38-57 | Step 2 writes a line naming step 2 and ending with the class's number. |
| TemplateMethod.Hook | TemplateMethod.cpp:27-45 | The hook writes one line for `ConcreteClass1` and nothing for `ConcreteClass2`. |
| TemplateMethod.DefaultHook | TemplateMethod.cpp:27 | The default hook writes nothing. |
| TemplateMethod.Skeleton | TemplateMethod.cpp:15-19 | `operation` writes step 1 first, then the hook's lines, then step 2 last. |
| TemplateMethod.DefaultHookRunsStepsOnly | TemplateMethod.cpp:15-27 | A class that keeps the default hook runs exactly its two steps. |
| TemplateMethod.SkeletonOfClass1 | TemplateMethod.cpp:32-46 | `ConcreteClass1` writes Step 1, Hook and Step 2, each "from ConcreteClass1". |
| TemplateMethod.SkeletonOfClass2 | TemplateMethod.cpp:49-58 | `ConcreteClass2` writes Step 1 and Step 2 with no hook line. |
| TemplateMethod.ClientClass.constructor | TemplateMethod.cpp:63-64 | The client holds the class it is given. |
| TemplateMethod.ClientClass.SetAbstractClass | TemplateMethod.cpp:66-68 | Replaces the class for later calls. |
| TemplateMethod.ClientClass.Operation | TemplateMethod.cpp:70-72 | Runs the algorithm of the class currently held. |
| TemplateMethod.Client | TemplateMethod.cpp:79-85 | The `ConcreteClass1` trace, then the `ConcreteClass2` trace. |
| StatePattern.Handle | State.cpp:35-48 | Each state writes a 9-character line starting with its own letter. |
| StatePattern.HandleIdentifiesState | State.cpp:35-48 | "A handler" and "B handler" tell the two states apart. |
| StatePattern.State.constructor | State.cpp:30 | A state starts without a context. |
| StatePattern.State.SetContext | State.cpp:23-25 | Stores the back-reference, which may be empty, and changes nothing else. |
| StatePattern.Context.constructor | State.cpp:53-54 | The state passed in is the current state. |
| StatePattern.Context.SetState | State.cpp:56-58 | Replaces the current state for every later request. |
| StatePattern.Context.Request | State.cpp:60-62 | Writes the line of exactly the current state. |
| StatePattern.Client | State.cpp:69-75 | "A handler", then "B handler" after the switch. |
| Command.Execute | Command.cpp:35-56 | A simple command writes one line and a complex command three. |
| Command.ExecuteShowsRequest | Command.cpp:39-56 | Output shows the request string unchanged after the fixed prefix. A complex command also shows the receiver's hash, which reads back from its decimal text. |
| Command.Invoker.constructor | Command.cpp:67 | Both slots start empty. |
| Command.Invoker.SetOnStartCommand | Command.cpp:69-71 | Replaces only the start slot; a null command empties it. |
| Command.Invoker.SetOnEndCommand | Command.cpp:73-75 | Replaces only the end slot; a null command empties it. |
| Command.Invoker.Start | Command.cpp:77 | Needs a filled start slot and executes that command. |
| Command.Invoker.End | Command.cpp:78 | Needs a filled end slot and executes that command. |
| Command.Client | Command.cpp:86-95 | Start gives the simple command's line for "Hello world!". End gives the complex command's three lines. |
| Mediator.DoLogic | Mediator.cpp:42-56 | Each component's logic line names that component's letter. |
| Mediator.Reaction | Mediator.cpp:74-82 | The mediator's reaction line names the event's letter. |
| Mediator.DoLogicDistinct | Mediator.cpp:42-56 | The two components' logic lines differ. |
| Mediator.NotifyLines | Mediator.cpp:74-88 | Event A runs component A's logic and event B runs component B's. Each notification ends with an empty line. |
| Mediator.NotifyDistinguishesEvents | Mediator.cpp:74-88 | Different events give different output. |
| Mediator.ConcreteComponentA.constructor | Mediator.cpp:27 | A component starts with the mediator it is given, null by default. |
| Mediator.ConcreteComponentA.SetMediator | Mediator.cpp:30-32 | Stores the mediator; null is accepted. |
| Mediator.ConcreteComponentA.DoB | Mediator.cpp:46-48 | Sends event B, so component B's logic runs. |
| Mediator.ConcreteComponentB.constructor | Mediator.cpp:27 | A component starts with the mediator it is given, null by default. |
| Mediator.ConcreteComponentB.SetMediator | Mediator.cpp:30-32 | Stores the mediator; null is accepted. |
| Mediator.ConcreteComponentB.DoA | Mediator.cpp:58-60 | Sends event A, so component A's logic runs. |
| Mediator.ConcreteMediator.constructor | Mediator.cpp:67-72 | Keeps both components and registers itself as the mediator of each. |
| Mediator.ConcreteMediator.Notify | Mediator.cpp:74-88 | Writes the notification lines for the event. |
| Mediator.Client | Mediator.cpp:96-111 | `do_b` triggers B's logic and `do_a` triggers A's, with the reaction lines as written. |
| Singleton.DefaultSingleton | Singleton.cpp:17 | `check` starts at 0. |
| Singleton.InstanceStorage.constructor | Singleton.cpp:12 | No instance exists before the first call. |
| Singleton.InstanceStorage.GetInstance | Singleton.cpp:11-15 | Each call increments the one static instance by exactly 1 and returns a copy. The n-th call's copy has `check == n`. |
| Singleton.Client | Singleton.cpp:20-25 | The two copies hold 1 and 2, printed "1 2": both calls reach the same static instance. |
| Prototype.CheckerStatics.constructor | Prototype_with_template_args.cpp:18 | `count` starts at 1. |
| Prototype.CheckerStatics.Show | Prototype_with_template_args.cpp:23-26 | The printed count reads back as `count`, followed by a newline. |
| Prototype.Checker.Default | Prototype_with_template_args.cpp:20 | Default construction leaves `count` unchanged. |
| Prototype.Checker.Copy | Prototype_with_template_args.cpp:21 | Copy construction increments `count` by exactly 1. |
| Prototype.Clone | Prototype_with_template_args.cpp:12-14 | `clone` makes a new object with exactly one copy construction. |
| Prototype.Client | Prototype_with_template_args.cpp:29-39 | The count prints as 1, then as 2 after one clone. |

## Left out

- Printing: `std::cout` and stream plumbing are not modelled. Each output line is a returned string instead. Observer's `print_message` and Strategy's `print_nums` are left out for this reason; they only write the observer's message and the numbers the model returns.
- Proxy.cpp is not part of this model. It reads credentials interactively from standard input.
- Memento.cpp is not part of this model. It does not compile as written.
- Facade.cpp is not part of this model. It is a fixed print sequence through pointers that are never allocated, with no state or decision.
- Adapter.cpp is not part of this model. It forwards to a print call, with the same output on both paths.
- Prototype.cpp is not part of this model. It holds only an abstract interface and an empty `main`.
- Command.cpp `Receiver::get_hash`: `std::hash` is implementation-defined, so its value is a field of the complex command, chosen by the caller.
- Ownership and lifetime defects are not modelled. Objects are held by reference or by key. The defects are:
  - Mediator's two `unique_ptr`s own one stack mediator;
  - decorators own stack components;
  - Bridge deletes only its first API pointer.
- Command.Invoker.Start and Command.Invoker.End: executing an empty slot dereferences null in the program. The model requires the slot to be filled.
- Mediator.ConcreteComponentA.DoB and Mediator.ConcreteComponentB.DoA: notifying through a null mediator dereferences null in the program. The model requires a mediator to be set.
- StatePattern.Context.constructor and StatePattern.Context.SetState: a null state would make every later `request` dereference null. The model takes a non-null state only.
- ChainOfResponsibility.Handler.ProcessRequest: cyclic chains are not modelled; the links must form a finite null-terminated list. Forwarding from the last handler is undefined behaviour in the program and is reported as the outcome `NullNext`.
- Strategy: the template and concept machinery is not modelled; only `std::vector<int>` is. The strategies are specified by their result, a sorted permutation, not by `std::sort`'s algorithm.
- Observer: the iteration order of the `unordered_set` in `notify` is unspecified and is not modelled. Only `SimpleObserver` implements the observer interface here.
- Mediator: the abstract `Mediator` and `Component` bases are merged into their single concrete classes. `notify`'s sender argument is not used by the program and is dropped. Its final `else` branch cannot run with a two-valued `Events`, so it is not modelled.
- Flyweight: the table maps keys to `CarType` values. A `Car` holds its key, not a reference into the table, so reference stability is not modelled.
- Singleton.InstanceStorage.GetInstance: `check` is an unbounded integer, so the overflow after 2^31 - 1 calls is not modelled. Thread-safe static initialisation is not modelled either; calls are sequential.
- Visitor.VisitRow: the product is taken on unbounded integers. C++ `int` multiplication overflow, which is undefined, is not modelled.
- Prototype.Clone: only `Checker` is cloned. The template's copy-constructibility requirement is a compile-time check on the type and is not modelled.
- Prototype.CheckerStatics: `count` is an unbounded integer; `int` overflow is not modelled.
