/**
 * Mediator: two components talk only to a mediator. Component A sends event
 * B and component B sends event A; the mediator reacts to each event by
 * running one component's logic. Output lines are returned in order.
 */
module Mediator {

  /** `Events`. */
  datatype Event = A | B

  /** The concrete components, as far as their output is concerned. */
  datatype ComponentKind = ComponentA | ComponentB

  /** `do_logic` of each component. */
  function DoLogic(kind: ComponentKind): (line: string)
    ensures |line| > 19 && line[19] == (if kind.ComponentA? then 'A' else 'B')
  {
    match kind
    case ComponentA => "Concrete component A does some logic..."
    case ComponentB => "Concrete component B does some logic..."
  }

  lemma DoLogicDistinct()
    ensures DoLogic(ComponentA) != DoLogic(ComponentB)
  {
    assert DoLogic(ComponentA)[19] != DoLogic(ComponentB)[19];
  }

  /** The component whose logic the mediator runs for an event. */
  function Triggered(event: Event): ComponentKind
  {
    match event
    case A => ComponentA
    case B => ComponentB
  }

  /** The line the mediator writes first for an event. */
  function Reaction(event: Event): (line: string)
    ensures |line| > 19 && line[19] == (if event.A? then 'A' else 'B')
  {
    match event
    case A => "Mediator reacts on A and triggers component A:"
    case B => "Mediator reacts on B and triggers component A:"
  }

  /** `ConcreteMediator::notify`: the reaction, the component's logic, then an empty line. */
  function NotifyLines(event: Event): (lines: seq<string>)
    ensures |lines| == 3 && lines[2] == ""
    ensures lines[1] == DoLogic(ComponentA) <==> event == A
    ensures lines[1] == DoLogic(ComponentB) <==> event == B
  {
    DoLogicDistinct();
    [Reaction(event), DoLogic(Triggered(event)), ""]
  }

  /** Different events give different output. */
  lemma NotifyDistinguishesEvents(e: Event, f: Event)
    ensures NotifyLines(e) == NotifyLines(f) <==> e == f
  {
    if NotifyLines(e) == NotifyLines(f) {
      assert NotifyLines(e)[1] == NotifyLines(f)[1];
    }
  }

  class ConcreteComponentA {
    var mediator: ConcreteMediator?

    /** A component starts with the mediator it is given, none by default. */
    constructor(mediator: ConcreteMediator? := null)
      ensures this.mediator == mediator
    {
      this.mediator := mediator;
    }

    /** `set_mediator`: stores the mediator, which may be null. */
    method SetMediator(mediator: ConcreteMediator?)
      modifies this
      ensures this.mediator == mediator
    {
      this.mediator := mediator;
    }

    /** `do_b`: notifies the mediator of event B. */
    method DoB() returns (lines: seq<string>)
      requires mediator != null
      ensures lines == NotifyLines(B)
      ensures lines[1] == DoLogic(ComponentB)
    {
      lines := mediator.Notify(B);
    }
  }

  class ConcreteComponentB {
    var mediator: ConcreteMediator?

    /** A component starts with the mediator it is given, none by default. */
    constructor(mediator: ConcreteMediator? := null)
      ensures this.mediator == mediator
    {
      this.mediator := mediator;
    }

    /** `set_mediator`: stores the mediator, which may be null. */
    method SetMediator(mediator: ConcreteMediator?)
      modifies this
      ensures this.mediator == mediator
    {
      this.mediator := mediator;
    }

    /** `do_a`: notifies the mediator of event A. */
    method DoA() returns (lines: seq<string>)
      requires mediator != null
      ensures lines == NotifyLines(A)
      ensures lines[1] == DoLogic(ComponentA)
    {
      lines := mediator.Notify(A);
    }
  }

  class ConcreteMediator {
    const componentA: ConcreteComponentA
    const componentB: ConcreteComponentB

    /** Keeps both components and registers itself as the mediator of each. */
    constructor(componentA: ConcreteComponentA, componentB: ConcreteComponentB)
      modifies componentA, componentB
      ensures this.componentA == componentA && this.componentB == componentB
      ensures componentA.mediator == this && componentB.mediator == this
    {
      this.componentA := componentA;
      this.componentB := componentB;
      new;
      componentA.SetMediator(this);
      componentB.SetMediator(this);
    }

    /** `notify`; the sender is not consulted. */
    method Notify(event: Event) returns (lines: seq<string>)
      ensures lines == NotifyLines(event)
    {
      lines := NotifyLines(event);
    }
  }

  /** The demonstration: A sends B, then B sends A. */
  method Client() returns (first: seq<string>, second: seq<string>)
    ensures first == ["Mediator reacts on B and triggers component A:",
                      "Concrete component B does some logic...", ""]
    ensures second == ["Mediator reacts on A and triggers component A:",
                       "Concrete component A does some logic...", ""]
  {
    var componentA := new ConcreteComponentA();
    var componentB := new ConcreteComponentB();
    var mediator := new ConcreteMediator(componentA, componentB);
    first := componentA.DoB();
    second := componentB.DoA();
  }
}
