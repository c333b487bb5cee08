/**
 * State: a context forwards each request to its current state object, which
 * writes its own line. Replacing the state changes the context's behaviour.
 */
module StatePattern {

  /** The concrete states. */
  datatype StateKind = ConcreteStateA | ConcreteStateB

  /** `handle` of each concrete state. */
  function Handle(kind: StateKind): (line: string)
    ensures |line| == 9 && line[0] == (if kind.ConcreteStateA? then 'A' else 'B')
  {
    match kind
    case ConcreteStateA => "A handler"
    case ConcreteStateB => "B handler"
  }

  /** The handler's line tells which state ran. */
  lemma HandleIdentifiesState(k: StateKind, j: StateKind)
    ensures Handle(k) == Handle(j) <==> k == j
  {
    if Handle(k) == Handle(j) {
      assert Handle(k)[0] == Handle(j)[0];
    }
  }

  /** A state object with its back-reference to a context (unset at first). */
  class State {
    const kind: StateKind
    var context: Context?

    constructor(kind: StateKind)
      ensures this.kind == kind && context == null
    {
      this.kind := kind;
      context := null;
    }

    /** `set_context`: stores the back-reference and nothing else. */
    method SetContext(context: Context?)
      modifies this
      ensures this.context == context
    {
      this.context := context;
    }
  }

  class Context {
    var state: State

    /** The state passed in handles the requests until it is replaced. */
    constructor(state: State)
      ensures this.state == state
    {
      this.state := state;
    }

    method SetState(state: State)
      modifies this
      ensures this.state == state
    {
      this.state := state;
    }

    /** Hands the request to exactly the current state. */
    method Request() returns (line: string)
      ensures line == Handle(state.kind)
    {
      line := Handle(state.kind);
    }
  }

  /** The demonstration: a request in state A, then a request after switching to B. */
  method Client() returns (lines: seq<string>)
    ensures lines == ["A handler", "B handler"]
  {
    var a := new State(ConcreteStateA);
    var context := new Context(a);
    var first := context.Request();
    var b := new State(ConcreteStateB);
    context.SetState(b);
    var second := context.Request();
    lines := [first, second];
  }
}
