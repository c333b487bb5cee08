/**
 * Decorator: components produce a string; decorators wrap a component and
 * surround its output. The plain `Decorator` passes the output through;
 * `DecoratorA` and `DecoratorB` wrap it in "Decorator A(" ... ")" and
 * "Decorator B(" ... ")".
 */
module Decorator {

  /** A component and, for decorators, the component it wraps. */
  datatype Component =
    | ConcreteComponent
    | NewCoolConcreteComponent
    | Decorator(inner: Component)
    | DecoratorA(inner: Component)
    | DecoratorB(inner: Component)

  /**
   * `operator()` of each class. Every output is at least as long as the
   * shorter base text, and it ends in ')' exactly when an A or B layer is present.
   */
  function Call(c: Component): (s: string)
    ensures |s| >= 18
    ensures s[|s| - 1] == ')' <==> Layers(c) > 0
  {
    match c
    case ConcreteComponent => "Concrete Component"
    case NewCoolConcreteComponent => "New Cool Concrete Component!"
    case Decorator(inner) => Call(inner)
    case DecoratorA(inner) => "Decorator A(" + Call(inner) + ")"
    case DecoratorB(inner) => "Decorator B(" + Call(inner) + ")"
  }

  /** The component at the bottom of all wrappers. */
  function Base(c: Component): (b: Component)
    ensures b.ConcreteComponent? || b.NewCoolConcreteComponent?
  {
    match c
    case ConcreteComponent => c
    case NewCoolConcreteComponent => c
    case Decorator(inner) => Base(inner)
    case DecoratorA(inner) => Base(inner)
    case DecoratorB(inner) => Base(inner)
  }

  /** Number of A and B layers (plain decorators add nothing to the output). */
  function Layers(c: Component): nat
  {
    match c
    case ConcreteComponent => 0
    case NewCoolConcreteComponent => 0
    case Decorator(inner) => Layers(inner)
    case DecoratorA(inner) => Layers(inner) + 1
    case DecoratorB(inner) => Layers(inner) + 1
  }

  /** The component with every plain `Decorator` layer removed. */
  function Strip(c: Component): (s: Component)
    ensures !s.Decorator?
  {
    match c
    case ConcreteComponent => c
    case NewCoolConcreteComponent => c
    case Decorator(inner) => Strip(inner)
    case DecoratorA(inner) => DecoratorA(Strip(inner))
    case DecoratorB(inner) => DecoratorB(Strip(inner))
  }

  /** Each A or B layer adds 13 characters (a 12-character prefix and ")") around the base output. */
  lemma {:induction false} CallLength(c: Component)
    ensures |Call(c)| == |Call(Base(c))| + 13 * Layers(c)
  {
    match c
    case ConcreteComponent =>
    case NewCoolConcreteComponent =>
    case Decorator(inner) => CallLength(inner);
    case DecoratorA(inner) => CallLength(inner);
    case DecoratorB(inner) => CallLength(inner);
  }

  /** A plain `Decorator` is transparent: removing such layers changes no output. */
  lemma {:induction false} StripKeepsCall(c: Component)
    ensures Call(Strip(c)) == Call(c)
  {
    match c
    case ConcreteComponent =>
    case NewCoolConcreteComponent =>
    case Decorator(inner) => StripKeepsCall(inner);
    case DecoratorA(inner) => StripKeepsCall(inner);
    case DecoratorB(inner) => StripKeepsCall(inner);
  }

  /** The output starts with 'D' exactly when the outermost visible layer is A or B. */
  lemma FirstChar(c: Component)
    requires !c.Decorator?
    ensures |Call(c)| > 0
    ensures Call(c)[0] == 'D' <==> c.DecoratorA? || c.DecoratorB?
  {
  }

  /** The eleventh character names the outermost A or B layer. */
  lemma LayerLetter(c: Component)
    ensures c.DecoratorA? ==> |Call(c)| > 10 && Call(c)[10] == 'A'
    ensures c.DecoratorB? ==> |Call(c)| > 10 && Call(c)[10] == 'B'
  {
  }

  /** No plain `Decorator` layer anywhere in the component. */
  predicate NoPassThrough(c: Component)
  {
    match c
    case ConcreteComponent => true
    case NewCoolConcreteComponent => true
    case Decorator(_) => false
    case DecoratorA(inner) => NoPassThrough(inner)
    case DecoratorB(inner) => NoPassThrough(inner)
  }

  lemma {:induction false} StripHasNoPassThrough(c: Component)
    ensures NoPassThrough(Strip(c))
  {
    match c
    case ConcreteComponent =>
    case NewCoolConcreteComponent =>
    case Decorator(inner) => StripHasNoPassThrough(inner);
    case DecoratorA(inner) => StripHasNoPassThrough(inner);
    case DecoratorB(inner) => StripHasNoPassThrough(inner);
  }

  /** Without plain decorators, equal outputs mean equal components. */
  lemma {:induction false} CallInjective(c: Component, d: Component)
    requires NoPassThrough(c) && NoPassThrough(d)
    requires Call(c) == Call(d)
    ensures c == d
  {
    FirstChar(c);
    FirstChar(d);
    LayerLetter(c);
    LayerLetter(d);
    match c
    case ConcreteComponent =>
    case NewCoolConcreteComponent =>
    case DecoratorA(inner) =>
      var x := Call(c);
      assert d.DecoratorA?;
      assert Call(inner) == x[12..|x| - 1] == Call(d.inner);
      CallInjective(inner, d.inner);
    case DecoratorB(inner) =>
      var x := Call(c);
      assert d.DecoratorB?;
      assert Call(inner) == x[12..|x| - 1] == Call(d.inner);
      CallInjective(inner, d.inner);
  }

  /** The output determines the nesting of A and B layers and the base component. */
  lemma CallDeterminesNesting(c: Component, d: Component)
    requires Call(c) == Call(d)
    ensures Strip(c) == Strip(d)
  {
    StripKeepsCall(c);
    StripKeepsCall(d);
    StripHasNoPassThrough(c);
    StripHasNoPassThrough(d);
    CallInjective(Strip(c), Strip(d));
  }

  /** The demonstration's first decorator. */
  lemma DemoDecoratorA()
    ensures Call(DecoratorA(ConcreteComponent)) == "Decorator A(Concrete Component)"
  {
  }

  /** The demonstration's second decorator. */
  lemma DemoDecoratorB()
    ensures Call(DecoratorB(NewCoolConcreteComponent)) ==
            "Decorator B(" + "New Cool Concrete Component!" + ")"
  {
  }

  /** The demonstration's third decorator, wrapping the second. */
  lemma DemoNested()
    ensures Call(DecoratorA(DecoratorB(NewCoolConcreteComponent))) ==
            "Decorator A(Decorator B(" + "New Cool Concrete Component!" + "))"
  {
  }

  /** The demonstration: the three decorators' outputs in the order they are printed. */
  method Client() returns (lines: seq<string>)
    ensures lines == ["Decorator A(Concrete Component)",
                      "Decorator B(" + "New Cool Concrete Component!" + ")",
                      "Decorator A(Decorator B(" + "New Cool Concrete Component!" + "))"]
  {
    var decorator1 := DecoratorA(ConcreteComponent);
    var decorator2 := DecoratorB(NewCoolConcreteComponent);
    var decorator3 := DecoratorA(decorator2);
    DemoDecoratorA();
    DemoDecoratorB();
    DemoNested();
    lines := [Call(decorator1), Call(decorator2), Call(decorator3)];
  }
}
