/**
 * Template Method: `operation` fixes the order step 1, hook, step 2; the
 * concrete classes supply the steps and may override the hook, which does
 * nothing by default. Each step writes one line; a run is its list of lines.
 */
module TemplateMethod {

  /** The concrete subclasses of `AbstractClass`. */
  datatype ConcreteClass = ConcreteClass1 | ConcreteClass2

  /** The base class's hook: no output. */
  function DefaultHook(): (lines: seq<string>)
    ensures lines == []
  {
    []
  }

  /** `step1` of each concrete class. */
  function Step1(c: ConcreteClass): (line: string)
    ensures |line| == 26 && line[5] == '1'
    ensures line[25] == (if c.ConcreteClass1? then '1' else '2')
  {
    match c
    case ConcreteClass1 => "Step 1 from ConcreteClass1"
    case ConcreteClass2 => "Step 1 from ConcreteClass2"
  }

  /** `step2` of each concrete class. */
  function Step2(c: ConcreteClass): (line: string)
    ensures |line| == 26 && line[5] == '2'
    ensures line[25] == (if c.ConcreteClass1? then '1' else '2')
  {
    match c
    case ConcreteClass1 => "Step 2 from ConcreteClass1"
    case ConcreteClass2 => "Step 2 from ConcreteClass2"
  }

  /** `ConcreteClass1` overrides the hook; `ConcreteClass2` keeps the default. */
  function Hook(c: ConcreteClass): (lines: seq<string>)
    ensures |lines| <= 1 && (lines == [] <==> c.ConcreteClass2?)
  {
    match c
    case ConcreteClass1 => ["Hook from ConcreteClass1"]
    case ConcreteClass2 => DefaultHook()
  }

  /** `AbstractClass::operation`: step 1, then the hook, then step 2. */
  function Skeleton(c: ConcreteClass): (lines: seq<string>)
    ensures |lines| == 2 + |Hook(c)|
    ensures lines[0] == Step1(c) && lines[|lines| - 1] == Step2(c)
    ensures lines[1..|lines| - 1] == Hook(c)
  {
    var lines := [Step1(c)] + Hook(c) + [Step2(c)];
    assert lines[1..|lines| - 1] == Hook(c);
    lines
  }

  /** A class that keeps the default hook runs exactly its two steps. */
  lemma DefaultHookRunsStepsOnly(c: ConcreteClass)
    requires Hook(c) == DefaultHook()
    ensures Skeleton(c) == [Step1(c), Step2(c)]
  {
    assert Skeleton(c) == [Skeleton(c)[0], Skeleton(c)[1]];
  }

  /** The two traces: only `ConcreteClass1` writes a hook line. */
  lemma SkeletonOfClass1()
    ensures Skeleton(ConcreteClass1) ==
            ["Step 1 from ConcreteClass1", "Hook from ConcreteClass1", "Step 2 from ConcreteClass1"]
  {
  }

  lemma SkeletonOfClass2()
    ensures Skeleton(ConcreteClass2) == ["Step 1 from ConcreteClass2", "Step 2 from ConcreteClass2"]
  {
  }

  /** Holds the algorithm object it runs; it can be swapped for another. */
  class ClientClass {
    var abstractClass: ConcreteClass

    constructor(abstractClass: ConcreteClass)
      ensures this.abstractClass == abstractClass
    {
      this.abstractClass := abstractClass;
    }

    method SetAbstractClass(abstractClass: ConcreteClass)
      modifies this
      ensures this.abstractClass == abstractClass
    {
      this.abstractClass := abstractClass;
    }

    /** Runs the algorithm of the class it currently holds. */
    method Operation() returns (lines: seq<string>)
      ensures lines == Skeleton(abstractClass)
    {
      lines := Skeleton(abstractClass);
    }
  }

  /** The demonstration: run `ConcreteClass1`, switch to `ConcreteClass2`, run again. */
  method Client() returns (lines: seq<string>)
    ensures lines == ["Step 1 from ConcreteClass1", "Hook from ConcreteClass1", "Step 2 from ConcreteClass1",
                      "Step 1 from ConcreteClass2", "Step 2 from ConcreteClass2"]
  {
    var clientClass := new ClientClass(ConcreteClass1);
    var first := clientClass.Operation();
    clientClass.SetAbstractClass(ConcreteClass2);
    var second := clientClass.Operation();
    SkeletonOfClass1();
    SkeletonOfClass2();
    lines := first + second;
  }
}
