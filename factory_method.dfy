/**
 * Factory Method: three creators of products. Two always build the same
 * product; `FactoryLikeCreator` keeps a counter and builds one laptop after
 * every two smartphones.
 */
module FactoryMethod {
  import Decimal

  /** The concrete products; each reports a fixed name. */
  datatype Product = Smartphone | Laptop

  function NameOfProduct(p: Product): (name: string)
    ensures |name| > 0 && (name[0] == 'L' <==> p == Laptop)
  {
    match p
    case Smartphone => "Smartphone"
    case Laptop => "Laptop"
  }

  /** Different products report different names. */
  lemma ProductNamesDistinct(p: Product, q: Product)
    ensures NameOfProduct(p) == NameOfProduct(q) <==> p == q
  {
  }

  /** `SmartphoneCreator::create_object`. */
  function SmartphoneCreate(): (p: Product)
    ensures NameOfProduct(p) == "Smartphone"
  {
    Smartphone
  }

  /** `LaptopCreator::create_object`. */
  function LaptopCreate(): (p: Product)
    ensures NameOfProduct(p) == "Laptop"
  {
    Laptop
  }

  /** The product the i-th call (from 0) of a fresh `FactoryLikeCreator` yields. */
  function NthProduct(i: nat): Product
  {
    if i % 3 == 2 then Laptop else Smartphone
  }

  /** One step of the counter cycle: the new counter and the product built. */
  function Step(counter: nat): (r: (nat, Product))
    requires counter <= 2
    ensures r.0 <= 2
    ensures r.1 == Laptop <==> counter == 2
    ensures r.0 == (counter + 1) % 3
  {
    if counter == 2 then (0, Laptop) else (counter + 1, Smartphone)
  }

  /** Products of `n` successive calls starting from the given counter value. */
  function Run(counter: nat, n: nat): (products: seq<Product>)
    requires counter <= 2
    ensures |products| == n
    decreases n
  {
    if n == 0 then [] else [Step(counter).1] + Run(Step(counter).0, n - 1)
  }

  /** Starting from counter c, call i builds a laptop exactly when (c + i) mod 3 == 2. */
  lemma {:induction false} RunAt(counter: nat, n: nat, i: nat)
    requires counter <= 2 && i < n
    ensures Run(counter, n)[i] == NthProduct(counter + i)
    decreases n
  {
    if i > 0 {
      RunAt(Step(counter).0, n - 1, i - 1);
    }
  }

  /** From a fresh creator: one laptop after every two smartphones. */
  lemma FreshRunIsCycle(n: nat)
    ensures |Run(0, n)| == n
    ensures forall i :: 0 <= i < n ==> (Run(0, n)[i] == Laptop <==> i % 3 == 2)
  {
    forall i | 0 <= i < n
      ensures Run(0, n)[i] == Laptop <==> i % 3 == 2
    {
      RunAt(0, n, i);
    }
  }

  /** `FactoryLikeCreator`: `counter` is the private `_counter` field. */
  class FactoryLikeCreator {
    var counter: nat
    /** Number of `create_object` calls made so far. */
    ghost var calls: nat

    ghost predicate Valid()
      reads this
    {
      counter <= 2 && counter == calls % 3
    }

    constructor ()
      ensures Valid() && counter == 0 && calls == 0
    {
      counter := 0;
      calls := 0;
    }

    method CreateObject() returns (p: Product)
      requires Valid()
      modifies this
      ensures Valid() && calls == old(calls) + 1
      ensures old(counter) == 2 ==> counter == 0 && p == Laptop
      ensures old(counter) != 2 ==> counter == old(counter) + 1 && p == Smartphone
      ensures (counter, p) == Step(old(counter))
      ensures p == NthProduct(old(calls))
    {
      if counter == 2 {
        counter := 0;
        p := Laptop;
      } else {
        counter := counter + 1;
        p := Smartphone;
      }
      calls := calls + 1;
    }
  }

  /** One output line of the demonstration loop. */
  function OutputLine(i: nat, p: Product): string
  {
    "i = " + Decimal.NatToString(i) + "; Product: " + NameOfProduct(p)
  }

  /** The demonstration: ten calls on a fresh `FactoryLikeCreator`, one line each. */
  method Client() returns (lines: seq<string>)
    ensures |lines| == 10
    ensures forall i :: 0 <= i < 10 ==> lines[i] == OutputLine(i, if i % 3 == 2 then Laptop else Smartphone)
  {
    var creator := new FactoryLikeCreator();
    lines := [];
    var i := 0;
    while i < 10
      invariant 0 <= i <= 10
      invariant creator.Valid() && creator.calls == i
      invariant |lines| == i
      invariant forall k :: 0 <= k < i ==> lines[k] == OutputLine(k, NthProduct(k))
    {
      var p := creator.CreateObject();
      lines := lines + [OutputLine(i, p)];
      i := i + 1;
    }
  }
}
