/**
 * Singleton: `get_instance` keeps one static instance, created on the first
 * call, bumps its `check` counter and returns a copy of it.
 */
module Singleton {
  import opened Wrappers
  import Decimal

  /** A `Singleton` object as a value: copies are independent of each other. */
  datatype Singleton = Singleton(check: int)

  /** The defaulted constructor: `check` starts at 0. */
  function DefaultSingleton(): (s: Singleton)
    ensures s.check == 0
  {
    Singleton(0)
  }

  /** The function-local static of `get_instance`, absent until the first call. */
  class InstanceStorage {
    var instance: Option<Singleton>
    ghost var calls: nat

    ghost predicate Valid()
      reads this
    {
      (instance.None? <==> calls == 0) &&
      (instance.Some? ==> instance.value.check == calls)
    }

    /** Program start: no call has happened yet. */
    constructor()
      ensures Valid() && instance == None && calls == 0
    {
      instance := None;
      calls := 0;
    }

    /** Creates the instance on the first call, increments it and returns a copy. */
    method GetInstance() returns (copy: Singleton)
      requires Valid()
      modifies this
      ensures Valid()
      ensures calls == old(calls) + 1
      ensures instance == Some(copy)
      ensures copy.check == calls
    {
      var current := if instance.None? then DefaultSingleton() else instance.value;
      instance := Some(current.(check := current.check + 1));
      calls := calls + 1;
      copy := instance.value;
    }
  }

  /**
   * The demonstration: two calls give copies with 1 and 2, printed as "1 2",
   * because both calls reach the same static instance.
   */
  method Client() returns (test1: Singleton, test2: Singleton, line: string)
    ensures test1.check == 1 && test2.check == 2
    ensures line == "1 2"
  {
    var storage := new InstanceStorage();
    test1 := storage.GetInstance();
    test2 := storage.GetInstance();
    assert storage.instance == Some(Singleton(2));
    assert Decimal.IntToString(1) == "1" && Decimal.IntToString(2) == "2";
    line := Decimal.IntToString(test1.check) + " " + Decimal.IntToString(test2.check);
  }
}
