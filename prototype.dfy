/**
 * Prototype with a factory: `clone` copy-constructs a new object from a
 * given one. `Checker` counts its copy constructions in a static counter.
 */
module Prototype {
  import opened Wrappers
  import Decimal

  /** The static data member `Checker::count`. */
  class CheckerStatics {
    var count: int

    /** The inline initialiser: `count` starts at 1. */
    constructor()
      ensures count == 1
    {
      count := 1;
    }

    /** `operator<<` on a `Checker`: the current count and a newline. */
    function Show(): (s: string)
      reads this
      ensures |s| >= 2 && s[|s| - 1] == '\n'
      ensures Decimal.ParseInt(s[..|s| - 1]) == Some(count)
    {
      var s := Decimal.IntToString(count) + "\n";
      assert s[..|s| - 1] == Decimal.IntToString(count);
      Decimal.IntRoundTrip(count);
      s
    }
  }

  class Checker {
    /** The defaulted constructor leaves the counter alone. */
    constructor Default(statics: CheckerStatics)
      ensures statics.count == old(statics.count)
    {
    }

    /** The copy constructor increments the counter by one. */
    constructor Copy(statics: CheckerStatics, other: Checker)
      modifies statics
      ensures statics.count == old(statics.count) + 1
    {
      new;
      statics.count := statics.count + 1;
    }
  }

  /** `clone` heap-allocates a copy of its argument: one copy construction. */
  method Clone(statics: CheckerStatics, original: Checker) returns (copy: Checker)
    modifies statics
    ensures fresh(copy) && copy != original
    ensures statics.count == old(statics.count) + 1
  {
    copy := new Checker.Copy(statics, original);
  }

  /** The demonstration: the count is shown as 1, then as 2 after one clone. */
  method Client() returns (before: string, after: string)
    ensures before == "1\n" && after == "2\n"
  {
    var statics := new CheckerStatics();
    var checker := new Checker.Default(statics);
    before := statics.Show();
    var newChecker := Clone(statics, checker);
    after := statics.Show();
    assert Decimal.IntToString(1) == "1" && Decimal.IntToString(2) == "2";
  }
}
