/**
 * Strategy: a context owns a vector of integers and a replaceable sorting
 * strategy; `sort_nums` sorts the vector in place with the current one.
 */
module Strategy {

  /** The two sorting strategies: `AscendingSort` and `DescendingSort`. */
  datatype SortAlgorithm = AscendingSort | DescendingSort

  /** Whether x may come before y under the strategy's order. */
  predicate InOrder(sort: SortAlgorithm, x: int, y: int)
  {
    match sort
    case AscendingSort => x <= y
    case DescendingSort => x >= y
  }

  predicate SortedBy(sort: SortAlgorithm, s: seq<int>)
  {
    forall i, j :: 0 <= i < j < |s| ==> InOrder(sort, s[i], s[j])
  }

  /** Inserts x before the first element it may precede. */
  function Insert(sort: SortAlgorithm, x: int, s: seq<int>): seq<int>
    decreases |s|
  {
    if s == [] then [x]
    else if InOrder(sort, x, s[0]) then [x] + s
    else [s[0]] + Insert(sort, x, s[1..])
  }

  /** Insertion adds exactly one copy of x. */
  lemma {:induction false} InsertPermutes(sort: SortAlgorithm, x: int, s: seq<int>)
    ensures multiset(Insert(sort, x, s)) == multiset(s) + multiset{x}
    decreases |s|
  {
    if s != [] && !InOrder(sort, x, s[0]) {
      InsertPermutes(sort, x, s[1..]);
      assert s == [s[0]] + s[1..];
    }
  }

  /** Insertion into a sorted sequence keeps it sorted. */
  lemma {:induction false} InsertKeepsSorted(sort: SortAlgorithm, x: int, s: seq<int>)
    requires SortedBy(sort, s)
    ensures SortedBy(sort, Insert(sort, x, s))
    decreases |s|
  {
    if s != [] && !InOrder(sort, x, s[0]) {
      var rest := Insert(sort, x, s[1..]);
      InsertKeepsSorted(sort, x, s[1..]);
      InsertPermutes(sort, x, s[1..]);
      forall k | 0 <= k < |rest|
        ensures InOrder(sort, s[0], rest[k])
      {
        assert rest[k] in multiset(rest);
        if rest[k] != x {
          assert rest[k] in multiset(s[1..]);
          var m :| 0 <= m < |s[1..]| && s[1..][m] == rest[k];
          assert s[1 + m] == rest[k];
        }
      }
    }
  }

  /** The effect of applying a strategy, by insertion from the back. */
  function Sort(sort: SortAlgorithm, s: seq<int>): seq<int>
    decreases |s|
  {
    if s == [] then [] else Insert(sort, s[0], Sort(sort, s[1..]))
  }

  /** Applying a strategy leaves a permutation of the input, sorted by the strategy's order. */
  lemma {:induction false} SortCorrect(sort: SortAlgorithm, s: seq<int>)
    ensures SortedBy(sort, Sort(sort, s))
    ensures multiset(Sort(sort, s)) == multiset(s)
    ensures |Sort(sort, s)| == |s|
    decreases |s|
  {
    if s != [] {
      SortCorrect(sort, s[1..]);
      InsertKeepsSorted(sort, s[0], Sort(sort, s[1..]));
      InsertPermutes(sort, s[0], Sort(sort, s[1..]));
      assert s == [s[0]] + s[1..];
      assert |multiset(Sort(sort, s))| == |multiset(s)|;
    }
  }

  /** The first element of a sorted sequence comes before every element. */
  lemma HeadFirst(sort: SortAlgorithm, s: seq<int>, x: int)
    requires SortedBy(sort, s) && |s| > 0 && x in multiset(s)
    ensures InOrder(sort, s[0], x)
  {
    var i :| 0 <= i < |s| && s[i] == x;
  }

  /** Dropping the head removes one copy of it from the multiset. */
  lemma TailMultiset(a: seq<int>)
    requires |a| > 0
    ensures multiset(a[1..]) == multiset(a) - multiset{a[0]}
  {
    assert a == [a[0]] + a[1..];
  }

  /** A sorted permutation is unique: sorting results are determined by the input multiset. */
  lemma {:induction false} SortedUnique(sort: SortAlgorithm, a: seq<int>, b: seq<int>)
    requires SortedBy(sort, a) && SortedBy(sort, b)
    requires multiset(a) == multiset(b)
    ensures a == b
    decreases |a|
  {
    assert |a| == |multiset(a)| == |multiset(b)| == |b|;
    if a != [] {
      assert a[0] in multiset(a) && b[0] in multiset(b);
      HeadFirst(sort, a, b[0]);
      HeadFirst(sort, b, a[0]);
      TailMultiset(a);
      TailMultiset(b);
      SortedUnique(sort, a[1..], b[1..]);
      assert a == [a[0]] + a[1..] && b == [b[0]] + b[1..];
    }
  }

  /** Any sorted permutation of the input is what `Sort` returns. */
  lemma SortIsTheSortedPermutation(sort: SortAlgorithm, s: seq<int>, r: seq<int>)
    requires SortedBy(sort, r) && multiset(r) == multiset(s)
    ensures Sort(sort, s) == r
  {
    SortCorrect(sort, s);
    SortedUnique(sort, Sort(sort, s), r);
  }

  /** `Context`: `nums` is `_nums`, `sort` is the owned `_sort` strategy. */
  class Context {
    var nums: seq<int>
    var sort: SortAlgorithm

    /** The one-argument constructor installs ascending sort. */
    constructor (nums: seq<int>)
      ensures this.nums == nums && sort == AscendingSort
    {
      this.nums := nums;
      sort := AscendingSort;
    }

    constructor WithSort(nums: seq<int>, sort: SortAlgorithm)
      ensures this.nums == nums && this.sort == sort
    {
      this.nums := nums;
      this.sort := sort;
    }

    /** `set_new_sort_algorithm`: the numbers are untouched. */
    method SetNewSortAlgorithm(sort: SortAlgorithm)
      modifies this
      ensures this.sort == sort && nums == old(nums)
    {
      this.sort := sort;
    }

    /** `sort_nums`: the numbers become their sorted permutation under the current strategy. */
    method SortNums()
      modifies this
      ensures nums == Sort(sort, old(nums)) && sort == old(sort)
      ensures SortedBy(sort, nums) && multiset(nums) == multiset(old(nums)) && |nums| == |old(nums)|
    {
      SortCorrect(sort, nums);
      nums := Sort(sort, nums);
    }
  }

  lemma ExampleAscendingStep0()
    ensures Sort(AscendingSort, [5]) == [5]
  {
  }

  lemma ExampleAscendingStep1()
    ensures Sort(AscendingSort, [8, 5]) == [5, 8]
  {
    ExampleAscendingStep0();
    assert [8, 5][1..] == [5];
    assert Sort(AscendingSort, [8, 5]) == Insert(AscendingSort, 8, Sort(AscendingSort, [5]));
  }

  lemma ExampleAscendingStep2()
    ensures Sort(AscendingSort, [7, 8, 5]) == [5, 7, 8]
  {
    ExampleAscendingStep1();
    assert [7, 8, 5][1..] == [8, 5];
    assert Sort(AscendingSort, [7, 8, 5]) == Insert(AscendingSort, 7, Sort(AscendingSort, [8, 5]));
  }

  lemma ExampleAscendingStep3()
    ensures Sort(AscendingSort, [3, 7, 8, 5]) == [3, 5, 7, 8]
  {
    ExampleAscendingStep2();
    assert [3, 7, 8, 5][1..] == [7, 8, 5];
    assert Sort(AscendingSort, [3, 7, 8, 5]) == Insert(AscendingSort, 3, Sort(AscendingSort, [7, 8, 5]));
  }

  lemma ExampleAscendingStep4()
    ensures Sort(AscendingSort, [6, 3, 7, 8, 5]) == [3, 5, 6, 7, 8]
  {
    ExampleAscendingStep3();
    assert [6, 3, 7, 8, 5][1..] == [3, 7, 8, 5];
    assert Sort(AscendingSort, [6, 3, 7, 8, 5]) == Insert(AscendingSort, 6, Sort(AscendingSort, [3, 7, 8, 5]));
  }

  lemma ExampleAscendingStep5()
    ensures Sort(AscendingSort, [3, 6, 3, 7, 8, 5]) == [3, 3, 5, 6, 7, 8]
  {
    ExampleAscendingStep4();
    assert [3, 6, 3, 7, 8, 5][1..] == [6, 3, 7, 8, 5];
    assert Sort(AscendingSort, [3, 6, 3, 7, 8, 5]) == Insert(AscendingSort, 3, Sort(AscendingSort, [6, 3, 7, 8, 5]));
  }

  /** The demonstration's input, sorted ascending. */
  lemma ExampleAscending()
    ensures Sort(AscendingSort, [5, 3, 6, 3, 7, 8, 5]) == [3, 3, 5, 5, 6, 7, 8]
  {
    ExampleAscendingStep5();
    assert [5, 3, 6, 3, 7, 8, 5][1..] == [3, 6, 3, 7, 8, 5];
    assert Sort(AscendingSort, [5, 3, 6, 3, 7, 8, 5]) == Insert(AscendingSort, 5, Sort(AscendingSort, [3, 6, 3, 7, 8, 5]));
  }

  lemma ExampleDescendingStep0()
    ensures Sort(DescendingSort, [8]) == [8]
  {
  }

  lemma ExampleDescendingStep1()
    ensures Sort(DescendingSort, [7, 8]) == [8, 7]
  {
    ExampleDescendingStep0();
    assert [7, 8][1..] == [8];
    assert Sort(DescendingSort, [7, 8]) == Insert(DescendingSort, 7, Sort(DescendingSort, [8]));
  }

  lemma ExampleDescendingStep2()
    ensures Sort(DescendingSort, [6, 7, 8]) == [8, 7, 6]
  {
    ExampleDescendingStep1();
    assert [6, 7, 8][1..] == [7, 8];
    assert Sort(DescendingSort, [6, 7, 8]) == Insert(DescendingSort, 6, Sort(DescendingSort, [7, 8]));
  }

  lemma ExampleDescendingStep3()
    ensures Sort(DescendingSort, [5, 6, 7, 8]) == [8, 7, 6, 5]
  {
    ExampleDescendingStep2();
    assert [5, 6, 7, 8][1..] == [6, 7, 8];
    assert Sort(DescendingSort, [5, 6, 7, 8]) == Insert(DescendingSort, 5, Sort(DescendingSort, [6, 7, 8]));
  }

  lemma ExampleDescendingStep4()
    ensures Sort(DescendingSort, [5, 5, 6, 7, 8]) == [8, 7, 6, 5, 5]
  {
    ExampleDescendingStep3();
    assert [5, 5, 6, 7, 8][1..] == [5, 6, 7, 8];
    assert Sort(DescendingSort, [5, 5, 6, 7, 8]) == Insert(DescendingSort, 5, Sort(DescendingSort, [5, 6, 7, 8]));
  }

  lemma ExampleDescendingStep5()
    ensures Sort(DescendingSort, [3, 5, 5, 6, 7, 8]) == [8, 7, 6, 5, 5, 3]
  {
    ExampleDescendingStep4();
    assert [3, 5, 5, 6, 7, 8][1..] == [5, 5, 6, 7, 8];
    assert Sort(DescendingSort, [3, 5, 5, 6, 7, 8]) == Insert(DescendingSort, 3, Sort(DescendingSort, [5, 5, 6, 7, 8]));
  }

  /** The sorted numbers, sorted again descending. */
  lemma ExampleDescending()
    ensures Sort(DescendingSort, [3, 3, 5, 5, 6, 7, 8]) == [8, 7, 6, 5, 5, 3, 3]
  {
    ExampleDescendingStep5();
    assert [3, 3, 5, 5, 6, 7, 8][1..] == [3, 5, 5, 6, 7, 8];
    assert Sort(DescendingSort, [3, 3, 5, 5, 6, 7, 8]) == Insert(DescendingSort, 3, Sort(DescendingSort, [3, 5, 5, 6, 7, 8]));
  }

  /** The demonstration: ascending, then descending after switching the strategy. */
  method Client() returns (first: seq<int>, second: seq<int>)
    ensures first == [3, 3, 5, 5, 6, 7, 8]
    ensures second == [8, 7, 6, 5, 5, 3, 3]
  {
    var context := new Context.WithSort([5, 3, 6, 3, 7, 8, 5], AscendingSort);
    context.SortNums();
    ExampleAscending();
    first := context.nums;
    context.SetNewSortAlgorithm(DescendingSort);
    context.SortNums();
    ExampleDescending();
    second := context.nums;
  }
}
