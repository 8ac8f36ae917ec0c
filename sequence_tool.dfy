/** The sequence helpers of src/sequenceTool.py over exact reals. */
module SequenceTool {
  import opened Outcomes
  import opened Numbers

  // ---------------------------------------------------------------------------
  // CumulateList: the list of running sums
  // ---------------------------------------------------------------------------

  /** Element idx is the sum of alist[0..idx] inclusive, for every index of alist. */
  function CumulateList(alist: seq<real>): (r: seq<real>)
    ensures |r| == |alist|
  {
    seq(|alist|, idx requires 0 <= idx < |alist| => Sum(alist[..idx + 1]))
  }

  /** The running sums start at the first element and grow by the next element at each step. */
  lemma CumulateListRecurrence(alist: seq<real>)
    ensures |alist| > 0 ==> CumulateList(alist)[0] == alist[0]
    ensures forall i :: 0 <= i < |alist| - 1 ==>
      CumulateList(alist)[i + 1] == CumulateList(alist)[i] + alist[i + 1]
  {
    if |alist| > 0 {
      assert alist[..1] == [alist[0]] + [];
      SumAppend([], alist[0]);
    }
    forall i | 0 <= i < |alist| - 1
      ensures CumulateList(alist)[i + 1] == CumulateList(alist)[i] + alist[i + 1]
    {
      assert alist[..i + 2] == alist[..i + 1] + [alist[i + 1]];
      SumAppend(alist[..i + 1], alist[i + 1]);
    }
  }

  /** The last running sum is the total of the list. */
  lemma CumulateListLast(alist: seq<real>)
    requires |alist| > 0
    ensures CumulateList(alist)[|alist| - 1] == Sum(alist)
  {
    assert alist[..|alist|] == alist;
  }

  /** Extending the list by x extends its running sums by the old total plus x; earlier sums are unchanged. */
  lemma CumulateListAppend(alist: seq<real>, x: real)
    ensures CumulateList(alist + [x]) == CumulateList(alist) + [Sum(alist) + x]
  {
    var ext := alist + [x];
    forall i | 0 <= i < |alist|
      ensures CumulateList(ext)[i] == CumulateList(alist)[i]
    {
      assert ext[..i + 1] == alist[..i + 1];
    }
    assert ext[..|ext|] == alist + [x];
    SumAppend(alist, x);
  }

  /** The documented example [1, 1, 1] -> [1, 2, 3], and the empty list. */
  lemma CumulateListExample()
    ensures CumulateList([1.0, 1.0, 1.0]) == [1.0, 2.0, 3.0]
    ensures CumulateList([]) == []
  {
    var s := [1.0, 1.0, 1.0];
    assert s[..1] == [1.0];
    assert s[..2] == [1.0, 1.0] && Sum([1.0, 1.0]) == 2.0 by { assert [1.0, 1.0][1..] == [1.0]; }
    assert s[..3] == s && Sum(s) == 3.0 by { assert s[1..] == [1.0, 1.0]; assert [1.0, 1.0][1..] == [1.0]; }
  }

  // ---------------------------------------------------------------------------
  // AvgSequence: mean by an accumulating loop
  // ---------------------------------------------------------------------------

  /** The arithmetic mean of a non-empty list. */
  function Mean(s: seq<real>): real
    requires |s| > 0
  {
    Sum(s) / |s| as real
  }

  /** Accumulates the total and the count in one pass; an empty list divides zero by zero. */
  method AvgSequence(sequence: seq<real>) returns (r: Result<real>)
    ensures |sequence| == 0 ==> r == Failure(DivisionByZero)
    ensures |sequence| > 0 ==> r == Success(Mean(sequence))
  {
    var num := 0;
    var total := 0.0;
    for i := 0 to |sequence|
      invariant num == i
      invariant total == Sum(sequence[..i])
    {
      assert sequence[..i + 1] == sequence[..i] + [sequence[i]];
      SumAppend(sequence[..i], sequence[i]);
      total := total + sequence[i];
      num := num + 1;
    }
    assert sequence[..|sequence|] == sequence;
    if num == 0 {
      r := Failure(DivisionByZero);
    } else {
      r := Success(total / num as real);
    }
  }

  /** The mean lies between any lower and upper bound of the elements. */
  lemma MeanBounds(s: seq<real>, lo: real, hi: real)
    requires |s| > 0
    requires forall i :: 0 <= i < |s| ==> lo <= s[i] <= hi
    ensures lo <= Mean(s) <= hi
  {
    SumBounds(s, lo, hi);
    var n := |s| as real;
    assert Mean(s) * n == Sum(s);
  }

  /** The mean of a list of equal values is that value. */
  lemma MeanOfConstant(s: seq<real>, c: real)
    requires |s| > 0
    requires forall i :: 0 <= i < |s| ==> s[i] == c
    ensures Mean(s) == c
  {
    MeanBounds(s, c, c);
  }

  /** The average of [1, 2, 3] is 2. */
  lemma MeanExample()
    ensures Mean([1.0, 2.0, 3.0]) == 2.0
  {
    var s := [1.0, 2.0, 3.0];
    assert s[1..][1..][1..] == [];
  }

  // ---------------------------------------------------------------------------
  // GetIntersection: the elements of list1 that occur in list2
  // ---------------------------------------------------------------------------

  /** a can be obtained from b by deleting elements, keeping the order of the rest. */
  predicate IsSubsequence<T(==)>(a: seq<T>, b: seq<T>)
    decreases |b|
  {
    if a == [] then true
    else if b == [] then false
    else (a[0] == b[0] && IsSubsequence(a[1..], b[1..])) || IsSubsequence(a, b[1..])
  }

  /** Keeps each element of list1, with its repetitions and in its order, exactly when it occurs in list2. */
  function GetIntersection<T(==,!new)>(list1: seq<T>, list2: seq<T>): (list3: seq<T>)
    ensures IsSubsequence(list3, list1)
    ensures forall v :: v in list3 <==> v in list1 && v in list2
    ensures |list3| <= |list1|
  {
    if list1 == [] then []
    else
      var rest := GetIntersection(list1[1..], list2);
      assert list1 == [list1[0]] + list1[1..];
      if list1[0] in list2 then
        assert ([list1[0]] + rest)[1..] == rest;
        [list1[0]] + rest
      else rest
  }

  /** Duplicates are kept: each value occurs as often as in list1 when it is in list2, and not at all otherwise. */
  lemma {:induction false} GetIntersectionCounts<T(!new)>(list1: seq<T>, list2: seq<T>, v: T)
    ensures multiset(GetIntersection(list1, list2))[v] == if v in list2 then multiset(list1)[v] else 0
  {
    if list1 != [] {
      GetIntersectionCounts(list1[1..], list2, v);
      assert list1 == [list1[0]] + list1[1..];
    }
  }

  /** Filtering a concatenation filters each part. */
  lemma {:induction false} GetIntersectionConcat<T(!new)>(a: seq<T>, b: seq<T>, list2: seq<T>)
    ensures GetIntersection(a + b, list2) == GetIntersection(a, list2) + GetIntersection(b, list2)
  {
    if a == [] {
      assert a + b == b;
    } else {
      assert (a + b)[1..] == a[1..] + b;
      GetIntersectionConcat(a[1..], b, list2);
    }
  }

  /** When every element of list1 occurs in list2, nothing is dropped; in particular GetIntersection(l, l) == l. */
  lemma {:induction false} GetIntersectionKeepsAll<T(!new)>(list1: seq<T>, list2: seq<T>)
    requires forall v :: v in list1 ==> v in list2
    ensures GetIntersection(list1, list2) == list1
  {
    if list1 != [] {
      GetIntersectionKeepsAll(list1[1..], list2);
    }
  }

  /** An empty second list gives an empty result. */
  lemma GetIntersectionWithEmpty<T(!new)>(list1: seq<T>)
    ensures GetIntersection(list1, []) == []
  {
  }

  /** [1, 2, 3] and [2, 3, 4] intersect as [2, 3]. */
  lemma GetIntersectionExample()
    ensures GetIntersection([1.0, 2.0, 3.0], [2.0, 3.0, 4.0]) == [2.0, 3.0]
  {
    var a := [1.0, 2.0, 3.0];
    assert a[1..] == [2.0, 3.0];
    assert a[1..][1..] == [3.0];
    assert a[1..][1..][1..] == [];
  }
}
