/** The parts of JavaScript's `Array.prototype` the core relies on: `filter` and `map`. */
module Lists {

  /** `s.filter(p)`: the elements of `s` that satisfy `p`, in their original order. */
  function Filter<T>(s: seq<T>, p: T -> bool): (r: seq<T>)
    ensures |r| <= |s|
  {
    if s == [] then []
    else if p(s[0]) then [s[0]] + Filter(s[1..], p)
    else Filter(s[1..], p)
  }

  /** `s.map(f)`. */
  function Map<T, U>(s: seq<T>, f: T -> U): (r: seq<U>)
    ensures |r| == |s|
    ensures forall i :: 0 <= i < |s| ==> r[i] == f(s[i])
  {
    seq(|s|, i requires 0 <= i < |s| => f(s[i]))
  }

  /** `a` can be obtained from `b` by deleting elements: `a` is an order-preserving subsequence of `b`. */
  ghost predicate IsSubsequence<T>(a: seq<T>, b: seq<T>)
    decreases |b|
  {
    a == [] || (b != [] && ((a[0] == b[0] && IsSubsequence(a[1..], b[1..])) || IsSubsequence(a, b[1..])))
  }

  /** Every element filtering keeps satisfies `p`, and every element of `s` that satisfies `p` is kept. */
  lemma {:induction false} FilterMembers<T>(s: seq<T>, p: T -> bool)
    ensures forall i :: 0 <= i < |Filter(s, p)| ==> Filter(s, p)[i] in s && p(Filter(s, p)[i])
    ensures forall i :: 0 <= i < |s| && p(s[i]) ==> s[i] in Filter(s, p)
  {
    if s != [] {
      FilterMembers(s[1..], p);
      if p(s[0]) {
        assert Filter(s, p) == [s[0]] + Filter(s[1..], p);
      }
      forall i | 0 <= i < |s| && p(s[i])
        ensures s[i] in Filter(s, p)
      {
        if i > 0 {
          assert s[i] == s[1..][i - 1];
        }
      }
    }
  }

  /** Filtering a sequence with a given first element. */
  lemma FilterCons<T>(x: T, s: seq<T>, p: T -> bool)
    ensures Filter([x] + s, p) == (if p(x) then [x] else []) + Filter(s, p)
  {
    assert ([x] + s)[1..] == s;
  }

  /** What filtering keeps of one element. */
  function Keep<T>(p: T -> bool, x: T): seq<T>
  {
    if p(x) then [x] else []
  }

  /** Filtering a suffix keeps or drops its first element, then filters the rest. */
  lemma FilterStep<T>(s: seq<T>, i: nat, p: T -> bool)
    requires i < |s|
    ensures Filter(s[i..], p) == Keep(p, s[i]) + Filter(s[i + 1..], p)
  {
    assert s[i..] == [s[i]] + s[i + 1..];
    FilterCons(s[i], s[i + 1..], p);
  }

  /** Filtering a six-element sequence, element by element. */
  lemma FilterOfSix<T>(s: seq<T>, p: T -> bool)
    requires |s| == 6
    ensures Filter(s, p)
      == Keep(p, s[0]) + (Keep(p, s[1]) + (Keep(p, s[2]) + (Keep(p, s[3]) + (Keep(p, s[4]) + Keep(p, s[5])))))
  {
    calc {
      Filter(s, p);
      { assert s == s[0..]; FilterStep(s, 0, p); }
      Keep(p, s[0]) + Filter(s[1..], p);
      { FilterStep(s, 1, p); }
      Keep(p, s[0]) + (Keep(p, s[1]) + Filter(s[2..], p));
      { FilterStep(s, 2, p); }
      Keep(p, s[0]) + (Keep(p, s[1]) + (Keep(p, s[2]) + Filter(s[3..], p)));
      { FilterStep(s, 3, p); }
      Keep(p, s[0]) + (Keep(p, s[1]) + (Keep(p, s[2]) + (Keep(p, s[3]) + Filter(s[4..], p))));
      { FilterStep(s, 4, p); }
      Keep(p, s[0]) + (Keep(p, s[1]) + (Keep(p, s[2]) + (Keep(p, s[3]) + (Keep(p, s[4]) + Filter(s[5..], p)))));
      { FilterStep(s, 5, p); assert s[6..] == []; assert Keep(p, s[5]) + [] == Keep(p, s[5]); }
      Keep(p, s[0]) + (Keep(p, s[1]) + (Keep(p, s[2]) + (Keep(p, s[3]) + (Keep(p, s[4]) + Keep(p, s[5])))));
    }
  }

  /** Filtering keeps the surviving elements in the order they had. */
  lemma {:induction false} FilterIsSubsequence<T>(s: seq<T>, p: T -> bool)
    ensures IsSubsequence(Filter(s, p), s)
  {
    if s != [] {
      FilterIsSubsequence(s[1..], p);
      if p(s[0]) {
        assert Filter(s, p)[1..] == Filter(s[1..], p);
      }
    }
  }

  /** Filtering keeps every occurrence of an element that satisfies `p` and none of one that does not. */
  lemma {:induction false} FilterCount<T>(s: seq<T>, p: T -> bool, x: T)
    ensures multiset(Filter(s, p))[x] == if p(x) then multiset(s)[x] else 0
  {
    if s != [] {
      FilterCount(s[1..], p, x);
      assert s == [s[0]] + s[1..];
    }
  }

  /** When every element satisfies `p`, filtering changes nothing. */
  lemma {:induction false} FilterKeepsAll<T>(s: seq<T>, p: T -> bool)
    requires forall i :: 0 <= i < |s| ==> p(s[i])
    ensures Filter(s, p) == s
  {
    if s != [] {
      FilterKeepsAll(s[1..], p);
    }
  }

  /** Filtering distributes over concatenation. */
  lemma {:induction false} FilterAppend<T>(a: seq<T>, b: seq<T>, p: T -> bool)
    ensures Filter(a + b, p) == Filter(a, p) + Filter(b, p)
  {
    if a != [] {
      FilterAppend(a[1..], b, p);
      assert (a + b)[0] == a[0] && (a + b)[1..] == a[1..] + b;
      if p(a[0]) {
        calc {
          Filter(a + b, p);
          [a[0]] + Filter(a[1..] + b, p);
          [a[0]] + (Filter(a[1..], p) + Filter(b, p));
          ([a[0]] + Filter(a[1..], p)) + Filter(b, p);
        }
      }
    } else {
      assert a + b == b;
    }
  }

  /** Mapping distributes over concatenation. */
  lemma MapAppend<T, U>(a: seq<T>, b: seq<T>, f: T -> U)
    ensures Map(a + b, f) == Map(a, f) + Map(b, f)
  {
    assert forall i :: 0 <= i < |a + b| ==> Map(a + b, f)[i] == (Map(a, f) + Map(b, f))[i];
  }

  /** The groups one after another, as `flat()` joins them. */
  function Concat<T>(groups: seq<seq<T>>): seq<T>
  {
    if groups == [] then [] else groups[0] + Concat(groups[1..])
  }

  /** The join is empty exactly when every group is. */
  lemma {:induction false} ConcatEmptyIff<T>(groups: seq<seq<T>>)
    ensures Concat(groups) == [] <==> forall i :: 0 <= i < |groups| ==> groups[i] == []
  {
    if groups != [] {
      ConcatEmptyIff(groups[1..]);
      assert forall i :: 1 <= i < |groups| ==> groups[i] == groups[1..][i - 1];
    }
  }

  /** Every element of a group is in the join, and with groups of at most one element the join has at most one element per group. */
  lemma {:induction false} ConcatHolds<T>(groups: seq<seq<T>>)
    ensures forall i, x :: 0 <= i < |groups| && x in groups[i] ==> x in Concat(groups)
    ensures (forall i :: 0 <= i < |groups| ==> |groups[i]| <= 1) ==> |Concat(groups)| <= |groups|
  {
    if groups != [] {
      ConcatHolds(groups[1..]);
      assert forall i :: 1 <= i < |groups| ==> groups[i] == groups[1..][i - 1];
    }
  }
}
