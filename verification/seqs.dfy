/** Order-preserving filtering and option pairing over sequences: the
    reference shapes against which the assembler's loops are checked. */
module Seqs {

  /** The elements of `s` that satisfy `p`, in their original order. */
  function Filter<T>(s: seq<T>, p: T -> bool): (r: seq<T>)
    ensures |r| <= |s|
    decreases |s|
  {
    if |s| == 0 then []
    else (if p(s[0]) then [s[0]] else []) + Filter(s[1..], p)
  }

  /** `f` applied to every element, in order. */
  function Map<T, U>(s: seq<T>, f: T -> U): seq<U>
  {
    seq(|s|, i requires 0 <= i < |s| => f(s[i]))
  }

  /** Each element preceded by `flag`, `[flag, xs[0], flag, xs[1], ...]`:
      the shape of a repeated command-line option such as `-e A -e B`. */
  function Pairs<T>(flag: T, xs: seq<T>): (r: seq<T>)
    ensures |r| == 2 * |xs|
    decreases |xs|
  {
    if |xs| == 0 then []
    else [flag, xs[0]] + Pairs(flag, xs[1..])
  }

  /** Element `i` of the input sits at position `2 * i + 1`, right after
      its flag. */
  lemma {:induction false} PairsAt<T>(flag: T, xs: seq<T>, i: int)
    requires 0 <= i < |xs|
    ensures Pairs(flag, xs)[2 * i] == flag && Pairs(flag, xs)[2 * i + 1] == xs[i]
    decreases i
  {
    if i > 0 {
      PairsAt(flag, xs[1..], i - 1);
    }
  }

  /** An element survives the filter exactly when it is in the input and
      satisfies the predicate. */
  lemma {:induction false} FilterMembership<T>(s: seq<T>, p: T -> bool, x: T)
    ensures x in Filter(s, p) <==> x in s && p(x)
    decreases |s|
  {
    if |s| > 0 {
      FilterMembership(s[1..], p, x);
      assert s == [s[0]] + s[1..];
    }
  }

  /** Every element of the result is an input element satisfying the
      predicate. */
  lemma FilterSound<T>(s: seq<T>, p: T -> bool)
    ensures forall i :: 0 <= i < |Filter(s, p)| ==> Filter(s, p)[i] in s && p(Filter(s, p)[i])
  {
    forall i | 0 <= i < |Filter(s, p)|
      ensures Filter(s, p)[i] in s && p(Filter(s, p)[i])
    {
      FilterMembership(s, p, Filter(s, p)[i]);
    }
  }

  /** One step of a filter taken from the back: the suffix from `i` filters
      to the verdict on `s[i]` followed by the filtered rest. */
  lemma FilterStep<T>(s: seq<T>, i: int, p: T -> bool)
    requires 0 <= i < |s|
    ensures Filter(s[i..], p) == (if p(s[i]) then [s[i]] else []) + Filter(s[i + 1..], p)
    ensures s[..i + 1] == s[..i] + [s[i]]
  {
    assert s[i..][1..] == s[i + 1..];
  }

  /** One step of an in-place filter run from the back: with everything
      after `i` already filtered, cutting out element `i` when it fails the
      predicate extends the filtered suffix by one. */
  lemma CutStep<T>(s: seq<T>, kept: seq<T>, i: int, p: T -> bool)
    requires 0 <= i < |s|
    requires kept == s[..i + 1] + Filter(s[i + 1..], p)
    ensures i < |kept| && kept[i] == s[i]
    ensures (if p(kept[i]) then kept else kept[..i] + kept[i + 1..]) == s[..i] + Filter(s[i..], p)
  {
    FilterStep(s, i, p);
    var rest := Filter(s[i + 1..], p);
    assert kept == s[..i] + [s[i]] + rest;
    if !p(s[i]) {
      assert kept[..i] == s[..i];
      assert kept[i + 1..] == rest;
    }
  }

  /** Filtering distributes over concatenation, so it keeps relative order. */
  lemma {:induction false} FilterConcat<T>(a: seq<T>, b: seq<T>, p: T -> bool)
    ensures Filter(a + b, p) == Filter(a, p) + Filter(b, p)
    decreases |a|
  {
    if |a| == 0 {
      assert a + b == b;
    } else {
      var h := if p(a[0]) then [a[0]] else [];
      assert (a + b)[0] == a[0];
      assert (a + b)[1..] == a[1..] + b;
      assert Filter(a + b, p) == h + Filter(a[1..] + b, p);
      FilterConcat(a[1..], b, p);
      assert Filter(a, p) == h + Filter(a[1..], p);
    }
  }

  /** Filtering twice with the same predicate changes nothing more. */
  lemma {:induction false} FilterIdempotent<T>(s: seq<T>, p: T -> bool)
    ensures Filter(Filter(s, p), p) == Filter(s, p)
    decreases |s|
  {
    if |s| > 0 {
      FilterIdempotent(s[1..], p);
      var head := if p(s[0]) then [s[0]] else [];
      FilterConcat(head, Filter(s[1..], p), p);
      if p(s[0]) {
        assert Filter(head, p) == head by {
          assert head[1..] == [];
        }
      }
    }
  }

  /** When every element satisfies the predicate nothing is dropped. */
  lemma {:induction false} FilterKeepsAll<T>(s: seq<T>, p: T -> bool)
    requires forall i :: 0 <= i < |s| ==> p(s[i])
    ensures Filter(s, p) == s
    decreases |s|
  {
    if |s| > 0 {
      FilterKeepsAll(s[1..], p);
      assert s == [s[0]] + s[1..];
    }
  }

  /** Mapping distributes over concatenation. */
  lemma MapConcat<T, U>(a: seq<T>, b: seq<T>, f: T -> U)
    ensures Map(a + b, f) == Map(a, f) + Map(b, f)
  {
  }

  /** Pairing distributes over concatenation. */
  lemma {:induction false} PairsConcat<T>(flag: T, a: seq<T>, b: seq<T>)
    ensures Pairs(flag, a + b) == Pairs(flag, a) + Pairs(flag, b)
    decreases |a|
  {
    if |a| == 0 {
      assert a + b == b;
    } else {
      assert (a + b)[1..] == a[1..] + b;
      PairsConcat(flag, a[1..], b);
    }
  }
}
