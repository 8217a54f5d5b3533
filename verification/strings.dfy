/** The few string operations of Go's `strings` package that the assembler
    relies on, with the round-trip facts that make their results readable. */
module Strings {

  /** `strings.Join`: the elements separated by `sep`; no elements give "". */
  function Join(xs: seq<string>, sep: string): string
  {
    if |xs| == 0 then ""
    else if |xs| == 1 then xs[0]
    else xs[0] + sep + Join(xs[1..], sep)
  }

  /** `strings.Split` with a one-character separator: the maximal pieces
      between occurrences of `c`. The empty string splits into one empty piece,
      so the result is never empty and no piece holds the separator. */
  function Split(s: string, c: char): (r: seq<string>)
    ensures |r| >= 1
    ensures forall i :: 0 <= i < |r| ==> c !in r[i]
    decreases |s|
  {
    if |s| == 0 then [""]
    else
      var rest := Split(s[1..], c);
      if s[0] == c then [""] + rest
      else [[s[0]] + rest[0]] + rest[1..]
  }

  /** The key of an environment entry `KEY=VALUE`: the first piece of the
      entry split at `=` (lope.go:183 and lope.go:192). */
  function KeyOf(e: string): string
  {
    Split(e, '=')[0]
  }

  /** Unanchored match of a literal pattern: `p` occurs somewhere in `s`.
      This is what Go's `regexp.MatchString(p, s)` decides for a pattern
      without regex metacharacters; the empty pattern matches every string. */
  predicate Contains(s: string, p: string)
    decreases |s|
  {
    p <= s || (|s| > 0 && Contains(s[1..], p))
  }

  lemma JoinCons(x: string, xs: seq<string>, sep: string)
    requires |xs| >= 1
    ensures Join([x] + xs, sep) == x + sep + Join(xs, sep)
  {
    assert ([x] + xs)[1..] == xs;
  }

  /** A non-empty join starts with its first element. */
  lemma JoinStartsWithFirst(xs: seq<string>, sep: string)
    requires |xs| >= 1
    ensures xs[0] <= Join(xs, sep)
  {
  }

  /** Appending one more element to a non-empty join adds the separator and
      the element at the end. */
  lemma {:induction false} JoinSnoc(xs: seq<string>, x: string, sep: string)
    requires |xs| >= 1
    ensures Join(xs + [x], sep) == Join(xs, sep) + sep + x
    decreases |xs|
  {
    if |xs| == 1 {
      assert xs + [x] == [xs[0]] + [x];
      JoinCons(xs[0], [x], sep);
    } else {
      assert xs + [x] == [xs[0]] + (xs[1..] + [x]);
      JoinCons(xs[0], xs[1..] + [x], sep);
      JoinSnoc(xs[1..], x, sep);
      assert xs == [xs[0]] + xs[1..];
      JoinCons(xs[0], xs[1..], sep);
    }
  }

  /** Joining the pieces of a split with the separator gives back the text. */
  lemma {:induction false} JoinSplit(s: string, c: char)
    ensures Join(Split(s, c), [c]) == s
    decreases |s|
  {
    if |s| > 0 {
      var rest := Split(s[1..], c);
      JoinSplit(s[1..], c);
      assert s == [s[0]] + s[1..];
      if s[0] == c {
        JoinCons("", rest, [c]);
      } else if |rest| > 1 {
        assert rest == [rest[0]] + rest[1..];
        JoinCons(rest[0], rest[1..], [c]);
        JoinCons([s[0]] + rest[0], rest[1..], [c]);
      }
    }
  }

  /** Splitting a text whose first part holds no separator keeps that part
      glued to the first piece of the rest. */
  lemma {:induction false} SplitPrefix(a: string, t: string, c: char)
    requires c !in a
    ensures Split(a + t, c) == [a + Split(t, c)[0]] + Split(t, c)[1..]
    decreases |a|
  {
    if |a| == 0 {
      assert a + t == t;
      assert a + Split(t, c)[0] == Split(t, c)[0];
      assert Split(t, c) == [Split(t, c)[0]] + Split(t, c)[1..];
    } else {
      assert (a + t)[1..] == a[1..] + t;
      SplitPrefix(a[1..], t, c);
      assert [a[0]] + (a[1..] + Split(t, c)[0]) == a + Split(t, c)[0];
    }
  }

  /** Splitting a join of separator-free pieces gives back the pieces. */
  lemma {:induction false} SplitJoin(xs: seq<string>, c: char)
    requires |xs| >= 1
    requires forall i :: 0 <= i < |xs| ==> c !in xs[i]
    ensures Split(Join(xs, [c]), c) == xs
    decreases |xs|
  {
    if |xs| == 1 {
      SplitPrefix(xs[0], "", c);
      assert xs[0] + "" == xs[0];
    } else {
      SplitJoin(xs[1..], c);
      var t := [c] + Join(xs[1..], [c]);
      assert Join(xs, [c]) == xs[0] + t;
      SplitPrefix(xs[0], t, c);
      assert t[1..] == Join(xs[1..], [c]);
      assert Split(t, c) == [""] + xs[1..];
      assert xs[0] + "" == xs[0];
      assert xs == [xs[0]] + xs[1..];
    }
  }

  /** The key is exactly the text before the first `=`: a prefix of the
      entry without `=`, followed by `=` or by the end of the entry. */
  lemma {:induction false} KeyOfIsTextBeforeFirstEquals(e: string)
    ensures KeyOf(e) <= e
    ensures '=' !in KeyOf(e)
    ensures |KeyOf(e)| == |e| || e[|KeyOf(e)|] == '='
    decreases |e|
  {
    if |e| > 0 && e[0] != '=' {
      KeyOfIsTextBeforeFirstEquals(e[1..]);
      assert KeyOf(e) == [e[0]] + KeyOf(e[1..]);
    }
  }

  /** Only the text before the first `=` is the key: any value, even one
      holding `=` or `:`, leaves the key of `k=v` equal to `k`. */
  lemma KeyOfEntry(k: string, v: string)
    requires '=' !in k
    ensures KeyOf(k + "=" + v) == k
  {
    assert k + "=" + v == k + ("=" + v);
    SplitPrefix(k, "=" + v, '=');
    assert ("=" + v)[1..] == v;
  }

  /** `p` occurs in `s` starting at offset `i`. */
  predicate OccursAt(s: string, p: string, i: int)
  {
    0 <= i <= |s| - |p| && s[i..i + |p|] == p
  }

  /** A contained pattern occurs at some offset. */
  lemma {:induction false} ContainsOffset(s: string, p: string) returns (i: int)
    requires Contains(s, p)
    ensures OccursAt(s, p, i)
    decreases |s|
  {
    if p <= s {
      i := 0;
    } else {
      var j := ContainsOffset(s[1..], p);
      assert s[1..][j..j + |p|] == s[j + 1..j + 1 + |p|];
      i := j + 1;
    }
  }

  /** A pattern occurring at some offset is contained. */
  lemma {:induction false} OffsetContains(s: string, p: string, i: int)
    requires OccursAt(s, p, i)
    ensures Contains(s, p)
    decreases i
  {
    if i > 0 {
      assert s[1..][i - 1..i - 1 + |p|] == s[i..i + |p|];
      OffsetContains(s[1..], p, i - 1);
    } else {
      assert s[..|p|] == p;
    }
  }

  /** `Contains` is substring occurrence at some offset. */
  lemma ContainsAt(s: string, p: string)
    ensures Contains(s, p) <==> exists i :: OccursAt(s, p, i)
  {
    if Contains(s, p) {
      var i := ContainsOffset(s, p);
    }
    if exists i :: OccursAt(s, p, i) {
      var i :| OccursAt(s, p, i);
      OffsetContains(s, p, i);
    }
  }

  /** A pattern occurs only in a text at least as long, and in one of the
      same length only as the whole text. */
  lemma {:induction false} ContainsNoLonger(s: string, p: string)
    requires Contains(s, p)
    ensures |p| <= |s|
    ensures |p| == |s| ==> p == s
    decreases |s|
  {
    if !(p <= s) {
      ContainsNoLonger(s[1..], p);
    }
  }
}
