/** Generic list operations the scraper's Python code gets from the language:
    `list(set(xs))`, list comprehensions with a filter, `str.split`/`str.join`
    on one separator character, `str.replace` of one character, and list
    concatenation. */
module Seqs {

  /** No value occurs twice. */
  predicate NoDup<T(==)>(s: seq<T>) {
    forall i, j :: 0 <= i < j < |s| ==> s[i] != s[j]
  }

  /** A sequence without repeats holds each value at most once. */
  lemma {:induction false} NoDupAtMostOnce<T>(s: seq<T>, x: T)
    requires NoDup(s)
    ensures multiset(s)[x] <= 1
  {
    if |s| > 0 {
      assert s == [s[0]] + s[1..];
      assert NoDup(s[1..]) by {
        assert forall i :: 0 <= i < |s| - 1 ==> s[1..][i] == s[i + 1];
      }
      NoDupAtMostOnce(s[1..], x);
      if s[0] == x {
        assert x !in s[1..] by {
          forall i | 0 <= i < |s| - 1 ensures s[1..][i] != x {
            assert s[1..][i] == s[i + 1];
          }
        }
      }
    }
  }

  /** A reordering of a sequence without repeats has none either. */
  lemma SameMultisetNoDup<T>(a: seq<T>, b: seq<T>)
    requires multiset(a) == multiset(b)
    requires NoDup(b)
    ensures NoDup(a)
  {
    forall i, j | 0 <= i < j < |a| ensures a[i] != a[j] {
      if a[i] == a[j] {
        assert a == a[..j] + a[j..];
        assert a[i] in a[..j];
        assert a[j] in a[j..];
        assert multiset(a)[a[i]] == multiset(a[..j])[a[i]] + multiset(a[j..])[a[i]];
        NoDupAtMostOnce(b, a[i]);
      }
    }
  }

  /** `list(set(s))`: every value of `s` exactly once. Python leaves the order
      of a set unspecified; this model keeps the first occurrence of each value. */
  function Dedup<T(==)>(s: seq<T>): (r: seq<T>)
    ensures NoDup(r)
    ensures forall i :: 0 <= i < |s| ==> s[i] in r
    ensures forall i :: 0 <= i < |r| ==> r[i] in s
    ensures |r| <= |s|
  {
    if |s| == 0 then []
    else
      var rest := Dedup(s[..|s| - 1]);
      assert s == s[..|s| - 1] + [s[|s| - 1]];
      if s[|s| - 1] in rest then rest else rest + [s[|s| - 1]]
  }

  /** `[x for x in s if keep(x)]`. */
  function Filter<T>(s: seq<T>, keep: T -> bool): (r: seq<T>)
    ensures |r| <= |s|
    ensures forall i :: 0 <= i < |r| ==> keep(r[i])
  {
    if |s| == 0 then []
    else (if keep(s[0]) then [s[0]] else []) + Filter(s[1..], keep)
  }

  /** `a` is `b` with some elements deleted, the rest in their original order. */
  predicate IsSubsequence<T(==)>(a: seq<T>, b: seq<T>)
    decreases |b|
  {
    || |a| == 0
    || (&& |b| > 0
        && ((a[0] == b[0] && IsSubsequence(a[1..], b[1..])) || IsSubsequence(a, b[1..])))
  }

  /** A filter keeps exactly the elements that pass the test. */
  lemma {:induction false} FilterMembers<T>(s: seq<T>, keep: T -> bool)
    ensures forall x :: x in Filter(s, keep) <==> x in s && keep(x)
  {
    if |s| > 0 {
      FilterMembers(s[1..], keep);
      assert s == [s[0]] + s[1..];
    }
  }

  /** A filter keeps every passing element as often as it occurs, and no other. */
  lemma {:induction false} FilterMultiplicity<T>(s: seq<T>, keep: T -> bool, x: T)
    ensures multiset(Filter(s, keep))[x] == if keep(x) then multiset(s)[x] else 0
  {
    if |s| > 0 {
      FilterMultiplicity(s[1..], keep, x);
      assert s == [s[0]] + s[1..];
      assert multiset(s) == multiset([s[0]]) + multiset(s[1..]);
    }
  }

  /** `f(x)` for every `x` of `xs`, concatenated in order. */
  function FlatMap<A, B>(xs: seq<A>, f: A -> seq<B>): seq<B>
  {
    if |xs| == 0 then [] else f(xs[0]) + FlatMap(xs[1..], f)
  }

  /** Everything in the concatenation comes from `f` of some element. */
  lemma {:induction false} FlatMapOrigin<A, B>(xs: seq<A>, f: A -> seq<B>)
    ensures forall j :: 0 <= j < |FlatMap(xs, f)| ==> exists i :: 0 <= i < |xs| && FlatMap(xs, f)[j] in f(xs[i])
  {
    if |xs| > 0 {
      FlatMapOrigin(xs[1..], f);
      var first, rest := f(xs[0]), FlatMap(xs[1..], f);
      assert FlatMap(xs, f) == first + rest;
      forall j | 0 <= j < |FlatMap(xs, f)|
        ensures exists i :: 0 <= i < |xs| && FlatMap(xs, f)[j] in f(xs[i])
      {
        if j < |first| {
          assert FlatMap(xs, f)[j] in f(xs[0]);
        } else {
          assert FlatMap(xs, f)[j] == rest[j - |first|];
          var i :| 0 <= i < |xs| - 1 && rest[j - |first|] in f(xs[1..][i]);
          assert xs[1..][i] == xs[i + 1];
          assert FlatMap(xs, f)[j] in f(xs[i + 1]);
        }
      }
    } else {
      assert FlatMap(xs, f) == [];
    }
  }

  /** Everything `f` gives for one element lands in the concatenation. */
  lemma {:induction false} FlatMapContains<A, B>(xs: seq<A>, f: A -> seq<B>, i: int)
    requires 0 <= i < |xs|
    ensures multiset(f(xs[i])) <= multiset(FlatMap(xs, f))
  {
    if i > 0 {
      FlatMapContains(xs[1..], f, i - 1);
    }
  }

  /** `n` copies of `k` added up. Counting with it keeps multiplication out
      of proofs whose context is large; `TimesIsProduct` relates it to `*`. */
  function Times(n: nat, k: nat): nat
  {
    if n == 0 then 0 else k + Times(n - 1, k)
  }

  lemma {:induction false} TimesIsProduct(n: nat, k: nat)
    ensures Times(n, k) == n * k
  {
    if n > 0 {
      TimesIsProduct(n - 1, k);
    }
  }

  /** When only `f(a)` can give `y`, `y` occurs in the concatenation once
      per copy of `a` times its count in `f(a)`. */
  lemma {:induction false} FlatMapMultiplicity<A, B>(xs: seq<A>, f: A -> seq<B>, y: B, a: A)
    requires forall b :: y in f(b) ==> b == a
    ensures multiset(FlatMap(xs, f))[y] == Times(multiset(xs)[a], multiset(f(a))[y])
  {
    if |xs| > 0 {
      FlatMapMultiplicity(xs[1..], f, y, a);
      var m := multiset(f(a))[y];
      var c := multiset(xs[1..])[a];
      FlatMapHeadCount(xs, f, y);
      HeadCount(xs, a);
      if xs[0] == a {
        assert Times(c + 1, m) == m + Times(c, m);
      } else {
        assert y !in f(xs[0]);
      }
    }
  }

  lemma FlatMapHeadCount<A, B>(xs: seq<A>, f: A -> seq<B>, y: B)
    requires |xs| > 0
    ensures multiset(FlatMap(xs, f))[y] == multiset(f(xs[0]))[y] + multiset(FlatMap(xs[1..], f))[y]
  {
    assert FlatMap(xs, f) == f(xs[0]) + FlatMap(xs[1..], f);
  }

  lemma HeadCount<T>(xs: seq<T>, x: T)
    requires |xs| > 0
    ensures multiset(xs)[x] == (if xs[0] == x then 1 else 0) + multiset(xs[1..])[x]
  {
    assert xs == [xs[0]] + xs[1..];
  }

  /** A filter does not reorder what it keeps. */
  lemma {:induction false} FilterIsSubsequence<T>(s: seq<T>, keep: T -> bool)
    ensures IsSubsequence(Filter(s, keep), s)
  {
    if |s| > 0 {
      FilterIsSubsequence(s[1..], keep);
      if keep(s[0]) {
        assert Filter(s, keep) == [s[0]] + Filter(s[1..], keep);
        assert Filter(s, keep)[1..] == Filter(s[1..], keep);
      } else {
        assert Filter(s, keep) == Filter(s[1..], keep);
      }
    }
  }

  /** Filtering a concatenation filters each part. */
  lemma {:induction false} FilterConcat<T>(a: seq<T>, b: seq<T>, keep: T -> bool)
    ensures Filter(a + b, keep) == Filter(a, keep) + Filter(b, keep)
  {
    if |a| > 0 {
      FilterConcat(a[1..], b, keep);
      assert (a + b)[1..] == a[1..] + b;
    } else {
      assert a + b == b;
    }
  }

  /** An element that fails the test makes the filtered list strictly shorter. */
  lemma {:induction false} FilterDrops<T>(s: seq<T>, keep: T -> bool, i: nat)
    requires i < |s| && !keep(s[i])
    ensures |Filter(s, keep)| < |s|
  {
    if i > 0 {
      FilterDrops(s[1..], keep, i - 1);
    }
  }

  /** A filter that rejects every element yields nothing. */
  lemma {:induction false} NoneKept<T>(s: seq<T>, keep: T -> bool)
    requires forall i :: 0 <= i < |s| ==> !keep(s[i])
    ensures Filter(s, keep) == []
  {
    if |s| > 0 {
      NoneKept(s[1..], keep);
    }
  }

  /** The concatenation of a list of lists, in order. */
  function Flatten<T>(ss: seq<seq<T>>): (r: seq<T>)
  {
    if |ss| == 0 then [] else ss[0] + Flatten(ss[1..])
  }

  /** `sep.join(xs)` for a one-character separator. */
  function Join(xs: seq<string>, sep: char): string
  {
    if |xs| == 0 then ""
    else if |xs| == 1 then xs[0]
    else xs[0] + [sep] + Join(xs[1..], sep)
  }

  /** `s.split(sep)` for a one-character separator: always at least one piece,
      and no piece contains the separator. */
  function SplitOn(s: string, sep: char): (r: seq<string>)
    ensures |r| >= 1
    ensures forall i :: 0 <= i < |r| ==> sep !in r[i]
  {
    if |s| == 0 then [""]
    else
      var rest := SplitOn(s[1..], sep);
      if s[0] == sep then [""] + rest
      else [[s[0]] + rest[0]] + rest[1..]
  }

  /** Splitting a piece free of the separator followed by more text. */
  lemma {:induction false} SplitOnPrefix(a: string, t: string, sep: char)
    requires sep !in a
    ensures SplitOn(a + t, sep) == [a + SplitOn(t, sep)[0]] + SplitOn(t, sep)[1..]
  {
    if |a| > 0 {
      SplitOnPrefix(a[1..], t, sep);
      assert (a + t)[1..] == a[1..] + t;
      assert [a[0]] + (a[1..] + SplitOn(t, sep)[0]) == a + SplitOn(t, sep)[0];
    } else {
      assert a + t == t;
      assert a + SplitOn(t, sep)[0] == SplitOn(t, sep)[0];
      assert SplitOn(t, sep) == [SplitOn(t, sep)[0]] + SplitOn(t, sep)[1..];
    }
  }

  /** Splitting undoes joining when no piece holds the separator. */
  lemma {:induction false} SplitJoin(xs: seq<string>, sep: char)
    requires |xs| >= 1
    requires forall i :: 0 <= i < |xs| ==> sep !in xs[i]
    ensures SplitOn(Join(xs, sep), sep) == xs
  {
    if |xs| == 1 {
      SplitOnPrefix(xs[0], "", sep);
      assert xs[0] + "" == xs[0];
    } else {
      SplitJoin(xs[1..], sep);
      var t := [sep] + Join(xs[1..], sep);
      assert Join(xs, sep) == xs[0] + t;
      SplitOnPrefix(xs[0], t, sep);
      assert t[1..] == Join(xs[1..], sep);
      assert SplitOn(t, sep) == [""] + xs[1..];
      assert xs[0] + "" == xs[0];
      assert xs == [xs[0]] + xs[1..];
    }
  }

  /** The last piece of `s.split(sep)` is the tail of `s` after its last
      separator, all of `s` when there is none. */
  lemma {:induction false} LastPieceIsTail(s: string, sep: char)
    ensures var p := SplitOn(s, sep); var l := p[|p| - 1];
      && |l| <= |s| && l == s[|s| - |l|..]
      && (|l| < |s| ==> s[|s| - |l| - 1] == sep)
      && (|p| == 1 ==> l == s)
      && (|p| > 1 ==> |l| < |s|)
  {
    if |s| > 0 {
      var t := s[1..];
      LastPieceIsTail(t, sep);
      var r := SplitOn(t, sep);
      var l' := r[|r| - 1];
      assert t[|t| - |l'|..] == s[|s| - |l'|..];
      if |l'| < |t| {
        assert t[|t| - |l'| - 1] == s[|s| - |l'| - 1];
      }
      if s[0] == sep {
        SplitOnSeparatorFirst(s, sep);
        var p := SplitOn(s, sep);
        assert p[|p| - 1] == l';
      } else {
        SplitOnOtherFirst(s, sep);
        var p := SplitOn(s, sep);
        if |r| == 1 {
          assert l' == t;
          assert p[|p| - 1] == [s[0]] + t;
          assert s == [s[0]] + t;
        } else {
          assert p[|p| - 1] == l';
        }
      }
    }
  }

  /** `s.split(sep)[-1]`. */
  function LastPiece(s: string, sep: char): (r: string)
    ensures sep !in r
    ensures |r| <= |s| && r == s[|s| - |r|..]
    ensures |r| < |s| ==> s[|s| - |r| - 1] == sep
  {
    LastPieceIsTail(s, sep);
    var pieces := SplitOn(s, sep);
    pieces[|pieces| - 1]
  }

  lemma SplitOnSeparatorFirst(s: string, sep: char)
    requires |s| > 0 && s[0] == sep
    ensures SplitOn(s, sep) == [""] + SplitOn(s[1..], sep)
  {
  }

  lemma SplitOnOtherFirst(s: string, sep: char)
    requires |s| > 0 && s[0] != sep
    ensures SplitOn(s, sep) == [[s[0]] + SplitOn(s[1..], sep)[0]] + SplitOn(s[1..], sep)[1..]
  {
  }

  /** `s.replace(from, to)` for single characters. */
  function ReplaceChar(s: string, from: char, to: char): (r: string)
    ensures |r| == |s|
    ensures from != to ==> from !in r
    ensures forall i :: 0 <= i < |s| && s[i] != from ==> r[i] == s[i]
    ensures forall i :: 0 <= i < |s| && s[i] == from ==> r[i] == to
  {
    seq(|s|, i requires 0 <= i < |s| => if s[i] == from then to else s[i])
  }
}
