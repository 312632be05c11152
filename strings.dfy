/**
 * `"".join` and `str.rfind` as the scripts and pathlib use them, a first-occurrence
 * search for reading segment lines back, and mapping a function over a sequence.
 */
module Strings {
  import opened Wrappers

  /** Position of the first `c` in `s`, or `None`: the search the segment-line reader relies on. */
  function IndexOf(s: string, c: char): (r: Option<nat>)
    ensures r.None? <==> c !in s
    ensures r.Some? ==> r.value < |s| && s[r.value] == c && c !in s[..r.value]
  {
    if s == [] then None
    else if s[0] == c then Some(0)
    else match IndexOf(s[1..], c)
      case None => None
      case Some(i) => assert s[1..][..i] == s[1..i + 1]; Some(i + 1)
  }

  /** Position of the last `c` in `s` (Python's `str.rfind`, with `None` for -1). */
  function LastIndexOf(s: string, c: char): (r: Option<nat>)
    ensures r.None? <==> c !in s
    ensures r.Some? ==> r.value < |s| && s[r.value] == c && c !in s[r.value + 1..]
  {
    if s == [] then None
    else if s[|s| - 1] == c then Some(|s| - 1)
    else
      var r := LastIndexOf(s[..|s| - 1], c);
      assert r.Some? ==> s[r.value + 1..] == s[..|s| - 1][r.value + 1..] + [s[|s| - 1]];
      assert r.None? ==> s == s[..|s| - 1] + [s[|s| - 1]];
      r
  }

  /** A position holding `c` with no `c` before it is the one `IndexOf` finds. */
  lemma IndexOfIsFirst(s: string, c: char, k: nat)
    requires k < |s| && s[k] == c && c !in s[..k]
    ensures IndexOf(s, c) == Some(k)
  {
    assert c in s by { assert s[k] == c; }
  }

  /** A position holding `c` with no `c` after it is the one `LastIndexOf` finds. */
  lemma LastIndexOfIsLast(s: string, c: char, k: nat)
    requires k < |s| && s[k] == c && c !in s[k + 1..]
    ensures LastIndexOf(s, c) == Some(k)
  {
    assert c in s by { assert s[k] == c; }
  }

  /** Python's `"".join(parts)`: the parts concatenated in order, so it ends with the last part. */
  function Join(parts: seq<string>): (s: string)
    ensures parts == [] ==> s == []
    ensures parts != [] ==> |parts[|parts| - 1]| <= |s| && s[|s| - |parts[|parts| - 1]|..] == parts[|parts| - 1]
  {
    if parts == [] then [] else Join(parts[..|parts| - 1]) + parts[|parts| - 1]
  }

  /** Joining splits over concatenation of the parts, so parts keep their order. */
  lemma {:induction false} JoinAppend(a: seq<string>, b: seq<string>)
    ensures Join(a + b) == Join(a) + Join(b)
    decreases |b|
  {
    if b == [] {
      assert a + b == a;
    } else {
      var b', last := b[..|b| - 1], b[|b| - 1];
      assert (a + b)[..|a + b| - 1] == a + b';
      assert (a + b)[|a + b| - 1] == last;
      JoinAppend(a, b');
      AppendAssoc(Join(a), Join(b'), last);
    }
  }

  /** A single part joins to itself. */
  lemma JoinSingle(part: string)
    ensures Join([part]) == part
  {
    assert [part][..0] == [];
  }

  /** One more part is appended at the end. */
  lemma JoinSnoc(parts: seq<string>, part: string)
    ensures Join(parts + [part]) == Join(parts) + part
  {
    JoinAppend(parts, [part]);
    JoinSingle(part);
  }

  /** Two leading parts come out first, in order, ahead of the rest. */
  lemma JoinTwoThen(x: string, y: string, rest: seq<string>)
    ensures Join([x, y] + rest) == x + y + Join(rest)
  {
    JoinAppend([x, y], rest);
    assert [x, y][..1] == [x];
    JoinSingle(x);
  }

  /** Occurrences of a character add up over a concatenation. */
  lemma CountConcat(x: string, y: string, c: char)
    ensures multiset(x + y)[c] == multiset(x)[c] + multiset(y)[c]
  {
  }

  /** Concatenation regroups freely. */
  lemma AppendAssoc<T>(a: seq<T>, b: seq<T>, c: seq<T>)
    ensures a + (b + c) == (a + b) + c
  {
  }

  /** `f` applied to each element, in order (a list comprehension over the elements). */
  function MapSeq<T, U>(f: T -> U, xs: seq<T>): (ys: seq<U>)
    ensures |ys| == |xs|
  {
    if xs == [] then [] else MapSeq(f, xs[..|xs| - 1]) + [f(xs[|xs| - 1])]
  }

  /** After a two-entry head, position k + 2 holds `f` of the k-th element. */
  lemma MapSeqAfterTwo<T, U>(x: U, y: U, f: T -> U, xs: seq<T>)
    ensures forall k :: 0 <= k < |xs| ==> ([x, y] + MapSeq(f, xs))[k + 2] == f(xs[k])
  {
    forall k | 0 <= k < |xs| ensures ([x, y] + MapSeq(f, xs))[k + 2] == f(xs[k]) {
      MapSeqAt(f, xs, k);
    }
  }

  /** Mapping splits over concatenation, so results keep the order of the elements. */
  lemma {:induction false} MapSeqAppend<T, U>(f: T -> U, a: seq<T>, b: seq<T>)
    ensures MapSeq(f, a + b) == MapSeq(f, a) + MapSeq(f, b)
    decreases |b|
  {
    if b == [] {
      assert a + b == a;
    } else {
      var b' := b[..|b| - 1];
      assert (a + b)[..|a + b| - 1] == a + b';
      assert (a + b)[|a + b| - 1] == b[|b| - 1];
      MapSeqAppend(f, a, b');
    }
  }

  /** Position k of the result is `f` of position k of the input. */
  lemma {:induction false} MapSeqAt<T, U>(f: T -> U, xs: seq<T>, k: nat)
    requires k < |xs|
    ensures MapSeq(f, xs)[k] == f(xs[k])
    decreases |xs|
  {
    var n := |xs|;
    if k < n - 1 {
      assert xs[..n - 1][k] == xs[k];
      MapSeqAt(f, xs[..n - 1], k);
    }
  }
}
