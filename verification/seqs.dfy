/** Sequence helpers shared by the crawler and the merge step. */
module Seqs {

  /** The elements of `s`, forgetting order and multiplicity (Python's `set(s)`). */
  function Elements<T>(s: seq<T>): set<T>
  {
    set x | x in s
  }

  lemma ElementsAppend<T>(a: seq<T>, b: seq<T>)
    ensures Elements(a + b) == Elements(a) + Elements(b)
  {
  }

  lemma SplitAt<T>(s: seq<T>, i: nat)
    requires i < |s|
    ensures s == (s[..i] + [s[i]]) + s[i + 1..]
  {
  }

  /** No element occurs twice. */
  predicate NoDuplicates<T(==)>(s: seq<T>)
  {
    forall i, j :: 0 <= i < j < |s| ==> s[i] != s[j]
  }

  /** Python's `str.startswith`. */
  predicate StartsWith(s: string, prefix: string)
  {
    |prefix| <= |s| && s[..|prefix|] == prefix
  }

  /** Concatenation of all blocks, in order; defined the way a loop of `extend` calls builds it. */
  function Flatten<T>(xss: seq<seq<T>>): seq<T>
  {
    if |xss| == 0 then [] else Flatten(xss[..|xss| - 1]) + xss[|xss| - 1]
  }

  /** The sum of the block lengths, counted from the front. */
  function SumLengths<T>(xss: seq<seq<T>>): nat
  {
    if |xss| == 0 then 0 else |xss[0]| + SumLengths(xss[1..])
  }

  lemma {:induction false} SumLengthsAppend<T>(a: seq<seq<T>>, b: seq<seq<T>>)
    ensures SumLengths(a + b) == SumLengths(a) + SumLengths(b)
    decreases |a|
  {
    if |a| == 0 {
      assert a + b == b;
    } else {
      assert (a + b)[1..] == a[1..] + b;
      SumLengthsAppend(a[1..], b);
    }
  }

  lemma {:induction false} FlattenAppend<T>(a: seq<seq<T>>, b: seq<seq<T>>)
    ensures Flatten(a + b) == Flatten(a) + Flatten(b)
    decreases |b|
  {
    if |b| == 0 {
      assert a + b == a;
    } else {
      var n := |b|;
      assert (a + b)[..|a + b| - 1] == a + b[..n - 1];
      assert (a + b)[|a + b| - 1] == b[n - 1];
      FlattenAppend(a, b[..n - 1]);
    }
  }

  /** An index into a slice is an index into the whole sequence. */
  lemma SliceIndex<T>(s: seq<T>, lo: nat, hi: nat, t: seq<T>, x: nat)
    requires lo <= hi <= |s| && s[lo..hi] == t && x < |t|
    ensures lo + x < |s| && s[lo + x] == t[x]
  {
    assert s[lo..hi][x] == s[lo + x];
  }

  /** The flattened sequence is exactly as long as all blocks together. */
  lemma {:induction false} FlattenLength<T>(xss: seq<seq<T>>)
    ensures |Flatten(xss)| == SumLengths(xss)
    decreases |xss|
  {
    if |xss| != 0 {
      var n := |xss|;
      FlattenLength(xss[..n - 1]);
      assert xss == xss[..n - 1] + [xss[n - 1]];
      SumLengthsAppend(xss[..n - 1], [xss[n - 1]]);
      assert SumLengths([xss[n - 1]]) == |xss[n - 1]| + SumLengths<T>([]);
    }
  }

  /** Block `i` starts right after all the blocks before it ... */
  function Offset<T>(xss: seq<seq<T>>, i: nat): nat
    requires i <= |xss|
  {
    SumLengths(xss[..i])
  }

  /** ... and is found, unchanged, at that offset of the flattened sequence. */
  lemma FlattenBlock<T>(xss: seq<seq<T>>, i: nat)
    requires i < |xss|
    ensures Offset(xss, i) + |xss[i]| <= |Flatten(xss)|
    ensures Flatten(xss)[Offset(xss, i)..Offset(xss, i) + |xss[i]|] == xss[i]
  {
    assert xss == xss[..i] + [xss[i]] + xss[i + 1..];
    FlattenAppend(xss[..i] + [xss[i]], xss[i + 1..]);
    FlattenAppend(xss[..i], [xss[i]]);
    assert Flatten([xss[i]]) == Flatten<T>([]) + xss[i];
    FlattenLength(xss[..i]);
  }
}
