/** Facts about slicing and joining sequences, kept apart so that proofs can cite them by name. */
module Seqs {
  lemma SplitLast<T>(s: seq<T>)
    requires |s| > 0
    ensures s == s[..|s| - 1] + [s[|s| - 1]]
  {
  }

  lemma Assoc<T>(a: seq<T>, b: seq<T>, c: seq<T>)
    ensures a + b + c == a + (b + c)
  {
  }

  lemma Slices<T>(s: seq<T>, p: nat, q: nat)
    requires p <= q <= |s|
    ensures s[..q] == s[..p] + s[p..q]
  {
  }

  lemma ThreeSlices<T>(s: seq<T>, i: nat, j: nat)
    requires i <= j <= |s|
    ensures s[..j][..i] == s[..i] && s[..j][i..] == s[i..j]
    ensures s[..j] == s[..i] + s[i..j]
    ensures s == s[..i] + s[i..j] + s[j..]
  {
  }

  lemma ConcatSlices<T>(a: seq<T>, b: seq<T>, n: nat)
    requires n <= |b|
    ensures (a + b)[..n + |a|] == a + b[..n]
    ensures (a + b)[n + |a|..] == b[n..]
  {
  }

  /** Two different sequences of one length differ somewhere. */
  lemma {:induction false} Differ<T>(x: seq<T>, y: seq<T>) returns (k: nat)
    requires |x| == |y| && x != y
    ensures k < |x| && x[k] != y[k]
    decreases |x|
  {
    k := 0;
    if x[0] == y[0] {
      assert x == [x[0]] + x[1..] && y == [y[0]] + y[1..];
      var j := Differ(x[1..], y[1..]);
      k := j + 1;
    }
  }

  /** Comparing two slices compares them element by element. */
  lemma SlicesDiffer<T>(x: seq<T>, i: nat, y: seq<T>, j: nat, n: nat) returns (k: nat)
    requires i + n <= |x| && j + n <= |y| && x[i..i + n] != y[j..j + n]
    ensures k < n && x[i + k] != y[j + k]
  {
    k := Differ(x[i..i + n], y[j..j + n]);
  }

  lemma SlicesAgree<T>(x: seq<T>, i: nat, y: seq<T>, j: nat, n: nat, k: nat)
    requires i + n <= |x| && j + n <= |y| && x[i..i + n] == y[j..j + n] && k < n
    ensures x[i + k] == y[j + k]
  {
    assert x[i..i + n][k] == y[j..j + n][k];
  }

  lemma TakeSnoc<T>(s: seq<T>, i: nat)
    requires i < |s|
    ensures s[..i + 1][..i] == s[..i] && s[..i + 1][i] == s[i] && |s[..i + 1]| == i + 1
  {
  }

  lemma PrevSlice<T>(s: seq<T>, j: nat, done: seq<T>)
    requires j < |s|
    ensures s[..j + 1] + done == s[..j] + ([s[j]] + done)
  {
  }

  lemma NextSlice<T>(s: seq<T>, done: seq<T>, j: nat)
    requires j < |s| && |done| == j && s == done + s[j..]
    ensures s == done + [s[j]] + s[j + 1..]
  {
  }

  /** A subset has no more elements. */
  lemma {:induction false} SubsetSize<T>(a: set<T>, b: set<T>)
    requires a <= b
    ensures |a| <= |b|
    decreases |a|
  {
    if a != {} {
      var x :| x in a;
      SubsetSize(a - {x}, b - {x});
    }
  }
}
