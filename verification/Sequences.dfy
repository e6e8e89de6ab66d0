/** Facts about sequences, each to be used by name where the solver would otherwise search for it. */
module Sequences {

  lemma Reassociate<T>(a: seq<T>, b: seq<T>, c: seq<T>)
    ensures (a + b) + c == a + (b + c)
  {
  }

  lemma RightEmpty<T>(a: seq<T>)
    ensures a + [] == a
  {
  }

  lemma LeftEmpty<T>(a: seq<T>)
    ensures [] + a == a
  {
  }

  /** Taking the last element off a concatenation. */
  lemma Front<T>(a: seq<T>, b: seq<T>)
    requires b != []
    ensures a + b != [] && (a + b)[..|a + b| - 1] == a + b[..|b| - 1] && (a + b)[|a + b| - 1] == b[|b| - 1]
  {
  }

  /** Taking the last element off a sequence just made longer. */
  lemma FrontOfNext<T>(a: seq<T>, x: T)
    ensures (a + [x])[..|a + [x]| - 1] == a && (a + [x])[|a + [x]| - 1] == x
  {
  }

  lemma FrontAndLast<T>(a: seq<T>)
    requires a != []
    ensures a == a[..|a| - 1] + [a[|a| - 1]]
  {
  }

  lemma Single<T>(a: seq<T>)
    requires |a| == 1
    ensures a == [a[0]]
  {
  }

  lemma OneAndOne<T>(x: T, y: T)
    ensures [x] + [y] == [x, y]
  {
  }

  lemma TwoAndOne<T>(x: T, y: T, z: T)
    ensures [x, y] + [z] == [x, y, z]
  {
  }

  lemma TailOf<T>(x: T, a: seq<T>)
    ensures ([x] + a)[0] == x && ([x] + a)[1..] == a
  {
  }

  lemma TakeDrop<T>(a: seq<T>, k: nat)
    requires k <= |a|
    ensures a[..k] + a[k..] == a
  {
  }

  lemma TakeOfTake<T>(a: seq<T>, j: nat, k: nat)
    requires j <= k <= |a|
    ensures a[..k][..j] == a[..j]
  {
  }

  lemma PartsOf<T>(a: seq<T>, b: seq<T>)
    ensures (a + b)[..|a|] == a && (a + b)[|a|..] == b
  {
  }

  lemma PrefixOfPrefix<T>(a: seq<T>, b: seq<T>, c: seq<T>)
    requires a <= b && b <= c
    ensures a <= c
  {
  }

  lemma StartsWith<T>(a: seq<T>, b: seq<T>)
    ensures a <= a + b
  {
  }

  lemma SliceOfSlice<T>(a: seq<T>, i: nat, j: nat)
    requires i <= j <= |a|
    ensures a[i..][..j - i] == a[i..j] && a[i..][j - i..] == a[j..]
  {
  }

  lemma SliceOfLonger<T>(a: seq<T>, b: seq<T>, i: nat)
    requires i <= |a|
    ensures (a + b)[i..] == a[i..] + b
  {
  }

  /** What is put behind the same sequence is the same. */
  lemma SameTails<T>(a: seq<T>, b: seq<T>, c: seq<T>)
    ensures a + b == a + c <==> b == c
  {
    PartsOf(a, b);
    PartsOf(a, c);
  }

  lemma MultisetNext<T>(a: seq<T>, x: T)
    ensures multiset(a + [x]) == multiset(a) + multiset{x}
  {
  }
}
