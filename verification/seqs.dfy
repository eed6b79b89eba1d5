/** Sequence operations behind the Java collection calls the core relies on:
    `stream().anyMatch`, `stream().filter(..).findFirst()`, `removeIf` and
    `List.remove(Object)`, together with the duplicate-freedom they preserve.
 */
module Seqs {
  import opened Outcomes

  /** No element occurs twice. */
  predicate NoDups<T(==)>(s: seq<T>) {
    forall i, j :: 0 <= i < j < |s| ==> s[i] != s[j]
  }

  /** The set of elements of `s`. */
  function Elements<T>(s: seq<T>): set<T> {
    set x | x in s
  }

  /** Left-to-right scan for `x`, as `stream().anyMatch(e -> e.equals(x))`. */
  function Contains<T(==)>(s: seq<T>, x: T): (b: bool)
    ensures b <==> x in s
  {
    if s == [] then false else s[0] == x || Contains(s[1..], x)
  }

  /** Index of the first element satisfying `p`, as `filter(p).findFirst()`. */
  function FindIndex<T>(s: seq<T>, p: T -> bool): (r: Option<nat>)
    ensures r.Some? ==> r.value < |s| && p(s[r.value])
    ensures r.Some? ==> forall j :: 0 <= j < r.value ==> !p(s[j])
    ensures r.None? ==> forall j :: 0 <= j < |s| ==> !p(s[j])
  {
    if s == [] then None
    else if p(s[0]) then Some(0)
    else match FindIndex(s[1..], p)
      case None => None
      case Some(i) => Some(i + 1)
  }

  /** Every occurrence of `x` removed, the rest in order, as `removeIf(e -> e.equals(x))`. */
  function Without<T(==)>(s: seq<T>, x: T): (r: seq<T>)
    ensures x !in r
    ensures x !in s ==> r == s
    ensures x in s <==> |r| < |s|
  {
    if s == [] then []
    else
      assert s == [s[0]] + s[1..];
      if s[0] == x then Without(s[1..], x)
      else [s[0]] + Without(s[1..], x)
  }

  /** The first occurrence of `x` removed, as `List.remove(Object)`. */
  function RemoveFirst<T(==)>(s: seq<T>, x: T): (r: seq<T>)
    ensures x !in s ==> r == s
    ensures x in s ==> |r| == |s| - 1
    ensures multiset(r) == multiset(s) - multiset{x}
  {
    if s == [] then []
    else if s[0] == x then assert s == [s[0]] + s[1..]; s[1..]
    else assert s == [s[0]] + s[1..]; [s[0]] + RemoveFirst(s[1..], x)
  }

  /** Filtering keeps exactly the elements other than `x`. */
  lemma {:induction false} WithoutMembers<T>(s: seq<T>, x: T, y: T)
    ensures y in Without(s, x) <==> y in s && y != x
  {
    if s != [] {
      WithoutMembers(s[1..], x, y);
      assert s == [s[0]] + s[1..];
    }
  }

  /** Filtering keeps only elements of the original sequence. */
  lemma WithoutSubset<T>(s: seq<T>, x: T)
    ensures forall i :: 0 <= i < |Without(s, x)| ==> Without(s, x)[i] in s
  {
    forall i | 0 <= i < |Without(s, x)| ensures Without(s, x)[i] in s {
      WithoutMembers(s, x, Without(s, x)[i]);
    }
  }

  /** Filtering distributes over concatenation: the survivors keep their order. */
  lemma {:induction false} WithoutAppend<T>(a: seq<T>, b: seq<T>, x: T)
    ensures Without(a + b, x) == Without(a, x) + Without(b, x)
  {
    if a == [] {
      assert a + b == b;
    } else {
      assert (a + b)[0] == a[0];
      assert (a + b)[1..] == a[1..] + b;
      WithoutAppend(a[1..], b, x);
    }
  }

  /** In a duplicate-free sequence, removing `s[i]` by value is deleting position `i`. */
  lemma {:induction false} WithoutAt<T>(s: seq<T>, i: nat)
    requires NoDups(s)
    requires i < |s|
    ensures Without(s, s[i]) == s[..i] + s[i+1..]
    decreases i
  {
    var x := s[i];
    assert s[0] !in s[1..] by {
      forall j | 0 <= j < |s| - 1 ensures s[1..][j] != s[0] {
        assert s[1..][j] == s[j + 1];
      }
    }
    if i == 0 {
      assert s[..0] + s[1..] == s[1..];
    } else {
      var t := s[1..];
      assert NoDups(t);
      assert t[i - 1] == x;
      WithoutAt(t, i - 1);
      assert [s[0]] + (t[..i - 1] + t[i..]) == s[..i] + s[i+1..];
    }
  }

  /** Filtering never introduces a duplicate. */
  lemma {:induction false} NoDupsWithout<T>(s: seq<T>, x: T)
    ensures NoDups(s) ==> NoDups(Without(s, x))
  {
    if s != [] && NoDups(s) {
      assert NoDups(s[1..]);
      NoDupsWithout(s[1..], x);
      assert s[0] !in s[1..];
      WithoutMembers(s[1..], x, s[0]);
    }
  }

  /** Appending an absent element keeps a sequence duplicate-free. */
  lemma NoDupsAppend<T>(s: seq<T>, x: T)
    requires NoDups(s)
    requires x !in s
    ensures NoDups(s + [x])
  {
  }

  /** On a duplicate-free sequence, removing the first occurrence removes every occurrence. */
  lemma {:induction false} RemoveFirstIsWithout<T>(s: seq<T>, x: T)
    requires NoDups(s)
    ensures RemoveFirst(s, x) == Without(s, x)
  {
    if s != [] {
      assert s[0] !in s[1..];
      assert NoDups(s[1..]);
      RemoveFirstIsWithout(s[1..], x);
    }
  }

  /** A duplicate-free sequence holds each element exactly once. */
  lemma {:induction false} NoDupsCount<T>(s: seq<T>, x: T)
    requires NoDups(s)
    ensures multiset(s)[x] == if x in s then 1 else 0
  {
    if s != [] {
      assert s == [s[0]] + s[1..];
      assert NoDups(s[1..]);
      assert s[0] !in s[1..];
      NoDupsCount(s[1..], x);
    }
  }

  /** A duplicate-free sequence is as long as its set of elements is large. */
  lemma {:induction false} DistinctCount<T>(s: seq<T>)
    requires NoDups(s)
    ensures |Elements(s)| == |s|
  {
    if s != [] {
      assert NoDups(s[1..]);
      DistinctCount(s[1..]);
      assert s[0] !in s[1..];
      assert Elements(s) == {s[0]} + Elements(s[1..]);
    }
  }
}
