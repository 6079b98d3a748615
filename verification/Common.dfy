/** What several parts of the model share. */
module Common {
  datatype Option<T> = None | Some(value: T)

  /** Times are nanoseconds since the zero time of the standard library, which is midnight UTC. */
  const ZERO_TIME := 0
  const HOUR := 60 * 60 * 1_000_000_000
  const DAY := 24 * HOUR

  function Bit(b: bool): nat { if b then 1 else 0 }

  /** A subset is no larger, and as large only when it is the whole. */
  lemma SubsetSize<T>(a: set<T>, b: set<T>)
    requires a <= b
    ensures |a| <= |b| && (|a| == |b| ==> a == b)
  {
    assert b == a + (b - a);
    assert |b| == |a| + |b - a|;
  }

  function Map<A, B>(s: seq<A>, f: A -> B): (r: seq<B>)
    ensures |r| == |s| && forall i | 0 <= i < |s| :: r[i] == f(s[i])
  {
    seq(|s|, i requires 0 <= i < |s| => f(s[i]))
  }

  /** Mapping keeps permutations. */
  lemma {:induction false} MapPermutes<A, B>(a: seq<A>, b: seq<A>, f: A -> B)
    requires multiset(a) == multiset(b)
    ensures multiset(Map(a, f)) == multiset(Map(b, f))
    decreases |a|
  {
    if a == [] {
      assert |b| == |multiset(b)| == 0;
    } else {
      var n, x := |a| - 1, a[|a| - 1];
      assert x in multiset(a);
      var j :| 0 <= j < |b| && b[j] == x;
      TakeOut(a, n);
      TakeOut(b, j);
      MapPermutes(a[..n] + a[n + 1..], b[..j] + b[j + 1..], f);
      MapTakeOut(a, n, f);
      MapTakeOut(b, j, f);
    }
  }

  lemma TakeOut<A>(s: seq<A>, j: nat)
    requires j < |s|
    ensures multiset(s) == multiset(s[..j] + s[j + 1..]) + multiset{s[j]}
    ensures multiset(s[..j] + s[j + 1..]) == multiset(s) - multiset{s[j]}
  {
    assert s == s[..j] + [s[j]] + s[j + 1..];
  }

  lemma MapTakeOut<A, B>(s: seq<A>, j: nat, f: A -> B)
    requires j < |s|
    ensures multiset(Map(s, f)) == multiset(Map(s[..j] + s[j + 1..], f)) + multiset{f(s[j])}
  {
    var m := Map(s, f);
    TakeOut(m, j);
    assert m[..j] + m[j + 1..] == Map(s[..j] + s[j + 1..], f);
  }
}
