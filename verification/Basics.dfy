/** Facts about collections and word sizes that several components use. */
module Basics {

  const TWO_32: nat := 0x1_0000_0000
  const TWO_64: nat := 0x1_0000_0000_0000_0000

  function Min(a: int, b: int): int
  {
    if a < b then a else b
  }

  lemma SetWithout<T>(s: set<T>, x: T)
    requires x in s
    ensures |s - {x}| == |s| - 1
  {
    assert s == (s - {x}) + {x};
  }

  lemma SplitBag<T>(s: seq<T>, k: nat)
    requires k <= |s|
    ensures multiset(s) == multiset(s[..k]) + multiset(s[k..])
  {
    assert s == s[..k] + s[k..];
  }

  /** No element occurs twice. */
  ghost predicate Distinct<T>(s: seq<T>)
  {
    s == [] || (s[0] !in s[1..] && Distinct(s[1..]))
  }

  /** The same, by index. */
  ghost predicate Injective<T>(s: seq<T>)
  {
    forall i, j :: 0 <= i < j < |s| ==> s[i] != s[j]
  }

  lemma {:induction false} DistinctByIndex<T>(s: seq<T>)
    ensures Distinct(s) <==> Injective(s)
  {
    if s != [] {
      DistinctByIndex(s[1..]);
      if Distinct(s) {
        forall i, j | 0 <= i < j < |s|
          ensures s[i] != s[j]
        {
          assert s[j] == s[1..][j - 1];
          if i > 0 { assert s[i] == s[1..][i - 1]; }
        }
      } else if s[0] in s[1..] {
        var k :| 0 <= k < |s| - 1 && s[1..][k] == s[0];
        assert s[0] == s[k + 1];
      } else {
        var i, j :| 0 <= i < j < |s| - 1 && s[1..][i] == s[1..][j];
        assert s[i + 1] == s[j + 1];
      }
    }
  }

  lemma DistinctAt<T>(s: seq<T>, i: nat, j: nat)
    requires Distinct(s) && i < |s| && j < |s|
    ensures s[i] == s[j] <==> i == j
  {
    DistinctByIndex(s);
  }

  lemma {:induction false} DistinctAppend<T>(s: seq<T>, x: T)
    requires Distinct(s) && x !in s
    ensures Distinct(s + [x])
  {
    if s != [] {
      DistinctAppend(s[1..], x);
      assert (s + [x])[1..] == s[1..] + [x];
    }
  }

  lemma InjectiveJoin<T>(a: seq<T>, b: seq<T>)
    requires Injective(a) && Injective(b) && forall x :: x in b ==> x !in a
    ensures Injective(a + b)
  {
    var s := a + b;
    forall i, j | 0 <= i < j < |s|
      ensures s[i] != s[j]
    {
      if i < |a| <= j { assert s[i] in a && s[j] in b; }
    }
  }

  /** The sequence with the first occurrence of an element taken out. */
  function RemoveFirst<T(==)>(s: seq<T>, x: T): seq<T>
  {
    if s == [] then []
    else if s[0] == x then s[1..] else [s[0]] + RemoveFirst(s[1..], x)
  }

  /** The sequence with every occurrence of an element taken out, the others in order. */
  function Without<T(==)>(s: seq<T>, x: T): seq<T>
  {
    if s == [] then []
    else if s[0] == x then Without(s[1..], x) else [s[0]] + Without(s[1..], x)
  }

  lemma {:induction false} WithoutFacts<T>(s: seq<T>, x: T)
    ensures x !in Without(s, x) && |Without(s, x)| <= |s|
    ensures forall y :: y in s ==> y == x || y in Without(s, x)
    ensures forall y :: y in Without(s, x) ==> y in s
    ensures x !in s ==> Without(s, x) == s
  {
    if s != [] { WithoutFacts(s[1..], x); }
  }

  lemma {:induction false} WithoutDistinct<T>(s: seq<T>, x: T)
    requires Distinct(s)
    ensures Distinct(Without(s, x))
  {
    if s != [] {
      WithoutFacts(s[1..], x);
      WithoutDistinct(s[1..], x);
    }
  }

  lemma InjectiveWithout<T>(s: seq<T>, x: T)
    requires Injective(s)
    ensures Injective(Without(s, x))
  {
    DistinctByIndex(s);
    WithoutDistinct(s, x);
    DistinctByIndex(Without(s, x));
  }
}
