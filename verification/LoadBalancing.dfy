/** How the dispatcher spreads tasks over the active processors (libgo/scheduler/scheduler.cpp).
    A processor is the list of its tasks; adding appends to it and stealing takes from its end,
    since only numbers and membership matter here. */
module LoadBalancing {
  import opened Basics
  import opened Remainders

  type Task = nat

  /** An entry of the map from load to processor. */
  datatype Active = Active(load: nat, proc: nat)

  // ---------------------------------------------------------------- arithmetic

  /** The joint load of the first `k` processors. */
  ghost function Sum(a: seq<Active>, k: nat): nat
    requires k <= |a|
  {
    if k == 0 then 0 else Sum(a, k - 1) + a[k - 1].load
  }

  /** What it takes to bring the first `k` processors to a level none of them exceeds. */
  ghost function Need(a: seq<Active>, level: int, k: nat): int
    requires k <= |a|
  {
    if k == 0 then 0 else Need(a, level, k - 1) + (level - a[k - 1].load)
  }

  lemma {:induction false} NeedSum(a: seq<Active>, level: int, k: nat)
    requires k <= |a|
    ensures Need(a, level, k) == k * level - Sum(a, k)
  {
    if k > 0 {
      NeedSum(a, level, k - 1);
      assert (k - 1) * level + level == k * level;
    }
  }

  lemma {:induction false} NeedGrows(a: seq<Active>, level: int, j: nat, k: nat)
    requires j <= k <= |a|
    requires forall i :: j <= i < k ==> a[i].load <= level
    ensures Need(a, level, j) <= Need(a, level, k)
  {
    if j < k { NeedGrows(a, level, j, k - 1); }
  }

  /** A processor above the average that includes it is above the average that does not. */
  lemma AboveBoth(x: nat, load: nat, k: nat)
    requires k > 0
    ensures load > Quot(x + load, k + 1) ==> load > Quot(x, k)
  {
    if load <= Quot(x, k) {
      QuotRem(x, k);
      Monotone(k, Quot(x, k), load);
      assert (k + 1) * load == k * load + load;
      QuotAtLeast(x + load, k + 1, load);
    }
  }

  // ---------------------------------------------------------------- who gets how much

  ghost predicate Ascending(a: seq<Active>, k: nat)
    requires k <= |a|
  {
    k < 2 || (a[k - 2].load <= a[k - 1].load && Ascending(a, k - 1))
  }

  lemma {:induction false} AscendingPair(a: seq<Active>, k: nat, i: nat, j: nat)
    requires k <= |a| && Ascending(a, k) && i <= j < k
    ensures a[i].load <= a[j].load
  {
    if j == k - 1 {
      if i < j { AscendingPair(a, k - 1, i, j - 1); }
    } else {
      AscendingPair(a, k - 1, i, j);
    }
  }

  lemma AllBelow(a: seq<Active>, k: nat, level: nat)
    requires 0 < k <= |a| && Ascending(a, |a|) && a[k - 1].load <= level
    ensures forall i :: 0 <= i < k ==> a[i].load <= level
  {
    forall i | 0 <= i < k ensures a[i].load <= level { AscendingPair(a, |a|, i, k - 1); }
  }

  lemma AllAbove(a: seq<Active>, k: nat, level: nat)
    requires k < |a| && Ascending(a, |a|) && a[k].load >= level
    ensures forall i :: k <= i < |a| ==> a[i].load >= level
  {
    forall i | k <= i < |a| ensures a[i].load >= level { AscendingPair(a, |a|, k, i); }
  }

  /** The level to which the stolen tasks raise the least loaded processors, and how many those
      are: exactly the ones that are not above it. */
  method LowerLevel(a: seq<Active>, stolen: nat) returns (lower: nat, avg: nat)
    requires |a| > 0 && Ascending(a, |a|)
    ensures 0 < lower <= |a|
    ensures avg == Quot(stolen + Sum(a, lower), lower)
    ensures forall i :: 0 <= i < lower ==> a[i].load <= avg
    ensures forall i :: lower <= i < |a| ==> a[i].load > avg
  {
    var total := stolen;
    lower, avg := 0, 0;
    while lower < |a|
      invariant 0 <= lower <= |a| && total == stolen + Sum(a, lower)
      invariant lower > 0 ==> avg == Quot(total, lower) && a[lower - 1].load <= avg
    {
      var next := total + a[lower].load;
      avg := Quot(next, lower + 1);
      QuotOne(next);
      if a[lower].load > avg {
        AboveBoth(total, a[lower].load, lower);
        avg := Quot(total, lower);
        break;
      }
      total, lower := next, lower + 1;
    }
    AllBelow(a, lower, avg);
    forall i | lower <= i < |a| ensures a[i].load > avg { AscendingPair(a, |a|, lower, i); }
  }

  // ---------------------------------------------------------------- the processors

  /** All tasks of all processors. */
  ghost function All(q: seq<seq<Task>>): multiset<Task>
  {
    if q == [] then multiset{} else All(q[..|q| - 1]) + multiset(q[|q| - 1])
  }

  lemma Rearranged(a': multiset<Task>, x: multiset<Task>, a: multiset<Task>, s: multiset<Task>, y: multiset<Task>)
    requires a' + x == a + s
    ensures (a' + y) + x == (a + y) + s
  {
    assert (a' + y) + x == (a' + x) + y && (a + y) + s == (a + s) + y;
  }

  lemma Cancelled(a': multiset<Task>, x: multiset<Task>, a: multiset<Task>, t: multiset<Task>)
    requires a' + x == a + (x + t)
    ensures a' == a + t
  {
    assert a + (x + t) == (a + t) + x;
    assert (a' + x) - x == a' && ((a + t) + x) - x == a + t;
  }

  lemma {:induction false} AllUpdate(q: seq<seq<Task>>, p: nat, s: seq<Task>)
    requires p < |q|
    ensures All(q[p := s]) + multiset(q[p]) == All(q) + multiset(s)
  {
    var n := |q| - 1;
    if p == n {
      assert q[p := s][..n] == q[..n];
    } else {
      AllUpdate(q[..n], p, s);
      assert q[p := s][..n] == q[..n][p := s] && q[p := s][n] == q[n];
      Rearranged(All(q[..n][p := s]), multiset(q[p]), All(q[..n]), multiset(s), multiset(q[n]));
    }
  }

  /** `SList::cut`: at most `n` tasks from the front. */
  function Cut(s: seq<Task>, n: nat): (r: (seq<Task>, seq<Task>))
    ensures s == r.0 + r.1 && |r.0| == if n <= |s| then n else |s|
  {
    if n >= |s| then (s, []) else (s[..n], s[n..])
  }

  // ---------------------------------------------------------------- how the sizes change

  /** The sizes when the first `k` processors have been given what they lack to the level. */
  ghost function RaisedTo(a: seq<Active>, b: seq<int>, k: nat, level: int): (f: seq<int>)
    requires |b| == |a| && k <= |a|
    ensures |f| == |a|
  {
    if k == 0 then b
    else var f := RaisedTo(a, b, k - 1, level); f[k - 1 := f[k - 1] + (level - a[k - 1].load)]
  }

  lemma {:induction false} RaisedAt(a: seq<Active>, b: seq<int>, k: nat, level: int, i: nat)
    requires |b| == |a| && k <= |a| && i < |a|
    ensures RaisedTo(a, b, k, level)[i] == if i < k then b[i] + (level - a[i].load) else b[i]
  {
    if k > 0 { RaisedAt(a, b, k - 1, level, i); }
  }

  /** Nothing more to give to processors that are at the level. */
  lemma {:induction false} RaisedAlready(a: seq<Active>, b: seq<int>, i: nat, k: nat, level: int)
    requires |b| == |a| && i <= k <= |a| && (forall j :: i <= j < k ==> a[j].load == level)
    ensures RaisedTo(a, b, i, level) == RaisedTo(a, b, k, level)
  {
    if i < k { RaisedAlready(a, b, i, k - 1, level); }
  }

  /** What all of the blocked processors can give up. */
  ghost function Total(s: seq<nat>, k: nat): nat
    requires k <= |s|
  {
    if k == 0 then 0 else Total(s, k - 1) + s[k - 1]
  }

  /** What is left over after the level has been reached: less than one task for each of the
      processors counted. */
  ghost function Leftover(a: seq<Active>, stolen: nat, lower: nat): nat
    requires 0 < lower <= |a|
  {
    Rem(stolen + Sum(a, lower), lower)
  }

  /** It is what remains when everybody counted has been raised to the level. */
  lemma LeftoverIs(a: seq<Active>, stolen: nat, lower: nat)
    requires 0 < lower <= |a|
    ensures Leftover(a, stolen, lower) == stolen - Need(a, Quot(stolen + Sum(a, lower), lower), lower)
  {
    NeedSum(a, Quot(stolen + Sum(a, lower), lower), lower);
    QuotRem(stolen + Sum(a, lower), lower);
  }

  /** The processor that gets it: the first one above the level, unless there is none or the last
      one counted needed nothing; then the least loaded one. */
  function Receiver(a: seq<Active>, lower: nat, level: nat): nat
    requires 0 < lower <= |a|
  {
    if lower < |a| && a[lower - 1].load < level then lower else 0
  }

  /** The sizes when the stolen tasks have been dealt out. */
  ghost function SpreadSizes(a: seq<Active>, b: seq<int>, stolen: nat, lower: nat, level: nat): (f: seq<int>)
    requires 0 < lower <= |a| == |b|
    ensures |f| == |a|
  {
    var f, c := RaisedTo(a, b, lower, level), Receiver(a, lower, level);
    f[c := f[c] + Leftover(a, stolen, lower)]
  }

  /** The level is the average of the stolen tasks and those of the processors counted, which are
      exactly the ones not above it. */
  ghost predicate LevelOf(a: seq<Active>, stolen: nat, lower: nat, level: nat)
  {
    && 0 < lower <= |a| && level == Quot(stolen + Sum(a, lower), lower)
    && (forall i :: 0 <= i < |a| ==> (i < lower <==> a[i].load <= level))
  }

  function Positive(x: int): nat
  {
    if x > 0 then x else 0
  }

  /** What balancing steals from a processor: what it has above the average, if it can give it up. */
  function Taken(a: seq<Active>, stealable: seq<nat>, avg: int, i: nat): nat
    requires i < |a| == |stealable|
  {
    Min(Positive(a[i].load - avg), stealable[i])
  }

  ghost function TakenSum(a: seq<Active>, stealable: seq<nat>, avg: int, k: nat): nat
    requires k <= |a| == |stealable|
  {
    if k == 0 then 0 else TakenSum(a, stealable, avg, k - 1) + Taken(a, stealable, avg, k - 1)
  }

  /** What the first `k` processors have below the average. */
  ghost function Lack(a: seq<Active>, avg: int, k: nat): nat
    requires k <= |a|
  {
    if k == 0 then 0 else Lack(a, avg, k - 1) + Positive(avg - a[k - 1].load)
  }

  /** What balancing gives a processor: what it lacks, as far as those before it leave any. */
  ghost function Gift(a: seq<Active>, avg: int, total: nat, i: nat): nat
    requires i < |a|
  {
    Min(Positive(avg - a[i].load), Positive(total - Lack(a, avg, i)))
  }

  /** The sizes when the processors from `k` on have been stolen from. */
  ghost function TrimmedTo(a: seq<Active>, b: seq<int>, stealable: seq<nat>, avg: int, k: nat): (f: seq<int>)
    requires |b| == |a| == |stealable| && k <= |a|
    ensures |f| == |a|
    decreases |a| - k
  {
    if k == |a| then b
    else var f := TrimmedTo(a, b, stealable, avg, k + 1); f[k := f[k] - Taken(a, stealable, avg, k)]
  }

  lemma {:induction false} TrimmedAt(a: seq<Active>, b: seq<int>, stealable: seq<nat>, avg: int, k: nat, i: nat)
    requires |b| == |a| == |stealable| && k <= |a| && i < |a|
    ensures TrimmedTo(a, b, stealable, avg, k)[i] == if i >= k then b[i] - Taken(a, stealable, avg, i) else b[i]
    decreases |a| - k
  {
    if k < |a| { TrimmedAt(a, b, stealable, avg, k + 1, i); }
  }

  lemma TrimmedStep(a: seq<Active>, b: seq<int>, stealable: seq<nat>, avg: int, k: nat, taken: nat)
    requires |b| == |a| == |stealable| && 0 < k <= |a| && a[k - 1].load > avg
    requires taken == Min(a[k - 1].load - avg, stealable[k - 1])
    ensures var f := TrimmedTo(a, b, stealable, avg, k);
            TrimmedTo(a, b, stealable, avg, k - 1) == f[k - 1 := f[k - 1] - taken]
    ensures TakenSum(a, stealable, avg, k) == TakenSum(a, stealable, avg, k - 1) + taken
  {
  }

  /** The processors that are not above the average give up nothing. */
  lemma {:induction false} TrimmedRest(a: seq<Active>, b: seq<int>, stealable: seq<nat>, avg: int, k: nat)
    requires |b| == |a| == |stealable| && k <= |a| && (forall i :: 0 <= i < k ==> a[i].load <= avg)
    ensures TrimmedTo(a, b, stealable, avg, k) == TrimmedTo(a, b, stealable, avg, 0)
    ensures TakenSum(a, stealable, avg, k) == 0
  {
    if k > 0 { TrimmedRest(a, b, stealable, avg, k - 1); }
  }

  /** The sizes when the processors before `k` have been given theirs. */
  ghost function FilledTo(a: seq<Active>, b: seq<int>, avg: int, total: nat, k: nat): (f: seq<int>)
    requires |b| == |a| && k <= |a|
    ensures |f| == |a|
  {
    if k == 0 then b
    else var f := FilledTo(a, b, avg, total, k - 1); f[k - 1 := f[k - 1] + Gift(a, avg, total, k - 1)]
  }

  lemma {:induction false} FilledAt(a: seq<Active>, b: seq<int>, avg: int, total: nat, k: nat, i: nat)
    requires |b| == |a| && k <= |a| && i < |a|
    ensures FilledTo(a, b, avg, total, k)[i] == if i < k then b[i] + Gift(a, avg, total, i) else b[i]
  {
    if k > 0 { FilledAt(a, b, avg, total, k - 1, i); }
  }

  /** The processors that are not below the average get nothing. */
  lemma {:induction false} FilledRest(a: seq<Active>, b: seq<int>, avg: int, total: nat, k: nat, m: nat)
    requires |b| == |a| && k <= m <= |a| && (forall i :: k <= i < |a| ==> a[i].load >= avg)
    ensures FilledTo(a, b, avg, total, k) == FilledTo(a, b, avg, total, m)
    ensures Lack(a, avg, k) == Lack(a, avg, m)
  {
    if k < m { FilledRest(a, b, avg, total, k, m - 1); }
  }

  /** The sizes when `total` tasks have been dealt out: filled, and the rest to the first. */
  ghost function Dealt(a: seq<Active>, b: seq<int>, avg: int, total: nat): (f: seq<int>)
    requires 0 < |a| == |b|
    ensures |f| == |a|
  {
    var f := FilledTo(a, b, avg, total, |a|);
    f[0 := f[0] + Positive(total - Lack(a, avg, |a|))]
  }

  /** The sizes after balancing, given the sizes before. */
  ghost function BalancedSizes(a: seq<Active>, b: seq<int>, stealable: seq<nat>, avg: int): (f: seq<int>)
    requires 0 < |a| == |b| == |stealable|
    ensures |f| == |a|
  {
    Dealt(a, TrimmedTo(a, b, stealable, avg, 0), avg, TakenSum(a, stealable, avg, |a|))
  }

  lemma BalancedAt(a: seq<Active>, b: seq<int>, stealable: seq<nat>, avg: int, i: nat)
    requires i < |a| == |b| == |stealable|
    ensures BalancedSizes(a, b, stealable, avg)[i] == Balanced(a, b, stealable, avg, i)
  {
    var total := TakenSum(a, stealable, avg, |a|);
    TrimmedAt(a, b, stealable, avg, 0, i);
    FilledAt(a, TrimmedTo(a, b, stealable, avg, 0), avg, total, |a|, i);
  }

  /** The size of a processor after balancing, given its size before. */
  ghost function Balanced(a: seq<Active>, b: seq<int>, stealable: seq<nat>, avg: int, i: nat): int
    requires i < |a| == |b| == |stealable|
  {
    var total := TakenSum(a, stealable, avg, |a|);
    b[i] - Taken(a, stealable, avg, i) + Gift(a, avg, total, i) +
    (if i == 0 then Positive(total - Lack(a, avg, |a|)) else 0)
  }

  /** Whether every processor above the average can give up all it has above it. */
  ghost predicate FullSteals(a: seq<Active>, stealable: seq<nat>, avg: int)
    requires |stealable| == |a|
  {
    forall i :: 0 <= i < |a| ==> a[i].load - avg <= stealable[i]
  }

  lemma {:induction false} FullStealsSum(a: seq<Active>, stealable: seq<nat>, avg: int, k: nat)
    requires k <= |a| == |stealable| && FullSteals(a, stealable, avg)
    ensures TakenSum(a, stealable, avg, k) - Lack(a, avg, k) == -Need(a, avg, k)
  {
    if k > 0 { FullStealsSum(a, stealable, avg, k - 1); }
  }

  lemma {:induction false} LackGrows(a: seq<Active>, avg: int, j: nat, k: nat)
    requires j <= k <= |a|
    ensures Lack(a, avg, j) <= Lack(a, avg, k)
  {
    if j < k { LackGrows(a, avg, j, k - 1); }
  }

  /** However few tasks the steals get, no processor ends below the average that was above it, and
      none with less than it had that was not. */
  lemma NobodyBelowAverage(a: seq<Active>, b: seq<int>, stealable: seq<nat>, avg: int, i: nat)
    requires i < |a| == |b| == |stealable| && a[i].load <= b[i]
    ensures Balanced(a, b, stealable, avg, i) >= Min(a[i].load, avg)
    ensures a[i].load <= avg ==> Balanced(a, b, stealable, avg, i) >= b[i]
  {
  }

  /** If every steal gets what it asks for and the loads are right, all processors end at the
      average, and the least loaded one also has the remainder. */
  lemma EndsAtAverage(a: seq<Active>, b: seq<int>, stealable: seq<nat>, i: nat)
    requires i < |a| == |b| == |stealable| && a[i].load == b[i]
    requires FullSteals(a, stealable, Quot(Sum(a, |a|), |a|))
    ensures Balanced(a, b, stealable, Quot(Sum(a, |a|), |a|), i) ==
            Quot(Sum(a, |a|), |a|) + if i == 0 then Rem(Sum(a, |a|), |a|) else 0
  {
    var avg := Quot(Sum(a, |a|), |a|);
    AverageNeed(a);
    FullStealsSum(a, stealable, avg, |a|);
    LackGrows(a, avg, i + 1, |a|);
  }

  /** Leveling all processors at their average leaves the remainder. */
  lemma AverageNeed(a: seq<Active>)
    requires |a| > 0
    ensures Need(a, Quot(Sum(a, |a|), |a|), |a|) + Rem(Sum(a, |a|), |a|) == 0
  {
    NeedSum(a, Quot(Sum(a, |a|), |a|), |a|);
    QuotRem(Sum(a, |a|), |a|);
  }

  // ---------------------------------------------------------------- the processors

  /** The first `k` of the list do not include this processor. */
  ghost predicate Unlisted(a: seq<Active>, k: nat, p: nat)
    requires k <= |a|
  {
    k == 0 || (a[k - 1].proc != p && Unlisted(a, k - 1, p))
  }

  /** They are there and listed once each. */
  ghost predicate OnceEach(a: seq<Active>, n: nat, k: nat)
    requires k <= |a|
  {
    k == 0 || (a[k - 1].proc < n && Unlisted(a, k - 1, a[k - 1].proc) && OnceEach(a, n, k - 1))
  }

  lemma {:induction false} UnlistedAt(a: seq<Active>, k: nat, p: nat, i: nat)
    requires i < k <= |a| && Unlisted(a, k, p)
    ensures a[i].proc != p
  {
    if i < k - 1 { UnlistedAt(a, k - 1, p, i); }
  }

  lemma {:induction false} ListedAt(a: seq<Active>, n: nat, k: nat, i: nat)
    requires i < k <= |a| && OnceEach(a, n, k)
    ensures a[i].proc < n
  {
    if i < k - 1 { ListedAt(a, n, k - 1, i); }
  }

  /** How many tasks the first `k` of them have. */
  ghost function SizesTo(q: seq<seq<Task>>, a: seq<Active>, k: nat): (f: seq<int>)
    requires k <= |a| && OnceEach(a, |q|, k)
    ensures |f| == k
  {
    if k == 0 then [] else SizesTo(q, a, k - 1) + [|q[a[k - 1].proc]|]
  }

  lemma {:induction false} SizeAt(q: seq<seq<Task>>, a: seq<Active>, k: nat, i: nat)
    requires i < k <= |a| && OnceEach(a, |q|, k)
    ensures a[i].proc < |q| && SizesTo(q, a, k)[i] == |q[a[i].proc]|
  {
    if i < k - 1 { SizeAt(q, a, k - 1, i); }
  }

  /** Changing one processor changes one size. */
  lemma {:induction false} OneSize(q: seq<seq<Task>>, a: seq<Active>, k: nat, i: nat, s: seq<Task>)
    requires i < k <= |a| && OnceEach(a, |q|, k) && a[i].proc < |q|
    ensures SizesTo(q[a[i].proc := s], a, k) == SizesTo(q, a, k)[i := |s|]
  {
    if i == k - 1 {
      OtherSize(q, a, k - 1, a[i].proc, s);
    } else {
      UnlistedAt(a, k - 1, a[k - 1].proc, i);
      OneSize(q, a, k - 1, i, s);
    }
  }

  /** Changing a processor that is not listed changes none. */
  lemma {:induction false} OtherSize(q: seq<seq<Task>>, a: seq<Active>, k: nat, p: nat, s: seq<Task>)
    requires k <= |a| && OnceEach(a, |q|, k) && p < |q| && Unlisted(a, k, p)
    ensures SizesTo(q[p := s], a, k) == SizesTo(q, a, k)
  {
    if k > 0 { OtherSize(q, a, k - 1, p, s); }
  }

  lemma {:induction false} SameSizes(q: seq<seq<Task>>, q': seq<seq<Task>>, a: seq<Active>, k: nat)
    requires k <= |a| && OnceEach(a, |q|, k) && |q'| == |q|
    requires forall p :: 0 <= p < |q| && !Unlisted(a, |a|, p) ==> q'[p] == q[p]
    ensures SizesTo(q', a, k) == SizesTo(q, a, k)
  {
    if k > 0 {
      SameSizes(q, q', a, k - 1);
      if Unlisted(a, |a|, a[k - 1].proc) { UnlistedAt(a, |a|, a[k - 1].proc, k - 1); }
    }
  }

  /** The queues of the processors that are not among the first `k` listed. */
  ghost function BesideTo(q: seq<seq<Task>>, a: seq<Active>, k: nat): (r: seq<seq<Task>>)
    requires k <= |a| && OnceEach(a, |q|, k)
    ensures |r| == |q|
  {
    if k == 0 then q else BesideTo(q, a, k - 1)[a[k - 1].proc := []]
  }

  lemma {:induction false} BesideOther(q: seq<seq<Task>>, a: seq<Active>, k: nat, p: nat, s: seq<Task>)
    requires k <= |a| && OnceEach(a, |q|, k) && p < |q| && Unlisted(a, k, p)
    ensures BesideTo(q[p := s], a, k) == BesideTo(q, a, k)[p := s] && BesideTo(q, a, k)[p] == q[p]
  {
    if k > 0 { BesideOther(q, a, k - 1, p, s); }
  }

  lemma {:induction false} BesideListed(q: seq<seq<Task>>, a: seq<Active>, k: nat, i: nat, s: seq<Task>)
    requires i < k <= |a| && OnceEach(a, |q|, k) && a[i].proc < |q|
    ensures BesideTo(q[a[i].proc := s], a, k) == BesideTo(q, a, k)
  {
    if i == k - 1 {
      BesideOther(q, a, k - 1, a[i].proc, s);
    } else {
      BesideListed(q, a, k - 1, i, s);
    }
  }

  /** The leftover is less than one task for each of the processors counted; with the right loads
      they all end at the level, but for the one that may get it. */
  lemma DispatchEnds(a: seq<Active>, b: seq<int>, stolen: nat, lower: nat, level: nat, i: nat)
    requires |b| == |a| && LevelOf(a, stolen, lower, level) && i < |a| && b[i] == a[i].load
    ensures Leftover(a, stolen, lower) < lower
    ensures SpreadSizes(a, b, stolen, lower, level)[i] ==
            (if a[i].load <= level then level else a[i].load) +
            (if i == Receiver(a, lower, level) then Leftover(a, stolen, lower) else 0)
  {
    RaisedAt(a, b, lower, level, i);
  }

  /** The first `i` of the blocked processors have given up what they could, the others nothing. */
  ghost predicate StolenFrom(q: seq<seq<Task>>, q': seq<seq<Task>>, blocked: seq<nat>, stealable: seq<nat>, i: nat)
    requires |q| == |q'| && i <= |blocked| == |stealable| && (forall j :: 0 <= j < |blocked| ==> blocked[j] < |q|)
  {
    && (forall j :: 0 <= j < i ==> |q'[blocked[j]]| == |q[blocked[j]]| - stealable[j])
    && (forall j :: i <= j < |blocked| ==> q'[blocked[j]] == q[blocked[j]])
    && (forall p :: 0 <= p < |q| && p !in blocked ==> q'[p] == q[p])
  }

  lemma StolenAt(q: seq<seq<Task>>, q': seq<seq<Task>>, blocked: seq<nat>, stealable: seq<nat>, i: nat)
    requires |q| == |q'| && i < |blocked| == |stealable| && (forall j :: 0 <= j < |blocked| ==> blocked[j] < |q|)
    requires StolenFrom(q, q', blocked, stealable, i)
    ensures q'[blocked[i]] == q[blocked[i]]
  {
  }

  lemma StolenNext(q: seq<seq<Task>>, q': seq<seq<Task>>, q'': seq<seq<Task>>, blocked: seq<nat>,
                   stealable: seq<nat>, i: nat)
    requires |q| == |q'| == |q''| && i < |blocked| == |stealable|
    requires forall j :: 0 <= j < |blocked| ==> blocked[j] < |q|
    requires StolenFrom(q, q', blocked, stealable, i) && Injective(blocked)
    requires q'' == q'[blocked[i] := q''[blocked[i]]] && |q''[blocked[i]]| == |q[blocked[i]]| - stealable[i]
    ensures StolenFrom(q, q'', blocked, stealable, i + 1)
  {
  }

  class Processors {
    var q: seq<seq<Task>>

    constructor (n: nat)
      ensures |q| == n && All(q) == multiset{}
    {
      q := seq(n, _ => []);
      new;
      AllEmpty(q);
    }

    ghost predicate Listed(a: seq<Active>)
      reads this
    {
      OnceEach(a, |q|, |a|)
    }

    /** How many tasks the listed processors have. */
    ghost function Sizes(a: seq<Active>): (f: seq<int>)
      requires Listed(a)
      reads this
      ensures |f| == |a|
    {
      SizesTo(q, a, |a|)
    }

    /** The queues of all other processors. */
    ghost function Beside(a: seq<Active>): seq<seq<Task>>
      requires Listed(a)
      reads this
    {
      BesideTo(q, a, |a|)
    }

    method AddTasks(p: nat, tasks: seq<Task>)
      requires p < |q|
      modifies this
      ensures |q| == old(|q|)
      ensures q == old(q)[p := old(q[p]) + tasks]
      ensures All(q) == old(All(q)) + multiset(tasks)
    {
      AllUpdate(q, p, q[p] + tasks);
      Cancelled(All(q[p := q[p] + tasks]), multiset(q[p]), All(q), multiset(tasks));
      q := q[p := q[p] + tasks];
    }

    /** Cuts off up to `n` tasks and adds them to a processor. */
    method Give(p: nat, tasks: seq<Task>, n: nat) returns (part: seq<Task>, rest: seq<Task>)
      requires p < |q|
      modifies this
      ensures |q| == old(|q|)
      ensures tasks == part + rest && |part| == if n <= |tasks| then n else |tasks|
      ensures q == old(q)[p := old(q[p]) + part]
      ensures All(q) + multiset(rest) == old(All(q)) + multiset(tasks)
    {
      var cut := Cut(tasks, n);
      part, rest := cut.0, cut.1;
      Moved(All(q), part, rest);
      AddTasks(p, part);
    }

    /** The same, to a processor of the list. */
    method GiveTo(a: seq<Active>, i: nat, tasks: seq<Task>, n: nat) returns (part: seq<Task>, rest: seq<Task>)
      requires Listed(a) && i < |a|
      modifies this
      ensures |q| == old(|q|) && Beside(a) == old(Beside(a))
      ensures tasks == part + rest && |part| == Min(n, |tasks|)
      ensures Sizes(a) == old(Sizes(a))[i := old(Sizes(a))[i] + |part|]
      ensures All(q) + multiset(rest) == old(All(q)) + multiset(tasks)
    {
      ghost var before := q;
      SizeAt(before, a, |a|, i);
      part, rest := Give(a[i].proc, tasks, n);
      OneSize(before, a, |a|, i, before[a[i].proc] + part);
      BesideListed(before, a, |a|, i, before[a[i].proc] + part);
    }

    /** Takes up to `n` tasks of those a processor can give up, all of them when `n` is zero. */
    method Steal(p: nat, n: nat, stealable: nat) returns (tasks: seq<Task>)
      requires p < |q| && stealable <= |q[p]|
      modifies this
      ensures |q| == old(|q|)
      ensures |tasks| == if n == 0 || n > stealable then stealable else n
      ensures q == old(q)[p := q[p]] && old(q[p]) == q[p] + tasks
      ensures All(q) + multiset(tasks) == old(All(q))
    {
      var k := |q[p]| - if n == 0 || n > stealable then stealable else n;
      assert q[p] == q[p][..k] + q[p][k..];
      AllUpdate(q, p, q[p][..k]);
      Released(All(q[p := q[p][..k]]), q[p][..k], q[p][k..], All(q));
      tasks := q[p][k..];
      q := q[p := q[p][..k]];
    }

    /** The same, from a processor of the list. */
    method StealFrom(a: seq<Active>, i: nat, n: nat, stealable: nat) returns (tasks: seq<Task>)
      requires Listed(a) && i < |a| && stealable <= Sizes(a)[i] && n > 0
      modifies this
      ensures |q| == old(|q|) && Beside(a) == old(Beside(a))
      ensures |tasks| == Min(n, stealable) && Sizes(a) == old(Sizes(a))[i := old(Sizes(a))[i] - |tasks|]
      ensures All(q) + multiset(tasks) == old(All(q))
    {
      ghost var before := q;
      SizeAt(before, a, |a|, i);
      tasks := Steal(a[i].proc, n, stealable);
      OneSize(before, a, |a|, i, q[a[i].proc]);
      BesideListed(before, a, |a|, i, q[a[i].proc]);
    }

    // -------------------------------------------------------------- DispatchBlocks

    /** Takes everything the blocked processors can give up. */
    method StealBlocked(blocked: seq<nat>, stealable: seq<nat>) returns (tasks: seq<Task>)
      requires |stealable| == |blocked| && Injective(blocked)
      requires forall i :: 0 <= i < |blocked| ==> blocked[i] < |q| && stealable[i] <= |q[blocked[i]]|
      modifies this
      ensures |q| == old(|q|)
      ensures |tasks| == Total(stealable, |stealable|) && All(q) + multiset(tasks) == old(All(q))
      ensures forall i :: 0 <= i < |blocked| ==> |q[blocked[i]]| == old(|q[blocked[i]]|) - stealable[i]
      ensures forall p :: 0 <= p < |q| && p !in blocked ==> q[p] == old(q[p])
    {
      tasks := [];
      var i := 0;
      while i < |blocked|
        invariant |q| == old(|q|) && 0 <= i <= |blocked| && All(q) + multiset(tasks) == old(All(q))
        invariant |tasks| == Total(stealable, i)
        invariant |q| == |old(q)| && StolenFrom(old(q), q, blocked, stealable, i)
      {
        ghost var before := q;
        StolenAt(old(q), q, blocked, stealable, i);
        var part := Steal(blocked[i], 0, stealable[i]);
        StolenNext(old(q), before, q, blocked, stealable, i);
        Collected(All(q), tasks, part);
        tasks, i := tasks + part, i + 1;
      }
    }

    /** Gives the `i`-th processor what it lacks to the level. */
    method Raise(a: seq<Active>, ghost b: seq<int>, tasks: seq<Task>, level: nat, i: nat)
      returns (given: bool, rest: seq<Task>)
      requires Listed(a) && i < |a| == |b| && a[i].load <= level <= a[i].load + |tasks|
      requires Sizes(a) == RaisedTo(a, b, i, level)
      modifies this
      ensures |q| == old(|q|) && Beside(a) == old(Beside(a))
      ensures given == (a[i].load < level) && |rest| == |tasks| - (level - a[i].load)
      ensures Sizes(a) == RaisedTo(a, b, i + 1, level) && (!given ==> Sizes(a) == RaisedTo(a, b, i, level))
      ensures All(q) + multiset(rest) == old(All(q)) + multiset(tasks)
    {
      RaisedAt(a, b, i, level, i);
      var part;
      part, rest := GiveTo(a, i, tasks, level - a[i].load);
      given := part != [];
    }

    /** Deals `tasks` out from the least loaded processor on, until all of those counted have what
        they lack to the level; stops early at one that needs nothing. */
    method DealToLevel(a: seq<Active>, ghost b: seq<int>, tasks: seq<Task>, lower: nat, level: nat)
      returns (rest: seq<Task>, stopped: bool)
      requires Listed(a) && b == Sizes(a) && Ascending(a, |a|) && lower <= |a| && Need(a, level, lower) <= |tasks|
      requires forall i :: 0 <= i < lower ==> a[i].load <= level
      modifies this
      ensures |q| == old(|q|) && Beside(a) == old(Beside(a))
      ensures |rest| == |tasks| - Need(a, level, lower) && Sizes(a) == RaisedTo(a, b, lower, level)
      ensures stopped == (lower > 0 && a[lower - 1].load == level)
      ensures All(q) + multiset(rest) == old(All(q)) + multiset(tasks)
    {
      rest, stopped := tasks, false;
      var i := 0;
      while i < lower
        invariant |q| == old(|q|) && Beside(a) == old(Beside(a))
        invariant 0 <= i <= lower && |rest| == |tasks| - Need(a, level, i)
        invariant All(q) + multiset(rest) == old(All(q)) + multiset(tasks)
        invariant Sizes(a) == RaisedTo(a, b, i, level) && (i > 0 ==> a[i - 1].load < level)
      {
        NeedGrows(a, level, i + 1, lower);
        var given;
        given, rest := Raise(a, b, rest, level, i);
        if !given {
          LevelReached(a, level, i, lower);
          RaisedAlready(a, b, i, lower, level);
          return rest, true;
        }
        i := i + 1;
      }
    }

    /** Gives what is left to the processor above the level, for which the unsigned difference is
        huge, or else to the least loaded one. */
    method GiveRest(a: seq<Active>, tasks: seq<Task>, stopped: bool, k: nat, level: nat)
      returns (ghost c: nat)
      requires |a| > 0 && Listed(a) && k <= |a|
      requires k < |a| ==> level < a[k].load && a[k].load + |tasks| < TWO_64
      modifies this
      ensures |q| == old(|q|) && Beside(a) == old(Beside(a))
      ensures c == (if !stopped && k < |a| then k else 0) && Sizes(a) == old(Sizes(a))[c := old(Sizes(a))[c] + |tasks|]
      ensures All(q) == old(All(q)) + multiset(tasks)
    {
      if !stopped && k < |a| {
        c := k;
        var part, rest := GiveTo(a, k, tasks, TWO_64 + level - a[k].load);
        assert part == tasks && rest == [];
      } else {
        c := 0;
        GiveFirst(a, tasks);
      }
    }

    /** Deals out the stolen tasks. */
    method Spread(a: seq<Active>, ghost b: seq<int>, tasks: seq<Task>) returns (ghost lower: nat, ghost level: nat)
      requires |a| > 0 && Listed(a) && b == Sizes(a) && Ascending(a, |a|)
      requires forall i :: 0 <= i < |a| ==> a[i].load + |a| < TWO_64
      modifies this
      ensures |q| == old(|q|) && Beside(a) == old(Beside(a))
      ensures All(q) == old(All(q)) + multiset(tasks)
      ensures LevelOf(a, |tasks|, lower, level) && Sizes(a) == SpreadSizes(a, b, |tasks|, lower, level)
    {
      var n, avg := LowerLevel(a, |tasks|);
      LeftoverIs(a, |tasks|, n);
      lower, level := n, avg;
      SpreadTo(a, b, tasks, n, avg);
    }

    method SpreadTo(a: seq<Active>, ghost b: seq<int>, tasks: seq<Task>, lower: nat, level: nat)
      requires 0 < lower <= |a| && Listed(a) && b == Sizes(a) && Ascending(a, |a|)
      requires lower < |a| ==> level < a[lower].load && a[lower].load + |a| < TWO_64
      requires forall i :: 0 <= i < lower ==> a[i].load <= level
      requires Leftover(a, |tasks|, lower) == |tasks| - Need(a, level, lower)
      modifies this
      ensures |q| == old(|q|) && Beside(a) == old(Beside(a))
      ensures All(q) == old(All(q)) + multiset(tasks)
      ensures Sizes(a) == SpreadSizes(a, b, |tasks|, lower, level)
    {
      var rest, stopped := DealToLevel(a, b, tasks, lower, level);
      ghost var c := GiveRest(a, rest, stopped, lower, level);
    }

    /** All the blocked processors can give up is stolen and reaches one active processor each; the
        least loaded ones, exactly those not above the level, get what they lack to it, and one
        processor gets the leftover.  Nobody else is touched. */
    method DispatchBlocks(blocked: seq<nat>, stealable: seq<nat>, a: seq<Active>, ghost b: seq<int>)
      returns (ghost stolen: nat, ghost lower: nat, ghost level: nat)
      requires |a| > 0 && Listed(a) && b == Sizes(a) && Ascending(a, |a|)
      requires forall i :: 0 <= i < |a| ==> a[i].load + |a| < TWO_64
      requires |stealable| == |blocked| && Injective(blocked)
      requires forall i :: 0 <= i < |blocked| ==> blocked[i] < |q| && stealable[i] <= |q[blocked[i]]|
      requires forall p :: p in blocked ==> Unlisted(a, |a|, p)
      modifies this
      ensures |q| == old(|q|)
      ensures All(q) == old(All(q)) && stolen == Total(stealable, |stealable|)
      ensures forall i :: 0 <= i < |blocked| ==> |q[blocked[i]]| == old(|q[blocked[i]]|) - stealable[i]
      ensures forall p :: 0 <= p < |q| && p !in blocked && Unlisted(a, |a|, p) ==> q[p] == old(q[p])
      ensures stolen == 0 ==> Sizes(a) == b
      ensures stolen > 0 ==> LevelOf(a, stolen, lower, level) && Sizes(a) == SpreadSizes(a, b, stolen, lower, level)
    {
      ghost var before := q;
      var tasks := StealBlocked(blocked, stealable);
      SameSizes(before, q, a, |a|);
      stolen, lower, level := |tasks|, 0, 0;
      if tasks != [] {
        lower, level := SpreadBeside(a, b, tasks);
      }
    }

    /** `Spread`, with the processors that are not listed named one by one. */
    method SpreadBeside(a: seq<Active>, ghost b: seq<int>, tasks: seq<Task>)
      returns (ghost lower: nat, ghost level: nat)
      requires |a| > 0 && Listed(a) && b == Sizes(a) && Ascending(a, |a|)
      requires forall i :: 0 <= i < |a| ==> a[i].load + |a| < TWO_64
      modifies this
      ensures |q| == old(|q|) && All(q) == old(All(q)) + multiset(tasks)
      ensures forall p :: 0 <= p < |q| && Unlisted(a, |a|, p) ==> q[p] == old(q[p])
      ensures LevelOf(a, |tasks|, lower, level) && Sizes(a) == SpreadSizes(a, b, |tasks|, lower, level)
    {
      ghost var before := q;
      lower, level := Spread(a, b, tasks);
      forall p | 0 <= p < |q| && Unlisted(a, |a|, p)
        ensures q[p] == before[p]
      {
        BesideOther(before, a, |a|, p, []);
        BesideOther(q, a, |a|, p, []);
      }
    }

    // -------------------------------------------------------------- LoadBalance

    /** One of the steals: what processor `k - 1` has above the average. */
    method TrimOne(a: seq<Active>, ghost b: seq<int>, stealable: seq<nat>, avg: nat, k: nat, tasks: seq<Task>)
      returns (more: seq<Task>)
      requires Listed(a) && |a| == |b| == |stealable| && 0 < k <= |a| && a[k - 1].load > avg
      requires stealable[k - 1] <= b[k - 1] && Sizes(a) == TrimmedTo(a, b, stealable, avg, k)
      requires |tasks| + TakenSum(a, stealable, avg, k) == TakenSum(a, stealable, avg, |a|)
      modifies this
      ensures |q| == old(|q|) && Beside(a) == old(Beside(a))
      ensures Sizes(a) == TrimmedTo(a, b, stealable, avg, k - 1)
      ensures |more| + TakenSum(a, stealable, avg, k - 1) == TakenSum(a, stealable, avg, |a|)
      ensures All(q) + multiset(more) == old(All(q)) + multiset(tasks)
    {
      TrimmedAt(a, b, stealable, avg, k, k - 1);
      var part := StealFrom(a, k - 1, a[k - 1].load - avg, stealable[k - 1]);
      Collected(All(q), tasks, part);
      TrimmedStep(a, b, stealable, avg, k, |part|);
      more := tasks + part;
    }

    /** Steals from the most loaded processors down, from each what it has above the average. */
    method Trim(a: seq<Active>, ghost b: seq<int>, stealable: seq<nat>, avg: nat) returns (tasks: seq<Task>)
      requires Listed(a) && b == Sizes(a) && Ascending(a, |a|)
      requires |stealable| == |a| && (forall i :: 0 <= i < |a| ==> stealable[i] <= b[i])
      modifies this
      ensures |q| == old(|q|) && Beside(a) == old(Beside(a))
      ensures Sizes(a) == TrimmedTo(a, b, stealable, avg, 0) && |tasks| == TakenSum(a, stealable, avg, |a|)
      ensures All(q) + multiset(tasks) == old(All(q))
    {
      tasks := [];
      var k := |a|;
      while k > 0
        invariant |q| == old(|q|) && Beside(a) == old(Beside(a))
        invariant 0 <= k <= |a| && All(q) + multiset(tasks) == old(All(q))
        invariant Sizes(a) == TrimmedTo(a, b, stealable, avg, k)
        invariant |tasks| + TakenSum(a, stealable, avg, k) == TakenSum(a, stealable, avg, |a|)
      {
        if a[k - 1].load <= avg {
          AllBelow(a, k, avg);
          TrimmedRest(a, b, stealable, avg, k);
          return;
        }
        tasks := TrimOne(a, b, stealable, avg, k, tasks);
        k := k - 1;
      }
    }

    /** Deals the stolen tasks out to the least loaded processors, up to the average. */
    method Fill(a: seq<Active>, ghost b: seq<int>, tasks: seq<Task>, avg: nat) returns (rest: seq<Task>)
      requires Listed(a) && b == Sizes(a) && Ascending(a, |a|)
      modifies this
      ensures |q| == old(|q|) && Beside(a) == old(Beside(a))
      ensures Sizes(a) == FilledTo(a, b, avg, |tasks|, |a|) && |rest| == Positive(|tasks| - Lack(a, avg, |a|))
      ensures All(q) + multiset(rest) == old(All(q)) + multiset(tasks)
    {
      rest := tasks;
      var i := 0;
      while i < |a|
        invariant |q| == old(|q|) && Beside(a) == old(Beside(a))
        invariant 0 <= i <= |a| && Sizes(a) == FilledTo(a, b, avg, |tasks|, i)
        invariant All(q) + multiset(rest) == old(All(q)) + multiset(tasks)
        invariant |rest| == Positive(|tasks| - Lack(a, avg, i))
      {
        if a[i].load >= avg {
          AllAbove(a, i, avg);
          FilledRest(a, b, avg, |tasks|, i, |a|);
          return;
        }
        var part;
        part, rest := GiveTo(a, i, rest, avg - a[i].load);
        i := i + 1;
      }
    }

    /** The balancing proper, past the early return. */
    method Even(a: seq<Active>, ghost b: seq<int>, avg: nat, stealable: seq<nat>)
      requires |a| > 0 && Listed(a) && b == Sizes(a) && Ascending(a, |a|)
      requires |stealable| == |a| && (forall i :: 0 <= i < |a| ==> stealable[i] <= b[i])
      modifies this
      ensures |q| == old(|q|) && Beside(a) == old(Beside(a))
      ensures All(q) == old(All(q)) && Sizes(a) == BalancedSizes(a, b, stealable, avg)
    {
      var tasks := Trim(a, b, stealable, avg);
      ghost var t := TrimmedTo(a, b, stealable, avg, 0);
      if tasks == [] {
        NothingToGive(a, t, avg, |a|);
      } else {
        FillAndRest(a, t, tasks, avg);
      }
    }

    /** Deals the stolen tasks out; the least loaded processor also gets what is left. */
    method FillAndRest(a: seq<Active>, ghost b: seq<int>, tasks: seq<Task>, avg: nat)
      requires |a| > 0 && Listed(a) && b == Sizes(a) && Ascending(a, |a|)
      modifies this
      ensures |q| == old(|q|) && Beside(a) == old(Beside(a))
      ensures All(q) == old(All(q)) + multiset(tasks) && Sizes(a) == Dealt(a, b, avg, |tasks|)
    {
      var rest := Fill(a, b, tasks, avg);
      GiveFirst(a, rest);
    }

    method GiveFirst(a: seq<Active>, tasks: seq<Task>)
      requires |a| > 0 && Listed(a)
      modifies this
      ensures |q| == old(|q|) && Beside(a) == old(Beside(a))
      ensures All(q) == old(All(q)) + multiset(tasks) && Sizes(a) == old(Sizes(a))[0 := old(Sizes(a))[0] + |tasks|]
    {
      if tasks != [] {
        var part, rest := GiveTo(a, 0, tasks, |tasks|);
        assert part == tasks && rest == [];
      }
    }

    /** Whatever the loads say and however few tasks the steals get, every processor ends as
        `Balanced` says and no task is lost; on the early return nothing happens.  Processors that
        are not listed are not touched. */
    method LoadBalance(a: seq<Active>, ghost b: seq<int>, activeTasks: nat, rate: real, round: real -> real,
                       stealable: seq<nat>)
      returns (avg: nat, skipped: bool)
      requires |a| > 0 && Listed(a) && b == Sizes(a) && Ascending(a, |a|)
      requires |stealable| == |a| && (forall i :: 0 <= i < |a| ==> stealable[i] <= b[i])
      modifies this
      ensures |q| == old(|q|) && Beside(a) == old(Beside(a))
      ensures avg == Quot(activeTasks, |a|) && skipped == AboveRate(a[0].load, avg, rate, round)
      ensures All(q) == old(All(q))
      ensures forall i :: 0 <= i < |a| ==>
                Sizes(a)[i] == if skipped then b[i] else Balanced(a, b, stealable, avg, i)
    {
      avg := Quot(activeTasks, |a|);
      skipped := AboveRate(a[0].load, avg, rate, round);
      if !skipped {
        Even(a, b, avg, stealable);
        forall i | 0 <= i < |a| ensures Sizes(a)[i] == Balanced(a, b, stealable, avg, i) {
          BalancedAt(a, b, stealable, avg, i);
        }
      }
    }
  }

  /** With nothing stolen nobody gets anything. */
  lemma {:induction false} NothingToGive(a: seq<Active>, b: seq<int>, avg: int, k: nat)
    requires 0 < |b| == |a| && k <= |a|
    ensures FilledTo(a, b, avg, 0, k) == b && (k == |a| ==> Dealt(a, b, avg, 0) == b)
  {
    if k > 0 { NothingToGive(a, b, avg, k - 1); }
  }

  /** The least loaded processor is busy enough for balancing to be skipped; `round` is the rounding
      to single precision, of the counts and of the product. */
  predicate AboveRate(load: nat, avg: nat, rate: real, round: real -> real)
  {
    round(load as real) > round(round(avg as real) * rate)
  }

  lemma Released(a': multiset<Task>, kept: seq<Task>, taken: seq<Task>, a: multiset<Task>)
    requires a' + multiset(kept + taken) == a + multiset(kept)
    ensures a' + multiset(taken) == a
  {
    assert multiset(kept + taken) == multiset(kept) + multiset(taken);
    assert (a' + multiset(taken)) + multiset(kept) == a + multiset(kept);
    assert ((a' + multiset(taken)) + multiset(kept)) - multiset(kept) == a' + multiset(taken);
    assert (a + multiset(kept)) - multiset(kept) == a;
  }

  lemma Collected(a: multiset<Task>, tasks: seq<Task>, part: seq<Task>)
    ensures a + multiset(tasks + part) == (a + multiset(part)) + multiset(tasks)
  {
  }

  lemma Moved(a: multiset<Task>, part: seq<Task>, rest: seq<Task>)
    ensures (a + multiset(part)) + multiset(rest) == a + multiset(part + rest)
  {
  }

  /** Past a processor at the level the others counted are at it too. */
  lemma {:induction false} LevelReached(a: seq<Active>, level: nat, i: nat, k: nat)
    requires Ascending(a, |a|) && i < k <= |a| && a[i].load == level
    requires forall j :: i <= j < k ==> a[j].load <= level
    ensures Need(a, level, i) == Need(a, level, k)
    ensures forall j :: i <= j < k ==> a[j].load == level
  {
    AscendingPair(a, |a|, i, k - 1);
    if i + 1 < k {
      LevelReached(a, level, i, k - 1);
    }
  }

  lemma {:induction false} AllEmpty(q: seq<seq<Task>>)
    requires forall i :: 0 <= i < |q| ==> q[i] == []
    ensures All(q) == multiset{}
  {
    if q != [] { AllEmpty(q[..|q| - 1]); }
  }
}
