/** Tick arithmetic of the hierarchical timer wheel (libgo/common/timer.h).

    The wheel has eight levels of 256 slots; one slot of level `L` spans 256^L ticks.  A
    level-`L` slot is looked at only when the scan stands on a multiple of 256^L, so every
    visit is described by its index `s`, the visit being at `Tick(L, s)`, that is s * 256^L.
    `Down` and `Ceil` divide by 256^L rounding down and up.  All three recurse on the level,
    so that only multiplication and division by the constant 256 occur. */
module WheelArithmetic {
  import opened Basics

  const LEVELS: nat := 8
  const SLOTS: nat := 256

  /** s * 256^L */
  function Tick(L: nat, s: nat): nat
  {
    if L == 0 then s else 256 * Tick(L - 1, s)
  }

  /** floor(x / 256^L) */
  function Down(L: nat, x: nat): nat
  {
    if L == 0 then x else Down(L - 1, x) / 256
  }

  /** ceil(x / 256^L) */
  function Ceil(L: nat, x: nat): nat
  {
    if L == 0 then x else (Ceil(L - 1, x) + 255) / 256
  }

  /** The byte `p8[L]` of a point. */
  function Byte(x: nat, L: nat): (b: nat)
    ensures b < SLOTS
  {
    Down(L, x) % 256
  }

  /** The index of the first visit of level `L` at or after tick `x`.  Tick 0 never
      promotes (`pos.p64 > 0` in the scan), so above level 0 the first visit index is 1. */
  function Reach(L: nat, x: nat): nat
  {
    if L > 0 && x == 0 then 1 else Ceil(L, x)
  }

  /** The index of the next visit of slot `o` of level `L` for a wheel standing at `x`. */
  function Visit(L: nat, o: nat, x: nat): nat
  {
    Reach(L, x) + (o - Reach(L, x)) % 256
  }

  /** The tick of that visit. */
  function VisitTick(L: nat, o: nat, x: nat): nat
  {
    Tick(L, Visit(L, o, x))
  }

  /** The visit index from which a catch-up scan that starts at `last` fires level `L`
      directly instead of promoting it: the first one after all 256 slots of the level below
      have been seen. */
  function PhaseIndex(L: nat, last: nat): nat
  {
    if L == 0 then last else (Reach(L - 1, last) + 255) / 256 + 1
  }

  // ---------------------------------------------------------------- ticks

  lemma {:induction false} TickAdd(L: nat, a: nat, b: nat)
    ensures Tick(L, a + b) == Tick(L, a) + Tick(L, b)
  {
    if L > 0 { TickAdd(L - 1, a, b); }
  }

  lemma {:induction false} TickZero(L: nat)
    ensures Tick(L, 0) == 0 && Tick(L, 1) > 0
  {
    if L > 0 { TickZero(L - 1); }
  }

  lemma {:induction false} TickOrder(L: nat, a: nat, b: nat)
    ensures a < b <==> Tick(L, a) < Tick(L, b)
  {
    if L > 0 { TickOrder(L - 1, a, b); }
  }

  /** Visits of a coarse level are visits of a finer one. */
  lemma {:induction false} TickSplit(a: nat, b: nat, s: nat)
    ensures Tick(a + b, s) == Tick(a, Tick(b, s))
  {
    if a > 0 { TickSplit(a - 1, b, s); }
  }

  lemma TickUp(L: nat, s: nat)
    ensures Tick(L + 1, s) == Tick(L, 256 * s)
  {
    TickSplit(L, 1, s);
    assert Tick(1, s) == 256 * Tick(0, s);
  }

  lemma {:induction false} TickLevel(a: nat, b: nat, s: nat)
    requires a <= b
    ensures Tick(a, s) <= Tick(b, s)
  {
    if a < b { TickLevel(a, b - 1, s); }
  }

  lemma TickValues(s: nat)
    ensures Tick(0, s) == s && Tick(1, s) == 0x100 * s && Tick(2, s) == 0x1_0000 * s
    ensures Tick(3, s) == 0x100_0000 * s && Tick(4, s) == TWO_32 * s && Tick(8, s) == TWO_64 * s
  {
    assert Tick(1, s) == 256 * Tick(0, s);
    assert Tick(2, s) == 256 * Tick(1, s);
    assert Tick(3, s) == 256 * Tick(2, s);
    assert Tick(4, s) == 256 * Tick(3, s);
    assert Tick(5, s) == 256 * Tick(4, s);
    assert Tick(6, s) == 256 * Tick(5, s);
    assert Tick(7, s) == 256 * Tick(6, s);
  }

  /** `Down` is the last index whose tick is not after `x`. */
  lemma {:induction false} DownGreatest(L: nat, x: nat, s: nat)
    ensures Tick(L, s) <= x <==> s <= Down(L, x)
  {
    if L > 0 {
      TickUp(L - 1, s);
      DownGreatest(L - 1, x, 256 * s);
    }
  }

  /** `Ceil` is the first index whose tick is not before `x`. */
  lemma {:induction false} CeilLeast(L: nat, x: nat, s: nat)
    ensures x <= Tick(L, s) <==> Ceil(L, x) <= s
  {
    if L > 0 {
      TickUp(L - 1, s);
      CeilLeast(L - 1, x, 256 * s);
    }
  }

  lemma DownTick(L: nat, q: nat)
    ensures Down(L, Tick(L, q)) == q
  {
    DownGreatest(L, Tick(L, q), q);
    DownGreatest(L, Tick(L, q), q + 1);
    TickOrder(L, q, q + 1);
  }

  /** A tick aligned to level `L` is aligned to `L + 1` exactly when its byte `L` is 0. */
  lemma AlignStep(L: nat, q: nat)
    ensures Byte(Tick(L, q), L) == q % 256
    ensures q % 256 == 0 ==> Tick(L, q) == Tick(L + 1, q / 256)
  {
    DownTick(L, q);
    TickUp(L, q / 256);
  }

  /** A non-zero 64-bit point aligned to level `L` has a byte above that level. */
  lemma AlignedLevelBound(L: nat, q: nat)
    requires 0 < Tick(L, q) < TWO_64
    ensures L < LEVELS
  {
    if L >= LEVELS {
      TickZero(L);
      TickValues(q);
      TickLevel(LEVELS, L, q);
    }
  }

  // ---------------------------------------------------------------- visits

  /** `Reach` is the least visit index whose tick is not before `x`. */
  lemma ReachLeast(L: nat, x: nat, s: nat)
    ensures s >= Reach(L, x) <==> Tick(L, s) >= x && (L > 0 ==> s >= 1)
  {
    CeilLeast(L, x, s);
    CeilLeast(L, x, 0);
    TickZero(L);
  }

  /** The next visit of a slot is the only index of its residue in a window of 256. */
  lemma VisitUnique(L: nat, o: nat, x: nat, s: nat)
    requires o < SLOTS
    ensures s == Visit(L, o, x) <==> Reach(L, x) <= s < Reach(L, x) + 256 && s % 256 == o
  {
  }

  /** Moving the wheel forward does not change the next visit of a slot not yet passed. */
  lemma VisitStable(L: nat, o: nat, x: nat, y: nat)
    requires o < SLOTS && x <= y <= VisitTick(L, o, x)
    ensures Visit(L, o, y) == Visit(L, o, x)
  {
    var s := Visit(L, o, x);
    VisitUnique(L, o, x, s);
    ReachLeast(L, x, s);
    ReachLeast(L, y, s);
    ReachLeast(L, y, Reach(L, y));
    ReachLeast(L, x, Reach(L, y));
    VisitUnique(L, o, y, s);
  }

  /** A remaining visit of level `L` is at tick `Tick(L, q)` exactly when it is the slot
      named by the byte `L` of that tick. */
  lemma VisitAt(L: nat, o: nat, last: nat, q: nat)
    requires o < SLOTS
    requires Reach(L, last) <= q < Reach(L, last) + 256
    ensures VisitTick(L, o, last) == Tick(L, q) <==> o == Byte(Tick(L, q), L)
  {
    DownTick(L, q);
    VisitUnique(L, o, last, q);
    TickOrder(L, q, Visit(L, o, last));
    TickOrder(L, Visit(L, o, last), q);
  }

  // ---------------------------------------------------------------- the catch-up scan

  /** What holds whenever the scan, having started at `last`, triggers level `t` directly and
      stands at `Tick(t, q)`. */
  ghost predicate ScanPoint(last: nat, t: nat, q: nat)
  {
    && last <= Tick(t, q)
    && (t > 0 ==> q > 0)
    && PhaseIndex(t, last) <= q <= Reach(t, last) + 255
    && Exhausted(last, t, Tick(t, q))
  }

  /** Every level below `t` has had its 256 visits before tick `x`. */
  ghost predicate Exhausted(last: nat, t: nat, x: nat)
  {
    forall L :: 0 <= L < t ==> Tick(L, Reach(L, last) + 255) < x
  }

  lemma ExhaustedGrows(last: nat, t: nat, x: nat, y: nat)
    requires Exhausted(last, t, x) && x <= y
    ensures Exhausted(last, t, y)
    ensures Tick(t, Reach(t, last) + 255) < y ==> Exhausted(last, t + 1, y)
  {
  }

  /** The last visit of level `t` falls before level `t + 1` is triggered directly. */
  lemma PhaseAfter(t: nat, last: nat)
    ensures Tick(t, Reach(t, last) + 255) < Tick(t + 1, PhaseIndex(t + 1, last))
    ensures PhaseIndex(t + 1, last) <= Reach(t + 1, last) + 1
  {
    var k := PhaseIndex(t + 1, last);
    TickUp(t, k);
    TickOrder(t, Reach(t, last) + 255, 256 * k);
    CeilLeast(t, 0, 0);
  }

  /** The table of scan steps, exactly as the source has it: entry 3 is 2^32, not 2^24. */
  const ADDITIONS: seq<nat> := [
    1, 0x100, 0x1_0000, 0x1_0000_0000, 0x100_0000_0000,
    0x1_0000_0000_0000, 0x100_0000_0000_0000, 0xFFFF_FFFF_FFFF_FFFF]

  /** How far the scan moves from `pos` once `triggerLevel` is `t`; products are 64 bits wide. */
  function Advance(t: nat, pos: nat): nat
    requires t < LEVELS
  {
    if t == 0 then ADDITIONS[0]
    else
      var levelupSteps := (256 - Byte(pos, t - 1)) * ADDITIONS[t - 1] % TWO_64;
      if 0 < levelupSteps < ADDITIONS[t] then levelupSteps else ADDITIONS[t]
  }

  /** While one level is being scanned the step is one of its slots; the minimum with
      `levelupSteps` undoes the wrong entry 3. */
  lemma AdvanceSame(t: nat, q: nat)
    requires t <= 3
    ensures Tick(t, q) + Advance(t, Tick(t, q)) == Tick(t, q + 1)
  {
    TickAdd(t, q, 1);
    TickValues(1);
    if t > 0 {
      TickUp(t - 1, q);
      AlignStep(t - 1, 256 * q);
    }
  }

  lemma StepProduct(n: nat, t: nat)
    requires 1 <= n <= 256 && t < 3
    ensures 0 < n * ADDITIONS[t] == Tick(t, n) <= ADDITIONS[t + 1]
  {
    TickValues(n);
    if t == 0 {
      assert n * ADDITIONS[0] == n * 1;
    } else if t == 1 {
      assert n * ADDITIONS[1] == n * 0x100;
    } else {
      assert n * ADDITIONS[2] == n * 0x1_0000;
    }
  }

  /** Below level 3 the step is the distance to the next multiple of the level above. */
  lemma AdvanceValue(t: nat, pos: nat)
    requires t < 3
    ensures Advance(t + 1, pos) == Tick(t, 256 - Byte(pos, t))
  {
    StepProduct(256 - Byte(pos, t), t);
    assert ADDITIONS[t + 1] < TWO_64;
  }

  /** When a level is exhausted the step reaches the next multiple of the level above. */
  lemma AdvanceUp(t: nat, q: nat)
    requires t < 3
    ensures Tick(t, q) + Advance(t + 1, Tick(t, q)) == Tick(t + 1, q / 256 + 1)
  {
    var n: nat := 256 - q % 256;
    AdvanceValue(t, Tick(t, q));
    AlignStep(t, q);
    TickAdd(t, q, n);
    assert q + n == 256 * (q / 256 + 1);
    TickUp(t, q / 256 + 1);
  }

  /** Past level 3 the step is 256 times the distance to the next multiple of the level above. */
  lemma AdvancePastThree(pos: nat)
    ensures Advance(4, pos) == 256 * Tick(3, 256 - Byte(pos, 3)) >= TWO_32
  {
    var n: nat := 256 - Byte(pos, 3);
    TickValues(n);
    assert n * ADDITIONS[3] == n * TWO_32;
  }

  /** The level triggered after the visit with index `q`: one more once 256 slots are done. */
  function NextLevel(last: nat, t: nat, q: nat): nat
  {
    if q == Reach(t, last) + 255 then t + 1 else t
  }

  /** The index, at that level, of the visit that follows. */
  function NextIndex(last: nat, t: nat, q: nat): nat
  {
    if q == Reach(t, last) + 255 then q / 256 + 1 else q + 1
  }

  /** The visit of level 4 that should follow the last one of level 3. */
  function ScanLimit(last: nat): nat
  {
    Tick(4, PhaseIndex(4, last))
  }

  /** Where the scan goes instead: the wrong entry 3 is not undone for this step. */
  function JumpEnd(last: nat): nat
  {
    var pos := Tick(3, Reach(3, last) + 255);
    pos + Advance(4, pos)
  }

  /** The visit is at least 2^32 ticks ahead of the start. */
  lemma LimitAhead(last: nat)
    ensures last + TWO_32 <= ScanLimit(last)
  {
    var r, k := Reach(3, last), PhaseIndex(4, last);
    TickUp(3, k);
    TickAdd(3, r, 256 * k - r);
    TickValues(256 * k - r);
    ReachLeast(3, last, r);
  }

  /** The scan jumps over it. */
  lemma JumpsOver(last: nat)
    ensures ScanLimit(last) < JumpEnd(last)
  {
    var q, k := Reach(3, last) + 255, PhaseIndex(4, last);
    var n: nat := 256 * k - q;
    TickUp(3, k);
    TickAdd(3, q, n);
    AlignStep(3, q);
    assert n == 256 - q % 256;
    AdvancePastThree(Tick(3, q));
    TickValues(n);
  }

  /** The step taken from a scan position, in terms of visit indexes. */
  lemma ScanStepTick(last: nat, t: nat, q: nat)
    requires t <= 3
    ensures var t' := NextLevel(last, t, q);
            var pos' := Tick(t, q) + Advance(t', Tick(t, q));
            pos' == if t' == 4 then JumpEnd(last) else Tick(t', NextIndex(last, t, q))
  {
    if NextLevel(last, t, q) == t {
      AdvanceSame(t, q);
    } else if t < 3 {
      AdvanceUp(t, q);
    }
  }

  /** One scan step keeps `ScanPoint`. */
  lemma ScanAdvances(last: nat, t: nat, q: nat)
    requires ScanPoint(last, t, q) && t <= 3
    ensures ScanPoint(last, NextLevel(last, t, q), NextIndex(last, t, q))
    ensures Tick(t, q) < Tick(NextLevel(last, t, q), NextIndex(last, t, q))
  {
    var t', q' := NextLevel(last, t, q), NextIndex(last, t, q);
    if t' == t {
      TickOrder(t, q, q + 1);
    } else {
      PhaseAfter(t, last);
    }
    ExhaustedGrows(last, t, Tick(t, q), Tick(t', q'));
  }

  /** A visit of a level still to scan that is ahead of the scan is not before the next
      scan position. */
  lemma NoVisitBetween(last: nat, t: nat, q: nat, k: nat)
    requires Tick(t, q) < Tick(NextLevel(last, t, q), k)
    ensures Tick(NextLevel(last, t, q), NextIndex(last, t, q)) <= Tick(NextLevel(last, t, q), k)
  {
    var t' := NextLevel(last, t, q);
    if t' == t {
      TickOrder(t, q, k);
    } else {
      TickUp(t, k);
      TickOrder(t, q, 256 * k);
    }
    TickOrder(t', k, NextIndex(last, t, q));
  }

  /** A level with a visit still ahead of the scan has not been exhausted. */
  lemma LevelNotExhausted(last: nat, t: nat, q: nat, L: nat, s: nat)
    requires ScanPoint(last, t, q)
    requires s <= Reach(L, last) + 255 && Tick(t, q) < Tick(L, s)
    ensures NextLevel(last, t, q) <= L
  {
    if L < t { ExhaustedAt(last, t, Tick(t, q), L); }
    TickOrder(L, Reach(L, last) + 255, s);
  }

  lemma ExhaustedAt(last: nat, t: nat, x: nat, L: nat)
    requires Exhausted(last, t, x) && L < t
    ensures Tick(L, Reach(L, last) + 255) < x
  {
  }

  /** The scan skips no visit before its limit. */
  lemma ScanSkipsNothing(last: nat, t: nat, q: nat, L: nat, s: nat)
    requires ScanPoint(last, t, q)
    requires s <= Reach(L, last) + 255 && Tick(t, q) < Tick(L, s)
    ensures Tick(NextLevel(last, t, q), NextIndex(last, t, q)) <= Tick(L, s)
  {
    var t' := NextLevel(last, t, q);
    LevelNotExhausted(last, t, q, L, s);
    TickSplit(t', L - t', s);
    NoVisitBetween(last, t, q, Tick(L - t', s));
  }

  /** Direct triggering begins later at a higher level. */
  lemma {:induction false} PhaseGrows(a: nat, b: nat, last: nat)
    requires 0 < a <= b
    ensures Tick(a, PhaseIndex(a, last)) <= Tick(b, PhaseIndex(b, last))
  {
    if a < b {
      PhaseGrows(a, b - 1, last);
      PhaseAfter(b - 2, last);
      PhaseAfter(b - 1, last);
      TickOrder(b - 1, Reach(b - 1, last) + 255, PhaseIndex(b - 1, last));
    }
  }

  /** Every scan position up to level 3 is before the limit. */
  lemma ScanPointBelow(last: nat, t: nat, q: nat)
    requires ScanPoint(last, t, q) && t <= 3
    ensures Tick(t, q) < ScanLimit(last)
  {
    TickOrder(t, Reach(t, last) + 255, q);
    PhaseAfter(t, last);
    PhaseGrows(t + 1, 4, last);
  }

  /** How many slots of level `L` a scan from `last` has met before `pos`. */
  function Seen(L: nat, last: nat, pos: nat): int
  {
    Reach(L, pos) - Reach(L, last)
  }

  /** `Reach` of an aligned tick is its index. */
  lemma ReachAligned(L: nat, q: nat)
    requires L > 0 ==> q > 0
    ensures Reach(L, Tick(L, q)) == q
  {
    var r := Reach(L, Tick(L, q));
    ReachLeast(L, Tick(L, q), q);
    ReachLeast(L, Tick(L, q), r);
    TickOrder(L, r, q);
  }

  /** A scan step passes over exactly the visits at its position: a level still to scan has one
      more slot seen if the position is a visit of it, and none otherwise. */
  lemma SeenStep(last: nat, t: nat, q: nat, L: nat)
    requires ScanPoint(last, t, q) && t <= 3 && NextLevel(last, t, q) <= 3
    requires L >= NextLevel(last, t, q)
    ensures var r := Reach(L, Tick(t, q));
            Reach(L, Tick(NextLevel(last, t, q), NextIndex(last, t, q))) ==
              if Tick(L, r) == Tick(t, q) then r + 1 else r
  {
    var t' := NextLevel(last, t, q);
    var pos := Tick(t, q);
    var pos' := Tick(t', NextIndex(last, t, q));
    ScanAdvances(last, t, q);
    var r := Reach(L, pos);
    var k := if Tick(L, r) == pos then r + 1 else r;
    ReachLeast(L, pos, r);
    TickOrder(L, r, r + 1);
    TickSplit(t', L - t', k);
    NoVisitBetween(last, t, q, Tick(L - t', k));
    ReachLeast(L, pos', k);
    if k > 0 {
      ReachLeast(L, pos, k - 1);
      ReachLeast(L, pos', k - 1);
    }
  }

  /** The position is a multiple of one slot of level `L`. */
  predicate Aligned(L: nat, pos: nat)
  {
    Tick(L, Down(L, pos)) == pos
  }

  /** The slots the scan looks at when it stands at `pos` and triggers level `t`: the slot of
      level `t`, and one slot of each level above that `pos` is aligned to. */
  predicate Looked(L: nat, o: nat, t: nat, pos: nat)
  {
    L >= t && Aligned(L, pos) && (L > t ==> pos > 0) && o == Byte(pos, L)
  }

  /** Alignment climbs one level at a time, as the promotion loop does. */
  lemma AlignedUp(L: nat, pos: nat)
    ensures Aligned(L + 1, pos) <==> Aligned(L, pos) && Byte(pos, L) == 0
  {
    var q := Down(L, pos);
    TickUp(L, q / 256);
    DownGreatest(L, pos, q);
    if Aligned(L + 1, pos) { DownTick(L, 256 * (q / 256)); }
    TickOrder(L, q, 256 * (q / 256));
    TickOrder(L, 256 * (q / 256), q);
  }

  lemma {:induction false} AlignedBelow(t: nat, L: nat, pos: nat)
    requires t <= L && Aligned(L, pos)
    ensures Aligned(t, pos)
  {
    if t < L {
      AlignedUp(L - 1, pos);
      AlignedBelow(t, L - 1, pos);
    }
  }

  /** Above the triggered level the scan stands on a visit that precedes direct triggering of
      that level, so the slot there is promoted. */
  lemma {:induction false} PromotedIndex(last: nat, t: nat, q: nat, L: nat)
    requires t < L && q <= Reach(t, last) + 255 && Aligned(L, Tick(t, q))
    ensures Down(L, Tick(t, q)) < PhaseIndex(L, last)
  {
    var pos := Tick(t, q);
    DownTick(t, q);
    if L > t + 1 {
      AlignedUp(L - 1, pos);
      PromotedIndex(last, t, q, L - 1);
      PhaseAfter(L - 2, last);
    }
  }

  /** Standing at a scan position, a slot's next visit is now exactly when the scan looks at it. */
  lemma LookedIsVisit(last: nat, t: nat, q: nat, L: nat, o: nat)
    requires ScanPoint(last, t, q) && o < SLOTS
    ensures VisitTick(L, o, last) == Tick(t, q) <==> Looked(L, o, t, Tick(t, q))
  {
    var pos := Tick(t, q);
    var s, k := Visit(L, o, last), Down(L, pos);
    VisitUnique(L, o, last, s);
    if L < t {
      TickOrder(L, Reach(L, last) + 255, s);
    } else if Tick(L, s) == pos {
      DownTick(L, s);
      ReachLeast(L, last, s);
      TickZero(L);
      TickOrder(L, 0, s);
    } else if Looked(L, o, t, pos) {
      LookedInWindow(last, t, q, L);
      VisitAt(L, o, last, k);
    }
  }

  /** The index behind an alignment lies in the window of the level's 256 next visits. */
  lemma LookedInWindow(last: nat, t: nat, q: nat, L: nat)
    requires ScanPoint(last, t, q) && L >= t && Aligned(L, Tick(t, q)) && (L > t ==> Tick(t, q) > 0)
    ensures Reach(L, last) <= Down(L, Tick(t, q)) < Reach(L, last) + 256
  {
    var pos := Tick(t, q);
    var k := Down(L, pos);
    DownTick(t, q);
    TickZero(L);
    TickOrder(L, 0, k);
    ReachLeast(L, last, k);
    if L > t {
      PromotedIndex(last, t, q, L);
      PhaseAfter(L - 1, last);
    }
  }

  /** A visit at a scan position is triggered directly exactly at the level being scanned. */
  lemma DirectIsLevel(last: nat, t: nat, q: nat, L: nat)
    requires ScanPoint(last, t, q) && L >= t && Aligned(L, Tick(t, q))
    ensures Tick(L, PhaseIndex(L, last)) <= Tick(t, q) <==> L == t
  {
    var pos := Tick(t, q);
    DownTick(t, q);
    TickOrder(t, q, PhaseIndex(t, last));
    if L > t {
      PromotedIndex(last, t, q, L);
      TickOrder(L, Down(L, pos), PhaseIndex(L, last));
    }
  }

  /** What one scan step adds to the slots already visited: exactly those looked at. */
  lemma BoundStep(last: nat, dest: nat, t: nat, q: nat, L: nat, o: nat)
    requires ScanPoint(last, t, q) && t <= 3 && o < SLOTS
    requires Tick(t, q) < dest <= ScanLimit(last)
    ensures var next := Tick(t, q) + Advance(NextLevel(last, t, q), Tick(t, q));
            VisitTick(L, o, last) < Min(next, dest) <==>
              VisitTick(L, o, last) < Tick(t, q) || Looked(L, o, t, Tick(t, q))
  {
    LookedIsVisit(last, t, q, L, o);
    NextBound(last, dest, t, q);
    BoundStepAhead(last, t, q, L, o);
  }

  /** Up to the limit, the step reaches just the visit that follows. */
  lemma NextBound(last: nat, dest: nat, t: nat, q: nat)
    requires ScanPoint(last, t, q) && t <= 3 && dest <= ScanLimit(last)
    ensures var next := Tick(NextLevel(last, t, q), NextIndex(last, t, q));
            && Tick(t, q) < next
            && Min(Tick(t, q) + Advance(NextLevel(last, t, q), Tick(t, q)), dest) == Min(next, dest)
  {
    ScanStepTick(last, t, q);
    ScanAdvances(last, t, q);
    JumpsOver(last);
  }

  lemma BoundStepAhead(last: nat, t: nat, q: nat, L: nat, o: nat)
    requires ScanPoint(last, t, q) && o < SLOTS
    ensures Tick(t, q) < VisitTick(L, o, last) ==>
              Tick(NextLevel(last, t, q), NextIndex(last, t, q)) <= VisitTick(L, o, last)
  {
    var s := Visit(L, o, last);
    VisitUnique(L, o, last, s);
    if Tick(t, q) < Tick(L, s) { ScanSkipsNothing(last, t, q, L, s); }
  }

  /** The slot counters advance by one exactly for the levels looked at. */
  lemma CounterStep(last: nat, t: nat, q: nat, L: nat)
    requires ScanPoint(last, t, q) && t <= 3 && NextLevel(last, t, q) <= 3
    requires L >= NextLevel(last, t, q)
    ensures var pos := Tick(t, q);
            Seen(L, last, Tick(NextLevel(last, t, q), NextIndex(last, t, q))) == Seen(L, last, pos) +
              if L == t || (L > t && Aligned(L, pos) && pos > 0) then 1 else 0
  {
    SeenStep(last, t, q, L);
    VisitHere(t, q, L);
  }

  /** A scan position is a visit of level `L` exactly when it is aligned to it, tick 0 apart. */
  lemma VisitHere(t: nat, q: nat, L: nat)
    requires L >= t && (t > 0 ==> q > 0)
    ensures var pos := Tick(t, q);
            Tick(L, Reach(L, pos)) == pos <==> L == t || (L > t && Aligned(L, pos) && pos > 0)
  {
    var pos := Tick(t, q);
    var r := Reach(L, pos);
    ReachAligned(t, q);
    TickZero(L);
    if Tick(L, r) == pos {
      DownTick(L, r);
      if L > t {
        ReachLeast(L, pos, r);
        TickOrder(L, 0, r);
      }
    } else if L > t && Aligned(L, pos) && pos > 0 {
      TickOrder(L, 0, Down(L, pos));
      ReachAligned(L, Down(L, pos));
    }
  }

  /** The first tick that a scan from `last` may run a slot above level 0 at without a look at
      the deadlines. */
  function DirectFrom(last: nat): nat
  {
    Tick(1, PhaseIndex(1, last))
  }

  /** Above level 0 nothing is triggered directly before that tick, nor within 256 ticks. */
  lemma DirectOnlyAfter(L: nat, last: nat)
    requires L > 0
    ensures Tick(L, PhaseIndex(L, last)) >= DirectFrom(last) >= last + 256
  {
    PhaseGrows(1, L, last);
    assert Reach(0, last) == last && Tick(0, PhaseIndex(1, last)) == PhaseIndex(1, last);
  }

  // ---------------------------------------------------------------- placing a timer

  /** Where `Dispatch` puts a timer `dur` ticks ahead of `last`: level `L`, the highest
      non-zero byte of `dur`, gives a next visit that is not before `last` and not after the
      timer's own tick `last + dur`; at level 0 it is that tick. */
  lemma PlacedVisit(last: nat, dur: nat, L: nat)
    requires dur < Tick(L + 1, 1) && (L > 0 ==> Tick(L, 1) <= dur)
    ensures var o := (Byte(dur, L) + Byte(last, L)) % 256;
            && Visit(L, o, last) == Down(L, last) + Down(L, dur)
            && last <= VisitTick(L, o, last) <= last + dur
            && (L == 0 ==> VisitTick(L, o, last) == last + dur)
  {
    var d, k := Down(L, dur), Down(L, last);
    PlacedIndex(last, dur, L);
    ModSum(d, k);
    VisitUnique(L, (k + d) % 256, last, k + d);
  }

  lemma ModSum(a: nat, b: nat)
    ensures (a % 256 + b % 256) % 256 == (b + a) % 256
  {
    var i, j := a / 256, b / 256;
    var r := a % 256 + b % 256;
    assert b + a == 256 * (i + j) + r;
    assert (b + a) / 256 == i + j + r / 256;
  }

  /** The visit index behind `PlacedVisit`. */
  lemma PlacedIndex(last: nat, dur: nat, L: nat)
    requires dur < Tick(L + 1, 1) && (L > 0 ==> Tick(L, 1) <= dur)
    ensures Down(L, dur) < 256
    ensures var s := Down(L, last) + Down(L, dur);
            && Reach(L, last) <= s < Reach(L, last) + 256
            && last <= Tick(L, s) <= last + dur
            && (L == 0 ==> s == last + dur)
  {
    var d, k := Down(L, dur), Down(L, last);
    TickUp(L, 1);
    DownGreatest(L, dur, 256);
    DownGreatest(L, dur, 1);
    DownGreatest(L, dur, d);
    DownGreatest(L, last, k);
    DownGreatest(L, last, k + 1);
    TickAdd(L, k, d);
    TickOrder(L, k + d, k + 1);
    ReachLeast(L, last, k + d);
    ReachLeast(L, last, Reach(L, last));
    TickOrder(L, Reach(L, last), k);
  }

  /** The level of a duration is unique. */
  lemma LevelUnique(dur: nat, L: nat, M: nat)
    requires dur < Tick(L + 1, 1) && (L > 0 ==> Tick(L, 1) <= dur)
    requires dur < Tick(M + 1, 1) && (M > 0 ==> Tick(M, 1) <= dur)
    ensures L == M
  {
    if L < M { TickLevel(L + 1, M, 1); }
    if M < L { TickLevel(M + 1, L, 1); }
  }

  /** A timer 255 ticks after `DirectFrom` waits on level 1, in the slot visited at that tick. */
  lemma EarlySlot(last: nat)
    ensures var dur := DirectFrom(last) + 255 - last;
            && Tick(1, 1) <= dur < Tick(2, 1) && Down(1, last) + Down(1, dur) == PhaseIndex(1, last)
  {
    var k := PhaseIndex(1, last);
    TickValues(1);
    TickValues(k);
    assert Reach(0, last) == last;
    assert Down(0, last) == last && Down(0, DirectFrom(last) + 255 - last) == DirectFrom(last) + 255 - last;
  }

  lemma EarlyInRange(last: nat)
    ensures last < DirectFrom(last) && DirectFrom(last) + 255 <= ScanLimit(last) < JumpEnd(last)
  {
    EarlySlot(last);
    DirectOnlyAfter(1, last);
    TickValues(1);
    LimitAhead(last);
    JumpsOver(last);
  }

  /** The limit of a scan is one or two slots of level 4 ahead. */
  lemma LimitIndex(last: nat)
    ensures 1 <= PhaseIndex(4, last) - Down(4, last) <= 2
  {
    var d, r := Down(3, last), Reach(3, last);
    DownGreatest(3, last, d);
    DownGreatest(3, last, d + 1);
    ReachLeast(3, last, d + 1);
    ReachLeast(3, last, r);
    DownGreatest(3, last, r - 1);
    assert d <= r <= d + 1 by {
      if r < d { TickOrder(3, r, d); }
    }
  }

  /** As much after the limit as `last` is after a multiple of 2^32. */
  function LateTick(last: nat): nat
  {
    DownGreatest(4, last, Down(4, last));
    ScanLimit(last) + (last - Tick(4, Down(4, last)))
  }

  /** A timer for that tick waits on level 4, in the slot visited at the limit. */
  lemma LateSlot(last: nat)
    ensures var dur := LateTick(last) - last;
            && Tick(4, 1) <= dur < Tick(5, 1) && Down(4, last) + Down(4, dur) == PhaseIndex(4, last)
  {
    var d, k := Down(4, last), PhaseIndex(4, last);
    LimitIndex(last);
    DownGreatest(4, last, d);
    TickAdd(4, d, k - d);
    DownTick(4, k - d);
    TickUp(4, 1);
    TickOrder(4, k - d, 256);
    TickOrder(4, k - d, 1);
  }

  /** One multiple of 2^32 is within reach of a scan from the one before. */
  lemma NextLap(k: nat)
    ensures Tick(4, k + 1) == Tick(4, k) + TWO_32
    ensures Tick(4, k + 1) <= ScanLimit(Tick(4, k)) < JumpEnd(Tick(4, k))
  {
    TickAdd(4, k, 1);
    TickValues(1);
    LimitAhead(Tick(4, k));
    JumpsOver(Tick(4, k));
  }

  /** From the last multiple of 2^32 before `last`, a timer for the limit of a scan from `last` waits
      on level 4, in the slot visited at that limit; a scan to `last` does not come to it. */
  lemma LapBefore(last: nat)
    ensures var lap := Tick(4, Down(4, last));
            var dur := ScanLimit(last) - lap;
            && lap <= last < lap + TWO_32 && last < ScanLimit(last)
            && last <= ScanLimit(lap) < JumpEnd(lap)
            && Tick(4, 1) <= dur < Tick(5, 1)
            && Down(4, lap) + Down(4, dur) == PhaseIndex(4, last)
  {
    var d := Down(4, last);
    LateSlot(last);
    NextLap(d);
    DownTick(4, d);
    DownGreatest(4, last, d);
    DownGreatest(4, last, d + 1);
    LimitAhead(last);
  }
}
