/** The hierarchical timer wheel (libgo/common/timer.h).

    Callbacks are counted per element; the clock value read by a pass is a parameter.  A pass
    and a start are single steps, so the retry on a moved point is not needed. */
module TimerWheel {
  import opened Basics
  import opened WheelArithmetic

  /** The slot an element was last queued in (`slot_`). */
  datatype Place = Nowhere | InSlot(level: nat, index: nat)

  class Element {
    const tp: int        // deadline
    var locked: bool     // active_
    var place: Place     // slot_
    var calls: nat       // how often cb_ has run

    constructor (tp: int)
      ensures this.tp == tp && !locked && place == Nowhere && calls == 0
    {
      this.tp := tp;
      locked := false;
      place := Nowhere;
      calls := 0;
    }

    /** Runs the callback unless the element has been cancelled. */
    method Call() returns (ran: bool)
      modifies this
      ensures locked == old(locked) && ran == !old(locked)
      ensures place == if old(locked) then old(place) else Nowhere
      ensures calls == if old(locked) then old(calls) else old(calls) + 1
    {
      if locked { return false; }
      locked := true;
      place := Nowhere;
      calls := calls + 1;
      locked := false;
      ran := true;
    }
  }

  /** The first `n` elements of a list that have not been cancelled, in order. */
  ghost function Active(list: seq<Element>, n: nat): seq<Element>
    requires n <= |list|
    reads list
  {
    if n == 0 then [] else Active(list, n - 1) + if list[n - 1].locked then [] else [list[n - 1]]
  }

  /** Runs every element of a popped list that has not been cancelled, in order. */
  method CallAll(list: seq<Element>) returns (ghost ran: seq<Element>)
    requires Injective(list)
    modifies list
    ensures ran == old(Active(list, |list|))
    ensures forall e :: e in list ==>
              && e.locked == old(e.locked)
              && e.place == (if old(e.locked) then old(e.place) else Nowhere)
              && e.calls == (if old(e.locked) then old(e.calls) else old(e.calls) + 1)
  {
    ran := [];
    var i := 0;
    while i < |list|
      invariant 0 <= i <= |list| && ran == old(Active(list, i))
      invariant forall k :: 0 <= k < i ==>
                  && list[k].locked == old(list[k].locked)
                  && list[k].place == (if old(list[k].locked) then old(list[k].place) else Nowhere)
                  && list[k].calls == (if old(list[k].locked) then old(list[k].calls) else old(list[k].calls) + 1)
      invariant forall k :: i <= k < |list| ==>
                  && list[k].locked == old(list[k].locked)
                  && list[k].place == old(list[k].place)
                  && list[k].calls == old(list[k].calls)
    {
      var called := list[i].Call();
      ran := ran + if called then [list[i]] else [];
      i := i + 1;
    }
  }

  class Timer {
    const begin: int
    const precision: int
    const slots: array2<seq<Element>>
    var point: nat
    var complete: seq<Element>
    ghost var elements: set<Element>

    /** Number of whole precision steps from `begin` to a time. */
    function TickAt(time: int): int
      requires precision > 0
    {
      (time - begin) / precision
    }

    /** The time of a tick. */
    function TimeAt(tick: int): int
    {
      begin + tick * precision
    }

    /** Ticks and times correspond, and a remaining duration is a difference of ticks. */
    lemma TickOfTime(time: int, k: int)
      requires precision > 0
      ensures TickAt(time) >= k <==> time >= TimeAt(k)
      ensures (time - TimeAt(k)) / precision == TickAt(time) - k
    {
      var x, p := time - begin, precision;
      var d := x / p;
      assert d * p <= x < d * p + p;
      assert (d - k) * p == d * p - k * p;
      QuotientIs(x - k * p, p, d - k);
    }

    lemma TimeOfTick(k: nat)
      requires precision > 0
      ensures TickAt(TimeAt(k)) == k && (TimeAt(k) <= TimeAt(point) <==> k <= point)
    {
      TickOfTime(TimeAt(k), k);
      TickOfTime(TimeAt(k), k + 1);
      TickOfTime(TimeAt(point), k);
      TickOfTime(TimeAt(point), point);
      TickOfTime(TimeAt(point), point + 1);
    }

    // ---------------------------------------------------------------- invariant

    ghost predicate Shape()
    {
      precision > 0 && slots.Length0 == LEVELS && slots.Length1 == SLOTS
    }

    /** The slot is clean: its elements are distinct, waiting, and know where they are. */
    ghost predicate SlotClean(L: nat, o: nat)
      requires L < slots.Length0 && o < slots.Length1
      reads this`elements, slots, elements
    {
      && Injective(slots[L, o])
      && forall e :: e in slots[L, o] ==>
           e in elements && e.place == InSlot(L, o) && !e.locked && e.calls == 0
    }

    ghost predicate WheelClean()
      reads this`elements, slots, elements
    {
      && Shape()
      && forall L, o :: 0 <= L < LEVELS && 0 <= o < SLOTS ==> SlotClean(L, o)
    }

    /** The next visit of the slot is not behind the point and not after the element's tick. */
    ghost predicate Placed(e: Element, L: nat, o: nat)
      requires precision > 0
      reads this
    {
      && point <= VisitTick(L, o, point) <= TickAt(e.tp)
      && (L == 0 ==> VisitTick(L, o, point) == TickAt(e.tp))
    }

    ghost predicate WheelPlaced()
      requires Shape()
      reads this, slots
    {
      forall L, o, e :: 0 <= L < LEVELS && 0 <= o < SLOTS && e in slots[L, o] ==> Placed(e, L, o)
    }

    ghost predicate CompleteOk()
      reads this, elements
    {
      && Injective(complete)
      && forall e :: e in complete ==>
           e in elements && e.place == Nowhere && e.calls == 0 && e.tp <= TimeAt(point)
    }

    ghost predicate InWheel(e: Element)
      requires Shape()
      reads slots, e
    {
      && e.place.InSlot? && e.place.level < LEVELS && e.place.index < SLOTS
      && e in slots[e.place.level, e.place.index]
    }

    ghost predicate Pending(e: Element)
      requires Shape()
      reads this, slots, e
    {
      !e.locked && (e in complete || InWheel(e))
    }

    /** Every started timer is pending, has been cancelled, or has run exactly once. */
    ghost predicate Accounted()
      requires Shape()
      reads this, slots, elements
    {
      forall e :: e in elements ==>
        e.calls <= 1 && (Pending(e) || e.locked || (e.calls == 1 && e.place == Nowhere))
    }

    /** Every deadline is within reach of the 64-bit point. */
    ghost predicate Bounded()
      requires precision > 0
      reads this
    {
      forall e :: e in elements ==> TickAt(e.tp) < TWO_64
    }

    /** What every pass keeps, however late it comes. */
    ghost predicate Tidy()
      reads this, slots, elements
    {
      WheelClean() && CompleteOk() && Accounted() && Bounded()
    }

    ghost predicate Valid()
      reads this, slots, elements
    {
      Tidy() && WheelPlaced()
    }

    constructor (begin: int, precision: int)
      requires precision > 0
      ensures Valid() && fresh(slots) && elements == {} && point == 0
      ensures this.begin == begin && this.precision == precision
    {
      this.begin := begin;
      this.precision := precision;
      slots := new seq<Element>[LEVELS, SLOTS]((i, j) => []);
      point := 0;
      complete := [];
      elements := {};
    }

    // ---------------------------------------------------------------- placing

    /** The highest non-zero byte of a 64-bit duration. */
    static method TopLevel(dur: nat) returns (level: nat)
      requires dur < TWO_64
      ensures level < LEVELS && dur < Tick(level + 1, 1) && (level > 0 ==> Tick(level, 1) <= dur)
    {
      TickValues(1);
      level := 7;
      while level > 0 && Byte(dur, level) == 0
        invariant level < LEVELS && dur < Tick(level + 1, 1)
      {
        ByteZero(dur, level);
        level := level - 1;
      }
      if level > 0 { ByteNonZero(dur, level); }
    }

    static lemma ByteZero(dur: nat, L: nat)
      requires dur < Tick(L + 1, 1) && Byte(dur, L) == 0
      ensures dur < Tick(L, 1)
    {
      TickUp(L, 1);
      DownGreatest(L, dur, 256);
      DownGreatest(L, dur, 1);
    }

    static lemma ByteNonZero(dur: nat, L: nat)
      requires Byte(dur, L) != 0
      ensures Tick(L, 1) <= dur
    {
      DownGreatest(L, dur, 1);
    }

    /** The ticks from the point to a deadline not before it. */
    method RemainingTicks(tp: int) returns (dur: nat)
      requires precision > 0 && tp >= TimeAt(point)
      ensures dur == TickAt(tp) - point
    {
      TickOfTime(tp, point);
      dur := (tp - TimeAt(point)) / precision;
    }

    /** The slot that the remaining ticks of an element select. */
    method SelectSlot(e: Element) returns (level: nat, offset: nat)
      requires precision > 0 && e.tp >= TimeAt(point) && TickAt(e.tp) < TWO_64
      ensures level < LEVELS && offset < SLOTS && Placed(e, level, offset)
      ensures Selected(InSlot(level, offset), point, TickAt(e.tp) - point)
    {
      var dur := RemainingTicks(e.tp);
      level := TopLevel(dur);
      offset := (Byte(dur, level) + Byte(point, level)) % 256;
      PlacedVisit(point, dur, level);
    }

    /** Puts a waiting element that is nowhere in the wheel into a slot. */
    method Insert(e: Element, L: nat, o: nat)
      requires WheelClean() && e in elements && !InWheel(e) && !e.locked && e.calls == 0
      requires L < LEVELS && o < SLOTS && Placed(e, L, o)
      modifies slots, e`place
      ensures WheelClean() && (old(WheelPlaced()) ==> WheelPlaced())
      ensures e.place == InSlot(L, o)
      ensures forall l, i :: 0 <= l < LEVELS && 0 <= i < SLOTS ==>
                slots[l, i] == old(slots[l, i]) + if e.place == InSlot(l, i) then [e] else []
    {
      assert SlotClean(L, o);
      slots[L, o] := slots[L, o] + [e];
      e.place := InSlot(L, o);
      forall l, i | 0 <= l < LEVELS && 0 <= i < SLOTS
        ensures SlotClean(l, i)
      {
        assert old(SlotClean(l, i));
      }
    }

    /** Queues an element: into the completed list if its time has come and the caller is not
        the trigger thread, otherwise into the slot its remaining ticks select. */
    method DispatchElement(e: Element, mainloop: bool)
      requires WheelClean() && e in elements && !InWheel(e) && !e.locked && e.calls == 0
      requires TickAt(e.tp) < TWO_64 && (mainloop ==> e.tp >= TimeAt(point))
      modifies this`complete, slots, e`place
      ensures WheelClean() && (old(WheelPlaced()) ==> WheelPlaced())
      ensures !mainloop && e.tp <= TimeAt(point) ==>
                && complete == old(complete) + [e] && e.place == old(e.place)
                && forall L, o :: 0 <= L < LEVELS && 0 <= o < SLOTS ==> slots[L, o] == old(slots[L, o])
      ensures mainloop || e.tp > TimeAt(point) ==>
                && complete == old(complete)
                && e.place.InSlot? && Placed(e, e.place.level, e.place.index)
                && Selected(e.place, point, TickAt(e.tp) - point)
                && forall L, o :: 0 <= L < LEVELS && 0 <= o < SLOTS ==>
                     slots[L, o] == old(slots[L, o]) + if e.place == InSlot(L, o) then [e] else []
    {
      if !mainloop && e.tp <= TimeAt(point) {
        complete := complete + [e];
        return;
      }
      var level, offset := SelectSlot(e);
      Insert(e, level, offset);
    }

    /** Starts a timer: afterwards it is pending, in the slot its remaining ticks select or in the
        completed list, and nothing else has changed. */
    method StartTimer(tp: int) returns (e: Element)
      requires Tidy() && TickAt(tp) < TWO_64
      modifies this`complete, this`elements, slots
      ensures Tidy() && (old(Valid()) ==> Valid())
      ensures fresh(e) && e.tp == tp && Pending(e) && e.calls == 0
      ensures if tp <= TimeAt(point) then e in complete
              else e !in complete && point <= TickAt(tp) && Selected(e.place, point, TickAt(tp) - point)
      ensures elements == old(elements) + {e} && point == old(point)
      ensures forall x :: x in old(elements) ==> (Pending(x) <==> old(Pending(x)))
    {
      e := new Element(tp);
      elements := elements + {e};
      forall L, o | 0 <= L < LEVELS && 0 <= o < SLOTS
        ensures SlotClean(L, o)
      {
        assert old(SlotClean(L, o));
      }
      DispatchElement(e, false);
    }

    /** Cancels a timer: false if it was cancelled before, otherwise it is no longer pending;
        nothing else changes. */
    method StopTimer(e: Element) returns (ok: bool)
      requires Tidy() && e in elements
      modifies slots, e`locked
      ensures Tidy() && (old(Valid()) ==> Valid()) && e.locked && ok == !old(e.locked)
      ensures forall x :: x in elements && x != e ==> (Pending(x) <==> old(Pending(x)))
    {
      if e.locked { return false; }
      e.locked := true;
      if e.place.InSlot? {
        var L, o := e.place.level, e.place.index;
        assert old(SlotClean(e.place.level, e.place.index));
        WithoutFacts(slots[L, o], e);
        InjectiveWithout(slots[L, o], e);
        slots[L, o] := Without(slots[L, o], e);
      }
      forall L, o | 0 <= L < LEVELS && 0 <= o < SLOTS
        ensures SlotClean(L, o)
      {
        assert old(SlotClean(L, o));
      }
      ok := true;
    }

    // ---------------------------------------------------------------- one scan position

    /** Empties a slot and runs its elements. */
    method TriggerSlot(L: nat, o: nat)
      requires WheelClean() && L < LEVELS && o < SLOTS
      modifies slots, slots[L, o]
      ensures WheelClean()
      ensures forall l, i :: 0 <= l < LEVELS && 0 <= i < SLOTS ==>
                slots[l, i] == if l == L && i == o then [] else old(slots[l, i])
      ensures forall e :: e in old(slots[L, o]) ==>
                e.calls == old(e.calls) + 1 && e.place == Nowhere && !e.locked
    {
      var list := slots[L, o];
      assert SlotClean(L, o);
      slots[L, o] := [];
      ghost var ran := CallAll(list);
      forall l, i | 0 <= l < LEVELS && 0 <= i < SLOTS
        ensures SlotClean(l, i)
      {
        assert old(SlotClean(l, i));
      }
    }

    /** The waiting element sits in a slot above level `t` that a scan at `pos` looks at, up to
        level `lv`. */
    ghost predicate Promotes(e: Element, t: nat, lv: nat, pos: nat)
      requires Shape()
      reads slots, e
    {
      InWheel(e) && t < e.place.level <= lv && e.place.index == Byte(pos, e.place.level)
    }

    /** Takes the slot of every level above `t` that `pos` is aligned to, for re-dispatch. */
    method Promote(t: nat, pos: nat, dispatchers: seq<Element>, triggerSlots: array<nat>)
      returns (out: seq<Element>, ghost lv: nat)
      requires WheelClean() && t < LEVELS && pos < TWO_64 && Aligned(t, pos)
      requires Injective(dispatchers) && triggerSlots.Length == LEVELS
      requires forall e :: e in dispatchers ==> !InWheel(e)
      modifies slots, triggerSlots
      ensures WheelClean() && t <= lv < LEVELS
      ensures forall L :: t < L < LEVELS ==> (L <= lv <==> Aligned(L, pos) && pos > 0)
      ensures forall L, o :: 0 <= L < LEVELS && 0 <= o < SLOTS ==>
                slots[L, o] == if t < L <= lv && o == Byte(pos, L) then [] else old(slots[L, o])
      ensures Injective(out)
      ensures forall e :: e in elements || e in dispatchers ==>
                (e in out <==> e in dispatchers || old(Promotes(e, t, lv, pos)))
      ensures forall e :: e in out ==> e in dispatchers || e in elements
      ensures forall L :: 0 <= L < LEVELS ==>
                triggerSlots[L] == old(triggerSlots[L]) + if t < L <= lv then 1 else 0
    {
      out := dispatchers;
      lv := t;
      var level := t;
      var slotIdx := Byte(pos, t);
      while pos > 0 && slotIdx == 0
        invariant t <= lv < LEVELS && level == lv && slotIdx == Byte(pos, lv) && Aligned(lv, pos)
        invariant lv > t ==> pos > 0
        invariant forall L, o :: 0 <= L < LEVELS && 0 <= o < SLOTS ==>
                    slots[L, o] == if t < L <= lv && o == Byte(pos, L) then [] else old(slots[L, o])
        invariant Injective(out)
        invariant forall e :: e in elements || e in dispatchers ==>
                    (e in out <==> e in dispatchers || old(Promotes(e, t, lv, pos)))
        invariant forall e :: e in out ==> e in dispatchers || e in elements
        invariant forall L :: 0 <= L < LEVELS ==>
                    triggerSlots[L] == old(triggerSlots[L]) + if t < L <= lv then 1 else 0
        decreases LEVELS - lv
      {
        AlignedUp(lv, pos);
        AlignedLevelBound(lv + 1, Down(lv + 1, pos));
        level := level + 1;
        lv := level;
        slotIdx := Byte(pos, level);
        assert old(SlotClean(level, slotIdx));
        InjectiveJoin(out, slots[level, slotIdx]);
        out := out + slots[level, slotIdx];
        slots[level, slotIdx] := [];
        triggerSlots[level] := triggerSlots[level] + 1;
      }
      AlignedUp(lv, pos);
      forall L | t < L < LEVELS
        ensures L <= lv <==> Aligned(L, pos) && pos > 0
      {
        if L <= lv { AlignedBelow(L, lv, pos); }
        else if Aligned(L, pos) { AlignedBelow(lv + 1, L, pos); }
      }
      forall L, o | 0 <= L < LEVELS && 0 <= o < SLOTS
        ensures SlotClean(L, o)
      {
        assert old(SlotClean(L, o));
      }
    }

    /** One position of the scan: the slot of level `t` runs, the aligned slots above it are
        taken for re-dispatch, every other slot and element is left alone. */
    method ScanStep(t: nat, pos: nat, dispatchers: seq<Element>, triggerSlots: array<nat>)
      returns (out: seq<Element>)
      requires WheelClean() && t < LEVELS && pos < TWO_64 && Aligned(t, pos)
      requires Injective(dispatchers) && triggerSlots.Length == LEVELS
      requires forall e :: e in dispatchers ==> e in elements && !InWheel(e)
      modifies slots, triggerSlots, slots[t, Byte(pos, t)]
      ensures WheelClean()
      ensures forall e :: e in elements ==>
                (InWheel(e) <==> old(InWheel(e) && !Looked(e.place.level, e.place.index, t, pos)))
      ensures forall e :: e in old(slots[t, Byte(pos, t)]) ==>
                e.calls == old(e.calls) + 1 && e.place == Nowhere && !e.locked
      ensures Injective(out) && forall e :: e in out ==> e in elements
      ensures forall e :: e in elements ==>
                (e in out <==>
                   || e in dispatchers
                   || old(InWheel(e) && e.place.level > t && Looked(e.place.level, e.place.index, t, pos)))
      ensures forall L :: 0 <= L < LEVELS ==>
                triggerSlots[L] == old(triggerSlots[L]) +
                  if L == t || (L > t && Aligned(L, pos) && pos > 0) then 1 else 0
    {
      assert SlotClean(t, Byte(pos, t));
      TriggerSlot(t, Byte(pos, t));
      assert triggerSlots[..] == old(triggerSlots[..]);
      triggerSlots[t] := triggerSlots[t] + 1;
      ghost var lv;
      out, lv := Promote(t, pos, dispatchers, triggerSlots);
      forall L, o | 0 <= L < LEVELS && 0 <= o < SLOTS
        ensures slots[L, o] == if Looked(L, o, t, pos) then [] else old(slots[L, o])
        ensures triggerSlots[L] == old(triggerSlots[L]) +
                  if L == t || (L > t && Aligned(L, pos) && pos > 0) then 1 else 0
      {
        var aligned := Aligned(L, pos);
        var looked := Looked(L, o, t, pos);
        assert looked <==> (L == t || t < L <= lv) && o == Byte(pos, L);
      }
      forall L | 0 <= L < LEVELS
        ensures triggerSlots[L] == old(triggerSlots[L]) +
                  if L == t || (L > t && Aligned(L, pos) && pos > 0) then 1 else 0
      {
        var first := slots[L, 0];
      }
      forall e | e in elements
        ensures InWheel(e) <==> old(InWheel(e) && !Looked(e.place.level, e.place.index, t, pos))
      {
        if old(InWheel(e)) {
          var looked := Looked(old(e.place).level, old(e.place).index, t, pos);
        }
      }
    }

    // ---------------------------------------------------------------- the whole scan

    /** Where an element that waited at place `p` when a scan left `last` is once the visits
        before `bound` are done: still waiting, run, or taken for re-dispatch. */
    ghost predicate Stage(e: Element, p: Place, last: nat, bound: nat)
      requires Shape()
      reads slots, e
    {
      && !e.locked
      && if !Before(p, last, bound) then InWheel(e) && e.place == p && e.calls == 0
         else if Direct(p, last) then e.calls == 1 && e.place == Nowhere
         else !InWheel(e) && e.place == p && e.calls == 0
    }

    /** The state of a scan from `last`, given where every element waited at its start. */
    ghost predicate ScanState(from: map<Element, Place>, last: nat, bound: nat, out: seq<Element>)
      reads this`elements, slots, elements
    {
      && WheelClean()
      && from.Keys <= elements && Injective(out)
      && (forall e :: e in from ==> ValidPlace(from[e]) && Stage(e, from[e], last, bound))
      && (forall e :: e in elements && InWheel(e) ==> e in from)
      && (forall e :: e in out ==> e in from)
      && (forall e :: e in from ==> (e in out <==> Before(from[e], last, bound) && !Direct(from[e], last)))
    }

    /** A scan step moves every element to the stage of the next bound. */
    method ScanVisit(ghost from: map<Element, Place>, ghost last: nat, ghost dest: nat, t: nat, ghost q: nat,
                     pos: nat, dispatchers: seq<Element>, triggerSlots: array<nat>)
      returns (out: seq<Element>, ghost bound: nat)
      requires ScanState(from, last, pos, dispatchers)
      requires ScanPoint(last, t, q) && t <= 3 && pos == Tick(t, q) < dest
      requires dest <= ScanLimit(last) && dest < TWO_64
      requires triggerSlots.Length == LEVELS
      modifies slots, triggerSlots, from.Keys
      ensures bound == Min(pos + Advance(NextLevel(last, t, q), pos), dest)
      ensures ScanState(from, last, bound, out)
      ensures forall L :: 0 <= L < LEVELS ==>
                triggerSlots[L] == old(triggerSlots[L]) +
                  if L == t || (L > t && Aligned(L, pos) && pos > 0) then 1 else 0
    {
      DownTick(t, q);
      bound := Min(pos + Advance(NextLevel(last, t, q), pos), dest);
      assert SlotClean(t, Byte(pos, t));
      out := ScanStep(t, pos, dispatchers, triggerSlots);
      forall e | e in from
        ensures Stage(e, from[e], last, bound)
        ensures e in out <==> Before(from[e], last, bound) && !Direct(from[e], last)
      {
        assert old(Stage(e, from[e], last, pos));
        PlaceStep(from[e], last, dest, t, q);
      }
    }

    /** One turn of the scan loop: visits the position, then picks the level and the distance
        of the next one. */
    method ScanTurn(ghost from: map<Element, Place>, last: nat, ghost dest: nat, triggerLevel: nat, ghost q: nat,
                    i: nat, dispatchers: seq<Element>, triggerSlots: array<nat>, ghost steps: nat, ghost limit: nat)
      returns (out: seq<Element>, level: nat, i': nat, ghost q': nat, ghost bound: nat)
      requires ScanState(from, last, last + i, dispatchers)
      requires ScanCounters(last, triggerLevel, q, i, steps, triggerSlots[..])
      requires last + i < dest <= JumpEnd(last) && dest < TWO_64 && limit == Min(dest, ScanLimit(last))
      modifies slots, triggerSlots, from.Keys
      ensures ScanState(from, last, bound, out)
      ensures bound == Min(last + i', limit) && i < i' && steps < 1024
      ensures last + i' < dest ==> ScanCounters(last, level, q', i', steps + 1, triggerSlots[..])
    {
      var pos := last + i;
      ghost var counts := triggerSlots[..];
      ScanPointBelow(last, triggerLevel, q);
      out, bound := ScanVisit(from, last, limit, triggerLevel, q, pos, dispatchers, triggerSlots);
      CountersStep(last, dest, triggerLevel, q, i, steps, counts, triggerSlots[..]);
      level := if triggerSlots[triggerLevel] == 256 then triggerLevel + 1 else triggerLevel;
      i' := i + Advance(level, pos);
      q' := NextIndex(last, triggerLevel, q);
    }

    /** The catch-up scan from `last` to `dest`: it deals with every slot visited before `dest` and
        before the visit it jumps over. */
    method Scan(ghost from: map<Element, Place>, last: nat, dest: nat)
      returns (dispatchers: seq<Element>, ghost steps: nat)
      requires ScanState(from, last, last, [])
      requires last <= dest <= JumpEnd(last) && dest < TWO_64
      modifies slots, from.Keys
      ensures ScanState(from, last, Min(dest, ScanLimit(last)), dispatchers)
      ensures steps <= 1024
    {
      var triggerSlots := new nat[LEVELS](i => 0);
      var triggerLevel, i := 0, 0;
      ghost var q, bound := last, last;
      dispatchers, steps := [], 0;
      CountersBegin(last, triggerSlots[..]);
      LimitAhead(last);
      ghost var limit := Min(dest, ScanLimit(last));
      while i < dest - last
        invariant triggerSlots.Length == LEVELS && fresh(triggerSlots)
        invariant bound == Min(last + i, limit)
        invariant ScanState(from, last, bound, dispatchers)
        invariant last + i < dest ==> ScanCounters(last, triggerLevel, q, i, steps, triggerSlots[..])
        invariant steps <= 1024
        decreases dest - last - i
      {
        ScanPointBelow(last, triggerLevel, q);
        dispatchers, triggerLevel, i, q, bound :=
          ScanTurn(from, last, dest, triggerLevel, q, i, dispatchers, triggerSlots, steps, limit);
        steps := steps + 1;
      }
    }

    // ---------------------------------------------------------------- re-dispatch

    /** A promoted element has been dealt with. */
    ghost predicate Dealt(e: Element, now: int)
      requires Shape()
      reads slots, e
    {
      !e.locked && if e.tp <= now then e.calls == 1 && e.place == Nowhere else InWheel(e) && e.calls == 0
    }

    /** Deals with one promoted element: runs it if its time has come, else queues it again. */
    method Redispatch(e: Element, now: int)
      requires WheelClean() && e in elements && TickAt(e.tp) < TWO_64
      requires !InWheel(e) && !e.locked && e.calls == 0 && now >= TimeAt(point)
      modifies this`complete, slots, e
      ensures complete == old(complete)
      ensures WheelClean() && (old(WheelPlaced()) ==> WheelPlaced()) && Dealt(e, now)
      ensures forall x :: x in elements && x != e ==> (InWheel(x) <==> old(InWheel(x)))
    {
      if e.tp <= now {
        var _ := e.Call();
        forall L, o | 0 <= L < LEVELS && 0 <= o < SLOTS
          ensures SlotClean(L, o)
        {
          assert old(SlotClean(L, o));
        }
      } else {
        DispatchElement(e, true);
      }
    }

    /** Deals with every promoted element. */
    method RedispatchAll(list: seq<Element>, now: int)
      requires WheelClean() && Bounded() && Injective(list) && now >= TimeAt(point)
      requires forall e :: e in list ==> e in elements && !InWheel(e) && !e.locked && e.calls == 0
      modifies this`complete, slots, list
      ensures complete == old(complete)
      ensures WheelClean() && (old(WheelPlaced()) ==> WheelPlaced())
      ensures forall e :: e in list ==> Dealt(e, now)
      ensures forall x :: x in elements && x !in list ==> (InWheel(x) <==> old(InWheel(x)))
    {
      var i := 0;
      while i < |list|
        invariant 0 <= i <= |list| && complete == old(complete)
        invariant WheelClean() && (old(WheelPlaced()) ==> WheelPlaced())
        invariant forall k :: 0 <= k < i ==> Dealt(list[k], now)
        invariant forall k :: i <= k < |list| ==> !InWheel(list[k]) && !list[k].locked && list[k].calls == 0
        invariant forall x :: x in elements && x !in list ==> (InWheel(x) <==> old(InWheel(x)))
      {
        Redispatch(list[i], now);
        i := i + 1;
      }
    }

    // ---------------------------------------------------------------- a pass

    /** How far a pass that advances to `dest` scans. */
    ghost function ScanEnd(dest: nat): nat
      reads this
    {
      Min(dest, ScanLimit(point))
    }

    /** A pass at time `now` comes to the slot. */
    ghost predicate Reached(p: Place, now: int)
      requires precision > 0
      reads this
    {
      point < TickAt(now) && Before(p, point, ScanEnd(TickAt(now)))
    }

    /** The timers a pass at time `now` runs, told from the state before it. */
    ghost predicate Due(e: Element, now: int)
      requires Shape()
      reads this, slots, e
    {
      && !e.locked
      && (e in complete ||
          (InWheel(e) && Reached(e.place, now) && (Direct(e.place, point) || e.tp <= now)))
    }

    /** Moving the point forward keeps the placing of every slot the scan has not emptied. */
    lemma StillPlaced(e: Element, L: nat, o: nat, last: nat)
      requires Shape() && last <= point <= VisitTick(L, o, last) <= TickAt(e.tp) && o < SLOTS
      requires L == 0 ==> VisitTick(L, o, last) == TickAt(e.tp)
      ensures Placed(e, L, o)
    {
      VisitStable(L, o, last, point);
    }

    /** Runs the timers whose time had come when they were started. */
    method TriggerComplete()
      requires Tidy()
      modifies this`complete, complete
      ensures Tidy() && (old(Valid()) ==> Valid()) && complete == []
      ensures forall e :: e in elements ==>
                && (InWheel(e) <==> old(InWheel(e)))
                && (InWheel(e) ==> e.place == old(e.place))
                && e.locked == old(e.locked)
                && e.calls == old(e.calls) + if old(!e.locked && e in complete) then 1 else 0
    {
      var list := complete;
      complete := [];
      ghost var ran := CallAll(list);
      forall L, o | 0 <= L < LEVELS && 0 <= o < SLOTS
        ensures SlotClean(L, o)
      {
        assert old(SlotClean(L, o));
      }
    }

    /** Where every waiting timer is, before a scan. */
    ghost function Waiting(): map<Element, Place>
      requires Shape()
      reads this`elements, slots, elements
    {
      map e | e in elements && InWheel(e) :: e.place
    }

    lemma ScanBegins()
      requires WheelClean()
      ensures ScanState(Waiting(), point, point, [])
    {
      forall e | e in Waiting()
        ensures Stage(e, e.place, point, point)
      {
        assert SlotClean(e.place.level, e.place.index);
        NothingBefore(e.place, point);
      }
    }

    /** Moves the point to `dest` and scans the slots visited on the way; unless the scan jumps over
        one, what is left in the wheel is placed for the new point. */
    method ScanTo(dest: nat) returns (dispatchers: seq<Element>)
      requires WheelClean() && point < dest <= JumpEnd(point) && dest < TWO_64
      modifies this`point, slots, Waiting().Keys
      ensures point == dest && ScanState(old(Waiting()), old(point), old(ScanEnd(dest)), dispatchers)
      ensures old(WheelPlaced()) && dest <= ScanLimit(old(point)) ==> WheelPlaced()
    {
      var last := point;
      ghost var from := Waiting();
      ScanBegins();
      point := dest;
      ghost var steps;
      dispatchers, steps := Scan(from, last, dest);
      forall L, o, e | old(WheelPlaced()) && dest <= ScanLimit(last) &&
                       0 <= L < LEVELS && 0 <= o < SLOTS && e in slots[L, o]
        ensures Placed(e, L, o)
      {
        assert SlotClean(L, o) && e in from && Stage(e, from[e], last, dest);
        assert old(Placed(e, L, o));
        StillPlaced(e, L, o, last);
      }
    }

    /** Moves the point to `dest` and deals with every slot visited on the way. */
    method CatchUp(dest: nat, now: int)
      requires Tidy() && point < dest <= JumpEnd(point) && dest < TWO_64 && TimeAt(dest) <= now
      modifies this`point, this`complete, slots, Waiting().Keys
      ensures WheelClean() && point == dest && complete == old(complete)
      ensures old(WheelPlaced()) && dest <= ScanLimit(old(point)) ==> WheelPlaced()
      ensures forall e :: e in old(Waiting()) ==>
                && !e.locked
                && if Before(old(e.place), old(point), old(ScanEnd(dest))) &&
                      (Direct(old(e.place), old(point)) || e.tp <= now)
                   then e.calls == 1 && e.place == Nowhere
                   else InWheel(e) && e.calls == 0
      ensures forall e :: e in old(Waiting()) && !Before(old(e.place), old(point), old(ScanEnd(dest))) ==>
                e.place == old(e.place)
      ensures forall e :: e in elements && e !in old(Waiting()) ==> !InWheel(e)
    {
      ghost var from, last, end := Waiting(), point, ScanEnd(dest);
      var dispatchers := ScanTo(dest);
      forall e | e in dispatchers
        ensures e in elements && !InWheel(e) && !e.locked && e.calls == 0
      {
        assert e in from && Stage(e, from[e], last, end);
      }
      label scanned:
      RedispatchAll(dispatchers, now);
      forall e | e in from
        ensures !e.locked
        ensures if Before(from[e], last, end) && (Direct(from[e], last) || e.tp <= now)
                then e.calls == 1 && e.place == Nowhere
                else InWheel(e) && e.calls == 0
        ensures !Before(from[e], last, end) ==> e.place == from[e]
      {
        assert old@scanned(Stage(e, from[e], last, end));
      }
    }

    /** One pass of the trigger thread.  Timers in slots it does not come to stay where they are. */
    method RunOnce(now: int)
      requires Tidy() && begin <= now && TickAt(now) < TWO_64 && TickAt(now) <= JumpEnd(point)
      modifies this`point, this`complete, slots, elements
      ensures Tidy() && (old(Valid()) && TickAt(now) <= ScanLimit(old(point)) ==> Valid())
      ensures point == if TickAt(now) > old(point) then TickAt(now) else old(point)
      ensures forall e :: e in elements ==>
                e.calls == old(e.calls) + if old(Due(e, now)) then 1 else 0
      ensures forall e :: e in elements && old(Pending(e) && !Due(e, now)) ==> Pending(e)
      ensures forall e :: e in elements && old(InWheel(e) && !Reached(e.place, now)) ==>
                InWheel(e) && e.place == old(e.place)
    {
      TriggerComplete();
      TickOfTime(now, TickAt(now));
      var dest := TickAt(now);
      if dest > point {
        label caught:
        CatchUp(dest, now);
        forall e | e in elements
          ensures e.calls == old(e.calls) + if old(Due(e, now)) then 1 else 0
          ensures old(InWheel(e) && !Reached(e.place, now)) ==> InWheel(e) && e.place == old(e.place)
        {
          if old(InWheel(e)) {
            assert old(SlotClean(e.place.level, e.place.index));
            assert e in old@caught(Waiting());
          }
        }
      }
    }

    // ---------------------------------------------------------------- what a pass promises

    /** A pass up to the scan's limit runs every pending timer whose tick is below the point it
        leaves behind. */
    lemma NeverLate(e: Element, now: int)
      requires Valid() && e in elements && Pending(e) && TickAt(now) <= ScanLimit(point)
      requires TickAt(e.tp) < point || TickAt(e.tp) < TickAt(now)
      ensures Due(e, now)
    {
      if e !in complete {
        assert Placed(e, e.place.level, e.place.index);
        TickOfTime(now, TickAt(now));
        TickOfTime(e.tp, TickAt(now));
      }
    }

    /** Up to the end of the scan's first jump: a pass runs every pending timer whose tick is below
        the point it leaves behind exactly when none of these waits in a slot that is next visited
        at the scan's limit or later. */
    lemma LateExactlyWhen(now: int)
      requires Valid() && TickAt(now) <= JumpEnd(point)
      ensures (forall e :: e in elements && Pending(e) && TickAt(e.tp) < TickAt(now) ==> Due(e, now)) <==>
              (forall e :: e in elements && InWheel(e) && TickAt(e.tp) < TickAt(now) ==>
                 Before(e.place, point, ScanLimit(point)))
    {
      forall e | e in elements && InWheel(e) && TickAt(e.tp) < TickAt(now)
        ensures Pending(e) && (Due(e, now) <==> e in complete || Before(e.place, point, ScanLimit(point)))
        ensures e !in complete
      {
        assert SlotClean(e.place.level, e.place.index) && Placed(e, e.place.level, e.place.index);
        TickOfTime(now, TickAt(now));
        TickOfTime(e.tp, TickAt(now));
      }
    }

    /** A timer in a slot that is next visited at the limit or later is not due. */
    lemma LateNotDue(e: Element, now: int)
      requires Shape() && e !in complete && e.place.InSlot?
      requires VisitTick(e.place.level, e.place.index, point) >= ScanLimit(point)
      ensures !Due(e, now)
    {
    }

    lemma LateNeverDue(e: Element)
      requires Shape() && e !in complete && e.place.InSlot?
      requires VisitTick(e.place.level, e.place.index, point) >= ScanLimit(point)
      ensures forall now :: TickAt(now) <= JumpEnd(point) ==> !Due(e, now)
    {
      forall now | TickAt(now) <= JumpEnd(point) ensures !Due(e, now) { LateNotDue(e, now); }
    }

    /** For every wheel: a timer started now for the limit, or as much after it as the point is after
        a multiple of 2^32, is passed over. */
    method MissedTimer(now: int) returns (e: Element)
      requires Valid() && begin <= now && TickAt(now) < TWO_64
      requires LateTick(point) < TickAt(now) <= JumpEnd(point)
      modifies this`point, this`complete, this`elements, slots, elements
      ensures fresh(e) && e.tp == TimeAt(LateTick(old(point))) && TickAt(e.tp) == LateTick(old(point))
      ensures point == TickAt(now) > TickAt(e.tp) && Pending(e) && e.calls == 0
    {
      LateAhead(point);
      TimeOfTick(LateTick(point));
      e := StartTimer(TimeAt(LateTick(point)));
      LatePlace(e.place, point);
      LateNotDue(e, now);
      RunOnce(now);
    }

    /** Brings a wheel without timers to a multiple of 2^32. */
    static method Advanced(k: nat) returns (timer: Timer)
      requires Tick(4, k) < TWO_64
      ensures fresh(timer) && fresh(timer.slots) && timer.Valid() && timer.elements == {}
      ensures timer.begin == 0 && timer.precision == 1 && timer.point == Tick(4, k)
    {
      timer := new Timer(0, 1);
      TickZero(4);
      for i := 0 to k
        invariant timer.Valid() && timer.elements == {} && timer.point == Tick(4, i)
      {
        TickOrder(4, i + 1, k);
        TickOrder(4, i, i + 1);
        NextLap(i);
        timer.RunOnce(Tick(4, i + 1));
      }
    }

    /** A wheel at the last multiple of 2^32 before `p`, with a timer for the limit of a scan from
        `p`. */
    static method LapTimer(p: nat) returns (timer: Timer, e: Element)
      requires ScanLimit(p) < TWO_64
      ensures fresh(timer) && fresh(timer.slots) && timer.Valid() && timer.elements == {e} && fresh(e)
      ensures timer.begin == 0 && timer.precision == 1 && timer.point == Tick(4, Down(4, p))
      ensures e.tp == ScanLimit(p) && timer.Pending(e) && e !in timer.complete
      ensures e.place.InSlot? && e.place.level == 4 && e.place.index < SLOTS
      ensures VisitTick(4, e.place.index, timer.point) == ScanLimit(p)
    {
      LapBefore(p);
      timer := Advanced(Down(4, p));
      e := timer.StartTimer(ScanLimit(p));
      SelectedVisit(e.place, timer.point, ScanLimit(p) - timer.point, 4);
    }

    /** The limit is exact, for every point: there is a wheel standing there with a timer for the
        limit that no pass beyond it runs, up to the end of the jump. */
    static method MissedFrom(p: nat) returns (timer: Timer, e: Element)
      requires ScanLimit(p) < TWO_64
      ensures fresh(timer) && timer.Valid() && timer.point == p && timer.begin == 0 && timer.precision == 1
      ensures e in timer.elements && timer.Pending(e) && timer.TickAt(e.tp) == ScanLimit(p)
      ensures forall now :: timer.TickAt(now) <= JumpEnd(p) ==> !timer.Due(e, now)
    {
      timer, e := LapTimer(p);
      LapBefore(p);
      VisitStable(4, e.place.index, timer.point, p);
      timer.RunOnce(p);
      timer.LateNeverDue(e);
    }

    /** From tick 0, a pass to tick 2^33 + 1 misses a timer for tick 2^33. */
    static method LateCallback() returns (timer: Timer, e: Element)
      ensures timer.begin == 0 && timer.precision == 1
      ensures e.tp == 0x2_0000_0000 < timer.point == 0x2_0000_0001 && e.calls == 0
    {
      timer := new Timer(0, 1);
      FromZero();
      e := timer.MissedTimer(0x2_0000_0001);
    }

    /** The deadline has come by the time of the pass, or had come when the timer was started. */
    ghost predicate Ripe(e: Element, now: int)
      reads this
    {
      e.tp <= now || e.tp <= TimeAt(point)
    }

    /** A pass up to `DirectFrom(point)`, which is at least 256 ticks ahead, runs no timer early. */
    lemma NeverEarly(e: Element, now: int)
      requires Valid() && e in elements && TickAt(now) <= DirectFrom(point) && Due(e, now)
      ensures Ripe(e, now)
    {
      if e !in complete {
        var p := e.place;
        assert Placed(e, p.level, p.index);
        if p.level == 0 {
          TickOfTime(now, TickAt(now));
          TickOfTime(e.tp, TickAt(now));
        } else {
          DirectOnlyAfter(p.level, point);
        }
      }
    }

    /** Up to the end of the scan's first jump: timers run early exactly when the scan comes, past
        the first full turn of a level, to a waiting timer whose deadline is after `now`. */
    lemma EarlyExactlyWhen(now: int)
      requires Tidy() && TickAt(now) <= JumpEnd(point)
      ensures (forall e :: e in elements && Due(e, now) ==> Ripe(e, now)) <==>
              (forall e :: e in elements && InWheel(e) && ScanRuns(e.place, point, TickAt(now)) ==> e.tp <= now)
    {
      forall e | e in elements && InWheel(e)
        ensures e.tp <= TimeAt(point) ==> e.tp <= now || TickAt(now) <= point
      {
        TickOfTime(now, point);
      }
      forall e | e in elements && InWheel(e)
        ensures !e.locked
      {
        assert SlotClean(e.place.level, e.place.index);
      }
    }

    lemma EarlyDue(e: Element, now: int)
      requires Shape() && !e.locked && InWheel(e) && point <= DirectFrom(point) < TickAt(now)
      requires Selected(e.place, point, DirectFrom(point) + 255 - point)
      ensures Due(e, now)
    {
      EarlyRuns(e.place, point, TickAt(now));
    }

    /** The bound is tight, for every wheel: a pass to any of the 254 ticks after it runs early a
        timer started now for the tick after these. */
    method EarlyPass(now: int) returns (e: Element)
      requires Valid() && begin <= now && DirectFrom(point) + 255 < TWO_64
      requires DirectFrom(point) < TickAt(now) < DirectFrom(point) + 255
      modifies this`point, this`complete, this`elements, slots, elements
      ensures Valid() && fresh(e) && point == TickAt(now) < TickAt(e.tp) && now < e.tp && e.calls == 1
    {
      EarlyInRange(point);
      var tick := DirectFrom(point) + 255;
      TimeOfTick(tick);
      TickOfTime(now, tick);
      e := StartTimer(TimeAt(tick));
      EarlyDue(e, now);
      RunOnce(now);
    }

    /** It does happen: a timer for tick 767 runs in a pass that stops at tick 513. */
    static method EarlyCallback() returns (timer: Timer, now: int, e: Element)
      ensures timer.begin == 0 && timer.precision == 1
      ensures now == timer.point == 513 < e.tp == 767 && e.calls == 1
    {
      timer := new Timer(0, 1);
      now := 513;
      e := timer.StartTimer(767);
      assert timer.Placed(e, e.place.level, e.place.index);
      EarlyPlace(e.place);
      FromZero();
      timer.RunOnce(now);
    }
  }

  /** The arithmetic side of the scan loop: the position is a scan point, every level still to
      scan has its slots counted, and a level takes at most 256 steps. */
  ghost predicate ScanCounters(last: nat, t: nat, q: nat, i: nat, steps: nat, counts: seq<nat>)
  {
    && t <= 3 && last + i == Tick(t, q) && ScanPoint(last, t, q)
    && steps <= 256 * t + (q - Reach(t, last))
    && |counts| == LEVELS
    && forall L :: t <= L < LEVELS ==> counts[L] == Seen(L, last, last + i)
  }

  lemma CountersBegin(last: nat, counts: seq<nat>)
    requires |counts| == LEVELS && forall L :: 0 <= L < LEVELS ==> counts[L] == 0
    ensures ScanCounters(last, 0, last, 0, 0, counts)
  {
  }

  lemma CountersStep(last: nat, dest: nat, t: nat, q: nat, i: nat, steps: nat, before: seq<nat>, after: seq<nat>)
    requires ScanCounters(last, t, q, i, steps, before) && dest <= JumpEnd(last)
    requires |after| == LEVELS
    requires forall L :: 0 <= L < LEVELS ==>
               after[L] == before[L] + if L == t || (L > t && Aligned(L, last + i) && last + i > 0) then 1 else 0
    ensures after[t] == 256 <==> NextLevel(last, t, q) == t + 1
    ensures var t', q' := if after[t] == 256 then t + 1 else t, NextIndex(last, t, q);
            var i' := i + Advance(t', last + i);
            && i < i' && steps < 1024
            && (last + i' < dest ==> ScanCounters(last, t', q', i', steps + 1, after))
  {
    var t', q' := NextLevel(last, t, q), NextIndex(last, t, q);
    ReachAligned(t, q);
    assert after[t] == q - Reach(t, last) + 1;
    TurnAhead(last, t, q);
    if t' <= 3 {
      CountersKept(last, t, q, i, steps, before, after);
      assert i + Advance(t', last + i) == Tick(t', q') - last;
    }
  }

  lemma TurnAhead(last: nat, t: nat, q: nat)
    requires ScanPoint(last, t, q) && t <= 3
    ensures var next := Tick(t, q) + Advance(NextLevel(last, t, q), Tick(t, q));
            && Tick(t, q) < next
            && next == if NextLevel(last, t, q) == 4 then JumpEnd(last)
                       else Tick(NextLevel(last, t, q), NextIndex(last, t, q))
  {
    ScanStepTick(last, t, q);
    ScanAdvances(last, t, q);
    if NextLevel(last, t, q) == 4 { AdvancePastThree(Tick(t, q)); }
  }

  lemma CountersKept(last: nat, t: nat, q: nat, i: nat, steps: nat, before: seq<nat>, after: seq<nat>)
    requires ScanCounters(last, t, q, i, steps, before) && NextLevel(last, t, q) <= 3 && |after| == LEVELS
    requires forall L :: 0 <= L < LEVELS ==>
               after[L] == before[L] + if L == t || (L > t && Aligned(L, last + i) && last + i > 0) then 1 else 0
    ensures var t', q' := NextLevel(last, t, q), NextIndex(last, t, q);
            Tick(t', q') >= last && ScanCounters(last, t', q', Tick(t', q') - last, steps + 1, after)
  {
    ScanAdvances(last, t, q);
    StepCounters(last, t, q);
    StepCount(last, t, q);
  }

  /** The position within a level, as a number of steps since the scan began. */
  lemma StepCount(last: nat, t: nat, q: nat)
    requires ScanPoint(last, t, q)
    ensures 256 * t + (q - Reach(t, last)) + 1 <=
              256 * NextLevel(last, t, q) + (NextIndex(last, t, q) - Reach(NextLevel(last, t, q), last))
  {
    if NextLevel(last, t, q) == t + 1 {
      ReachUp(t, last);
    }
  }

  lemma ReachUp(t: nat, last: nat)
    ensures Reach(t + 1, last) <= PhaseIndex(t + 1, last)
  {
  }

  ghost predicate ValidPlace(p: Place)
  {
    p.InSlot? && p.level < LEVELS && p.index < SLOTS
  }

  /** The place is a slot whose next visit after `last` comes before `bound`. */
  ghost predicate Before(p: Place, last: nat, bound: nat)
  {
    p.InSlot? && VisitTick(p.level, p.index, last) < bound
  }

  /** A scan from `last` triggers the slot directly when it comes to it. */
  ghost predicate Direct(p: Place, last: nat)
  {
    p.InSlot? && Tick(p.level, PhaseIndex(p.level, last)) <= VisitTick(p.level, p.index, last)
  }

  /** A step visits a place not visited before exactly when it looks at its slot, and triggers
      it directly exactly when the slot is on the level being scanned. */
  lemma PlaceStep(p: Place, last: nat, dest: nat, t: nat, q: nat)
    requires ScanPoint(last, t, q) && t <= 3 && ValidPlace(p)
    requires Tick(t, q) < dest <= ScanLimit(last)
    ensures var pos := Tick(t, q);
            var bound := Min(pos + Advance(NextLevel(last, t, q), pos), dest);
            var looked := Looked(p.level, p.index, t, pos);
            && (Before(p, last, bound) <==> Before(p, last, pos) || looked)
            && (looked ==> !Before(p, last, pos) && (Direct(p, last) <==> p.level == t))
  {
    BoundStep(last, dest, t, q, p.level, p.index);
    LookedIsVisit(last, t, q, p.level, p.index);
    if Looked(p.level, p.index, t, Tick(t, q)) { DirectIsLevel(last, t, q, p.level); }
  }

  /** A scan from `last` to `dest` comes to the slot and triggers it directly. */
  ghost predicate ScanRuns(p: Place, last: nat, dest: int)
  {
    last < dest && Before(p, last, Min(dest, ScanLimit(last))) && Direct(p, last)
  }

  /** The slot that `dur` remaining ticks select for a wheel standing at `last`: on the level of the
      highest non-zero byte, as many slots ahead as that byte says. */
  ghost predicate Selected(p: Place, last: nat, dur: nat)
  {
    && p.InSlot? && p.level < LEVELS && dur < Tick(p.level + 1, 1)
    && (p.level > 0 ==> Tick(p.level, 1) <= dur)
    && p.index == (Byte(dur, p.level) + Byte(last, p.level)) % 256
  }

  lemma SelectedVisit(p: Place, last: nat, dur: nat, L: nat)
    requires Selected(p, last, dur) && dur < Tick(L + 1, 1) && (L > 0 ==> Tick(L, 1) <= dur)
    ensures p.level == L && VisitTick(L, p.index, last) == Tick(L, Down(L, last) + Down(L, dur))
  {
    LevelUnique(dur, p.level, L);
    PlacedVisit(last, dur, L);
  }

  lemma LateAhead(last: nat)
    ensures last < LateTick(last)
  {
    LateSlot(last);
    TickZero(4);
  }

  /** A timer for `LateTick` waits in a slot visited at the limit. */
  lemma LatePlace(p: Place, last: nat)
    requires last <= LateTick(last) && Selected(p, last, LateTick(last) - last)
    ensures VisitTick(p.level, p.index, last) == ScanLimit(last)
  {
    LateSlot(last);
    SelectedVisit(p, last, LateTick(last) - last, 4);
  }

  /** The scan triggers directly the slot of a timer 255 ticks after `DirectFrom`. */
  lemma EarlyRuns(p: Place, last: nat, dest: nat)
    requires last <= DirectFrom(last) < dest && Selected(p, last, DirectFrom(last) + 255 - last)
    ensures ScanRuns(p, last, dest)
  {
    EarlySlot(last);
    EarlyInRange(last);
    SelectedVisit(p, last, DirectFrom(last) + 255 - last, 1);
  }

  /** The marks of a scan from tick 0. */
  lemma FromZero()
    ensures LateTick(0) == ScanLimit(0) == 0x2_0000_0000
    ensures JumpEnd(0) > 0x2_0000_0001
  {
    ReachLeast(3, 0, 1);
    TickValues(0);
    TickValues(2);
    TickValues(256);
    TickZero(4);
    DownGreatest(4, 0, 1);
    LateSlot(0);
    AlignStep(3, 256);
    AdvancePastThree(Tick(3, 256));
  }

  /** From tick 0 a timer for tick 767 can only wait on level 1, in a slot that a scan beyond
      tick 512 triggers directly. */
  lemma EarlyPlace(p: Place)
    requires ValidPlace(p) && VisitTick(p.level, p.index, 0) <= 767
    requires p.level == 0 ==> VisitTick(p.level, p.index, 0) == 767
    ensures ScanRuns(p, 0, 513)
  {
    var L, s := p.level, Visit(p.level, p.index, 0);
    VisitUnique(L, p.index, 0, s);
    assert Reach(0, 0) == 0;
    if L >= 2 {
      TickLevel(2, L, s);
      TickValues(s);
    } else {
      TickValues(s);
      TickValues(1);
      assert PhaseIndex(1, 0) == 1;
      TickOrder(1, s, 1);
    }
  }

  lemma StepCounters(last: nat, t: nat, q: nat)
    requires ScanPoint(last, t, q) && t <= 3 && NextLevel(last, t, q) <= 3
    ensures var t', q' := NextLevel(last, t, q), NextIndex(last, t, q);
            forall L :: t' <= L ==>
              Seen(L, last, Tick(t', q')) == Seen(L, last, Tick(t, q)) +
                if L == t || (L > t && Aligned(L, Tick(t, q)) && Tick(t, q) > 0) then 1 else 0
  {
    var t', q' := NextLevel(last, t, q), NextIndex(last, t, q);
    forall L | t' <= L
      ensures Seen(L, last, Tick(t', q')) == Seen(L, last, Tick(t, q)) +
                if L == t || (L > t && Aligned(L, Tick(t, q)) && Tick(t, q) > 0) then 1 else 0
    {
      CounterStep(last, t, q, L);
    }
  }

  /** Nothing has been visited when a scan begins. */
  lemma NothingBefore(p: Place, last: nat)
    requires ValidPlace(p)
    ensures !Before(p, last, last)
  {
    var s := Visit(p.level, p.index, last);
    VisitUnique(p.level, p.index, last, s);
    ReachLeast(p.level, last, s);
  }

  lemma MulLe(a: int, b: int, p: int)
    requires a <= b && p > 0
    ensures a * p <= b * p
  {
  }

  lemma MulBelow(a: int, b: int, p: int)
    requires p > 0 && a * p < b * p + p
    ensures a <= b
  {
    if a > b { MulLe(b + 1, a, p); }
  }

  lemma QuotientIs(x: int, p: int, d: int)
    requires p > 0 && d * p <= x < d * p + p
    ensures x / p == d && (d >= 0 <==> x >= 0)
  {
    var e := x / p;
    assert e * p <= x < e * p + p;
    MulBelow(d, e, p);
    MulBelow(e, d, p);
    if d >= 0 { MulLe(0, d, p); } else { MulLe(d, -1, p); }
  }
}
