/** The lock-free ring queue (libgo/common/lock_free_ring_queue.h) with one producer and one
    consumer, at the level of its atomic operations.  A compare-and-exchange that fails, for a
    reason or for none, stores the value it found in its expected argument, as the source's does. */
module LockFreeRing {
  import opened Remainders
  import opened RingBuffers

  type Value = int

  /** Where the producer is in `Push`. */
  datatype ProducerPC =
    | NoPush
    | LoadWrite(x: Value)
    | LoadWritable(x: Value, w: nat)
    | ClaimWrite(x: Value, w: nat)
    | Construct(x: Value, w: nat)
    | LoadReadable(w: nat)
    | Publish(w: nat, seen: nat)

  /** Where the consumer is in `Pop`. */
  datatype ConsumerPC =
    | NoPop
    | LoadRead
    | CheckReadable(r: nat)
    | ClaimRead(r: nat)
    | Take(r: nat)
    | Free(r: nat, expected: nat, x: Value)

  /** The queue, its two users, and what has happened so far: the values whose slots have been
      claimed by pushes, how many of them have been published, how many slots have been claimed by
      pops, and the values pops have returned. */
  datatype State = State(
    n: nat, buffer: seq<Cell<Value>>, write: nat, writable: nat, read: nat, readable: nat,
    p: ProducerPC, c: ConsumerPC,
    pushed: seq<Value>, published: nat, claimed: nat, popped: seq<Value>)

  datatype Action =
    | StartPush(x: Value)
    | StartPop
    | Producer(spurious: bool)
    | Consumer(spurious: bool)

  /** A queue for `capacity` elements, with one slot more. */
  function Init(capacity: nat): State
  {
    State(capacity + 1, seq(capacity + 1, _ => Raw), 0, capacity, 0, 0, NoPush, NoPop, [], 0, 0, [])
  }

  /** The next write is inside the buffer, to raw memory, and the next take is of an element. */
  predicate Sound(st: State)
  {
    && st.n > 0 && |st.buffer| == st.n
    && (st.p.Construct? ==> st.p.w < st.n && st.buffer[st.p.w].Raw?)
    && (st.c.Take? ==> st.c.r < st.n && st.buffer[st.c.r].Built?)
  }

  predicate Enabled(st: State, a: Action)
  {
    Sound(st) &&
    match a
    case StartPush(_) => st.p.NoPush?
    case StartPop => st.c.NoPop?
    case Producer(spurious) => !st.p.NoPush? && (spurious ==> st.p.ClaimWrite? || st.p.Publish?)
    case Consumer(spurious) => !st.c.NoPop? && (spurious ==> st.c.ClaimRead? || st.c.Free?)
  }

  function ProducerNext(st: State, spurious: bool): State
    requires Sound(st)
  {
    match st.p
    case NoPush => st
    case LoadWrite(x) => st.(p := LoadWritable(x, st.write))
    case LoadWritable(x, w) => if w == st.writable then st.(p := NoPush) else st.(p := ClaimWrite(x, w))
    case ClaimWrite(x, w) =>
      if spurious || st.write != w then st.(p := LoadWrite(x))
      else st.(write := Rem(w + 1, st.n), pushed := st.pushed + [x], p := Construct(x, w))
    case Construct(x, w) => st.(buffer := st.buffer[w := Built(x)], p := LoadReadable(w))
    case LoadReadable(w) => st.(p := Publish(w, st.readable))
    case Publish(w, seen) =>
      if spurious || st.readable != w then st.(p := LoadReadable(st.readable))
      else st.(readable := Rem(seen + 1, st.n), published := st.published + 1, p := NoPush)
  }

  function ConsumerNext(st: State, spurious: bool): State
    requires Sound(st)
  {
    match st.c
    case NoPop => st
    case LoadRead => st.(c := CheckReadable(st.read))
    case CheckReadable(r) => if r == st.readable then st.(c := NoPop) else st.(c := ClaimRead(r))
    case ClaimRead(r) =>
      if spurious || st.read != r then st.(c := LoadRead)
      else st.(read := Rem(r + 1, st.n), claimed := st.claimed + 1, c := Take(r))
    case Take(r) => st.(buffer := st.buffer[r := Raw], c := Free(r, Rem(r + st.n - 1, st.n), st.buffer[r].value))
    case Free(r, expected, x) =>
      if spurious || st.writable != expected then st.(c := Free(r, st.writable, x))
      else st.(writable := r, popped := st.popped + [x], c := NoPop)
  }

  // ---------------------------------------------------------------- the invariant

  /** The first value still in its slot. */
  function Low(st: State): nat
  {
    if st.c.Take? then |st.popped| else st.claimed
  }

  /** The values before this one have been written. */
  function High(st: State): nat
  {
    if st.p.LoadReadable? || st.p.Publish? then st.published + 1 else st.published
  }

  ghost predicate Cursors(st: State)
  {
    && st.n > 0 && |st.buffer| == st.n
    && |st.popped| <= st.claimed <= st.published <= |st.pushed| <= |st.popped| + st.n - 1
    && st.write == Rem(|st.pushed|, st.n) && st.readable == Rem(st.published, st.n)
    && st.read == Rem(st.claimed, st.n) && st.writable == Rem(|st.popped| + st.n - 1, st.n)
  }

  ghost predicate ProducerOk(st: State)
    requires st.n > 0
  {
    match st.p
    case NoPush => st.published == |st.pushed|
    case LoadWrite(_) => st.published == |st.pushed|
    case LoadWritable(_, w) => st.published == |st.pushed| && w == st.write
    case ClaimWrite(_, w) => st.published == |st.pushed| < |st.popped| + st.n - 1 && w == st.write
    case Construct(x, w) =>
      |st.pushed| == st.published + 1 && w == Rem(st.published, st.n) && x == st.pushed[st.published]
    case LoadReadable(w) => |st.pushed| == st.published + 1 && w == Rem(st.published, st.n)
    case Publish(w, seen) => |st.pushed| == st.published + 1 && w == Rem(st.published, st.n) && seen == w
  }

  ghost predicate ConsumerOk(st: State)
    requires st.n > 0
  {
    match st.c
    case NoPop => st.claimed == |st.popped|
    case LoadRead => st.claimed == |st.popped|
    case CheckReadable(r) => st.claimed == |st.popped| && r == st.read
    case ClaimRead(r) => st.claimed == |st.popped| < st.published && r == st.read
    case Take(r) => st.claimed == |st.popped| + 1 && r == Rem(|st.popped|, st.n)
    case Free(r, expected, x) =>
      && st.claimed == |st.popped| + 1 && r == Rem(|st.popped|, st.n)
      && expected == st.writable && |st.popped| < |st.pushed| && x == st.pushed[|st.popped|]
  }

  /** The slots of these values hold them. */
  ghost predicate Filled(buffer: seq<Cell<Value>>, pushed: seq<Value>, low: nat, high: nat)
    requires |buffer| > 0 && high <= |pushed|
    decreases high
  {
    high <= low ||
    (buffer[Rem(high - 1, |buffer|)] == Built(pushed[high - 1]) && Filled(buffer, pushed, low, high - 1))
  }

  /** These slots hold nothing. */
  ghost predicate Vacant(buffer: seq<Cell<Value>>, low: nat, high: nat)
    requires |buffer| > 0
    decreases high
  {
    high <= low || (buffer[Rem(high - 1, |buffer|)] == Raw && Vacant(buffer, low, high - 1))
  }

  lemma {:induction false} FilledGrow(buffer: seq<Cell<Value>>, pushed: seq<Value>, low: nat, high: nat, x: Value)
    requires |buffer| > 0 && high <= |pushed| && Filled(buffer, pushed, low, high)
    ensures Filled(buffer, pushed + [x], low, high)
    decreases high
  {
    if high > low { FilledGrow(buffer, pushed, low, high - 1, x); }
  }

  lemma {:induction false} FilledFirst(buffer: seq<Cell<Value>>, pushed: seq<Value>, low: nat, high: nat)
    requires |buffer| > 0 && low < high <= |pushed| && Filled(buffer, pushed, low, high)
    ensures buffer[Rem(low, |buffer|)] == Built(pushed[low]) && Filled(buffer, pushed, low + 1, high)
    decreases high
  {
    if low < high - 1 { FilledFirst(buffer, pushed, low, high - 1); }
  }

  lemma {:induction false} VacantFirst(buffer: seq<Cell<Value>>, low: nat, high: nat)
    requires |buffer| > 0 && low < high && Vacant(buffer, low, high)
    ensures buffer[Rem(low, |buffer|)] == Raw && Vacant(buffer, low + 1, high)
    decreases high
  {
    if low < high - 1 { VacantFirst(buffer, low, high - 1); }
  }

  lemma {:induction false} FilledElsewhere(buffer: seq<Cell<Value>>, pushed: seq<Value>, low: nat, high: nat, k: nat,
                                           cell: Cell<Value>)
    requires |buffer| > 0 && high <= |pushed| && Filled(buffer, pushed, low, high)
    requires (k < low && high <= k + |buffer|) || high <= k < low + |buffer|
    ensures Filled(buffer[Rem(k, |buffer|) := cell], pushed, low, high)
    decreases high
  {
    if high > low {
      FilledElsewhere(buffer, pushed, low, high - 1, k, cell);
      if k < low { RemDiffer(k, high - 1, |buffer|); } else { RemDiffer(high - 1, k, |buffer|); }
    }
  }

  lemma {:induction false} VacantElsewhere(buffer: seq<Cell<Value>>, low: nat, high: nat, k: nat, cell: Cell<Value>)
    requires |buffer| > 0 && Vacant(buffer, low, high) && k < low && high <= k + |buffer|
    ensures Vacant(buffer[Rem(k, |buffer|) := cell], low, high)
    decreases high
  {
    if high > low {
      VacantElsewhere(buffer, low, high - 1, k, cell);
      RemDiffer(k, high - 1, |buffer|);
    }
  }

  /** A slot holds the value that belongs there from the write to the take, and nothing outside. */
  ghost predicate Slots(buffer: seq<Cell<Value>>, pushed: seq<Value>, low: nat, high: nat)
  {
    && |buffer| > 0 && low <= high <= |pushed| && high <= low + |buffer|
    && Filled(buffer, pushed, low, high) && Vacant(buffer, high, low + |buffer|)
  }

  /** The slot of the next value is raw; writing to it disturbs no other. */
  lemma SlotsWrite(buffer: seq<Cell<Value>>, pushed: seq<Value>, low: nat, high: nat)
    requires Slots(buffer, pushed, low, high) && high < |pushed| && high < low + |buffer|
    ensures buffer[Rem(high, |buffer|)] == Raw
    ensures Slots(buffer[Rem(high, |buffer|) := Built(pushed[high])], pushed, low, high + 1)
  {
    VacantFirst(buffer, high, low + |buffer|);
    FilledElsewhere(buffer, pushed, low, high, high, Built(pushed[high]));
    VacantElsewhere(buffer, high + 1, low + |buffer|, high, Built(pushed[high]));
  }

  /** The slot of the first value holds it; clearing it disturbs no other. */
  lemma SlotsTake(buffer: seq<Cell<Value>>, pushed: seq<Value>, low: nat, high: nat)
    requires Slots(buffer, pushed, low, high) && low < high
    ensures buffer[Rem(low, |buffer|)] == Built(pushed[low])
    ensures Slots(buffer[Rem(low, |buffer|) := Raw], pushed, low + 1, high)
  {
    FilledFirst(buffer, pushed, low, high);
    FilledElsewhere(buffer, pushed, low + 1, high, low, Raw);
    VacantElsewhere(buffer, high, low + |buffer|, low, Raw);
    RemShift(low, |buffer|);
  }

  ghost predicate Inv(st: State)
  {
    && Cursors(st) && ProducerOk(st) && ConsumerOk(st)
    && Slots(st.buffer, st.pushed, Low(st), High(st))
    && st.popped <= st.pushed
  }

  lemma InvSound(st: State)
    requires Inv(st)
    ensures Sound(st)
    ensures st.c.Take? ==> |st.popped| < |st.pushed| && st.buffer[st.c.r] == Built(st.pushed[|st.popped|])
  {
    if st.p.Construct? { SlotsWrite(st.buffer, st.pushed, Low(st), st.published); }
    if st.c.Take? { SlotsTake(st.buffer, st.pushed, |st.popped|, High(st)); }
  }

  /** A push claims, writes to and publishes the slot of its own value. */
  lemma ClaimWriteCursors(st: State)
    requires Cursors(st) && Sound(st) && st.p.ClaimWrite? && ProducerOk(st)
    ensures Cursors(ProducerNext(st, false)) && ProducerOk(ProducerNext(st, false))
  {
    RemNext(|st.pushed|, st.n);
  }

  lemma ClaimWriteConsumer(st: State)
    requires Cursors(st) && Sound(st) && st.p.ClaimWrite? && st.write == st.p.w
    requires ConsumerOk(st) && st.popped <= st.pushed
    ensures ConsumerOk(ProducerNext(st, false)) && ProducerNext(st, false).popped <= ProducerNext(st, false).pushed
  {
  }

  lemma ClaimWriteKeeps(st: State)
    requires Inv(st) && Sound(st) && st.p.ClaimWrite?
    ensures Inv(ProducerNext(st, false))
  {
    ClaimWriteCursors(st);
    ClaimWriteConsumer(st);
    FilledGrow(st.buffer, st.pushed, Low(st), High(st), st.p.x);
  }

  lemma RemNext(k: nat, n: nat)
    requires n > 0
    ensures Rem(k + 1, n) == Rem(Rem(k, n) + 1, n)
  {
    RemAdd(1, k, n);
  }

  lemma ConstructKeeps(st: State)
    requires Inv(st) && Sound(st) && st.p.Construct?
    ensures Inv(ProducerNext(st, false))
  {
    SlotsWrite(st.buffer, st.pushed, Low(st), st.published);
  }

  lemma PublishKeeps(st: State)
    requires Inv(st) && Sound(st) && st.p.Publish?
    ensures Inv(ProducerNext(st, false))
  {
    RemNext(st.published, st.n);
  }

  /** A push is refused exactly when the queue holds as many values as it was made for. */
  lemma RefusesPushWhenFull(st: State)
    requires Inv(st) && Sound(st) && st.p.LoadWritable?
    ensures ProducerNext(st, false).p.NoPush? <==> |st.pushed| - |st.popped| == st.n - 1
  {
    if |st.pushed| < |st.popped| + st.n - 1 { RemDiffer(|st.pushed|, |st.popped| + st.n - 1, st.n); }
  }

  lemma ProducerLoads(st: State)
    requires Inv(st) && Sound(st) && (st.p.LoadWrite? || st.p.LoadReadable?)
    ensures Inv(ProducerNext(st, false))
  {
  }

  lemma PushDecides(st: State)
    requires Inv(st) && Sound(st) && st.p.LoadWritable?
    ensures Inv(ProducerNext(st, false))
  {
    RefusesPushWhenFull(st);
  }

  lemma ProducerRetries(st: State)
    requires Inv(st) && Sound(st) && (st.p.ClaimWrite? || st.p.Publish?)
    ensures Inv(ProducerNext(st, true))
  {
  }

  lemma ProducerKeeps(st: State, spurious: bool)
    requires Inv(st) && Enabled(st, Producer(spurious))
    ensures Inv(ProducerNext(st, spurious))
  {
    if spurious {
      ProducerRetries(st);
    } else {
      match st.p
      case LoadWritable(x, w) => PushDecides(st);
      case ClaimWrite(x, w) => ClaimWriteKeeps(st);
      case Construct(x, w) => ConstructKeeps(st);
      case Publish(w, seen) => PublishKeeps(st);
      case LoadWrite(x) => ProducerLoads(st);
      case LoadReadable(w) => ProducerLoads(st);
    }
  }

  /** A pop is refused exactly when nothing is published that has not been popped. */
  lemma RefusesPopWhenEmpty(st: State)
    requires Inv(st) && Sound(st) && st.c.CheckReadable?
    ensures ConsumerNext(st, false).c.NoPop? <==> st.published == |st.popped|
  {
    if st.claimed < st.published { RemDiffer(st.claimed, st.published, st.n); }
  }

  lemma ClaimReadKeeps(st: State)
    requires Inv(st) && Sound(st) && st.c.ClaimRead?
    ensures Inv(ConsumerNext(st, false))
  {
    RemNext(st.claimed, st.n);
  }

  lemma TakeKeeps(st: State)
    requires Inv(st) && Sound(st) && st.c.Take?
    ensures Inv(ConsumerNext(st, false))
  {
    SlotsTake(st.buffer, st.pushed, |st.popped|, High(st));
    FreeExpects(st);
  }

  lemma FreeExpects(st: State)
    requires Cursors(st)
    ensures Rem(Rem(|st.popped|, st.n) + st.n - 1, st.n) == st.writable
  {
    RemAdd(st.n - 1, |st.popped|, st.n);
  }

  lemma FreeKeeps(st: State)
    requires Inv(st) && Sound(st) && st.c.Free?
    ensures Inv(ConsumerNext(st, false))
  {
    RemShift(|st.popped|, st.n);
  }

  lemma PopBegins(st: State)
    requires Inv(st) && Sound(st) && st.c.LoadRead?
    ensures Inv(ConsumerNext(st, false))
  {
  }

  lemma PopDecides(st: State)
    requires Inv(st) && Sound(st) && st.c.CheckReadable?
    ensures Inv(ConsumerNext(st, false))
  {
    RefusesPopWhenEmpty(st);
  }

  lemma ConsumerRetries(st: State)
    requires Inv(st) && Sound(st) && (st.c.ClaimRead? || st.c.Free?)
    ensures Inv(ConsumerNext(st, true))
  {
  }

  lemma ConsumerKeeps(st: State, spurious: bool)
    requires Inv(st) && Enabled(st, Consumer(spurious))
    ensures Inv(ConsumerNext(st, spurious))
  {
    if spurious {
      ConsumerRetries(st);
    } else {
      match st.c
      case ClaimRead(r) => ClaimReadKeeps(st);
      case Take(r) => TakeKeeps(st);
      case Free(r, expected, x) => FreeKeeps(st);
      case LoadRead => PopBegins(st);
      case CheckReadable(r) => PopDecides(st);
    }
  }

  // ---------------------------------------------------------------- every run

  function Apply(st: State, a: Action): State
    requires Enabled(st, a)
  {
    match a
    case StartPush(x) => st.(p := LoadWrite(x))
    case StartPop => st.(c := LoadRead)
    case Producer(spurious) => ProducerNext(st, spurious)
    case Consumer(spurious) => ConsumerNext(st, spurious)
  }

  lemma SizeStays(st: State, a: Action)
    requires Enabled(st, a)
    ensures Apply(st, a).n == st.n
  {
  }

  lemma StartKeeps(st: State, x: Value)
    requires Inv(st)
    ensures st.p.NoPush? ==> Inv(st.(p := LoadWrite(x)))
    ensures st.c.NoPop? ==> Inv(st.(c := LoadRead))
  {
  }

  lemma StepKeeps(st: State, a: Action)
    requires Inv(st) && Enabled(st, a)
    ensures Inv(Apply(st, a)) && Apply(st, a).n == st.n
  {
    SizeStays(st, a);
    match a
    case StartPush(x) => StartKeeps(st, x);
    case StartPop => StartKeeps(st, 0);
    case Producer(spurious) => ProducerKeeps(st, spurious);
    case Consumer(spurious) => ConsumerKeeps(st, spurious);
  }

  predicate IsRun(st: State, run: seq<Action>)
    decreases |run|
  {
    run == [] || (Enabled(st, run[0]) && IsRun(Apply(st, run[0]), run[1..]))
  }

  function After(st: State, run: seq<Action>): State
    requires IsRun(st, run)
    decreases |run|
  {
    if run == [] then st else After(Apply(st, run[0]), run[1..])
  }

  lemma {:induction false} VacantAll(buffer: seq<Cell<Value>>, high: nat)
    requires |buffer| > 0 && (forall i :: 0 <= i < |buffer| ==> buffer[i] == Raw)
    ensures Vacant(buffer, 0, high)
    decreases high
  {
    if high > 0 { VacantAll(buffer, high - 1); }
  }

  lemma InitOk(capacity: nat)
    ensures Inv(Init(capacity))
  {
    VacantAll(Init(capacity).buffer, capacity + 1);
  }

  lemma {:induction false} RunKeeps(st: State, run: seq<Action>)
    requires Inv(st) && IsRun(st, run)
    ensures Inv(After(st, run)) && After(st, run).n == st.n
    decreases |run|
  {
    if run != [] {
      StepKeeps(st, run[0]);
      RunKeeps(Apply(st, run[0]), run[1..]);
    }
  }

  lemma {:induction false} FilledAt(buffer: seq<Cell<Value>>, pushed: seq<Value>, low: nat, high: nat, i: nat)
    requires |buffer| > 0 && high <= |pushed| && Filled(buffer, pushed, low, high) && low <= i < high
    ensures buffer[Rem(i, |buffer|)] == Built(pushed[i])
    decreases high
  {
    if i < high - 1 { FilledAt(buffer, pushed, low, high - 1, i); }
  }

  /** In every run the values popped are the values pushed, in order and without a gap; at most
      `capacity` values are in the queue; and what is published and not claimed is in its slot. */
  lemma FirstInFirstOut(capacity: nat, run: seq<Action>, i: nat)
    requires IsRun(Init(capacity), run)
    ensures var st := After(Init(capacity), run);
            && st.popped <= st.pushed && |st.popped| <= st.published <= |st.pushed|
            && |st.pushed| - |st.popped| <= capacity
            && |st.buffer| == capacity + 1
            && (st.claimed <= i < st.published ==> st.buffer[Rem(i, capacity + 1)] == Built(st.pushed[i]))
  {
    InitOk(capacity);
    RunKeeps(Init(capacity), run);
    var st := After(Init(capacity), run);
    if st.claimed <= i < st.published { FilledAt(st.buffer, st.pushed, Low(st), High(st), i); }
  }

  /** In every run a push constructs into raw memory and a pop takes the value of its own turn. */
  lemma NeverReadEarlyNorOverwritten(capacity: nat, run: seq<Action>)
    requires IsRun(Init(capacity), run)
    ensures var st := After(Init(capacity), run);
            && Sound(st)
            && (st.c.Take? ==> |st.popped| < |st.pushed| && st.buffer[st.c.r] == Built(st.pushed[|st.popped|]))
  {
    InitOk(capacity);
    RunKeeps(Init(capacity), run);
    InvSound(After(Init(capacity), run));
  }

  /** In every run a push is refused exactly when the queue holds `capacity` values, and a pop
      exactly when none is published. */
  lemma RefusedOnlyAtTheLimits(capacity: nat, run: seq<Action>)
    requires IsRun(Init(capacity), run)
    ensures var st := After(Init(capacity), run);
            && Sound(st)
            && (st.p.LoadWritable? ==> (ProducerNext(st, false).p.NoPush? <==> |st.pushed| - |st.popped| == capacity))
            && (st.c.CheckReadable? ==> (ConsumerNext(st, false).c.NoPop? <==> st.published == |st.popped|))
  {
    InitOk(capacity);
    RunKeeps(Init(capacity), run);
    var st := After(Init(capacity), run);
    InvSound(st);
    if st.p.LoadWritable? { RefusesPushWhenFull(st); }
    if st.c.CheckReadable? { RefusesPopWhenEmpty(st); }
  }
}
