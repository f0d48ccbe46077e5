/** Strong and weak references to one shared object (libgo/common/util.h): two counters in a
    control block that outlives the object.  A step is one atomic operation on a counter, the run
    of the deleter, or the release of the control block. */
module RefCounting {
  import opened Basics

  type Id = nat

  /** Each set holds the pointers, or the calls of `WeakPtr::lock`, at one point. */
  datatype State = State(
    strong: int,               // reference_
    weak: int,                 // weak_
    owners: set<Id>,           // strong pointers
    observers: set<Id>,        // weak pointers
    calls: map<Id, Id>,        // calls in progress, with the weak pointer they are on
    loaded: map<Id, int>,      // the call has read this count
    grabbed: set<Id>,          // the call has raised the count, its result does not own yet
    doubled: set<Id>,          // its result owns, the first increment is still to be taken back
    phase: Phase,
    deletions: nat,            // runs of the deleter
    frees: nat)                // releases of the control block

  /** How far the last release of a strong reference has got. */
  datatype Phase =
    | Alive
    | Dying       // the strong count has reached zero, the deleter has not run
    | Deleted     // the deleter has run, the weak count has not been decremented
    | Gone

  datatype Action =
    | CopyStrong(from: Id, to: Id)
    | ReleaseStrong(a: Id)
    | RunDeleter
    | DropLastWeak
    | WeakFromStrong(from: Id, w: Id)
    | CopyWeak(from: Id, w: Id)
    | ReleaseWeak(w: Id)
    | LoadCount(c: Id, w: Id)
    | RaiseCount(c: Id, spurious: bool)
    | OwnResult(c: Id)
    | TakeBack(c: Id, result: Id)

  /** The object has just been made, with one strong pointer. */
  const INITIAL := State(1, 1, {0}, {}, map[], map[], {}, {}, Alive, 0, 0)

  /** No call is on the weak pointer. */
  predicate Resting(st: State, w: Id)
  {
    w in st.observers && forall c :: c in st.calls ==> st.calls[c] != w
  }

  predicate Enabled(st: State, a: Action)
  {
    match a
    case CopyStrong(from, to) => from in st.owners && to !in st.owners
    case ReleaseStrong(x) => x in st.owners
    case RunDeleter => st.phase.Dying?
    case DropLastWeak => st.phase.Deleted?
    case WeakFromStrong(from, w) => from in st.owners && w !in st.observers
    case CopyWeak(from, w) => from in st.observers && w !in st.observers
    case ReleaseWeak(w) => Resting(st, w)
    case LoadCount(c, w) => w in st.observers && c !in st.calls
    case RaiseCount(c, _) => c in st.loaded
    case OwnResult(c) => c in st.grabbed
    case TakeBack(c, result) => c in st.doubled && result !in st.owners
  }

  /** `--weak_`, freeing the control block at zero. */
  function DropWeak(st: State): State
  {
    if st.weak - 1 == 0 then st.(weak := st.weak - 1, frees := st.frees + 1) else st.(weak := st.weak - 1)
  }

  /** `--reference_`, starting the end of the object at zero. */
  function DropStrong(st: State): State
  {
    if st.strong - 1 == 0 then st.(strong := st.strong - 1, phase := Dying) else st.(strong := st.strong - 1)
  }

  function Apply(st: State, a: Action): State
    requires Enabled(st, a)
  {
    match a
    case CopyStrong(from, to) => st.(strong := st.strong + 1, owners := st.owners + {to})
    case ReleaseStrong(x) => DropStrong(st.(owners := st.owners - {x}))
    case RunDeleter => st.(phase := Deleted, deletions := st.deletions + 1)
    case DropLastWeak => DropWeak(st.(phase := Gone))
    case WeakFromStrong(from, w) => st.(weak := st.weak + 1, observers := st.observers + {w})
    case CopyWeak(from, w) => st.(weak := st.weak + 1, observers := st.observers + {w})
    case ReleaseWeak(w) => DropWeak(st.(observers := st.observers - {w}))
    case LoadCount(c, w) => st.(calls := st.calls[c := w], loaded := st.loaded[c := st.strong])
    case RaiseCount(c, spurious) =>
      if st.loaded[c] == 0 then st.(calls := st.calls - {c}, loaded := st.loaded - {c})
      else if spurious || st.strong != st.loaded[c] then st.(loaded := st.loaded[c := st.strong])
      else st.(strong := st.strong + 1, loaded := st.loaded - {c}, grabbed := st.grabbed + {c})
    case OwnResult(c) => st.(strong := st.strong + 1, grabbed := st.grabbed - {c}, doubled := st.doubled + {c})
    case TakeBack(c, result) =>
      DropStrong(st.(calls := st.calls - {c}, doubled := st.doubled - {c}, owners := st.owners + {result}))
  }

  predicate IsRun(st: State, run: seq<Action>)
    decreases |run|
  {
    run == [] || (Enabled(st, run[0]) && IsRun(Apply(st, run[0]), run[1..]))
  }

  function After(st: State, run: seq<Action>): State
    requires IsRun(st, run)
    decreases |run|
  {
    if run == [] then st else After(Apply(st, run[0]), run[1..])
  }

  // ---------------------------------------------------------------- the invariant

  /** The strong count is the number of references that keep the object alive. */
  ghost predicate StrongCounted(st: State)
  {
    && st.strong == |st.owners| + |st.grabbed| + 2 * |st.doubled|
    && (st.strong > 0 <==> st.phase.Alive?)
  }

  /** The weak count is the number of weak pointers, and one for the object until it is gone. */
  ghost predicate WeakCounted(st: State)
  {
    st.weak == |st.observers| + if st.phase.Gone? then 0 else 1
  }

  /** A call is at one point, on a weak pointer that is not released meanwhile; several may be on
      the same one. */
  ghost predicate Locking(st: State)
  {
    && (forall c :: c in st.calls ==> st.calls[c] in st.observers)
    && (forall c :: c in st.loaded ==> c in st.calls && c !in st.grabbed && c !in st.doubled && st.loaded[c] >= 0)
    && (forall c :: c in st.grabbed ==> c in st.calls && c !in st.doubled)
    && (forall c :: c in st.doubled ==> c in st.calls)
  }

  /** The deleter runs once, at its time; the control block is freed once, when nothing refers to it. */
  ghost predicate EndedOnce(st: State)
  {
    && st.deletions == (if st.phase.Alive? || st.phase.Dying? then 0 else 1)
    && st.frees == (if st.weak == 0 then 1 else 0)
  }

  ghost predicate Inv(st: State)
  {
    StrongCounted(st) && WeakCounted(st) && Locking(st) && EndedOnce(st)
  }

  predicate OfOwners(a: Action)
  {
    a.CopyStrong? || a.ReleaseStrong? || a.RunDeleter? || a.DropLastWeak?
  }

  predicate OfObservers(a: Action)
  {
    a.WeakFromStrong? || a.CopyWeak? || a.ReleaseWeak?
  }

  lemma OwnersStrong(st: State, a: Action)
    requires StrongCounted(st) && Enabled(st, a) && OfOwners(a)
    ensures StrongCounted(Apply(st, a))
  {
    match a
    case CopyStrong(from, to) => SetWithout(st.owners, from);
    case ReleaseStrong(x) => SetWithout(st.owners, x);
    case _ =>
  }

  lemma LockStrong(st: State, a: Action)
    requires StrongCounted(st) && Locking(st) && Enabled(st, a) && !OfOwners(a) && !OfObservers(a)
    ensures StrongCounted(Apply(st, a))
  {
    match a
    case OwnResult(c) => SetWithout(st.grabbed, c);
    case TakeBack(c, result) => SetWithout(st.doubled, c);
    case _ =>
  }

  lemma StepStrong(st: State, a: Action)
    requires StrongCounted(st) && Locking(st) && Enabled(st, a)
    ensures StrongCounted(Apply(st, a))
  {
    if OfOwners(a) { OwnersStrong(st, a); } else if !OfObservers(a) { LockStrong(st, a); }
  }

  ghost predicate Ending(st: State)
  {
    WeakCounted(st) && EndedOnce(st)
  }

  lemma OwnersWeak(st: State, a: Action)
    requires StrongCounted(st) && Ending(st) && Enabled(st, a) && OfOwners(a)
    ensures Ending(Apply(st, a))
  {
    match a
    case ReleaseStrong(x) => SetWithout(st.owners, x);
    case _ =>
  }

  lemma ObserversWeak(st: State, a: Action)
    requires StrongCounted(st) && Ending(st) && Enabled(st, a) && OfObservers(a)
    ensures Ending(Apply(st, a))
  {
    match a
    case WeakFromStrong(from, w) => SetWithout(st.owners, from);
    case CopyWeak(from, w) => SetWithout(st.observers, from);
    case ReleaseWeak(w) => SetWithout(st.observers, w);
  }

  lemma LockWeak(st: State, a: Action)
    requires StrongCounted(st) && Ending(st) && Enabled(st, a) && !OfOwners(a) && !OfObservers(a)
    ensures Ending(Apply(st, a))
  {
    match a
    case TakeBack(c, result) => SetWithout(st.doubled, c);
    case _ =>
  }

  lemma StepWeak(st: State, a: Action)
    requires StrongCounted(st) && Ending(st) && Enabled(st, a)
    ensures Ending(Apply(st, a))
  {
    if OfOwners(a) { OwnersWeak(st, a); } else if OfObservers(a) { ObserversWeak(st, a); } else { LockWeak(st, a); }
  }

  lemma StepLocking(st: State, a: Action)
    requires Locking(st) && st.strong >= 0 && Enabled(st, a)
    ensures Locking(Apply(st, a))
  {
    match a
    case RaiseCount(c, _) =>
    case OwnResult(c) =>
    case TakeBack(c, _) =>
    case LoadCount(c, w) =>
    case _ =>
  }

  lemma {:induction false} RunKeeps(st: State, run: seq<Action>)
    requires Inv(st) && IsRun(st, run)
    ensures Inv(After(st, run))
    decreases |run|
  {
    if run != [] {
      StepStrong(st, run[0]);
      StepWeak(st, run[0]);
      StepLocking(st, run[0]);
      RunKeeps(Apply(st, run[0]), run[1..]);
    }
  }

  // ---------------------------------------------------------------- every run

  /** The deleter runs at most once and only when nothing owns the object; the control block is
      freed at most once, only after the deleter has run, and only when nothing refers to it. */
  lemma EndsOnceAndInOrder(run: seq<Action>)
    requires IsRun(INITIAL, run)
    ensures var st := After(INITIAL, run);
            && st.deletions <= 1 && st.frees <= 1
            && (st.deletions == 1 ==> st.strong == 0 && st.owners == {} && st.grabbed == {} && st.doubled == {})
            && (st.frees == 1 ==> st.deletions == 1 && st.phase.Gone? && st.observers == {} && st.calls == map[])
            && (st.strong == 0 && st.phase.Gone? && st.observers == {} ==> st.frees == 1)
  {
    RunKeeps(INITIAL, run);
    var st := After(INITIAL, run);
    if st.frees == 1 { forall c ensures c !in st.calls { } }
  }

  /** Whoever holds a strong pointer, or has locked a weak one, holds a live object; whoever holds a
      weak pointer, or is locking one, has a live control block. */
  lemma LockedObjectIsAlive(run: seq<Action>, x: Id)
    requires IsRun(INITIAL, run)
    ensures var st := After(INITIAL, run);
            && (x in st.owners || x in st.grabbed || x in st.doubled ==> st.phase.Alive? && st.deletions == 0)
            && (x in st.observers || x in st.calls ==> st.frees == 0)
  {
    RunKeeps(INITIAL, run);
    var st := After(INITIAL, run);
    if x in st.owners { SetWithout(st.owners, x); }
    if x in st.grabbed { SetWithout(st.grabbed, x); }
    if x in st.doubled { SetWithout(st.doubled, x); }
    if x in st.observers { SetWithout(st.observers, x); }
    if x in st.calls { SetWithout(st.observers, st.calls[x]); }
  }

  /** Once the strong count is zero it stays zero, whatever weak pointers are locked. */
  lemma {:induction false} ZeroForEver(st: State, run: seq<Action>)
    requires Inv(st) && st.strong == 0 && IsRun(st, run)
    ensures After(st, run).strong == 0
    decreases |run|
  {
    if run != [] {
      ZeroStays(st, run[0]);
      StepStrong(st, run[0]);
      StepWeak(st, run[0]);
      StepLocking(st, run[0]);
      ZeroForEver(Apply(st, run[0]), run[1..]);
    }
  }

  lemma ZeroStays(st: State, a: Action)
    requires Inv(st) && st.strong == 0 && Enabled(st, a)
    ensures Apply(st, a).strong == 0
  {
    match a
    case CopyStrong(from, to) => SetWithout(st.owners, from);
    case ReleaseStrong(x) => SetWithout(st.owners, x);
    case OwnResult(c) => SetWithout(st.grabbed, c);
    case TakeBack(c, result) => SetWithout(st.doubled, c);
    case _ =>
  }

  /** Taking back the first increment of a lock is never the last release. */
  lemma LockNeverDeletes(run: seq<Action>, c: Id, result: Id)
    requires IsRun(INITIAL, run) && Enabled(After(INITIAL, run), TakeBack(c, result))
    ensures var st' := Apply(After(INITIAL, run), TakeBack(c, result));
            st'.phase.Alive? && st'.strong > 0 && result in st'.owners
  {
    RunKeeps(INITIAL, run);
    SetWithout(After(INITIAL, run).doubled, c);
  }
}
