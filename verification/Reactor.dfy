/** Poll-interest bookkeeping of one file descriptor (libgo/netio/unix/reactor_element.cpp) and
    what it asks of epoll (libgo/netio/unix/epoll_reactor.cpp). */
module Reactors {
  import opened Basics

  /** One bit of an event word. */
  datatype Flag = PollIn | PollOut | PollErr | PollHup | PollNval | Other(bit: nat)

  /** An event word, by its bits. */
  type Events = set<Flag>

  const POLLIN: Events := {PollIn}
  const POLLOUT: Events := {PollOut}
  const POLLERR: Events := {PollErr}
  const ERRORS: Events := {PollErr, PollHup, PollNval}

  /** A suspended coroutine and the place of the result it waits for. */
  datatype Entry = Entry(suspend: nat, cell: nat, idx: nat)

  datatype ListName = In | Out | InAndOut | Err

  datatype CtlOp = CtlAdd | CtlMod | CtlDel

  /** The events an entry in a list waits for. */
  function Interest(l: ListName): Events
  {
    match l
    case In => POLLIN
    case Out => POLLOUT
    case InAndOut => POLLIN + POLLOUT
    case Err => POLLERR
  }

  function SelectList(pollEvent: Events): ListName
  {
    if PollIn in pollEvent && PollOut in pollEvent then InAndOut
    else if PollIn in pollEvent then In
    else if PollOut in pollEvent then Out
    else Err
  }

  /** What `Add` registers for a request. */
  function Request(pollEvent: Events): Events
  {
    var add := pollEvent * (POLLIN + POLLOUT);
    if add == {} then add + POLLERR else add
  }

  /** It is the interest of the list the request goes to, no more and no less. */
  lemma RequestIsInterest(pollEvent: Events)
    ensures Request(pollEvent) == Interest(SelectList(pollEvent))
  {
    if PollIn in pollEvent { assert PollIn in pollEvent * (POLLIN + POLLOUT); }
    if PollOut in pollEvent { assert PollOut in pollEvent * (POLLIN + POLLOUT); }
  }

  /** The events of a report that concern a list. */
  function Concern(l: ListName): Events
  {
    match l
    case In => POLLIN + ERRORS
    case Out => POLLOUT + ERRORS
    case InAndOut => POLLIN + POLLOUT + ERRORS
    case Err => ERRORS
  }

  /** A report concerns a list exactly if an event it waits for, or an error, has occurred. */
  lemma ConcernIsInterestOrError(l: ListName, pollEvent: Events)
    ensures pollEvent * Concern(l) != {} <==> pollEvent * Interest(l) != {} || pollEvent * ERRORS != {}
  {
    assert Concern(l) == Interest(l) + ERRORS;
    assert pollEvent * Concern(l) == pollEvent * Interest(l) + pollEvent * ERRORS;
  }

  function Unexpired(s: seq<Entry>, expired: set<nat>): seq<Entry>
  {
    if s == [] then [] else (if s[0].suspend in expired then [] else [s[0]]) + Unexpired(s[1..], expired)
  }

  /** Taking back what was appended leaves the same entries, and the same list if the entry was
      not in it before. */
  lemma {:induction false} TakenBack(s: seq<Entry>, e: Entry)
    ensures multiset(RemoveFirst(s + [e], e)) == multiset(s) && |RemoveFirst(s + [e], e)| == |s|
    ensures e !in s ==> RemoveFirst(s + [e], e) == s
  {
    if s == [] {
    } else {
      assert s + [e] == [s[0]] + (s[1..] + [e]);
      assert s == [s[0]] + s[1..];
      if s[0] == e {
        assert (s + [e])[1..] == s[1..] + [e];
      } else {
        TakenBack(s[1..], e);
      }
    }
  }

  /** The descriptors registered with epoll. */
  class Epoll {
    var registered: map<int, Events>

    constructor ()
      ensures registered == map[]
    {
      registered := map[];
    }

    /** `epoll_ctl`.  Its manual: adding fails for a registered descriptor, modifying and deleting
        fail for any other; it may also fail for other reasons, changing nothing. */
    method Ctl(op: CtlOp, fd: int, events: Events, ok: bool) returns (res: bool)
      requires op.CtlAdd? <==> fd !in registered
      modifies this
      ensures res == ok
      ensures registered == if !ok then old(registered) else if op.CtlDel? then old(registered) - {fd}
                            else old(registered)[fd := events]
    {
      if ok {
        registered := if op.CtlDel? then registered - {fd} else registered[fd := events];
      }
      return ok;
    }

    method AddEvent(fd: int, addEvent: Events, promiseEvent: Events, ok: bool) returns (res: bool)
      requires (addEvent == promiseEvent) <==> fd !in registered
      modifies this
      ensures res == ok && registered == if ok then old(registered)[fd := promiseEvent] else old(registered)
    {
      res := Ctl(if addEvent == promiseEvent then CtlAdd else CtlMod, fd, promiseEvent, ok);
    }

    method DelEvent(fd: int, promiseEvent: Events, ok: bool) returns (res: bool)
      requires fd in registered
      modifies this
      ensures res == ok
      ensures registered == if !ok then old(registered) else if promiseEvent == {} then old(registered) - {fd}
                            else old(registered)[fd := promiseEvent]
    {
      res := Ctl(if promiseEvent == {} then CtlDel else CtlMod, fd, promiseEvent, ok);
    }
  }

  /** The registrations of all other descriptors are the same. */
  ghost predicate SameBeside(before: map<int, Events>, after: map<int, Events>, fd: int)
  {
    forall g :: g != fd ==> (g in before <==> g in after) && (g in before ==> before[g] == after[g])
  }

  /** in_, out_, inAndOut_ and err_ */
  datatype Lists = Lists(ins: seq<Entry>, outs: seq<Entry>, both: seq<Entry>, errs: seq<Entry>)

  function Get(ls: Lists, l: ListName): seq<Entry>
  {
    match l
    case In => ls.ins
    case Out => ls.outs
    case InAndOut => ls.both
    case Err => ls.errs
  }

  function Set(ls: Lists, l: ListName, s: seq<Entry>): Lists
  {
    match l
    case In => ls.(ins := s)
    case Out => ls.(outs := s)
    case InAndOut => ls.(both := s)
    case Err => ls.(errs := s)
  }

  /** What every queued entry waits for is registered. */
  ghost predicate Registered(event: Events, ls: Lists)
  {
    forall l: ListName :: Get(ls, l) != [] ==> Interest(l) <= event
  }

  /** The difference an addition makes is the whole registration only when there was none. */
  lemma WholeDifference(event: Events, interest: Events)
    requires interest != {}
    ensures (event + interest) - event == event + interest <==> event == {}
  {
    if event != {} {
      var f :| f in event;
      assert f in event + interest && f !in (event + interest) - event;
    }
  }

  lemma ListExtended(event: Events, ls: Lists, l: ListName, s: seq<Entry>)
    requires Registered(event, ls)
    ensures Registered(event + Interest(l), Set(ls, l, s))
  {
    forall m: ListName | Get(Set(ls, l, s), m) != [] ensures Interest(m) <= event + Interest(l) {
      if m != l { assert Interest(m) <= event; }
    }
  }

  class ReactorElement {
    const fd: int
    var event: Events
    var lists: Lists
    /** The results written so far, by place. */
    var revents: map<(nat, nat), Events>
    /** The coroutines woken so far, in order. */
    var woken: seq<nat>

    /** The kernel has what the element believes it has. */
    ghost predicate Agrees(ep: Epoll)
      reads this, ep
    {
      (event != {} <==> fd in ep.registered) && (fd in ep.registered ==> ep.registered[fd] == event)
    }

    ghost predicate Valid(ep: Epoll)
      reads this, ep
    {
      Registered(event, lists) && Agrees(ep)
    }

    constructor (fd: int)
      ensures Registered(event, lists) && this.fd == fd && event == {} && lists == Lists([], [], [], []) && woken == []
    {
      this.fd := fd;
      event := {};
      lists := Lists([], [], [], []);
      revents, woken := map[], [];
    }

    /** Queues an entry and extends the registration by what it waits for, or takes it back. */
    method Add(ep: Epoll, pollEvent: Events, entry: Entry, expired: set<nat>, ok: bool) returns (r: bool)
      requires Valid(ep)
      modifies this`event, this`lists, ep
      ensures Valid(ep) && SameBeside(old(ep.registered), ep.registered, fd)
      ensures var l := SelectList(pollEvent);
              var kept := Unexpired(Get(old(lists), l), expired);
              && r == (ok || Interest(l) <= old(event))
              && (r ==> lists == Set(old(lists), l, kept + [entry]) && event == old(event) + Interest(l))
              && (!r ==> lists == Set(old(lists), l, RemoveFirst(kept + [entry], entry)) && event == old(event))
      ensures !r ==> ep.registered == old(ep.registered)
    {
      var l := SelectList(pollEvent);
      RequestIsInterest(pollEvent);
      WholeDifference(event, Interest(l));
      var kept := Unexpired(Get(lists, l), expired);
      ListExtended(event, lists, l, kept + [entry]);
      ListTakenBack(event, lists, l, expired, entry);
      lists := Set(lists, l, kept + [entry]);
      var promise := event + Request(pollEvent);
      if promise == event {
        return true;
      }
      r := ep.AddEvent(fd, promise - event, promise, ok);
      if r {
        event := promise;
      } else {
        lists := Set(lists, l, RemoveFirst(kept + [entry], entry));
      }
    }

    /** Writes the report for every entry of a list, wakes it, and empties the list. */
    method TriggerList(l: ListName, revent: Events)
      modifies this`lists, this`revents, this`woken
      ensures lists == Set(old(lists), l, [])
      ensures woken == old(woken) + Suspends(Get(old(lists), l))
      ensures revents == Written(old(revents), Get(old(lists), l), revent)
    {
      var s := Get(lists, l);
      var i := 0;
      while i < |s|
        invariant 0 <= i <= |s| && lists == old(lists)
        invariant woken == old(woken) + Suspends(s[..i]) && revents == Written(old(revents), s[..i], revent)
      {
        assert s[..i + 1] == s[..i] + [s[i]] && s[..i + 1][..i] == s[..i];
        SuspendsAdd(s[..i], [s[i]]);
        revents := revents[(s[i].cell, s[i].idx) := revent];
        woken := woken + [s[i].suspend];
        i := i + 1;
      }
      assert s[..|s|] == s;
      lists := Set(lists, l, []);
    }

    /** Serves a list the report concerns, or adds its interest to what stays wanted. */
    method Visit(l: ListName, pollEvent: Events, promise: Events) returns (promise': Events)
      modifies this`lists, this`revents, this`woken
      ensures lists == Cleared(old(lists), l, pollEvent)
      ensures woken == old(woken) + Suspends(Served(old(lists), l, pollEvent))
      ensures revents == Written(old(revents), Served(old(lists), l, pollEvent), pollEvent * Concern(l))
      ensures promise' == promise + (if Get(lists, l) != [] then Interest(l) else {})
    {
      if pollEvent * Concern(l) != {} {
        TriggerList(l, pollEvent * Concern(l));
        promise' := promise;
      } else {
        promise' := if Get(lists, l) != [] then promise + Interest(l) else promise;
      }
    }

    /** Serves the four lists. */
    method VisitAll(pollEvent: Events) returns (promise: Events)
      modifies this`lists, this`revents, this`woken
      ensures lists == Spared(old(lists), pollEvent) && promise == Wanted(lists)
      ensures woken == old(woken) + Wakes(old(lists), pollEvent)
      ensures revents == Reported(old(revents), old(lists), pollEvent)
    {
      VisitedInOrder(lists, pollEvent);
      FourJoined(woken, Suspends(Served(lists, In, pollEvent)), Suspends(Served(lists, Out, pollEvent)),
                 Suspends(Served(lists, InAndOut, pollEvent)), Suspends(Served(lists, Err, pollEvent)));
      promise := Visit(In, pollEvent, {});
      promise := Visit(Out, pollEvent, promise);
      promise := Visit(InAndOut, pollEvent, promise);
      promise := Visit(Err, pollEvent, promise);
    }

    /** Empties exactly the lists whose interest, or an error, has occurred, waking their entries;
        then narrows the registration to what is still wanted, if the kernel agrees. */
    method Trigger(ep: Epoll, pollEvent: Events, ok: bool)
      requires Valid(ep)
      modifies this`event, this`lists, this`revents, this`woken, ep
      ensures Valid(ep) && SameBeside(old(ep.registered), ep.registered, fd)
      ensures lists == Spared(old(lists), pollEvent)
      ensures woken == old(woken) + Wakes(old(lists), pollEvent)
      ensures revents == Reported(old(revents), old(lists), pollEvent)
      ensures event == if ok then Wanted(lists) else old(event)
    {
      SparedRegistered(event, lists, pollEvent);
      WantedRegistered(event, Spared(lists, pollEvent));
      var promise := VisitAll(pollEvent);
      if promise != event {
        var r := ep.DelEvent(fd, promise, ok);
        if r {
          event := promise;
          WantedRegistered(event, lists);
        }
      }
    }

    /** Closing wakes everybody and asks nothing of the kernel. */
    method OnClose()
      requires Registered(event, lists)
      modifies this`lists, this`revents, this`woken
      ensures lists == Lists([], [], [], []) && Registered(event, lists)
      ensures woken == old(woken) + (Suspends(old(lists.ins)) + Suspends(old(lists.outs)) +
                                     Suspends(old(lists.both)) + Suspends(old(lists.errs)))
    {
      SparedRegistered(event, lists, {PollNval});
      assert PollNval in {PollNval} * ERRORS;
      assert forall l: ListName :: PollNval in {PollNval} * Concern(l);
      var promise := VisitAll({PollNval});
    }
  }

  /** The lists of a descriptor when the first `n` of the reports have been dealt with. */
  function ListsAfter(ls: Lists, fd: int, reports: seq<(int, Events)>, n: nat): Lists
    requires n <= |reports|
  {
    if n == 0 then ls
    else
      var before := ListsAfter(ls, fd, reports, n - 1);
      if reports[n - 1].0 == fd then Spared(before, reports[n - 1].1) else before
  }

  /** The coroutines of a descriptor woken so far, after the first `n` reports. */
  function WokenAfter(woken: seq<nat>, ls: Lists, fd: int, reports: seq<(int, Events)>, n: nat): seq<nat>
    requires n <= |reports|
  {
    if n == 0 then woken
    else
      var before := WokenAfter(woken, ls, fd, reports, n - 1);
      if reports[n - 1].0 == fd then before + Wakes(ListsAfter(ls, fd, reports, n - 1), reports[n - 1].1) else before
  }

  /** The descriptors that share one epoll (`EpollReactor`). */
  class EpollReactor {
    const ep: Epoll
    /** The element of every open descriptor (`GetFdContext`). */
    const contexts: map<int, ReactorElement>

    /** For every descriptor the kernel has what its element believes it has, and that covers
        whatever its entries wait for. */
    ghost predicate Valid()
      reads ep, contexts.Values
    {
      forall fd :: fd in contexts ==> contexts[fd].fd == fd && contexts[fd].Valid(ep)
    }

    constructor (ep: Epoll, contexts: map<int, ReactorElement>)
      requires forall fd :: fd in contexts ==> contexts[fd].fd == fd && contexts[fd].Valid(ep)
      ensures Valid() && this.ep == ep && this.contexts == contexts
    {
      this.ep, this.contexts := ep, contexts;
    }

    /** Queues an entry for a descriptor; the other ones are left alone. */
    method Add(fd: int, pollEvent: Events, entry: Entry, expired: set<nat>, ok: bool) returns (r: bool)
      requires Valid()
      modifies ep, (if fd in contexts then {contexts[fd]} else {})`event
      modifies (if fd in contexts then {contexts[fd]} else {})`lists
      ensures Valid() && SameBeside(old(ep.registered), ep.registered, fd)
      ensures r == (fd in contexts && (ok || Interest(SelectList(pollEvent)) <= old(contexts[fd].event)))
      ensures var l := SelectList(pollEvent);
              r ==> && fd in ep.registered && Interest(l) <= ep.registered[fd]
                    && contexts[fd].lists == Set(old(contexts[fd].lists), l,
                                                 Unexpired(old(Get(contexts[fd].lists, l)), expired) + [entry])
      ensures !r ==> ep.registered == old(ep.registered)
    {
      if fd !in contexts { return false; }
      r := contexts[fd].Add(ep, pollEvent, entry, expired, ok);
    }

    /** Deals with one report. */
    method Deliver(fd: int, pollEvent: Events, ok: bool)
      requires Valid()
      modifies ep, (if fd in contexts then {contexts[fd]} else {})`event
      modifies (if fd in contexts then {contexts[fd]} else {})`lists
      modifies (if fd in contexts then {contexts[fd]} else {})`revents
      modifies (if fd in contexts then {contexts[fd]} else {})`woken
      ensures Valid() && SameBeside(old(ep.registered), ep.registered, fd)
      ensures forall g :: g in contexts ==>
                && contexts[g].lists == (if g == fd then Spared(old(contexts[g].lists), pollEvent)
                                         else old(contexts[g].lists))
                && contexts[g].woken == old(contexts[g].woken) +
                                        (if g == fd then Wakes(old(contexts[g].lists), pollEvent) else [])
    {
      if fd in contexts { contexts[fd].Trigger(ep, pollEvent, ok); }
    }

    /** Deals with a batch of reports, in order; `oks` says which requests the kernel grants. */
    method Run(reports: seq<(int, Events)>, oks: seq<bool>)
      requires Valid() && |oks| == |reports|
      modifies ep, contexts.Values
      ensures Valid()
      ensures forall fd :: fd in contexts ==>
                && contexts[fd].lists == ListsAfter(old(contexts[fd].lists), fd, reports, |reports|)
                && contexts[fd].woken ==
                     WokenAfter(old(contexts[fd].woken), old(contexts[fd].lists), fd, reports, |reports|)
    {
      var i := 0;
      while i < |reports|
        invariant 0 <= i <= |reports| && Valid()
        invariant forall fd :: fd in contexts ==>
                    && contexts[fd].lists == ListsAfter(old(contexts[fd].lists), fd, reports, i)
                    && contexts[fd].woken ==
                         WokenAfter(old(contexts[fd].woken), old(contexts[fd].lists), fd, reports, i)
      {
        Deliver(reports[i].0, reports[i].1, oks[i]);
        i := i + 1;
      }
    }
  }

  /** The coroutines of a list. */
  function Suspends(s: seq<Entry>): seq<nat>
  {
    seq(|s|, i requires 0 <= i < |s| => s[i].suspend)
  }

  /** The results after the same report has been written for every entry of a list. */
  function Written(revents: map<(nat, nat), Events>, s: seq<Entry>, revent: Events): map<(nat, nat), Events>
  {
    if s == [] then revents
    else Written(revents, s[..|s| - 1], revent)[(s[|s| - 1].cell, s[|s| - 1].idx) := revent]
  }

  /** Every entry of the list has the report in its place. */
  lemma {:induction false} WrittenAt(revents: map<(nat, nat), Events>, s: seq<Entry>, revent: Events, e: Entry)
    requires e in s
    ensures var m := Written(revents, s, revent); (e.cell, e.idx) in m && m[(e.cell, e.idx)] == revent
  {
    var last := |s| - 1;
    if s[last] != e {
      assert e in s[..last];
      WrittenAt(revents, s[..last], revent, e);
    }
  }

  predicate Concerned(l: ListName, pollEvent: Events)
  {
    pollEvent * Concern(l) != {}
  }

  /** The lists a report does not concern. */
  function Spared(ls: Lists, pollEvent: Events): Lists
  {
    Lists(if Concerned(In, pollEvent) then [] else ls.ins,
          if Concerned(Out, pollEvent) then [] else ls.outs,
          if Concerned(InAndOut, pollEvent) then [] else ls.both,
          if Concerned(Err, pollEvent) then [] else ls.errs)
  }

  /** The entries of a list, if the report concerns it. */
  function Served(ls: Lists, l: ListName, pollEvent: Events): seq<Entry>
  {
    if Concerned(l, pollEvent) then Get(ls, l) else []
  }

  function Cleared(ls: Lists, l: ListName, pollEvent: Events): Lists
  {
    if Concerned(l, pollEvent) then Set(ls, l, []) else ls
  }

  /** Serving one list after the other leaves the later ones to be served as they were. */
  lemma VisitedInOrder(ls: Lists, pollEvent: Events)
    ensures var a := Cleared(ls, In, pollEvent);
            var b := Cleared(a, Out, pollEvent);
            var c := Cleared(b, InAndOut, pollEvent);
            && Cleared(c, Err, pollEvent) == Spared(ls, pollEvent)
            && Get(a, In) == Spared(ls, pollEvent).ins
            && Served(a, Out, pollEvent) == Served(ls, Out, pollEvent) && Get(b, Out) == Spared(ls, pollEvent).outs
            && Served(b, InAndOut, pollEvent) == Served(ls, InAndOut, pollEvent)
            && Get(c, InAndOut) == Spared(ls, pollEvent).both
            && Served(c, Err, pollEvent) == Served(ls, Err, pollEvent)
  {
  }

  lemma FourJoined(w: seq<nat>, a: seq<nat>, b: seq<nat>, c: seq<nat>, d: seq<nat>)
    ensures w + a + b + c + d == w + (a + b + c + d)
  {
  }

  /** The results after the lists have been served. */
  function Reported(revents: map<(nat, nat), Events>, ls: Lists, pollEvent: Events): map<(nat, nat), Events>
  {
    var m1 := Written(revents, Served(ls, In, pollEvent), pollEvent * Concern(In));
    var m2 := Written(m1, Served(ls, Out, pollEvent), pollEvent * Concern(Out));
    var m3 := Written(m2, Served(ls, InAndOut, pollEvent), pollEvent * Concern(InAndOut));
    Written(m3, Served(ls, Err, pollEvent), pollEvent * Concern(Err))
  }

  lemma {:induction false} NotWritten(revents: map<(nat, nat), Events>, s: seq<Entry>, revent: Events,
                                      place: (nat, nat))
    requires forall e :: e in s ==> (e.cell, e.idx) != place
    ensures var m := Written(revents, s, revent);
            (place in m <==> place in revents) && (place in m ==> m[place] == revents[place])
  {
    if s != [] { NotWritten(revents, s[..|s| - 1], revent, place); }
  }

  /** No two lists have an entry for the same place. */
  predicate PlacesDiffer(ls: Lists)
  {
    forall l: ListName, m: ListName, e, f :: l != m && e in Get(ls, l) && f in Get(ls, m) ==>
      (e.cell, e.idx) != (f.cell, f.idx)
  }

  /** Every entry that is served finds in its place the events of the report that concern it. */
  lemma EveryServedEntryIsTold(revents: map<(nat, nat), Events>, ls: Lists, pollEvent: Events, l: ListName, e: Entry)
    requires PlacesDiffer(ls) && e in Served(ls, l, pollEvent)
    ensures var m := Reported(revents, ls, pollEvent);
            (e.cell, e.idx) in m && m[(e.cell, e.idx)] == pollEvent * Concern(l)
  {
    var place := (e.cell, e.idx);
    var m1 := Written(revents, Served(ls, In, pollEvent), pollEvent * Concern(In));
    var m2 := Written(m1, Served(ls, Out, pollEvent), pollEvent * Concern(Out));
    var m3 := Written(m2, Served(ls, InAndOut, pollEvent), pollEvent * Concern(InAndOut));
    match l
    case In =>
      WrittenAt(revents, Served(ls, In, pollEvent), pollEvent * Concern(In), e);
      NotWritten(m1, Served(ls, Out, pollEvent), pollEvent * Concern(Out), place);
      NotWritten(m2, Served(ls, InAndOut, pollEvent), pollEvent * Concern(InAndOut), place);
      NotWritten(m3, Served(ls, Err, pollEvent), pollEvent * Concern(Err), place);
    case Out =>
      WrittenAt(m1, Served(ls, Out, pollEvent), pollEvent * Concern(Out), e);
      NotWritten(m2, Served(ls, InAndOut, pollEvent), pollEvent * Concern(InAndOut), place);
      NotWritten(m3, Served(ls, Err, pollEvent), pollEvent * Concern(Err), place);
    case InAndOut =>
      WrittenAt(m2, Served(ls, InAndOut, pollEvent), pollEvent * Concern(InAndOut), e);
      NotWritten(m3, Served(ls, Err, pollEvent), pollEvent * Concern(Err), place);
    case Err =>
      WrittenAt(m3, Served(ls, Err, pollEvent), pollEvent * Concern(Err), e);
  }

  /** The coroutines woken by a report, in order. */
  function Wakes(ls: Lists, pollEvent: Events): seq<nat>
  {
    Suspends(Served(ls, In, pollEvent)) + Suspends(Served(ls, Out, pollEvent)) +
    Suspends(Served(ls, InAndOut, pollEvent)) + Suspends(Served(ls, Err, pollEvent))
  }

  /** The interest of the lists that are not empty. */
  function Wanted(ls: Lists): Events
  {
    (if ls.ins != [] then Interest(In) else {}) + (if ls.outs != [] then Interest(Out) else {}) +
    (if ls.both != [] then Interest(InAndOut) else {}) + (if ls.errs != [] then Interest(Err) else {})
  }

  lemma WantedRegistered(event: Events, ls: Lists)
    ensures Registered(event, ls) <==> Wanted(ls) <= event
  {
    if Registered(event, ls) {
      assert Get(ls, In) != [] ==> Interest(In) <= event;
      assert Get(ls, Out) != [] ==> Interest(Out) <= event;
      assert Get(ls, InAndOut) != [] ==> Interest(InAndOut) <= event;
      assert Get(ls, Err) != [] ==> Interest(Err) <= event;
    }
    if Wanted(ls) <= event {
      forall l: ListName | Get(ls, l) != [] ensures Interest(l) <= event { assert Interest(l) <= Wanted(ls); }
    }
  }

  lemma SparedRegistered(event: Events, ls: Lists, pollEvent: Events)
    requires Registered(event, ls)
    ensures Registered(event, Spared(ls, pollEvent))
  {
    forall l: ListName | Get(Spared(ls, pollEvent), l) != [] ensures Interest(l) <= event {
      assert Get(ls, l) != [];
    }
  }

  lemma SuspendsAdd(a: seq<Entry>, b: seq<Entry>)
    ensures Suspends(a + b) == Suspends(a) + Suspends(b)
  {
  }

  /** Taking an entry back leaves the lists covered. */
  lemma ListTakenBack(event: Events, ls: Lists, l: ListName, expired: set<nat>, entry: Entry)
    requires Registered(event, ls)
    ensures Registered(event, Set(ls, l, RemoveFirst(Unexpired(Get(ls, l), expired) + [entry], entry)))
  {
    UnexpiredShorter(Get(ls, l), expired);
    TakenBack(Unexpired(Get(ls, l), expired), entry);
    ListReplaced(event, ls, l, RemoveFirst(Unexpired(Get(ls, l), expired) + [entry], entry));
  }

  lemma ListReplaced(event: Events, ls: Lists, l: ListName, s: seq<Entry>)
    requires Registered(event, ls) && (s != [] ==> Get(ls, l) != [])
    ensures Registered(event, Set(ls, l, s))
  {
    forall m: ListName | Get(Set(ls, l, s), m) != [] ensures Interest(m) <= event {
      assert Get(ls, m) != [];
    }
  }

  lemma {:induction false} UnexpiredShorter(s: seq<Entry>, expired: set<nat>)
    ensures |Unexpired(s, expired)| <= |s|
  {
    if s != [] { UnexpiredShorter(s[1..], expired); }
  }
}
