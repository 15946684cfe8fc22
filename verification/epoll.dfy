/** The epoll backend, `trio/_core/_io_epoll.py`: one-shot interest kept in step with the waiting tasks. */
module Epoll {
  import opened Options

  type Fd = int
  type Task = int

  /** Event flags; `Hup` stands for all flags besides EPOLLIN and EPOLLOUT. */
  datatype Flag = In | Out | Hup

  datatype Waiters = Waiters(readTask: Option<Task>, writeTask: Option<Task>, currentFlags: set<Flag>)

  const NO_WAITERS := Waiters(None, None, {})

  /** What a waiting task is woken with. */
  datatype Wake = Ready | OsError | ClosedResourceError

  /** A task that waits does so for one thing on one file. */
  datatype Place = Place(fd: Fd, flag: Flag)

  datatype WaitResult = Asleep | Busy | Failed

  function Wanted(w: Waiters): set<Flag> {
    (if w.readTask.Some? then {In} else {}) + (if w.writeTask.Some? then {Out} else {})
  }

  /** The waiters of a file, and what the kernel knows about it. `lost` are the files that were closed without notice. */
  ghost predicate FdOk(registered: map<Fd, Waiters>, interest: map<Fd, set<Flag>>, lost: set<Fd>, fd: Fd) {
    if fd in registered then
      && Wanted(registered[fd]) != {} && registered[fd].currentFlags == Wanted(registered[fd])
      && (if fd in interest then interest[fd] == registered[fd].currentFlags else fd in lost)
    else
      fd in interest ==> interest[fd] == {}
  }

  /** The same for a file whose one-shot event has been delivered and not processed yet. */
  ghost predicate FiredOk(registered: map<Fd, Waiters>, interest: map<Fd, set<Flag>>, fd: Fd) {
    && (fd in interest ==> interest[fd] == {})
    && (fd in registered ==> Wanted(registered[fd]) != {} && fd in interest)
  }

  function TaskAt(registered: map<Fd, Waiters>, place: Place): Option<Task> {
    if place.fd !in registered then None
    else match place.flag
      case In => registered[place.fd].readTask
      case Out => registered[place.fd].writeTask
      case Hup => None
  }

  /** The blocked tasks are those in the table, each at its place. */
  ghost predicate PlacesOk(registered: map<Fd, Waiters>, asleep: map<Task, Place>) {
    && (forall t :: t in asleep ==> TaskAt(registered, asleep[t]) == Some(t))
    && (forall place :: TaskAt(registered, place).Some? ==>
          TaskAt(registered, place).value in asleep && asleep[TaskAt(registered, place).value] == place)
  }

  class EpollIOManager {
    var registered: map<Fd, Waiters>
    var asleep: map<Task, Place>        // the blocked tasks
    var woken: map<Task, Wake>          // what each task was last woken with
    // the kernel
    var interest: map<Fd, set<Flag>>    // the files known to epoll, with their armed flags
    var open: set<Fd>
    var lost: set<Fd>

    constructor (open: set<Fd>)
      ensures Valid() && registered == map[] && interest == map[] && this.open == open
    {
      registered, asleep, woken, interest, this.open, lost := map[], map[], map[], map[], open, {};
    }

    ghost predicate Valid()
      reads this
    {
      ValidBut({})
    }

    /** Valid but for files whose event is still to be processed. */
    ghost predicate ValidBut(fired: set<Fd>)
      reads this
    {
      && PlacesOk(registered, asleep)
      && (forall fd :: fd !in fired ==> FdOk(registered, interest, lost, fd))
      && (forall fd :: fd in fired ==> FiredOk(registered, interest, fd))
    }

    // ---------- the kernel ----------

    /** `epoll.modify`; false is OSError. */
    method Modify(fd: Fd, flags: set<Flag>) returns (ok: bool)
      modifies this`interest
      ensures ok == (fd in old(interest))
      ensures interest == if ok then old(interest)[fd := flags] else old(interest)
    {
      ok := fd in interest;
      if ok { interest := interest[fd := flags]; }
    }

    /** `epoll.register`. */
    method Register(fd: Fd, flags: set<Flag>) returns (ok: bool)
      modifies this`interest
      ensures ok == (fd !in old(interest) && fd in open)
      ensures interest == if ok then old(interest)[fd := flags] else old(interest)
    {
      ok := fd !in interest && fd in open;
      if ok { interest := interest[fd := flags]; }
    }

    /** Somebody closes a file without a word to the manager; its number may be used again. */
    method CloseBehind(fd: Fd, again: bool)
      requires Valid()
      modifies this`interest, this`open, this`lost
      ensures Valid() && interest == old(interest) - {fd} && fd in lost && (fd in open <==> again)
    {
      interest := interest - {fd};
      lost := lost + {fd};
      open := if again then open + {fd} else open - {fd};
    }

    // ---------- the manager ----------

    method Reschedule(t: Task, wake: Wake)
      modifies this`asleep, this`woken
      ensures asleep == old(asleep) - {t} && woken == old(woken)[t := wake]
    {
      asleep := asleep - {t};
      woken := woken[t := wake];
    }

    /**
     * `_update_registrations`, for a file whose waiters have just changed. `current` is the running task;
     * the result says whether the error is raised in it rather than sent to it.
     */
    method UpdateRegistrations(fd: Fd, current: Option<Task>) returns (raised: bool)
      requires fd in registered && PlacesOk(registered, asleep)
      requires if fd in interest then interest[fd] == registered[fd].currentFlags else fd in lost || registered[fd].currentFlags == {}
      modifies this
      ensures open == old(open) && lost == old(lost)
      ensures PlacesOk(registered, asleep) && FdOk(registered, interest, lost, fd)
      ensures registered - {fd} == old(registered) - {fd} && interest - {fd} == old(interest) - {fd}
      ensures var w := old(registered)[fd];
        && fd in old(registered)
        && (Updatable(old(interest), open, fd, w) && Wanted(w) != {} ==>
              registered == old(registered)[fd := w.(currentFlags := Wanted(w))] && asleep == old(asleep) && woken == old(woken) && !raised)
        && (Updatable(old(interest), open, fd, w) && Wanted(w) == {} ==>
              registered == old(registered) - {fd} && asleep == old(asleep) && woken == old(woken) && !raised)
        && (!Updatable(old(interest), open, fd, w) ==>
              registered == old(registered) - {fd} && (raised <==> current.Some? && (w.readTask == current || w.writeTask == current)))
        && interest == (if Wanted(w) != w.currentFlags && (fd in old(interest) || fd in open) then old(interest)[fd := Wanted(w)] else old(interest))
      ensures !Updatable(old(interest), open, fd, old(registered)[fd]) ==>
        && (forall t :: t in asleep <==> t in old(asleep) && old(asleep)[t].fd != fd)
        && (forall t :: t in asleep ==> asleep[t] == old(asleep)[t])
        && (forall t :: t in old(asleep) && old(asleep)[t].fd == fd && Some(t) != current ==> t in woken && woken[t] == OsError)
    {
      hide PlacesOk;
      raised := false;
      var w := registered[fd];
      var wanted := Wanted(w);
      SameWithout(registered, fd, w.(currentFlags := wanted));
      if wanted != w.currentFlags {
        var ok := Modify(fd, wanted);
        if !ok {
          ok := Register(fd, wanted);
        }
        if !ok {
          registered := registered - {fd};
          raised := WakeAll(w, OsError, current, fd, old(registered));
          return;
        }
        FlagsNoMatter(registered, asleep, fd, wanted);
        registered := registered[fd := w.(currentFlags := wanted)];
      }
      if wanted == {} {
        NobodyThere(registered, asleep, fd);
        registered := registered - {fd};
      }
    }

    /** `wake_all`; the waiters have left the table already. */
    method WakeAll(w: Waiters, wake: Wake, current: Option<Task>, ghost fd: Fd, ghost was: map<Fd, Waiters>) returns (raised: bool)
      requires fd in was && w.readTask == was[fd].readTask && w.writeTask == was[fd].writeTask
      requires PlacesOk(was, asleep) && registered == was - {fd}
      modifies this`asleep, this`woken
      ensures PlacesOk(registered, asleep)
      ensures raised <==> current.Some? && (w.readTask == current || w.writeTask == current)
      ensures forall t :: t in asleep <==> t in old(asleep) && old(asleep)[t].fd != fd
      ensures forall t :: t in asleep ==> asleep[t] == old(asleep)[t]
      ensures forall t :: t in old(asleep) && old(asleep)[t].fd == fd && Some(t) != current ==> t in woken && woken[t] == wake
      ensures forall t :: t !in old(asleep) || old(asleep)[t].fd != fd || Some(t) == current ==> (t in woken <==> t in old(woken))
    {
      hide PlacesOk;
      raised := false;
      AllThere(was, asleep, fd);
      if w.readTask.Some? {
        if w.readTask == current {
          raised := true;
          asleep := asleep - {w.readTask.value};
        } else {
          Reschedule(w.readTask.value, wake);
        }
      }
      if w.writeTask.Some? {
        if w.writeTask == current {
          raised := true;
          asleep := asleep - {w.writeTask.value};
        } else {
          Reschedule(w.writeTask.value, wake);
        }
      }
      PlacesLeft(was, old(asleep), fd, asleep);
    }

    /** `_epoll_wait`, up to the point where the task sleeps. */
    method EpollWait(fd: Fd, flag: Flag, task: Task) returns (r: WaitResult)
      requires Valid() && flag != Hup && task !in asleep
      modifies this
      ensures Valid()
      ensures r == Busy <==> TaskAt(old(registered), Place(fd, flag)).Some?
      ensures r == Busy ==> registered == old(registered) && asleep == old(asleep) && woken == old(woken) && interest == old(interest)
      ensures r == Asleep ==> asleep == old(asleep)[task := Place(fd, flag)] && woken == old(woken)
      ensures r == Asleep ==> fd in registered && (fd in interest ==> flag in interest[fd]) && (fd !in interest ==> fd in lost)
      ensures r == Failed ==> task !in asleep && fd !in registered && fd !in interest && fd !in open
      ensures fd in old(interest) || fd in open ==> r != Failed && (r == Asleep ==> fd in interest)
    {
      hide PlacesOk;
      ghost var r0 := registered;
      var w := if fd in registered then registered[fd] else NO_WAITERS;
      if (if flag == In then w.readTask else w.writeTask).Some? { return Busy; }
      assert FdOk(r0, interest, lost, fd);
      assert flag !in Wanted(w);
      w := if flag == In then w.(readTask := Some(task)) else w.(writeTask := Some(task));
      OneMoreThere(r0, asleep, fd, flag, task, w);
      SameWithout(r0, fd, w);
      registered := registered[fd := w];
      asleep := asleep[task := Place(fd, flag)];
      ghost var a1, r1, i1 := asleep, registered, interest;
      var raised := UpdateRegistrations(fd, Some(task));
      r := if raised then Failed else Asleep;
      OthersOk(r0, old(interest), registered, interest, lost, {}, fd);
      WasAsleep(r1, a1, task, fd, flag);
    }

    /** The abort function of a waiting task. */
    method Abort(task: Task, current: Option<Task>)
      requires Valid() && task in asleep && (current.Some? ==> current.value !in asleep)
      modifies this
      ensures Valid() && task !in asleep
      ensures forall t :: t in old(asleep) && (old(asleep)[t].fd != old(asleep)[task].fd || old(asleep)[task].fd in open || old(asleep)[task].fd in old(interest)) && t != task ==>
        t in asleep && asleep[t] == old(asleep)[t]
      ensures forall t :: t in asleep ==> t in old(asleep)
    {
      hide PlacesOk;
      ghost var r0 := registered;
      var place := asleep[task];
      var fd := place.fd;
      ThereAsleep(r0, asleep, task);
      assert FdOk(r0, interest, lost, fd);
      var w := if place.flag == In then registered[fd].(readTask := None) else registered[fd].(writeTask := None);
      OneLessThere(r0, asleep, task, w);
      SameWithout(r0, fd, w);
      registered := registered[fd := w];
      asleep := asleep - {task};
      var raised := UpdateRegistrations(fd, current);
      OthersOk(r0, old(interest), registered, interest, lost, {}, fd);
    }

    /** The kernel delivers events, and disarms the files they are for. */
    method Poll(events: seq<Event>)
      requires Valid() && DistinctFds(events) && forall e :: e in events ==> e.fd in interest
      modifies this`interest
      ensures ValidBut(Fds(events)) && interest.Keys == old(interest.Keys)
    {
      hide PlacesOk;
      for i := 0 to |events|
        invariant interest.Keys == old(interest.Keys)
        invariant forall j :: 0 <= j < i ==> interest[events[j].fd] == {}
        invariant forall fd :: fd in interest && fd !in Fds(events[..i]) ==> interest[fd] == old(interest)[fd]
      {
        assert events[..i + 1] == events[..i] + [events[i]];
        interest := interest[events[i].fd := {}];
      }
      assert events[..|events|] == events;
      forall fd | fd in Fds(events) ensures FiredOk(registered, interest, fd) {
        assert FdOk(registered, old(interest), lost, fd);
      }
      forall fd | fd !in Fds(events) ensures FdOk(registered, interest, lost, fd) {
        assert FdOk(registered, old(interest), lost, fd);
      }
    }

    /** `process_events`, apart from the manager's own wakeup socket. */
    method ProcessEvents(events: seq<Event>)
      requires ValidBut(Fds(events)) && DistinctFds(events)
      modifies this
      ensures Valid()
      ensures forall t :: t in asleep <==> t in old(asleep) && !Hit(events, old(asleep)[t])
      ensures forall t :: t in asleep ==> asleep[t] == old(asleep)[t]
      ensures forall t :: t in old(asleep) && Hit(events, old(asleep)[t]) ==> t in woken && woken[t] == Ready
    {
      hide PlacesOk, Hits;
      ghost var a0 := asleep;
      assert events[0..] == events && events[..0] == [];
      for i := 0 to |events|
        invariant ValidBut(Fds(events[i..]))
        invariant forall t :: t in asleep <==> t in a0 && !Hit(events[..i], a0[t])
        invariant forall t :: t in asleep ==> asleep[t] == a0[t]
        invariant forall t :: t in a0 && Hit(events[..i], a0[t]) ==> t in woken && woken[t] == Ready
      {
        assert events[i..] == [events[i]] + events[i + 1..];
        assert events[..i + 1] == events[..i] + [events[i]];
        OneMoreHit(events[..i], events[i]);
        RestOfFds(events, i);
        ProcessEvent(events[i].fd, events[i].flags, Fds(events[i + 1..]));
      }
      assert events[..|events|] == events;
    }

    method ProcessEvent(fd: Fd, flags: set<Flag>, ghost rest: set<Fd>)
      requires ValidBut(rest + {fd}) && fd !in rest
      modifies this
      ensures ValidBut(rest)
      ensures forall t :: t in asleep <==> t in old(asleep) && !(old(asleep)[t].fd == fd && Hits(flags, old(asleep)[t].flag))
      ensures forall t :: t in asleep ==> asleep[t] == old(asleep)[t]
      ensures forall t :: t in old(asleep) && old(asleep)[t].fd == fd && Hits(flags, old(asleep)[t].flag) ==> t in woken && woken[t] == Ready
      ensures forall t :: t in old(woken) && !(t in old(asleep) && old(asleep)[t].fd == fd) ==> t in woken && woken[t] == old(woken)[t]
      ensures (fd in registered ==> fd in interest) && registered - {fd} == old(registered) - {fd} && interest - {fd} == old(interest) - {fd}
    {
      hide PlacesOk;
      ghost var r0, i0 := registered, interest;
      assert FiredOk(r0, i0, fd);
      var w := (if fd in registered then registered[fd] else NO_WAITERS).(currentFlags := {});
      FlagsReset(r0, asleep, fd);
      registered := registered[fd := w];
      WakeThose(fd, flags);
      SameWithout(r0, fd, registered[fd]);
      var raised := UpdateRegistrations(fd, None);
      OthersOk(r0, i0, registered, interest, lost, rest, fd);
    }

    /** The tasks that an event is for are woken. */
    method WakeThose(fd: Fd, flags: set<Flag>)
      requires PlacesOk(registered, asleep) && fd in registered
      modifies this`registered, this`asleep, this`woken
      ensures PlacesOk(registered, asleep) && fd in registered && registered == old(registered)[fd := registered[fd]]
      ensures registered[fd].currentFlags == old(registered)[fd].currentFlags && Wanted(registered[fd]) <= Wanted(old(registered)[fd])
      ensures forall t :: t in asleep <==> t in old(asleep) && !(old(asleep)[t].fd == fd && Hits(flags, old(asleep)[t].flag))
      ensures forall t :: t in asleep ==> asleep[t] == old(asleep)[t]
      ensures forall t :: t in old(asleep) && old(asleep)[t].fd == fd && Hits(flags, old(asleep)[t].flag) ==> t in woken && woken[t] == Ready
      ensures forall t :: t in old(woken) && !(t in old(asleep) && old(asleep)[t].fd == fd) ==> t in woken && woken[t] == old(woken)[t]
    {
      hide PlacesOk;
      ghost var r1, a0 := registered, asleep;
      var w := registered[fd];
      AllThere(r1, asleep, fd);
      WaitingFlags(r1, a0, fd);
      if flags - {In} != {} && w.writeTask.Some? {
        OneLessThere(registered, asleep, w.writeTask.value, w.(writeTask := None));
        Reschedule(w.writeTask.value, Ready);
        w := w.(writeTask := None);
        registered := registered[fd := w];
      }
      if flags - {Out} != {} && w.readTask.Some? {
        OneLessThere(registered, asleep, w.readTask.value, w.(readTask := None));
        Reschedule(w.readTask.value, Ready);
        w := w.(readTask := None);
        registered := registered[fd := w];
      }
    }

    /** `notify_closing`. */
    method NotifyClosing(fd: Fd, current: Option<Task>)
      requires Valid() && (current.Some? ==> current.value !in asleep)
      modifies this
      ensures Valid() && registered == old(registered) - {fd} && interest == old(interest) - {fd}
      ensures forall t :: t in asleep <==> t in old(asleep) && old(asleep)[t].fd != fd
      ensures forall t :: t in asleep ==> asleep[t] == old(asleep)[t]
      ensures forall t :: t in old(asleep) && old(asleep)[t].fd == fd ==> t in woken && woken[t] == ClosedResourceError
    {
      hide PlacesOk;
      ghost var r0, i0 := registered, interest;
      SameWithout(r0, fd, NO_WAITERS);
      if fd in registered {
        var w := registered[fd];
        registered := registered - {fd};
        var raised := WakeAll(w, ClosedResourceError, current, fd, r0);
      } else {
        assert registered - {fd} == registered;
        NobodyAt(registered, asleep, fd);
      }
      interest := interest - {fd};
      assert (i0 - {fd}) - {fd} == i0 - {fd};
      OthersOk(r0, i0, registered, interest, lost, {}, fd);
      forall d ensures FdOk(registered, interest, lost, d) {
        assert FdOk(r0, i0, lost, d);
      }
    }
  }

  datatype Event = Event(fd: Fd, flags: set<Flag>)

  function Fds(events: seq<Event>): set<Fd> {
    set e | e in events :: e.fd
  }

  predicate DistinctFds(events: seq<Event>) {
    forall i, j :: 0 <= i < j < |events| ==> events[i].fd != events[j].fd
  }

  /** Whether an event with these flags wakes a task waiting for `flag`: any flag but the opposite one does. */
  predicate Hits(flags: set<Flag>, flag: Flag) {
    match flag
    case In => flags - {Out} != {}
    case Out => flags - {In} != {}
    case Hup => false
  }

  predicate Hit(events: seq<Event>, place: Place) {
    exists i :: 0 <= i < |events| && events[i].fd == place.fd && Hits(events[i].flags, place.flag)
  }

  lemma OneMoreHit(events: seq<Event>, e: Event)
    ensures forall place :: Hit(events + [e], place) <==> Hit(events, place) || (e.fd == place.fd && Hits(e.flags, place.flag))
  {
    var more := events + [e];
    forall place ensures Hit(more, place) <==> Hit(events, place) || (e.fd == place.fd && Hits(e.flags, place.flag)) {
      if Hit(events, place) {
        var i :| 0 <= i < |events| && events[i].fd == place.fd && Hits(events[i].flags, place.flag);
        assert more[i] == events[i];
      }
      assert more[|events|] == e;
    }
  }

  lemma RestOfFds(events: seq<Event>, i: int)
    requires DistinctFds(events) && 0 <= i < |events|
    ensures Fds(events[i..]) == Fds(events[i + 1..]) + {events[i].fd} && events[i].fd !in Fds(events[i + 1..])
    ensures Fds(events[..i + 1]) == Fds(events[..i]) + {events[i].fd}
  {
    assert events[i..] == [events[i]] + events[i + 1..];
    assert events[..i + 1] == events[..i] + [events[i]];
  }

  /** A call into the kernel will work, or is not needed. */
  predicate Updatable(interest: map<Fd, set<Flag>>, open: set<Fd>, fd: Fd, w: Waiters) {
    Wanted(w) == w.currentFlags || fd in interest || fd in open
  }

  lemma SameWithout(registered: map<Fd, Waiters>, fd: Fd, w: Waiters)
    ensures registered[fd := w] - {fd} == registered - {fd}
    ensures (registered - {fd}) - {fd} == registered - {fd}
  {
  }

  lemma FlagsNoMatter(registered: map<Fd, Waiters>, asleep: map<Task, Place>, fd: Fd, flags: set<Flag>)
    requires PlacesOk(registered, asleep) && fd in registered
    ensures PlacesOk(registered[fd := registered[fd].(currentFlags := flags)], asleep)
  {
    var r := registered[fd := registered[fd].(currentFlags := flags)];
    forall place ensures TaskAt(r, place) == TaskAt(registered, place) {
    }
  }

  lemma NobodyThere(registered: map<Fd, Waiters>, asleep: map<Task, Place>, fd: Fd)
    requires PlacesOk(registered, asleep) && fd in registered && Wanted(registered[fd]) == {}
    ensures PlacesOk(registered - {fd}, asleep)
  {
    var w := registered[fd];
    assert w.readTask.Some? ==> In in Wanted(w);
    assert w.writeTask.Some? ==> Out in Wanted(w);
    forall place ensures TaskAt(registered - {fd}, place) == TaskAt(registered, place) {
    }
  }

  lemma OneMoreThere(registered: map<Fd, Waiters>, asleep: map<Task, Place>, fd: Fd, flag: Flag, task: Task, w: Waiters)
    requires PlacesOk(registered, asleep) && task !in asleep && flag != Hup && TaskAt(registered, Place(fd, flag)).None?
    requires var was := if fd in registered then registered[fd] else NO_WAITERS;
      w == if flag == In then was.(readTask := Some(task)) else was.(writeTask := Some(task))
    ensures PlacesOk(registered[fd := w], asleep[task := Place(fd, flag)])
  {
    var r, a := registered[fd := w], asleep[task := Place(fd, flag)];
    forall place ensures TaskAt(r, place) == if place == Place(fd, flag) then Some(task) else TaskAt(registered, place) {
    }
    forall t | t in a ensures TaskAt(r, a[t]) == Some(t) {
      assert t != task ==> TaskAt(registered, asleep[t]) == Some(t);
    }
    forall place | TaskAt(r, place).Some? ensures TaskAt(r, place).value in a && a[TaskAt(r, place).value] == place {
      assert place != Place(fd, flag) ==> TaskAt(r, place) == TaskAt(registered, place);
    }
  }

  /** Files that an update does not concern stay as they are. */
  lemma OthersOk(r0: map<Fd, Waiters>, i0: map<Fd, set<Flag>>, r1: map<Fd, Waiters>, i1: map<Fd, set<Flag>>, lost: set<Fd>, fired: set<Fd>, fd: Fd)
    requires r1 - {fd} == r0 - {fd} && i1 - {fd} == i0 - {fd}
    ensures forall d :: d != fd && FdOk(r0, i0, lost, d) ==> FdOk(r1, i1, lost, d)
    ensures forall d :: d != fd && FiredOk(r0, i0, d) ==> FiredOk(r1, i1, d)
  {
    forall d | d != fd ensures (d in r0 <==> d in r1) && (d in i0 <==> d in i1) && (d in r0 ==> r0[d] == r1[d]) && (d in i0 ==> i0[d] == i1[d]) {
      assert d in r0 - {fd} <==> d in r0;
      assert d in r1 - {fd} <==> d in r1;
      assert d in i0 - {fd} <==> d in i0;
      assert d in i1 - {fd} <==> d in i1;
      assert d in r0 ==> (r0 - {fd})[d] == r0[d];
      assert d in r1 ==> (r1 - {fd})[d] == r1[d];
      assert d in i0 ==> (i0 - {fd})[d] == i0[d];
      assert d in i1 ==> (i1 - {fd})[d] == i1[d];
    }
  }

  lemma WasAsleep(registered: map<Fd, Waiters>, asleep: map<Task, Place>, task: Task, fd: Fd, flag: Flag)
    requires PlacesOk(registered, asleep) && task in asleep && asleep[task] == Place(fd, flag)
    ensures fd in registered && (registered[fd].readTask == Some(task) || registered[fd].writeTask == Some(task)) && flag in Wanted(registered[fd])
  {
    assert TaskAt(registered, asleep[task]) == Some(task);
  }

  lemma ThereAsleep(registered: map<Fd, Waiters>, asleep: map<Task, Place>, task: Task)
    requires PlacesOk(registered, asleep) && task in asleep
    ensures asleep[task].fd in registered && asleep[task].flag != Hup && TaskAt(registered, asleep[task]) == Some(task)
  {
  }

  lemma OneLessThere(registered: map<Fd, Waiters>, asleep: map<Task, Place>, task: Task, w: Waiters)
    requires PlacesOk(registered, asleep) && task in asleep && asleep[task].fd in registered
    requires var was := registered[asleep[task].fd];
      w == if asleep[task].flag == In then was.(readTask := None) else was.(writeTask := None)
    ensures PlacesOk(registered[asleep[task].fd := w], asleep - {task})
  {
    var there := asleep[task];
    var r, a := registered[there.fd := w], asleep - {task};
    assert TaskAt(registered, there) == Some(task);
    forall place ensures TaskAt(r, place) == if place == there then None else TaskAt(registered, place) {
    }
    forall t | t in a ensures TaskAt(r, a[t]) == Some(t) {
      assert TaskAt(registered, asleep[t]) == Some(t);
    }
    forall place | TaskAt(r, place).Some? ensures TaskAt(r, place).value in a && a[TaskAt(r, place).value] == place {
      assert TaskAt(r, place) == TaskAt(registered, place);
      var t := TaskAt(registered, place).value;
      assert TaskAt(registered, place).Some?;
      assert t in asleep && asleep[t] == place;
      assert t in a;
    }
  }

  lemma FlagsReset(registered: map<Fd, Waiters>, asleep: map<Task, Place>, fd: Fd)
    requires PlacesOk(registered, asleep)
    ensures PlacesOk(registered[fd := (if fd in registered then registered[fd] else NO_WAITERS).(currentFlags := {})], asleep)
  {
    var r := registered[fd := (if fd in registered then registered[fd] else NO_WAITERS).(currentFlags := {})];
    forall place ensures TaskAt(r, place) == TaskAt(registered, place) {
    }
  }

  lemma NobodyAt(registered: map<Fd, Waiters>, asleep: map<Task, Place>, fd: Fd)
    requires PlacesOk(registered, asleep) && fd !in registered
    ensures forall t :: t in asleep ==> asleep[t].fd != fd
  {
    forall t | t in asleep ensures asleep[t].fd != fd {
      assert TaskAt(registered, asleep[t]) == Some(t);
    }
  }

  lemma WaitingFlags(registered: map<Fd, Waiters>, asleep: map<Task, Place>, fd: Fd)
    requires PlacesOk(registered, asleep)
    ensures forall t :: t in asleep ==> asleep[t].flag != Hup
  {
    forall t | t in asleep ensures asleep[t].flag != Hup {
      assert TaskAt(registered, asleep[t]) == Some(t);
    }
  }

  lemma AllThere(registered: map<Fd, Waiters>, asleep: map<Task, Place>, fd: Fd)
    requires PlacesOk(registered, asleep) && fd in registered
    ensures forall t :: t in asleep && asleep[t].fd == fd <==> registered[fd].readTask == Some(t) || registered[fd].writeTask == Some(t)
    ensures forall t :: registered[fd].readTask == Some(t) ==> t in asleep && asleep[t] == Place(fd, In)
    ensures forall t :: registered[fd].writeTask == Some(t) ==> t in asleep && asleep[t] == Place(fd, Out)
  {
    assert TaskAt(registered, Place(fd, In)) == registered[fd].readTask;
    assert TaskAt(registered, Place(fd, Out)) == registered[fd].writeTask;
    forall t | t in asleep && asleep[t].fd == fd ensures registered[fd].readTask == Some(t) || registered[fd].writeTask == Some(t) {
      assert TaskAt(registered, asleep[t]) == Some(t);
    }
  }

  /** The table without one file is right again when the tasks that waited there do not wait any more. */
  lemma PlacesLeft(registered: map<Fd, Waiters>, asleep: map<Task, Place>, fd: Fd, asleep2: map<Task, Place>)
    requires PlacesOk(registered, asleep)
    requires forall t :: t in asleep2 <==> t in asleep && asleep[t].fd != fd
    requires forall t :: t in asleep2 ==> asleep2[t] == asleep[t]
    ensures PlacesOk(registered - {fd}, asleep2)
  {
    var r := registered - {fd};
    forall place ensures TaskAt(r, place) == if place.fd == fd then None else TaskAt(registered, place) {
    }
    forall t | t in asleep2 ensures TaskAt(r, asleep2[t]) == Some(t) {
      assert TaskAt(registered, asleep[t]) == Some(t);
    }
    forall place | TaskAt(r, place).Some? ensures TaskAt(r, place).value in asleep2 && asleep2[TaskAt(r, place).value] == place {
      assert place.fd != fd && TaskAt(registered, place) == TaskAt(r, place);
      var t := TaskAt(registered, place).value;
      assert TaskAt(registered, place).Some?;
      assert t in asleep && asleep[t] == place;
      assert t in asleep2;
    }
  }
}
