/** The registry of IO events and the interest set the kernel keeps for it. The result of every epoll_ctl
    call is a parameter; an operation that would stop the process in an assertion says so. READ and WRITE
    stand for EPOLLIN and EPOLLOUT, whose values they share. */
module IoManagers {
  import opened Wrappers
  import opened Timers
  import Schedulers

  datatype Event = READ | WRITE

  /** What runs when an event happens: a callback, or the fiber that registered it. */
  type Handler = Schedulers.Handler

  datatype Operation = ADD | MOD | DEL

  class FdContext {
    const fd: nat
    var events: set<Event>
    var read: Option<Handler>
    var write: Option<Handler>

    constructor (fd: nat)
      ensures this.fd == fd && events == {} && read == None && write == None
    {
      this.fd, events, read, write := fd, {}, None, None;
    }

    function EventContext(e: Event): Option<Handler>
      reads this
    {
      if e == READ then read else write
    }

    method SetEventContext(e: Event, h: Option<Handler>)
      modifies this`read, this`write
      ensures EventContext(e) == h
      ensures if e == READ then read == h && write == old(write) else write == h && read == old(read)
      ensures forall other :: other != e ==> EventContext(other) == old(EventContext(other))
    {
      if e == READ { read := h; } else { write := h; }
    }

    /** Takes on an event and its handler. */
    method Fill(e: Event, h: Handler, ghost registry: map<Key, Handler>)
      requires HoldsOwn(this, registry) && (fd, e) !in registry
      modifies this
      ensures HoldsOwn(this, registry[(fd, e) := h]) && events == old(events) + {e}
    {
      events := events + {e};
      SetEventContext(e, Some(h));
    }

    /** Gives up the event and forgets its handler. */
    method Reset(e: Event, ghost registry: map<Key, Handler>)
      requires HoldsOwn(this, registry)
      modifies this
      ensures HoldsOwn(this, Without(registry, (fd, e))) && events == old(events) - {e}
    {
      events := events - {e};
      SetEventContext(e, None);
    }

    /** Gives up a registered event and its handler, for the handler to be scheduled. */
    method TriggerEvent(e: Event, ghost registry: map<Key, Handler>) returns (h: Handler)
      requires HoldsOwn(this, registry) && (fd, e) in registry
      modifies this
      ensures h == registry[(fd, e)]
      ensures HoldsOwn(this, Without(registry, (fd, e))) && events == old(events) - {e}
    {
      events := events - {e};
      h := EventContext(e).value;
      SetEventContext(e, None);
    }
  }

  type Key = (nat, Event)

  /** What became of a registration. */
  datatype Fate = Registered(at: Key) | Dropped | Scheduled(position: nat)

  /** The books of the registry: the handlers registered in the order they came, what became of each, which
      of them is behind each registered event, and which behind each handler scheduled. */
  datatype Books = Books(handlers: seq<Handler>, fates: seq<Fate>, serials: map<Key, nat>, scheduled: seq<nat>)

  /** Every registration is registered now, dropped, or scheduled exactly once. */
  ghost predicate Balanced(b: Books, registry: map<Key, Handler>, tasks: seq<Handler>) {
    && |b.handlers| == |b.fates| && b.serials.Keys == registry.Keys && |b.scheduled| == |tasks|
    && (forall k :: k in b.serials ==>
          && b.serials[k] < |b.fates| && b.fates[b.serials[k]] == Registered(k)
          && b.handlers[b.serials[k]] == registry[k])
    && (forall p :: 0 <= p < |tasks| ==>
          && b.scheduled[p] < |b.fates| && b.fates[b.scheduled[p]] == Scheduled(p)
          && b.handlers[b.scheduled[p]] == tasks[p])
    && (forall s :: 0 <= s < |b.fates| ==>
          match b.fates[s]
          case Registered(k) => k in b.serials && b.serials[k] == s
          case Scheduled(p) => p < |tasks| && b.scheduled[p] == s
          case Dropped => true)
  }

  function Register(b: Books, k: Key, h: Handler): Books {
    b.(handlers := b.handlers + [h], fates := b.fates + [Registered(k)], serials := b.serials[k := |b.fates|])
  }

  function Without<K(!new), V>(m: map<K, V>, k: K): (r: map<K, V>)
    ensures forall x :: x in r <==> x in m && x != k
    ensures forall x :: x in r ==> r[x] == m[x]
  {
    m - {k}
  }

  function Drop(b: Books, k: Key): Books {
    if k !in b.serials || b.serials[k] >= |b.fates| then b
    else b.(fates := b.fates[b.serials[k] := Dropped], serials := Without(b.serials, k))
  }

  function Schedule(b: Books, k: Key): Books {
    if k !in b.serials || b.serials[k] >= |b.fates| then b
    else b.(fates := b.fates[b.serials[k] := Scheduled(|b.scheduled|)], serials := Without(b.serials, k),
       scheduled := b.scheduled + [b.serials[k]])
  }

  lemma RegisterBalances(b: Books, registry: map<Key, Handler>, tasks: seq<Handler>, k: Key, h: Handler)
    requires Balanced(b, registry, tasks) && k !in registry
    ensures Balanced(Register(b, k, h), registry[k := h], tasks)
  {}

  lemma DropBalances(b: Books, registry: map<Key, Handler>, tasks: seq<Handler>, k: Key)
    requires Balanced(b, registry, tasks) && k in registry
    ensures Balanced(Drop(b, k), Without(registry, k), tasks)
  {
    hide Without;
  }

  lemma RemoveOne<K(!new), V>(m: map<K, V>, k: K)
    requires k in m
    ensures |Without(m, k)| == |m| - 1
  {
    assert (m - {k}).Keys == m.Keys - {k} && |m| == |m.Keys| && |m - {k}| == |(m - {k}).Keys|;
  }

  lemma ScheduleBalances(b: Books, registry: map<Key, Handler>, tasks: seq<Handler>, k: Key)
    requires Balanced(b, registry, tasks) && k in registry
    ensures Balanced(Schedule(b, k), Without(registry, k), tasks + [registry[k]])
  {
    hide Without;
  }

  /** A context holds a handler exactly for the events registered for it, and its mask is the set of them. */
  ghost predicate HoldsOwn(c: FdContext, registry: map<Key, Handler>)
    reads c
  {
    forall e :: && (e in c.events <==> (c.fd, e) in registry)
                && c.EventContext(e) == if (c.fd, e) in registry then Some(registry[(c.fd, e)]) else None
  }

  /** A change at one descriptor is nothing to the contexts of the others. */
  lemma OthersHold(contexts: seq<FdContext>, fd: nat, registry: map<Key, Handler>, registry': map<Key, Handler>)
    requires forall i :: 0 <= i < |contexts| && i != fd ==> contexts[i].fd == i && HoldsOwn(contexts[i], registry)
    requires forall k :: k in registry && k.0 != fd ==> k in registry' && registry'[k] == registry[k]
    requires forall k :: k in registry' && k.0 != fd ==> k in registry
    ensures forall i :: 0 <= i < |contexts| && i != fd ==> HoldsOwn(contexts[i], registry')
  {}

  class IOManager {
    var pendingEventCnt: nat
    var fdContexts: seq<FdContext>
    const scheduler: Schedulers.Scheduler
    /** The kernel's interest mask of each descriptor it watches. */
    var interest: map<nat, set<Event>>
    ghost var registry: map<Key, Handler>
    ghost var books: Books
    /** The handlers triggered, in order, and which of the scheduler's accepted tasks each of them is. */
    ghost var tasks: seq<Handler>
    ghost var posted: seq<nat>

    /** Slot fd is the context of descriptor fd, and the contexts hold the registry. */
    ghost predicate Filled()
      reads this, fdContexts
    {
      && (forall fd :: 0 <= fd < |fdContexts| ==> fdContexts[fd].fd == fd && HoldsOwn(fdContexts[fd], registry))
      && (forall k :: k in registry ==> k.0 < |fdContexts|)
    }

    /** The kernel watches each descriptor for exactly the events in its mask. */
    ghost predicate Mirrored()
      reads this`interest, this`fdContexts, fdContexts
    {
      && (forall fd :: fd in interest ==> fd < |fdContexts| && fdContexts[fd].events == interest[fd] != {})
      && (forall fd :: 0 <= fd < |fdContexts| && fdContexts[fd].events != {} ==> fd in interest)
    }

    ghost predicate MirroredExcept(x: nat)
      reads this`interest, this`fdContexts, fdContexts
    {
      && (forall fd :: fd in interest && fd != x ==> fd < |fdContexts| && fdContexts[fd].events == interest[fd] != {})
      && (forall fd :: 0 <= fd < |fdContexts| && fd != x && fdContexts[fd].events != {} ==> fd in interest)
    }

    ghost predicate Counted()
      reads this
    {
      pendingEventCnt == |registry| && Balanced(books, registry, tasks)
    }

    /** Each handler triggered is a task of its own that the scheduler has accepted. */
    ghost predicate Posted()
      reads this`tasks, this`posted, scheduler
    {
      && scheduler.Valid() && |posted| == |tasks|
      && (forall p :: 0 <= p < |tasks| ==>
            posted[p] < |scheduler.accepted|
              && scheduler.accepted[posted[p]] == Schedulers.Task(tasks[p], Schedulers.ANY_THREAD))
      && (forall p, q :: 0 <= p < q < |tasks| ==> posted[p] < posted[q])
    }

    ghost predicate Valid()
      reads this, fdContexts, scheduler
    {
      |fdContexts| >= 32 && Filled() && Mirrored() && Counted() && Posted()
    }

    /** What the workers do to the scheduler in between changes nothing for the registry. */
    twostate lemma WorkersKeepValid()
      requires old(Valid()) && unchanged(this) && unchanged(fdContexts)
      requires scheduler.Valid() && old(scheduler.accepted) <= scheduler.accepted
      ensures Valid()
    {}

    constructor ()
      ensures Valid() && fresh(fdContexts) && fresh(scheduler) && registry == map[] && tasks == [] && |fdContexts| == 32
    {
      pendingEventCnt, fdContexts, interest := 0, [], map[];
      registry, books, tasks, posted := map[], Books([], [], map[], []), [], [];
      scheduler := new Schedulers.Scheduler();
      new;
      ContextResize(32);
      assert fdContexts[0..] == fdContexts;
    }

    method ContextResize(size: nat)
      requires Filled() && Mirrored() && size >= |fdContexts|
      modifies this`fdContexts
      ensures Filled() && Mirrored() && |fdContexts| == size && fresh(fdContexts[|old(fdContexts)|..])
      ensures old(fdContexts) <= fdContexts
    {
      while |fdContexts| < size
        invariant Filled() && Mirrored() && |fdContexts| <= size && fresh(fdContexts[|old(fdContexts)|..])
        invariant old(fdContexts) <= fdContexts
      {
        var ctx := new FdContext(|fdContexts|);
        fdContexts := fdContexts + [ctx];
      }
    }

    /** A call the kernel would accept; whether it does is up to the caller's parameter. */
    method EpollCtl(op: Operation, fd: nat, mask: set<Event>, ok: bool) returns (ret: int)
      requires op == ADD <==> fd !in interest
      requires op != DEL ==> mask != {}
      modifies this`interest
      ensures ret == 0 <==> ok
      ensures interest == if !ok then old(interest) else if op == DEL then old(interest) - {fd}
          else old(interest)[fd := mask]
    {
      if !ok { return -1; }
      if op == DEL { interest := interest - {fd}; } else { interest := interest[fd := mask]; }
      ret := 0;
    }

    lemma MaskIsRegistered(fd: nat)
      requires Filled() && fd < |fdContexts|
      ensures fdContexts[fd].events == MaskOf(registry, fd)
          && forall e :: e in fdContexts[fd].events ==> (fd, e) in registry
    {
      assert HoldsOwn(fdContexts[fd], registry);
    }

    /** Makes sure that the descriptor has a context. */
    method FindContext(fd: nat)
      requires Valid()
      modifies this`fdContexts
      ensures Valid() && fd < |fdContexts| && forall c :: c in fdContexts ==> c in old(fdContexts) || fresh(c)
      ensures |fdContexts| == if fd < |old(fdContexts)| then |old(fdContexts)| else fd + fd / 2
    {
      hide Balanced;
      if |fdContexts| <= fd {
        ContextResize(fd + fd / 2);
        assert fdContexts == old(fdContexts) + fdContexts[|old(fdContexts)|..];
      }
    }

    /** Registers a handler for an event, the given callback or else the running fiber. The process stops when
        the event is registered already; -1 means the kernel refused. */
    method AddEvent(fd: nat, e: Event, cb: Option<nat>, current: nat, ok: bool) returns (ret: Option<int>)
      requires Valid()
      modifies this, fdContexts
      ensures Valid() && tasks == old(tasks) && forall c :: c in fdContexts ==> c in old(fdContexts) || fresh(c)
      ensures |fdContexts| == if fd < |old(fdContexts)| then |old(fdContexts)| else fd + fd / 2
      ensures ret == if (fd, e) in old(registry) then None else if ok then Some(0) else Some(-1)
      ensures var h := if cb.Some? then Schedulers.Callback(cb.value) else Schedulers.Fiber(current);
              if ret == Some(0) then registry == old(registry)[(fd, e) := h]
                && books == Register(old(books), (fd, e), h)
              else registry == old(registry) && books == old(books)
    {
      hide Balanced, Posted, HoldsOwn, Filled, Mirrored, Counted;
      FindContext(fd);
      assert fdContexts[fd] in fdContexts;
      ret := AddTo(fd, e, if cb.Some? then Schedulers.Callback(cb.value) else Schedulers.Fiber(current), ok);
    }

    method AddTo(fd: nat, e: Event, h: Handler, ok: bool) returns (ret: Option<int>)
      requires Valid() && fd < |fdContexts|
      modifies this`pendingEventCnt, this`interest, this`registry, this`books, fdContexts[fd]
      ensures Valid() && ret == if (fd, e) in old(registry) then None else if ok then Some(0) else Some(-1)
      ensures if ret == Some(0) then registry == old(registry)[(fd, e) := h]
          && books == Register(old(books), (fd, e), h)
              else registry == old(registry) && books == old(books)
    {
      hide Balanced, Posted, HoldsOwn;
      MaskIsRegistered(fd);
      var ctx := fdContexts[fd];
      if e in ctx.events {
        return None;
      }
      var op := if ctx.events != {} then MOD else ADD;
      var failed := EpollCtl(op, fd, ctx.events + {e}, ok);
      if failed != 0 {
        return Some(-1);
      }
      FillContext(fd, e, h);
      ret := Some(0);
    }

    /** Enters a handler, once the kernel watches for its event too. */
    method FillContext(fd: nat, e: Event, h: Handler)
      requires Filled() && Counted() && MirroredExcept(fd) && fd < |fdContexts| && (fd, e) !in registry
      requires fd in interest && interest[fd] == fdContexts[fd].events + {e}
      modifies this`registry, this`books, this`pendingEventCnt, fdContexts[fd]
      ensures Filled() && Counted() && Mirrored()
      ensures registry == old(registry)[(fd, e) := h] && books == Register(old(books), (fd, e), h)
    {
      hide Balanced, HoldsOwn, Without;
      var ctx := fdContexts[fd];
      pendingEventCnt := pendingEventCnt + 1;
      ctx.Fill(e, h, registry);
      OthersHold(fdContexts, fd, registry, registry[(fd, e) := h]);
      RegisterBalances(books, registry, tasks, (fd, e), h);
      registry, books := registry[(fd, e) := h], Register(books, (fd, e), h);
    }

    /** Empties the context of an event that is gone from the mask; its handler is dropped. */
    method DropContext(fd: nat, e: Event)
      requires Filled() && Counted() && MirroredExcept(fd) && fd < |fdContexts| && (fd, e) in registry
      modifies this`registry, this`books, this`pendingEventCnt, fdContexts[fd]
      ensures Filled() && Counted() && MirroredExcept(fd) && fdContexts[fd].events == old(fdContexts[fd].events) - {e}
      ensures registry == Without(old(registry), (fd, e))
      ensures books == Drop(old(books), (fd, e))
    {
      hide Balanced, HoldsOwn, Without;
      var ctx := fdContexts[fd];
      pendingEventCnt := pendingEventCnt - 1;
      ctx.Reset(e, registry);
      OthersHold(fdContexts, fd, registry, Without(registry, (fd, e)));
      RemoveOne(registry, (fd, e));
      DropBalances(books, registry, tasks, (fd, e));
      registry, books := Without(registry, (fd, e)), Drop(books, (fd, e));
    }

    /** Triggers an event: its handler goes to the scheduler. */
    method TriggerEvent(fd: nat, e: Event)
      requires Filled() && Counted() && Posted() && MirroredExcept(fd) && fd < |fdContexts| && (fd, e) in registry
      modifies this`registry, this`books, this`pendingEventCnt, this`tasks, this`posted, fdContexts[fd], scheduler
      ensures Posted() && Filled() && Counted() && MirroredExcept(fd)
          && fdContexts[fd].events == old(fdContexts[fd].events) - {e}
      ensures registry == Without(old(registry), (fd, e)) && tasks == old(tasks) + [old(registry)[(fd, e)]]
      ensures books == Schedule(old(books), (fd, e))
    {
      hide Balanced, HoldsOwn, Without, Schedule, Posted;
      var h := fdContexts[fd].TriggerEvent(e, registry);
      OthersHold(fdContexts, fd, registry, Without(registry, (fd, e)));
      RemoveOne(registry, (fd, e));
      ScheduleBalances(books, registry, tasks, (fd, e));
      Post(h);
      pendingEventCnt := pendingEventCnt - 1;
      registry, books := Without(registry, (fd, e)), Schedule(books, (fd, e));
    }

    /** Hands a handler to the scheduler, for any thread. */
    method Post(h: Handler)
      requires Posted()
      modifies this`tasks, this`posted, scheduler
      ensures Posted() && tasks == old(tasks) + [h] && old(scheduler.accepted) < scheduler.accepted
    {
      tasks, posted := tasks + [h], posted + [|scheduler.accepted|];
      var needTickle := scheduler.Schedule(Schedulers.Task(h, Schedulers.ANY_THREAD), false);
    }

    /** Forgets an event and its handler; false when it was not registered or the kernel refused. */
    method DelEvent(fd: nat, e: Event, ok: bool) returns (done: bool)
      requires Valid()
      modifies this, fdContexts
      ensures Valid() && tasks == old(tasks) && fdContexts == old(fdContexts)
      ensures done == ((fd, e) in old(registry) && ok)
      ensures done ==> registry == Without(old(registry), (fd, e)) && books == Drop(old(books), (fd, e))
      ensures !done ==> registry == old(registry) && books == old(books)
    {
      hide Balanced, Filled, Posted, Mirrored, MirroredExcept, WatchedFor;
      done := Unwatch(fd, e, ok);
      if done {
        DropContext(fd, e);
        MirroredAgain(fd);
      }
    }

    /** Forgets an event and schedules its handler. */
    method CancelEvent(fd: nat, e: Event, ok: bool) returns (done: bool)
      requires Valid()
      modifies this, fdContexts, scheduler
      ensures Valid() && fdContexts == old(fdContexts)
      ensures done == ((fd, e) in old(registry) && ok)
      ensures done ==> registry == Without(old(registry), (fd, e)) && tasks == old(tasks) + [old(registry)[(fd, e)]]
      ensures !done ==> registry == old(registry) && books == old(books) && tasks == old(tasks)
    {
      hide Balanced, Filled, Posted, Mirrored, MirroredExcept, WatchedFor;
      done := Unwatch(fd, e, ok);
      if done {
        TriggerEvent(fd, e);
        MirroredAgain(fd);
      }
    }

    /** Asks the kernel to watch a registered descriptor for fewer events. */
    method Rewatch(fd: nat, rest: set<Event>, ok: bool) returns (done: bool)
      requires Valid() && fd < |fdContexts| && fdContexts[fd].events != {}
      modifies this`interest
      ensures done == ok
      ensures done ==>
          |fdContexts| >= 32 && Filled() && Counted() && Posted() && MirroredExcept(fd) && WatchedFor(fd, rest)
      ensures !done ==> Valid()
    {
      hide Balanced, HoldsOwn;
      var ret := EpollCtl(if rest != {} then MOD else DEL, fd, rest, ok);
      done := ret == 0;
    }

    ghost predicate WatchedFor(fd: nat, mask: set<Event>)
      reads this`interest
    {
      if mask == {} then fd !in interest else fd in interest && interest[fd] == mask
    }

    /** With the mask down to what the kernel watches, the descriptor is mirrored too. */
    lemma MirroredAgain(fd: nat)
      requires MirroredExcept(fd) && fd < |fdContexts| && WatchedFor(fd, fdContexts[fd].events)
      ensures Mirrored()
    {}

    /** Takes one event out of the kernel's mask, when it is registered and the kernel agrees. */
    method Unwatch(fd: nat, e: Event, ok: bool) returns (done: bool)
      requires Valid()
      modifies this`interest
      ensures done == ((fd, e) in registry && ok)
      ensures done ==> fd < |fdContexts| && Filled() && Counted() && Posted() && MirroredExcept(fd)
      ensures done ==> WatchedFor(fd, fdContexts[fd].events - {e})
      ensures !done ==> Valid()
    {
      hide Balanced;
      if |fdContexts| <= fd { return false; }
      var ctx := fdContexts[fd];
      if e !in ctx.events { return false; }
      done := Rewatch(fd, ctx.events - {e}, ok);
    }

    /** Triggers registered events of one descriptor, reading before writing. */
    method TriggerAll(fd: nat, which: set<Event>)
      requires Filled() && Counted() && Posted() && MirroredExcept(fd) && fd < |fdContexts|
      requires forall e :: e in which ==> (fd, e) in registry
      modifies this`registry, this`books, this`pendingEventCnt, this`tasks, this`posted, fdContexts[fd], scheduler
      ensures Posted() && Filled() && Counted() && MirroredExcept(fd)
      ensures fdContexts[fd].events == old(fdContexts[fd].events) - which
      ensures registry == WithoutAll(old(registry), fd, which)
      ensures tasks == old(tasks) + HandlersOf(old(registry), fd, which)
    {
      hide Filled, Counted, Without, Posted, MirroredExcept, WithoutAll, HandlersOf;
      if READ in which {
        TriggerEvent(fd, READ);
      }
      if WRITE in which {
        TriggerEvent(fd, WRITE);
      }
      TakenInTurn(old(registry), fd, which);
    }

    /** Forgets all events of a descriptor and schedules their handlers. */
    method CancelAll(fd: nat, ok: bool) returns (done: bool)
      requires Valid()
      modifies this, fdContexts, scheduler
      ensures Valid() && fdContexts == old(fdContexts)
      ensures done == (MaskOf(old(registry), fd) != {} && ok)
      ensures var mask := if done then MaskOf(old(registry), fd) else {};
              registry == WithoutAll(old(registry), fd, mask)
                && tasks == old(tasks) + HandlersOf(old(registry), fd, mask)
      ensures done ==> TakesOut(old(registry), registry, fd, {READ, WRITE})
      ensures done ==>
          tasks == old(tasks) + HandlerAt(old(registry), (fd, READ)) + HandlerAt(old(registry), (fd, WRITE))
    {
      hide Balanced, Without, WithoutAll, HandlersOf, HoldsOwn, MaskOf, Filled, Counted, Mirrored, MirroredExcept,
        Posted, TakesOut, HandlerAt;
      NothingTaken(registry, fd);
      AllTaken(registry, fd);
      if |fdContexts| <= fd {
        NoMask(fd);
        return false;
      }
      MaskIsRegistered(fd);
      var ctx := fdContexts[fd];
      if ctx.events == {} { return false; }
      done := Rewatch(fd, {}, ok);
      if !done { return; }
      TriggerAll(fd, ctx.events);
      assert fdContexts[fd].events == {};
      MirroredAgain(fd);
    }

    lemma NoMask(fd: nat)
      requires Filled() && |fdContexts| <= fd
      ensures MaskOf(registry, fd) == {}
    {}

    /** One event the kernel reports: with an error, everything registered has happened. Reported events that
        are registered are taken out of the mask and triggered. The process stops when something else was
        reported together with a registered event. */
    method Dispatch(fd: nat, reported: set<Event>, error: bool, ok: bool) returns (panicked: bool)
      requires Valid() && fd < |fdContexts|
      modifies this, fdContexts, scheduler
      ensures var taken := Taken(old(registry), fd, reported, error, ok);
              && panicked == !(taken <= MaskOf(old(registry), fd))
              && (!panicked ==>
                    && Valid() && fdContexts == old(fdContexts)
                    && registry == WithoutAll(old(registry), fd, taken)
                    && tasks == old(tasks) + HandlersOf(old(registry), fd, taken))
      ensures (ok ==> forall e :: (fd, e) in old(registry) ==> !error && e !in reported) ==>
                !panicked && registry == old(registry) && tasks == old(tasks)
      ensures ok && (exists e :: (fd, e) in old(registry) && (error || e in reported)) ==>
                (panicked <==> exists e :: e in reported && (fd, e) !in old(registry))
      ensures ok && !panicked && error ==>
                && TakesOut(old(registry), registry, fd, {READ, WRITE})
                && tasks == old(tasks) + HandlerAt(old(registry), (fd, READ)) + HandlerAt(old(registry), (fd, WRITE))
      ensures ok && !panicked && !error ==>
                && TakesOut(old(registry), registry, fd, reported)
                && tasks == old(tasks)
                     + (if READ in reported then HandlerAt(old(registry), (fd, READ)) else [])
                     + (if WRITE in reported then HandlerAt(old(registry), (fd, WRITE)) else [])
    {
      hide IOManager.Valid, Taken, WithoutAll, HandlersOf, MaskOf, TakesOut, HandlerAt;
      TakenMeans(registry, fd, reported, error, ok);
      MaskOfContext(fd);
      var happened := reported + if error then fdContexts[fd].events else {};
      panicked := TakeHappened(fd, happened, ok);
      TakenTogether(old(registry), fd, reported, error, ok);
    }

    lemma MaskOfContext(fd: nat)
      requires Valid() && fd < |fdContexts|
      ensures fdContexts[fd].events == MaskOf(registry, fd)
    {
      hide MaskOf;
      MaskIsRegistered(fd);
    }

    /** Takes what has happened out of the mask and triggers it, if any of it is registered and the kernel agrees. */
    method TakeHappened(fd: nat, happened: set<Event>, ok: bool) returns (panicked: bool)
      requires Valid() && fd < |fdContexts|
      modifies this, fdContexts, scheduler
      ensures var taken := Taken(old(registry), fd, happened, false, ok);
              && panicked == !(taken <= MaskOf(old(registry), fd))
              && (!panicked ==>
                    && Valid() && fdContexts == old(fdContexts)
                    && registry == WithoutAll(old(registry), fd, taken)
                    && tasks == old(tasks) + HandlersOf(old(registry), fd, taken))
    {
      hide Balanced, Without, WithoutAll, HandlersOf, HoldsOwn, MaskOf, Filled, Counted, Mirrored, MirroredExcept;
      NothingTaken(registry, fd);
      MaskIsRegistered(fd);
      assert happened + {} == happened;
      var ctx := fdContexts[fd];
      if ctx.events * happened == {} { return false; }
      var done := Rewatch(fd, ctx.events - happened, ok);
      if !done { return false; }
      if !(happened <= ctx.events) {
        return true;
      }
      TriggerAll(fd, happened);
      MirroredAgain(fd);
      panicked := false;
    }

    /** All the kernel has reported after one wait. */
    method DispatchAll(ready: seq<Ready>) returns (panicked: bool)
      requires Valid() && forall i :: 0 <= i < |ready| && ready[i].Reported? ==> ready[i].fd < |fdContexts|
      modifies this, fdContexts, scheduler
      ensures !panicked ==>
                && Valid() && registry == Dispatched(ready, old(registry)).0
                && tasks == old(tasks) + Dispatched(ready, old(registry)).1
      ensures panicked <==> Stops(ready, old(registry))
    {
      hide Valid, HandlersOf, Taken, MaskOf, WithoutAll;
      panicked := false;
      var i := 0;
      while i < |ready|
        invariant 0 <= i <= |ready| && Valid() && fdContexts == old(fdContexts)
        invariant registry == Dispatched(ready[..i], old(registry)).0
        invariant tasks == old(tasks) + Dispatched(ready[..i], old(registry)).1
        invariant forall j :: 0 <= j < i ==> !StopsAt(ready, j, old(registry))
      {
        assert ready[..i + 1][..i] == ready[..i];
        if ready[i].Reported? {
          panicked := Dispatch(ready[i].fd, ready[i].events, ready[i].error, ready[i].ok);
          if panicked {
            assert StopsAt(ready, i, old(registry));
            return;
          }
        }
        i := i + 1;
      }
      assert ready[..i] == ready;
    }

    /** This registration was dropped, or its handler is a task of its own that a worker has resumed. */
    ghost predicate Settled(s: nat)
      reads this, scheduler
    {
      s < |books.fates| == |books.handlers| &&
      match books.fates[s]
      case Registered(_) => false
      case Dropped => true
      case Scheduled(p) =>
        && p < |posted| && posted[p] < |scheduler.accepted| == |scheduler.fates|
        && scheduler.accepted[posted[p]].work == books.handlers[s] && scheduler.fates[posted[p]].Finished?
    }

    /** Stopping needs no armed timer, no registered event and a scheduler that may stop: then the kernel
        watches nothing, and every handler ever registered was dropped, or scheduled once and resumed once. */
    method Stopping(timers: TimerManager, now: nat) returns (r: bool)
      requires Valid() && timers.Valid()
      modifies timers`tickled, timers`woken, timers`lapsed, timers`promised, timers`clock
      ensures Valid() && timers.Valid()
      ensures r <==>
          && (forall t :: t in timers.managed ==> t.cb == None) && registry == map[] && scheduler.isStopped
          && (forall s :: 0 <= s < |scheduler.fates| ==> scheduler.fates[s].Finished?)
          && forall w :: w in scheduler.hands ==> scheduler.hands[w] == Schedulers.Looking
      ensures r ==> interest == map[] && forall s :: 0 <= s < |books.fates| ==> Settled(s)
    {
      hide Balanced, Filled, Posted, Settled;
      var timeout := timers.GetNextTimer(now);
      NoneArmed(timers);
      assert |registry| == 0 <==> registry == map[];
      r := false;
      if timeout == None && pendingEventCnt == 0 {
        r := Idle();
      }
    }

    lemma NoneArmed(timers: TimerManager)
      requires timers.Valid()
      ensures timers.timers == [] <==> forall t :: t in timers.managed ==> t.cb == None
    {
      if timers.timers != [] { assert timers.timers[0] in timers.timers; }
    }

    /** With nothing registered, the scheduler may stop only when every handler is settled. */
    method Idle() returns (r: bool)
      requires Valid() && registry == map[]
      ensures r <==>
          && scheduler.isStopped && (forall s :: 0 <= s < |scheduler.fates| ==> scheduler.fates[s].Finished?)
          && forall w :: w in scheduler.hands ==> scheduler.hands[w] == Schedulers.Looking
      ensures r ==> interest == map[] && forall s :: 0 <= s < |books.fates| ==> Settled(s)
    {
      FinishedOnTheirThreads();
      r := scheduler.Stopping();
      NothingWatched();
    }

    lemma FinishedOnTheirThreads()
      requires Posted()
      ensures forall s :: 0 <= s < |scheduler.fates| && scheduler.fates[s].Finished? ==>
                && s < |scheduler.accepted|
                && (scheduler.accepted[s].thread == -1 || scheduler.accepted[s].thread == scheduler.fates[s].worker)
    {}

    lemma NothingWatched()
      requires Filled() && Mirrored() && registry == map[]
      ensures interest == map[]
    {
      forall fd | 0 <= fd < |fdContexts| ensures fdContexts[fd].events == {} {
        assert HoldsOwn(fdContexts[fd], registry);
        assert forall e :: e !in fdContexts[fd].events;
      }
    }
  }

  /** One entry of what epoll_wait returns: the wake-up pipe, or a descriptor. */
  datatype Ready = Tickle | Reported(fd: nat, events: set<Event>, error: bool, ok: bool)

  /** epoll_wait reports a descriptor once. */
  ghost predicate OneReportEach(ready: seq<Ready>) {
    forall i, j :: 0 <= i < j < |ready| && ready[i].Reported? && ready[j].Reported? ==> ready[i].fd != ready[j].fd
  }

  /** No descriptor is reported twice, and none for more than it is registered for. */
  ghost predicate Expected(ready: seq<Ready>, registry: map<Key, Handler>) {
    && OneReportEach(ready)
    && (forall i :: 0 <= i < |ready| && ready[i].Reported? ==> ready[i].events <= MaskOf(registry, ready[i].fd))
  }

  /** The events that one report takes: all that happened, if any of it is registered and the kernel agrees. */
  ghost function Taken(registry: map<Key, Handler>, fd: nat, reported: set<Event>, error: bool, ok: bool): set<Event> {
    var mask := MaskOf(registry, fd);
    var happened := reported + if error then mask else {};
    if happened * mask == {} || !ok then {} else happened
  }

  /** What is left registered after all reports, and the handlers they scheduled, in order. */
  ghost function Dispatched(ready: seq<Ready>, registry: map<Key, Handler>): (map<Key, Handler>, seq<Handler>) {
    if ready == [] then (registry, [])
    else
      var last := ready[|ready| - 1];
      var (left, handlers) := Dispatched(ready[..|ready| - 1], registry);
      if last.Tickle? then (left, handlers)
      else
        var taken := Taken(left, last.fd, last.events, last.error, last.ok);
        (WithoutAll(left, last.fd, taken), handlers + HandlersOf(left, last.fd, taken))
  }

  /** Report i, after those before it, takes more than is registered. */
  ghost predicate StopsAt(ready: seq<Ready>, i: nat, registry: map<Key, Handler>)
    requires i < |ready|
  {
    ready[i].Reported? && TakesTooMuch(ready[i], Dispatched(ready[..i], registry).0)
  }

  ghost predicate TakesTooMuch(r: Ready, registry: map<Key, Handler>)
    requires r.Reported?
  {
    !(Taken(registry, r.fd, r.events, r.error, r.ok) <= MaskOf(registry, r.fd))
  }

  /** The process stops in the course of these reports. */
  ghost predicate Stops(ready: seq<Ready>, registry: map<Key, Handler>) {
    exists i :: 0 <= i < |ready| && StopsAt(ready, i, registry)
  }

  /** What is registered for a descriptor that has not been reported is what was. */
  lemma {:induction false} OtherMasksStay(ready: seq<Ready>, registry: map<Key, Handler>, fd: nat)
    requires forall i :: 0 <= i < |ready| && ready[i].Reported? ==> ready[i].fd != fd
    ensures MaskOf(Dispatched(ready, registry).0, fd) == MaskOf(registry, fd)
  {
    if ready != [] { OtherMasksStay(ready[..|ready| - 1], registry, fd); }
  }

  /** So with one report each the process stops exactly when, of what is registered before the first of them,
      some report takes a registered event together with one that is not; expected reports never stop it. */
  lemma StopsIff(ready: seq<Ready>, registry: map<Key, Handler>)
    requires OneReportEach(ready)
    ensures Stops(ready, registry) <==>
        exists i :: 0 <= i < |ready| && ready[i].Reported? && TakesTooMuch(ready[i], registry)
    ensures Expected(ready, registry) ==> !Stops(ready, registry)
  {
    forall i | 0 <= i < |ready| && ready[i].Reported?
      ensures StopsAt(ready, i, registry) <==> TakesTooMuch(ready[i], registry)
    {
      OtherMasksStay(ready[..i], registry, ready[i].fd);
      hide Dispatched;
    }
  }

  ghost function MaskOf(registry: map<Key, Handler>, fd: nat): set<Event> {
    set e: Event | (fd, e) in registry
  }

  ghost function WithoutAll(registry: map<Key, Handler>, fd: nat, which: set<Event>): map<Key, Handler> {
    map k | k in registry && !(k.0 == fd && k.1 in which) :: registry[k]
  }

  /** The handlers of these events, reading before writing. */
  ghost function HandlersOf(registry: map<Key, Handler>, fd: nat, which: set<Event>): seq<Handler> {
    (if READ in which && (fd, READ) in registry then [registry[(fd, READ)]] else [])
    + (if WRITE in which && (fd, WRITE) in registry then [registry[(fd, WRITE)]] else [])
  }

  /** These events of one descriptor are no longer registered; everything else is as it was. */
  ghost predicate TakesOut(registry: map<Key, Handler>, registry': map<Key, Handler>, fd: nat, events: set<Event>) {
    && (forall k :: k in registry' <==> k in registry && (k.0 == fd ==> k.1 !in events))
    && forall k :: k in registry' ==> registry'[k] == registry[k]
  }

  /** The handler of an event, if it has one. */
  ghost function HandlerAt(registry: map<Key, Handler>, k: Key): seq<Handler> {
    if k in registry then [registry[k]] else []
  }

  /** What one report takes: with an error everything that is registered, else what was reported and is. */
  lemma TakenMeans(registry: map<Key, Handler>, fd: nat, reported: set<Event>, error: bool, ok: bool)
    ensures var taken := Taken(registry, fd, reported, error, ok);
            var left, handlers := WithoutAll(registry, fd, taken), HandlersOf(registry, fd, taken);
            var some := exists e :: (fd, e) in registry && (error || e in reported);
            && (!ok || !some ==> taken <= MaskOf(registry, fd) && left == registry && handlers == [])
            && (ok && some ==>
                  (taken <= MaskOf(registry, fd) <==> forall e :: e in reported ==> (fd, e) in registry))
            && (ok && error && taken <= MaskOf(registry, fd) ==>
                  && TakesOut(registry, left, fd, {READ, WRITE})
                  && handlers == HandlerAt(registry, (fd, READ)) + HandlerAt(registry, (fd, WRITE)))
            && (ok && !error ==>
                  && TakesOut(registry, left, fd, reported)
                  && handlers == (if READ in reported then HandlerAt(registry, (fd, READ)) else [])
                                 + (if WRITE in reported then HandlerAt(registry, (fd, WRITE)) else []))
  {
    BothEvents(registry);
  }

  lemma TakenTogether(registry: map<Key, Handler>, fd: nat, reported: set<Event>, error: bool, ok: bool)
    ensures Taken(registry, fd, reported, error, ok)
            == Taken(registry, fd, reported + if error then MaskOf(registry, fd) else {}, false, ok)
  {
    var happened := reported + if error then MaskOf(registry, fd) else {};
    assert happened + {} == happened;
  }

  lemma BothEvents(registry: map<Key, Handler>)
    ensures forall k :: k in registry ==> k.1 in {READ, WRITE}
  {
    forall k | k in registry ensures k.1 in {READ, WRITE} { assert k.1 == READ || k.1 == WRITE; }
  }

  lemma AllTaken(registry: map<Key, Handler>, fd: nat)
    ensures var mask := MaskOf(registry, fd);
            && TakesOut(registry, WithoutAll(registry, fd, mask), fd, {READ, WRITE})
            && HandlersOf(registry, fd, mask) == HandlerAt(registry, (fd, READ)) + HandlerAt(registry, (fd, WRITE))
  {
    BothEvents(registry);
  }

  /** Taking the events one after the other, reading first, is taking them all. */
  lemma TakenInTurn(registry: map<Key, Handler>, fd: nat, which: set<Event>)
    requires forall e :: e in which ==> (fd, e) in registry
    ensures var m := if READ in which then Without(registry, (fd, READ)) else registry;
            var m' := if WRITE in which then Without(m, (fd, WRITE)) else m;
            && m' == WithoutAll(registry, fd, which)
            && HandlersOf(registry, fd, which)
               == (if READ in which then [registry[(fd, READ)]] else [])
                 + (if WRITE in which then [m[(fd, WRITE)]] else [])
    ensures forall e :: e in which <==> (e == READ && READ in which) || (e == WRITE && WRITE in which)
  {
    var m := if READ in which then Without(registry, (fd, READ)) else registry;
    var m' := if WRITE in which then Without(m, (fd, WRITE)) else m;
    forall k: Key ensures k in m' <==> k in WithoutAll(registry, fd, which) {
      assert k == (k.0, k.1) && (k.1 == READ || k.1 == WRITE);
    }
    assert m' == WithoutAll(registry, fd, which);
  }

  lemma NothingTaken(registry: map<Key, Handler>, fd: nat)
    ensures WithoutAll(registry, fd, {}) == registry && HandlersOf(registry, fd, {}) == []
  {
    assert WithoutAll(registry, fd, {}) == registry;
  }
}
