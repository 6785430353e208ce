/** Timers and the ordered set that holds the armed ones. The clock is a parameter of every operation that
    reads it; a callback is a number. */
module Timers {
  import opened Wrappers

  type Callback = nat

  const ROLLOVER_MS := 60 * 60 * 1000

  class Timer {
    /** The timer's address, by which timers of one deadline are ordered. */
    const id: nat
    const recurring: bool
    var ms: nat
    var next: int
    var cb: Option<Callback>

    constructor (id: nat, ms: nat, cb: Callback, recurring: bool, now: nat)
      ensures this.id == id && this.recurring == recurring && this.ms == ms && next == now + ms && this.cb == Some(cb)
    {
      this.id, this.recurring, this.ms, this.next, this.cb := id, recurring, ms, now + ms, Some(cb);
    }
  }

  /** The order of the set: by deadline, then by address. */
  predicate Before(a: Timer, b: Timer)
    reads a, b
  {
    IsBefore(a.next, a.id, b.next, b.id)
  }

  ghost predicate Sorted(s: seq<Timer>)
    reads s
  {
    forall i, j :: 0 <= i < j < |s| ==> Before(s[i], s[j])
  }

  /** The clock has gone back by more than an hour. The subtraction is unsigned, so with less than an hour on
      the clock any step back counts. */
  predicate RolledOver(previous: nat, now: nat) {
    now < previous && (previous < ROLLOVER_MS || now < previous - ROLLOVER_MS)
  }

  twostate predicate Same(t: Timer)
    reads t
  {
    t.ms == old(t.ms) && t.next == old(t.next) && t.cb == old(t.cb)
  }

  /** What expiry at time now leaves of a timer. */
  twostate predicate Fired(t: Timer, now: nat)
    reads t
  {
    && t.ms == old(t.ms)
    && (if t.recurring then t.cb == old(t.cb) && t.next == now + t.ms else t.cb == None && t.next == old(t.next))
  }

  class TimerManager {
    var timers: seq<Timer>
    var tickled: bool
    var previous: nat
    /** Every timer created here. */
    ghost var managed: set<Timer>
    /** The latest of all times read. Readings may be used in another order than they were made: addTimer and
        listExpiredCb read the clock before they take the lock. */
    ghost var clock: nat
    /** The earliest deadline when getNextTimer was last called, None for no timer; whether OnTimerInsertedAtFront
        has been called since; and whether, without that, a timer has been armed for before that deadline. */
    ghost var promised: Option<int>
    ghost var woken: bool
    ghost var lapsed: bool

    /** The set is in order, and no two timers share an address. */
    ghost predicate Ordered()
      reads this`timers, this`managed, timers
    {
      && (forall t :: t in timers ==> t in managed) && Sorted(timers)
      && (forall a, b :: a in managed && b in managed && a.id == b.id ==> a == b)
    }

    /** The timers with a callback are in the set, and no others. */
    ghost predicate Armed()
      reads this`timers, this`managed, managed
    {
      forall t :: t in managed ==> (t.cb.Some? <==> t in timers)
    }

    /** The same but for a timer that is being moved, which is out of the set. */
    ghost predicate ArmedBut(x: Timer)
      reads this`timers, this`managed, managed
    {
      x !in timers && forall t :: t in managed && t != x ==> (t.cb.Some? <==> t in timers)
    }

    /** No armed timer is due before the deadline that getNextTimer last saw. */
    ghost predicate OnTime()
      reads this`timers, this`promised, timers
    {
      forall t :: t in timers ==> promised.Some? && promised.value <= t.next
    }

    /** A deadline is before the one that getNextTimer last saw. */
    ghost predicate TooEarly(deadline: int)
      reads this`promised
    {
      promised.Some? && deadline < promised.value
    }

    /** Some recurring timer, armed again at time now, would be due before what getNextTimer last saw. */
    ghost predicate RearmsTooEarly(now: nat)
      reads this`timers, this`promised, timers
    {
      exists t :: t in timers && t.recurring && TooEarly(now + t.ms)
    }

    /** No armed timer was set in the future, and unless OnTimerInsertedAtFront has been called, or the promise has
        lapsed, none is due before what getNextTimer last saw. */
    ghost predicate NoLostWakeUp()
      reads this, timers
    {
      && tickled == woken && previous <= clock
      && (forall t :: t in timers ==> t.next - t.ms <= clock)
      && (!woken && !lapsed ==> OnTime())
    }

    ghost predicate Valid()
      reads this, managed, timers
    {
      Ordered() && Armed() && NoLostWakeUp()
    }

    constructor (now: nat)
      ensures Valid() && timers == [] && managed == {} && !woken && !lapsed && clock == previous == now
    {
      timers, tickled, previous := [], false, now;
      managed, clock, promised, woken, lapsed := {}, now, None, false, false;
    }

    /** Using a reading of the clock. */
    ghost method Read(now: nat)
      modifies this`clock
      ensures clock == if old(clock) <= now then now else old(clock)
      ensures old(NoLostWakeUp()) ==> NoLostWakeUp()
    {
      clock := if clock <= now then now else clock;
    }

    /** The number of members that the comparator puts before a deadline and address. */
    method LowerBound(next: int, id: nat) returns (k: nat)
      requires Ordered()
      ensures k <= |timers|
      ensures forall i :: 0 <= i < k ==> IsBefore(timers[i].next, timers[i].id, next, id)
      ensures forall i :: k <= i < |timers| ==> !IsBefore(timers[i].next, timers[i].id, next, id)
    {
      k := 0;
      while k < |timers| && IsBefore(timers[k].next, timers[k].id, next, id)
        invariant k <= |timers| && forall i :: 0 <= i < k ==> IsBefore(timers[i].next, timers[i].id, next, id)
      {
        k := k + 1;
      }
    }

    /** Looking a timer up by its present deadline finds it exactly when it is a member. */
    method Find(t: Timer) returns (k: nat)
      requires Ordered() && t in managed
      ensures k <= |timers| && (k < |timers| ==> timers[k] == t)
      ensures t in timers <==> k < |timers|
    {
      k := LowerBound(t.next, t.id);
      if k < |timers| && IsBefore(t.next, t.id, timers[k].next, timers[k].id) {
        k := |timers|;
      }
    }

    method Erase(k: nat)
      requires Ordered() && k < |timers|
      modifies this`timers
      ensures timers == old(timers)[..k] + old(timers)[k + 1..] && Ordered()
      ensures forall u :: u in timers <==> u in old(timers) && u != old(timers)[k]
    {
      timers := timers[..k] + timers[k + 1..];
    }

    method Insert(t: Timer) returns (k: nat)
      requires Ordered() && t in managed && t !in timers
      modifies this`timers
      ensures k <= |old(timers)| && timers == old(timers)[..k] + [t] + old(timers)[k..] && Ordered()
      ensures forall u :: u in timers <==> u in old(timers) || u == t
    {
      k := LowerBound(t.next, t.id);
      Between(timers, k, t);
      timers := timers[..k] + [t] + timers[k..];
    }

    /** Takes a timer out for good; a timer without a callback is left alone. */
    method Cancel(t: Timer) returns (ok: bool)
      requires Valid() && t in managed
      modifies this`timers, t`cb
      ensures Valid() && ok == old(t.cb).Some? && t.cb == None
      ensures forall u :: u in timers <==> u in old(timers) && u != t
    {
      if t.cb == None { return false; }
      t.cb := None;
      var k := Find(t);
      Erase(k);
      ok := true;
    }

    /** Moves an armed timer's deadline to its full interval from now. Nobody is told; with the clock read under
        the lock, and so no earlier than any reading used before, the deadline never moves earlier. */
    method Refresh(t: Timer, now: nat) returns (ok: bool)
      requires Valid() && t in managed
      modifies this`timers, this`clock, this`lapsed, t`next
      ensures Valid() && ok == t.cb.Some?
      ensures t.next == if ok then now + t.ms else old(t.next)
      ensures forall u :: u in timers <==> u in old(timers)
      ensures old(clock) <= now ==> t.next >= old(t.next) && lapsed == old(lapsed)
      ensures old(!woken && !lapsed) ==> (OnTime() <==> !(ok && TooEarly(now + t.ms)))
      ensures lapsed == (old(lapsed) || (ok && !woken && TooEarly(now + t.ms)))
    {
      hide Sorted, IsBefore;
      if t.cb == None { return false; }
      ok := TakeOut(t);
      if !ok {
        return;
      }
      Read(now);
      lapsed := lapsed || (!woken && TooEarly(now + t.ms));
      t.next := now + t.ms;
      PutBack(t);
    }

    /** Takes an armed timer out of the set to move it. */
    method TakeOut(t: Timer) returns (found: bool)
      requires Valid() && t in managed && t.cb.Some?
      modifies this`timers
      ensures found && Ordered() && ArmedBut(t) && NoLostWakeUp() && t.next - t.ms <= clock
      ensures !woken && !lapsed ==> promised.Some? && promised.value <= t.next
      ensures forall u :: u in timers <==> u in old(timers) && u != t
      ensures t in old(timers)
    {
      hide Sorted, IsBefore;
      var k := Find(t);
      if k == |timers| {
        return false;
      }
      Erase(k);
      found := true;
    }

    /** Puts a moved timer back in its new place, waking nobody. */
    method PutBack(t: Timer)
      requires Ordered() && ArmedBut(t) && NoLostWakeUp() && t in managed && t.cb.Some? && t.next - t.ms <= clock
      requires !woken && !lapsed ==> promised.Some? && promised.value <= t.next
      modifies this`timers
      ensures Valid() && forall u :: u in timers <==> u in old(timers) || u == t
    {
      hide Sorted, IsBefore;
      var _ := Insert(t);
    }

    /** Adds a timer and, if it is now the first and no wake-up is pending, sends one. */
    method AddToSet(t: Timer) returns (woke: bool)
      requires Ordered() && ArmedBut(t) && NoLostWakeUp() && t in managed && t.cb.Some? && t.next - t.ms <= clock
      modifies this`timers, this`tickled, this`woken
      ensures Valid() && forall u :: u in timers <==> u in old(timers) || u == t
      ensures woke == (timers[0] == t && !old(woken)) && woken == (old(woken) || woke)
      ensures !woken ==> exists u :: u in old(timers) && u.next <= t.next
    {
      hide Sorted;
      woke := AddFirst(t);
    }

    method AddFirst(t: Timer) returns (woke: bool)
      requires Ordered() && t in managed && t !in timers && tickled == woken
      modifies this`timers, this`tickled, this`woken
      ensures Ordered() && forall u :: u in timers <==> u in old(timers) || u == t
      ensures woke == (timers[0] == t && !old(woken)) && woken == (old(woken) || woke) && tickled == woken
      ensures !woken ==> exists u :: u in old(timers) && u.next <= t.next
    {
      var k := Insert(t);
      woke := k == 0 && !tickled;
      if woke {
        tickled := true;
        woken := true;
      }
      assert k > 0 ==> old(timers)[0] == timers[0] && Before(timers[0], t);
    }

    /** A new timer, due its interval from the time read before taking the lock. */
    method AddTimer(id: nat, ms: nat, cb: Callback, recurring: bool, now: nat) returns (t: Timer, woke: bool)
      requires Valid() && forall u :: u in managed ==> u.id != id
      modifies this`timers, this`tickled, this`woken, this`clock, this`managed
      ensures Valid() && fresh(t) && managed == old(managed) + {t}
      ensures t.cb == Some(cb) && t.next == now + ms && t.ms == ms && t.recurring == recurring
      ensures forall u :: u in timers <==> u in old(timers) || u == t
      ensures woke == (timers[0] == t && !old(woken)) && woken == (old(woken) || woke)
    {
      hide Sorted, IsBefore;
      Read(now);
      t := new Timer(id, ms, cb, recurring, now);
      managed := managed + {t};
      woke := AddToSet(t);
    }

    /** Gives an armed timer another interval, from now or from where its present one started. */
    method Reset(t: Timer, ms: nat, fromNow: bool, now: nat) returns (ok: bool, woke: bool)
      requires Valid() && t in managed
      modifies this`timers, this`tickled, this`woken, this`clock, t`next, t`ms
      ensures Valid() && ok && (t.cb.Some? ==> timers != []) && forall u :: u in timers <==> u in old(timers)
      ensures var skipped := t.cb == None || (ms == old(t.ms) && !fromNow);
              && t.ms == (if skipped then old(t.ms) else ms)
              && t.next == (if skipped then old(t.next) else if fromNow then now + ms else old(t.next) - old(t.ms) + ms)
      ensures woken == (old(woken) || woke)
      ensures woke <==> t.cb.Some? && (ms != old(t.ms) || fromNow) && timers[0] == t && !old(woken)
    {
      hide Sorted, IsBefore;
      woke := false;
      if ms == t.ms && !fromNow { return true, false; }
      if t.cb == None { return true, false; }
      ok := TakeOut(t);
      if !ok {
        return;
      }
      var start;
      if fromNow {
        Read(now);
        start := now;
      } else {
        start := t.next - t.ms;
      }
      t.ms := ms;
      t.next := start + t.ms;
      woke := AddToSet(t);
    }

    /** The time to the first deadline, None when no timer is armed; wake-ups are due from here on. */
    method GetNextTimer(now: nat) returns (wait: Option<nat>)
      requires Valid()
      modifies this`tickled, this`woken, this`lapsed, this`promised, this`clock
      ensures Valid() && !woken && !lapsed && OnTime()
      ensures wait == None <==> timers == []
      ensures wait.Some? ==> promised == Some(timers[0].next) && forall t :: t in timers ==> timers[0].next <= t.next
      ensures wait.Some? ==> wait.value == if timers[0].next <= now then 0 else timers[0].next - now
      ensures timers == [] ==> promised == None
    {
      tickled, woken, lapsed := false, false, false;
      promised := None;
      if timers == [] { return None; }
      Read(now);
      var next := timers[0];
      promised := Some(next.next);
      assert forall i :: 0 <= i < |timers| ==> next.next <= timers[i].next;
      if now >= next.next {
        wait := Some(0);
      } else {
        wait := Some(next.next - now);
      }
    }

    method HasTimer() returns (r: bool)
      requires Valid()
      ensures r <==> exists t :: t in managed && t.cb.Some?
    {
      assert timers != [] ==> timers[0] in timers;
      r := timers != [];
    }

    method DetectClockRollover(now: nat) returns (rollover: bool)
      modifies this`previous
      ensures rollover == RolledOver(old(previous), now) && previous == now
      ensures old(previous) < 0x1_0000_0000_0000_0000 ==>
                (rollover <==> now < old(previous) && now < (old(previous) - 3600000) % 0x1_0000_0000_0000_0000)
      ensures old(previous) >= 3600000 ==> (rollover <==> old(previous) - now > 3600000)
      ensures old(previous) < 3600000 ==> (rollover <==> now < old(previous))
      ensures old(NoLostWakeUp()) && now <= clock ==> NoLostWakeUp()
    {
      rollover := now < previous && (previous < ROLLOVER_MS || now < previous - ROLLOVER_MS);
      previous := now;
    }

    /** The number of timers due: all of them when the clock has gone back, else those with a deadline of at
        most now. The probe's address only matters among timers due exactly now. */
    method DueCount(rollover: bool, now: nat, probe: nat) returns (n: nat)
      requires Ordered()
      ensures n <= |timers| && (rollover ==> n == |timers|)
      ensures forall i :: 0 <= i < |timers| ==> (i < n <==> rollover || timers[i].next <= now)
    {
      n := |timers|;
      if !rollover {
        n := LowerBound(now, probe);
        while n < |timers| && timers[n].next == now
          invariant n <= |timers| && forall i :: 0 <= i < n ==> timers[i].next <= now
          invariant forall i :: n <= i < |timers| ==> timers[i].next >= now
        {
          n := n + 1;
        }
        assert forall i :: n <= i < |timers| ==> Before(timers[n], timers[i]) || i == n;
      }
    }

    /** The callbacks that are due, in the order of their deadlines. Each one-shot timer loses its callback,
        each recurring one is armed again an interval from now, and no other timer changes. Nobody is woken; the
        promise of getNextTimer breaks exactly on a rollover with a recurring timer whose interval ends too early. */
    method ListExpiredCb(now: nat, probe: nat) returns (cbs: seq<Callback>, ghost was: seq<Timer>)
      requires Valid()
      modifies this`timers, this`previous, this`clock, this`lapsed, managed
      ensures Valid() && was == old(timers) && |cbs| <= |was|
      ensures previous == if was == [] then old(previous) else now
      ensures forall i :: 0 <= i < |was| ==> (i < |cbs| <==> RolledOver(old(previous), now) || old(was[i].next) <= now)
      ensures forall i :: 0 <= i < |cbs| ==> Some(cbs[i]) == old(was[i].cb) && Fired(was[i], now)
      ensures forall i, j :: 0 <= i < j < |was| ==>
                old(was[i].next) <= old(was[j].next) && (old(was[i].next) == old(was[j].next) ==> was[i].id < was[j].id)
      ensures forall u :: u in managed && u !in was[..|cbs|] ==> Same(u)
      ensures old(!woken && !lapsed && timers != []) ==>
                (OnTime() <==> !(RolledOver(old(previous), now) && old(RearmsTooEarly(now))))
      ensures old(!woken && !lapsed) ==> (lapsed <==> !OnTime())
      ensures old(woken || lapsed) ==> lapsed == old(lapsed)
    {
      hide Sorted, IsBefore, RolledOver, Ordered, Armed, NoLostWakeUp;
      DeadlinesInOrder();
      Read(now);
      cbs, was := [], timers;
      if timers == [] {
        assert Valid();
        return;
      }
      var rollover := DetectClockRollover(now);
      var due := DueCount(rollover, now, probe);
      ghost var early := RolledOver(old(previous), now);
      assert forall i :: 0 <= i < |was| ==> (i < due <==> early || was[i].next <= now);
      cbs := FireDue(due, now, early);
    }

    lemma DeadlinesInOrder()
      requires Ordered()
      ensures forall i, j :: 0 <= i < j < |timers| ==>
                timers[i].next <= timers[j].next && (timers[i].next == timers[j].next ==> timers[i].id < timers[j].id)
    {
      assert forall i, j :: 0 <= i < j < |timers| ==> Before(timers[i], timers[j]);
    }

    /** Fires the first n timers of the set, the due ones: all of them after a rollover. */
    method FireDue(n: nat, now: nat, ghost rollover: bool) returns (cbs: seq<Callback>)
      requires Ordered() && Armed() && NoLostWakeUp() && n <= |timers| && now <= clock
      requires forall t :: t in timers[..n] ==> rollover || t.next <= now
      requires rollover ==> n == |timers|
      modifies this`timers, this`lapsed, managed
      ensures Ordered() && Armed() && NoLostWakeUp() && |cbs| == n
      ensures forall i :: 0 <= i < n ==> Some(cbs[i]) == old(timers[i].cb) && Fired(old(timers[i]), now)
      ensures forall u :: u in managed && u !in old(timers[..n]) ==> Same(u)
      ensures old(!woken && !lapsed) ==> (OnTime() <==> !(rollover && old(RearmsTooEarly(now))))
      ensures lapsed == (old(lapsed) || (!woken && rollover && old(RearmsTooEarly(now))))
    {
      assert forall t :: t in timers ==> t in managed;
      hide Sorted, Ordered, Armed;
      ghost var breaks := !woken && rollover && RearmsTooEarly(now);
      ghost var due := timers[..n];
      cbs := FireFirst(n, now);
      assert forall t :: t in due ==> Fired(t, now);
      lapsed := lapsed || breaks;
    }

    /** Fires the first n timers of the set. */
    method FireFirst(n: nat, now: nat) returns (cbs: seq<Callback>)
      requires Ordered() && Armed() && n <= |timers|
      modifies this`timers, managed
      ensures Ordered() && Armed() && |cbs| == n
      ensures forall i :: 0 <= i < n ==> Some(cbs[i]) == old(timers[i].cb) && Fired(old(timers[i]), now)
      ensures forall u :: u in managed && u !in old(timers[..n]) ==> Same(u)
      ensures forall u :: u in timers <==> u in old(timers[n..]) || (u in old(timers[..n]) && u.recurring)
      ensures forall u :: u in old(timers) <==> u in old(timers[..n]) || u in old(timers[n..])
    {
      hide Sorted, IsBefore;
      var expired := timers[..n];
      SplitMembers(timers, n);
      timers := timers[n..];
      cbs := FireAll(expired, now);
      hide Ordered;
    }

    /** The callbacks of due timers that have left the set, in order; the recurring ones go back. */
    method FireAll(expired: seq<Timer>, now: nat) returns (cbs: seq<Callback>)
      requires Ordered() && forall t :: t in expired ==> t in managed && t !in timers && t.cb.Some?
      requires Distinct(expired)
      modifies this`timers, expired
      ensures Ordered() && |cbs| == |expired|
      ensures forall i :: 0 <= i < |cbs| ==> Some(cbs[i]) == old(expired[i].cb) && Fired(expired[i], now)
      ensures forall u :: u in timers <==> u in old(timers) || (u in expired && u.recurring)
    {
      hide Sorted, IsBefore;
      cbs := [];
      for i := 0 to |expired|
        invariant Ordered() && |cbs| == i
        invariant forall j :: 0 <= j < i ==> Some(cbs[j]) == old(expired[j].cb) && Fired(expired[j], now)
        invariant forall j :: i <= j < |expired| ==> Same(expired[j]) && expired[j] !in timers
        invariant forall u :: u in timers <==> u in old(timers) || (u in expired[..i] && u.recurring)
      {
        assert expired[..i + 1] == expired[..i] + [expired[i]];
        var cb := Fire(expired[i], now);
        cbs := cbs + [cb];
      }
      assert expired[..|expired|] == expired;
    }

    /** One due timer's callback; a recurring timer goes back into the set. */
    method Fire(t: Timer, now: nat) returns (cb: Callback)
      requires Ordered() && t in managed && t !in timers && t.cb.Some?
      modifies this`timers, t`next, t`cb
      ensures Ordered() && Some(cb) == old(t.cb) && Fired(t, now)
      ensures forall u :: u in timers <==> u in old(timers) || (u == t && t.recurring)
    {
      hide Sorted, IsBefore;
      cb := t.cb.value;
      if t.recurring {
        t.next := now + t.ms;
        var _ := Insert(t);
      } else {
        t.cb := None;
      }
    }
  }

  lemma Between(s: seq<Timer>, k: nat, t: Timer)
    requires Sorted(s) && k <= |s| && t !in s
    requires forall i :: 0 <= i < k ==> IsBefore(s[i].next, s[i].id, t.next, t.id)
    requires forall i :: k <= i < |s| ==> s[i].id != t.id && !IsBefore(s[i].next, s[i].id, t.next, t.id)
    ensures Sorted(s[..k] + [t] + s[k..])
    ensures forall u :: u in s[..k] + [t] + s[k..] <==> u in s || u == t
  {
    assert s == s[..k] + s[k..];
  }

  ghost predicate Distinct(s: seq<Timer>) { forall i, j :: 0 <= i < j < |s| ==> s[i] != s[j] }

  lemma SplitMembers(s: seq<Timer>, n: nat)
    requires n <= |s| && Sorted(s)
    ensures Distinct(s[..n]) && Sorted(s[n..]) && s == s[..n] + s[n..]
    ensures forall t :: t in s <==> t in s[..n] || t in s[n..]
    ensures forall t :: t in s[..n] ==> t !in s[n..]
  {
    assert s == s[..n] + s[n..];
  }

  predicate IsBefore(next: int, id: nat, next': int, id': nat) {
    next < next' || (next == next' && id < id')
  }

  /** What a reading made before taking the lock can do, although the clock never goes back. One thread reads 4 in
      listExpiredCb and is held up; another adds a recurring timer at 5, asks for the next deadline, 1005, and
      expires at 6. Then the first goes on: in the first hour after the machine started its reading counts as a
      rollover, so the timer fires at once and is armed again for 1004, earlier than promised, and nobody is woken. */
  method LateReadingMovesDeadline(id: nat, cb: Callback) returns (m: TimerManager, t: Timer, cbs: seq<Callback>)
    ensures m.Valid() && t in m.timers && m.promised == Some(1005)
    ensures cbs == [cb] && t.next == 1004 && !m.woken && !m.OnTime()
  {
    var woke, wait, none;
    ghost var was;
    m := new TimerManager(0);
    t, woke := m.AddTimer(id, 1000, cb, true, 5);
    OnlyMember(m, t);
    wait := m.GetNextTimer(5);
    none, was := m.ListExpiredCb(6, 0);
    OnlyMember(m, t);
    cbs, was := m.ListExpiredCb(4, 0);
  }

  lemma OnlyMember(m: TimerManager, t: Timer)
    requires m.Valid() && m.managed == {t} && t.cb.Some?
    ensures m.timers == [t]
  {
    assert forall i :: 0 <= i < |m.timers| ==> m.timers[i] in m.timers;
    assert |m.timers| > 1 ==> Before(m.timers[0], m.timers[1]);
  }
}
