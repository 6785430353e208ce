/** The task list that several workers take from. Each method is one step that a worker or a caller makes under
    the mutex or on an atomic counter, so every interleaving of the threads is a sequence of calls. A worker's
    local variable `task` is its entry in `hands`; what a task does when it is resumed is not modelled, except
    that it may call Schedule. */
module Schedulers {

  datatype Handler = Callback(id: nat) | Fiber(id: nat)

  /** A fiber or callback, and the thread that must run it, ANY_THREAD for no preference. */
  datatype Task = Task(work: Handler, thread: int)

  const ANY_THREAD := -1

  /** Where a worker is in its loop: looking for a task, holding one, or past resuming it and about to leave
      the count of active threads. */
  datatype Hand = Looking | Holding(task: Task) | Resumed

  /** What became of an accepted task. */
  datatype Fate = Queued | InHand(worker: int) | Finished(worker: int)

  predicate MayTake(t: Task, w: int) { t.thread == ANY_THREAD || t.thread == w }

  class Scheduler {
    var tasks: seq<Task>
    var activeThreadCnt: nat
    var isStopped: bool
    var hands: map<int, Hand>
    /** All accepted tasks in the order they came, what became of each, and which of them are queued and in hand. */
    ghost var accepted: seq<Task>
    ghost var fates: seq<Fate>
    ghost var queue: seq<nat>
    ghost var held: map<int, nat>
    ghost var active: set<int>

    /** Every accepted task is queued, in the hands of one worker, or finished; the queue holds each once. */
    ghost predicate Accounted()
      reads this`tasks, this`hands, this`accepted, this`fates, this`queue, this`held
    {
      && |accepted| == |fates| && |queue| == |tasks|
      && (forall p :: 0 <= p < |queue| ==>
            queue[p] < |fates| && fates[queue[p]] == Queued && accepted[queue[p]] == tasks[p])
      && (forall p, q :: 0 <= p < q < |queue| ==> queue[p] != queue[q])
      && (forall w :: w in held <==> w in hands && hands[w].Holding?)
      && (forall w :: w in held ==>
            held[w] < |fates| && fates[held[w]] == InHand(w) && Holding(accepted[held[w]]) == hands[w])
      && (forall s :: 0 <= s < |fates| ==>
            match fates[s]
            case Queued => s in queue
            case InHand(w) => w in held && held[w] == s && (accepted[s].thread == -1 || accepted[s].thread == w)
            case Finished(w) => accepted[s].thread == -1 || accepted[s].thread == w)
    }

    /** The count of active threads is the number of workers that are not looking for a task. */
    ghost predicate Covered()
      reads this`activeThreadCnt, this`hands, this`active
    {
      activeThreadCnt == |active| && forall w :: w in active <==> w in hands && hands[w] != Looking
    }

    ghost predicate Valid()
      reads this
    {
      Accounted() && Covered()
    }

    constructor ()
      ensures Valid() && tasks == [] && accepted == [] && hands == map[] && !isStopped
    {
      tasks, activeThreadCnt, isStopped, hands := [], 0, false, map[];
      accepted, fates, queue, held, active := [], [], [], map[], {};
    }

    /** Queues a task, unless it is empty, and says whether the queue was empty before. */
    method Schedule(task: Task, empty: bool) returns (needTickle: bool)
      requires Valid()
      modifies this`tasks, this`accepted, this`fates, this`queue
      ensures Valid() && needTickle == (old(tasks) == [])
      ensures tasks == old(tasks) + (if empty then [] else [task])
      ensures accepted == old(accepted) + (if empty then [] else [task])
      ensures forall s :: 0 <= s < |old(fates)| ==> fates[s] == old(fates)[s]
    {
      needTickle := tasks == [];
      if !empty {
        tasks, accepted := tasks + [task], accepted + [task];
        queue, fates := queue + [|fates|], fates + [Queued];
      }
    }

    /** A worker begins its loop. */
    method Begin(w: int)
      requires Valid() && w !in hands
      modifies this`hands
      ensures Valid() && hands == old(hands)[w := Looking]
    {
      hands := hands[w := Looking];
    }

    /** A worker takes the first task it may run, skipping those meant for other threads. Others are to be told
        when it skipped one, or when one is left behind the one it took. */
    method Take(w: int) returns (taken: bool, tickle: bool, ghost at: nat)
      requires Valid() && w in hands && hands[w] == Looking
      modifies this
      ensures Valid() && accepted == old(accepted) && isStopped == old(isStopped)
      ensures at <= |old(tasks)| && forall p :: 0 <= p < at ==> old(tasks)[p].thread != -1 && old(tasks)[p].thread != w
      ensures taken <==> at < |old(tasks)|
      ensures taken <==> exists t :: t in old(tasks) && (t.thread == -1 || t.thread == w)
      ensures taken ==>
                && (old(tasks)[at].thread == -1 || old(tasks)[at].thread == w)
                && hands == old(hands)[w := Holding(old(tasks)[at])]
                && tasks == old(tasks)[..at] + old(tasks)[at + 1..]
                && old(queue)[at] < |old(fates)| && fates == old(fates)[old(queue)[at] := InHand(w)]
      ensures !taken ==> tasks == old(tasks) && hands == old(hands) && fates == old(fates)
      ensures tickle == (at > 0 || at + 1 < |old(tasks)|)
    {
      hide Accounted, Covered;
      tickle, taken := false, false;
      var it := 0;
      while it < |tasks| && !MayTake(tasks[it], w)
        invariant 0 <= it <= |tasks| && forall p :: 0 <= p < it ==> !MayTake(tasks[p], w)
        invariant tickle == (it > 0)
      {
        it := it + 1;
        tickle := true;
      }
      at := it;
      if it < |tasks| {
        taken := true;
        TakeAt(w, it);
        tickle := tickle || it < |tasks|;
      }
    }

    method TakeAt(w: int, at: nat)
      requires Valid() && w in hands && hands[w] == Looking && at < |tasks| && MayTake(tasks[at], w)
      modifies this`tasks, this`hands, this`activeThreadCnt, this`fates, this`queue, this`held, this`active
      ensures Valid() && hands == old(hands)[w := Holding(old(tasks)[at])]
      ensures tasks == old(tasks)[..at] + old(tasks)[at + 1..]
      ensures old(queue)[at] < |old(fates)| && fates == old(fates)[old(queue)[at] := InHand(w)]
    {
      hide Accounted;
      Hold(w, at);
      activeThreadCnt := activeThreadCnt + 1;
      active := active + {w};
    }

    /** The task moves from the queue to the worker's hand. */
    method Hold(w: int, at: nat)
      requires Accounted() && w in hands && hands[w] == Looking && at < |tasks| && MayTake(tasks[at], w)
      modifies this`tasks, this`hands, this`fates, this`queue, this`held
      ensures Accounted() && hands == old(hands)[w := Holding(old(tasks)[at])]
      ensures tasks == old(tasks)[..at] + old(tasks)[at + 1..]
      ensures old(queue)[at] < |old(fates)| && fates == old(fates)[old(queue)[at] := InHand(w)]
    {
      RemoveAt(queue, at);
      hands := hands[w := Holding(tasks[at])];
      tasks := tasks[..at] + tasks[at + 1..];
      held, fates := held[w := queue[at]], fates[queue[at] := InHand(w)];
      queue := queue[..at] + queue[at + 1..];
    }

    /** The worker has resumed its task, and the task has returned or yielded. */
    method Resume(w: int)
      requires Valid() && w in hands && hands[w].Holding?
      modifies this`hands, this`fates, this`held
      ensures Valid() && hands == old(hands)[w := Resumed]
      ensures old(w in held && held[w] < |fates|) && fates == old(fates)[old(held[w]) := Finished(w)]
    {
      hands := hands[w := Resumed];
      fates := fates[held[w] := Finished(w)];
      held := held - {w};
    }

    /** The worker leaves the count of active threads and looks again. */
    method Leave(w: int)
      requires Valid() && w in hands && hands[w] == Resumed
      modifies this`hands, this`activeThreadCnt, this`active
      ensures Valid() && hands == old(hands)[w := Looking]
    {
      hands := hands[w := Looking];
      active := active - {w};
      activeThreadCnt := activeThreadCnt - 1;
    }

    /** A task meant for one thread is only ever in the hands of that thread, and finished by it. */
    lemma PinnedStaysPut(w: int)
      requires Valid()
      ensures w in hands && hands[w].Holding? ==> hands[w].task.thread == -1 || hands[w].task.thread == w
      ensures forall s :: 0 <= s < |fates| && (fates[s] == InHand(w) || fates[s] == Finished(w)) ==>
                accepted[s].thread == -1 || accepted[s].thread == w
    {
      if w in hands && hands[w].Holding? { assert fates[held[w]] == InHand(w); }
    }

    method Stop()
      requires Valid()
      modifies this`isStopped
      ensures Valid() && isStopped
    {
      isStopped := true;
    }

    /** Stopping is safe: the answer is yes exactly when stop was called, every task accepted so far has been
        resumed, once, by a thread that was allowed to, and every worker is back to looking for one. */
    method Stopping() returns (r: bool)
      requires Valid()
      ensures r <==>
          isStopped && (forall s :: 0 <= s < |fates| ==>
                          && fates[s].Finished?
                          && (accepted[s].thread == -1 || accepted[s].thread == fates[s].worker))
                    && forall w :: w in hands ==> hands[w] == Looking
    {
      assert tasks != [] ==> fates[queue[0]] == Queued;
      if forall w :: w in hands ==> hands[w] == Looking {
        assert forall w :: w !in active;
        assert active == {};
      } else {
        assert exists w :: w in active;
      }
      assert active == {} && tasks == [] ==> forall s :: 0 <= s < |fates| ==> fates[s].Finished?;
      r := isStopped && tasks == [] && activeThreadCnt == 0;
    }
  }

  lemma RemoveAt(s: seq<nat>, at: nat)
    requires at < |s| && forall p, q :: 0 <= p < q < |s| ==> s[p] != s[q]
    ensures var r := s[..at] + s[at + 1..];
            && (forall x :: x in r <==> x in s && x != s[at])
            && (forall p, q :: 0 <= p < q < |r| ==> r[p] != r[q])
  {}
}
