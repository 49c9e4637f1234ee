/** The submit side's bounded queue: a hand-built semaphore over one shared counter. Each method here
    is one atomic action of one thread; `Run` takes them in any order, from any number of threads. */
module Backpressure {

  /** Where one submitting thread stands. `Counted` remembers what its fetch-add returned. */
  datatype Phase = Outside | Counted(seen: nat) | BackingOut | Holding

  datatype Action =
    | FetchAdd(thread: nat)
    | Check(thread: nat)
    | FetchSub(thread: nat)
    | Send(thread: nat)
    | SendFails(thread: nat)
    | JobLeaves

  /** A thread that owns a permit, or is about to find out that it does. */
  predicate Entitled(p: Phase, maxDepth: nat) {
    p.Holding? || (p.Counted? && p.seen < maxDepth)
  }

  /** A thread that has counted itself but will take it back. */
  predicate Turned(p: Phase, maxDepth: nat) {
    p.BackingOut? || (p.Counted? && p.seen >= maxDepth)
  }

  function EntitledCount(threads: seq<Phase>, maxDepth: nat): nat {
    if threads == [] then 0
    else EntitledCount(threads[..|threads| - 1], maxDepth) + if Entitled(threads[|threads| - 1], maxDepth) then 1 else 0
  }

  function TurnedCount(threads: seq<Phase>, maxDepth: nat): nat {
    if threads == [] then 0
    else TurnedCount(threads[..|threads| - 1], maxDepth) + if Turned(threads[|threads| - 1], maxDepth) then 1 else 0
  }

  lemma {:induction false} CountsUpdate(threads: seq<Phase>, maxDepth: nat, t: nat, p: Phase)
    requires t < |threads|
    ensures EntitledCount(threads[t := p], maxDepth) + (if Entitled(threads[t], maxDepth) then 1 else 0)
         == EntitledCount(threads, maxDepth) + (if Entitled(p, maxDepth) then 1 else 0)
    ensures TurnedCount(threads[t := p], maxDepth) + (if Turned(threads[t], maxDepth) then 1 else 0)
         == TurnedCount(threads, maxDepth) + (if Turned(p, maxDepth) then 1 else 0)
  {
    var last := |threads| - 1;
    if t == last {
      assert threads[t := p][..last] == threads[..last];
    } else {
      assert threads[t := p][..last] == threads[..last][t := p];
      CountsUpdate(threads[..last], maxDepth, t, p);
    }
  }

  lemma {:induction false} QuietCounts(threads: seq<Phase>, maxDepth: nat)
    ensures (forall t :: 0 <= t < |threads| ==> !Entitled(threads[t], maxDepth)) ==> EntitledCount(threads, maxDepth) == 0
    ensures (forall t :: 0 <= t < |threads| ==> !Turned(threads[t], maxDepth)) ==> TurnedCount(threads, maxDepth) == 0
  {
    if threads != [] {
      QuietCounts(threads[..|threads| - 1], maxDepth);
    }
  }

  class Channel {
    const maxDepth: nat
    /** The shared atomic counter. */
    var pending: nat
    /** Jobs submitted and not yet out of the queue; each carries its permit. */
    var queued: nat
    var threads: seq<Phase>

    constructor (maxDepth: nat, threads: nat)
      ensures Valid() && this.maxDepth == maxDepth && pending == 0 && queued == 0
      ensures this.threads == seq(threads, _ => Outside)
    {
      this.maxDepth, pending, queued := maxDepth, 0, 0;
      this.threads := seq(threads, _ => Outside);
      new;
      QuietCounts(this.threads, maxDepth);
    }

    /** Permits in existence: on queued jobs, and with threads between the check and the send. */
    ghost function Held(): nat
      reads this
    {
      queued + EntitledCount(threads, maxDepth)
    }

    /** The counter is the permits held plus the threads about to back out, and permits never exceed
        the bound. */
    ghost predicate Valid()
      reads this
    {
      pending == Held() + TurnedCount(threads, maxDepth) && Held() <= maxDepth
    }

    /** `submit`'s fetch-add: the previous value decides. The submission will be shed exactly when the
        permits held and the submissions backing out together reach the bound. */
    method FetchAdd(t: nat)
      requires Valid() && t < |threads| && threads[t].Outside?
      modifies this
      ensures Valid() && threads == old(threads)[t := Counted(old(pending))] && pending == old(pending) + 1 && queued == old(queued)
      ensures Turned(threads[t], maxDepth) <==> old(Held() + TurnedCount(threads, maxDepth)) >= maxDepth
    {
      CountsUpdate(threads, maxDepth, t, Counted(pending));
      threads := threads[t := Counted(pending)];
      pending := pending + 1;
    }

    /** The bound check: shed, or take the permit. */
    method Check(t: nat)
      requires Valid() && t < |threads| && threads[t].Counted?
      modifies this
      ensures Valid() && pending == old(pending) && queued == old(queued)
      ensures threads == old(threads)[t := if old(threads)[t].seen >= maxDepth then BackingOut else Holding]
    {
      var next := if threads[t].seen >= maxDepth then BackingOut else Holding;
      CountsUpdate(threads, maxDepth, t, next);
      threads := threads[t := next];
    }

    /** The shed submission takes its count back; the counter never underflows. */
    method FetchSub(t: nat)
      requires Valid() && t < |threads| && threads[t].BackingOut?
      modifies this
      ensures Valid() && threads == old(threads)[t := Outside] && pending == old(pending) - 1 && queued == old(queued)
    {
      CountsUpdate(threads, maxDepth, t, Outside);
      threads := threads[t := Outside];
      pending := pending - 1;
    }

    /** The job is sent; its permit travels with it. */
    method Send(t: nat)
      requires Valid() && t < |threads| && threads[t].Holding?
      modifies this
      ensures Valid() && threads == old(threads)[t := Outside] && pending == old(pending) && queued == old(queued) + 1
    {
      CountsUpdate(threads, maxDepth, t, Outside);
      threads := threads[t := Outside];
      queued := queued + 1;
    }

    /** The worker could not be spawned or is dead: the permit is dropped where it is. */
    method SendFails(t: nat)
      requires Valid() && t < |threads| && threads[t].Holding?
      modifies this
      ensures Valid() && threads == old(threads)[t := Outside] && pending == old(pending) - 1 && queued == old(queued)
    {
      CountsUpdate(threads, maxDepth, t, Outside);
      threads := threads[t := Outside];
      DropPermit();
    }

    /** A permit's drop. */
    method DropPermit()
      requires pending > 0
      modifies this`pending
      ensures pending == old(pending) - 1
    {
      pending := pending - 1;
    }

    /** A job leaves the queue, on whatever path: admitted, rejected, or drained by a dying worker. */
    method JobLeaves()
      requires Valid() && queued > 0
      modifies this
      ensures Valid() && threads == old(threads) && pending == old(pending) - 1 && queued == old(queued) - 1
    {
      queued := queued - 1;
      DropPermit();
    }

    /** Whether an action is one the thread can take next. */
    predicate Enabled(a: Action)
      reads this
    {
      match a
      case FetchAdd(t) => t < |threads| && threads[t].Outside?
      case Check(t) => t < |threads| && threads[t].Counted?
      case FetchSub(t) => t < |threads| && threads[t].BackingOut?
      case Send(t) => t < |threads| && threads[t].Holding?
      case SendFails(t) => t < |threads| && threads[t].Holding?
      case JobLeaves => queued > 0
    }

    /** Any interleaving of any threads' actions: the bound holds throughout, and once every submission
        has returned, the counter is exactly the jobs still queued, so no path leaks. */
    method Run(script: seq<Action>)
      requires Valid()
      modifies this
      ensures Valid() && |threads| == |old(threads)|
      ensures (forall t :: 0 <= t < |threads| ==> threads[t].Outside?) ==> pending == queued
    {
      for i := 0 to |script|
        invariant Valid() && |threads| == |old(threads)|
      {
        if Enabled(script[i]) {
          match script[i] {
            case FetchAdd(t) => FetchAdd(t);
            case Check(t) => Check(t);
            case FetchSub(t) => FetchSub(t);
            case Send(t) => Send(t);
            case SendFails(t) => SendFails(t);
            case JobLeaves => JobLeaves();
          }
        }
      }
      if forall t :: 0 <= t < |threads| ==> threads[t].Outside? {
        QuietCounts(threads, maxDepth);
      }
    }
  }

  /** The bound is approximate from below: with one permit already returned, a submission is still shed
      because another one has not finished backing out. */
  method ShedWithRoom() returns (channel: Channel)
    ensures channel.Valid() && channel.maxDepth == 1 && channel.Held() == 0
    ensures |channel.threads| == 3 && channel.threads[2] == BackingOut
  {
    channel := new Channel(1, 3);
    channel.FetchAdd(0);
    channel.Check(0);
    channel.FetchAdd(1);
    channel.Send(0);
    channel.JobLeaves();
    channel.FetchAdd(2);
    channel.Check(2);
    channel.Check(1);
    QuietCounts(channel.threads, 1);
  }
}
