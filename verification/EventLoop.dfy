/** `EventLoop` (src/EventLoop.cc) as a mutable object, without interference.

    Each method is the code of its namesake; `inLoop` is `isInLoopThread()`. The
    steps a method takes on the shared state are the functions that
    `LoopProtocol` interleaves. */
module EventLoops {
  import opened LoopProtocol

  /** The shared state after one `queueInLoop`. */
  function Queued<F>(s: Shared<F>, f: F, inLoop: bool): Shared<F> {
    if !inLoop || s.calling then Wake(Push(s, f)) else Push(s, f)
  }

  /** What happens while one functor runs: what it queues itself, what other
      threads queue, and whether it asks the loop to quit. */
  datatype During<F> = During(spawned: seq<F>, arrived: seq<F>, quits: bool)

  /** All that is queued while a batch runs. */
  function Refill<F>(events: seq<During<F>>): seq<F> {
    if events == [] then []
    else
      var last := |events| - 1;
      Refill(events[..last]) + events[last].spawned + events[last].arrived
  }

  /** Some functor of the batch asks the loop to quit. */
  predicate AnyQuits<F>(events: seq<During<F>>) {
    exists k :: 0 <= k < |events| && events[k].quits
  }

  lemma OneMore<F>(events: seq<During<F>>, k: nat)
    requires k < |events|
    ensures Refill(events[..k + 1]) == Refill(events[..k]) + events[k].spawned + events[k].arrived
    ensures AnyQuits(events[..k + 1]) <==> AnyQuits(events[..k]) || events[k].quits
  {
    var more := events[..k + 1];
    assert more[..k] == events[..k] && more[k] == events[k];
    if AnyQuits(events[..k]) {
      var j :| 0 <= j < k && events[..k][j].quits;
      assert more[j].quits;
    }
    if AnyQuits(more) {
      var j :| 0 <= j < |more| && more[j].quits;
      assert j < k ==> events[..k][j].quits;
    }
  }

  class EventLoop<F> {
    var quit: bool
    var calling: bool
    var pending: seq<F>
    /** The eventfd counter behind `wakeupFd_`. */
    var counter: nat
    /** The functors that have been called on the loop thread, in order. */
    ghost var executed: seq<F>

    function Shared(): Shared<F>
      reads this
    {
      LoopProtocol.Shared(pending, quit, calling, counter)
    }

    constructor ()
      ensures Shared() == LoopProtocol.Shared([], false, false, 0) && executed == []
    {
      quit, calling, pending, counter := false, false, [], 0;
      executed := [];
    }

    method Wakeup()
      modifies this`counter
      ensures Shared() == Wake(old(Shared()))
      ensures counter == if old(counter) < MAX_COUNTER then old(counter) + 1 else old(counter)
      ensures counter > 0
    {
      if counter < MAX_COUNTER {
        counter := counter + 1;
      }
    }

    method HandleRead()
      modifies this`counter
      ensures Shared() == Drain(old(Shared()))
      ensures counter == 0 && pending == old(pending) && quit == old(quit) && calling == old(calling)
    {
      if counter > 0 {
        counter := 0;
      }
    }

    method Quit(inLoop: bool)
      modifies this`quit, this`counter
      ensures quit && pending == old(pending) && calling == old(calling)
      ensures counter == if inLoop then old(counter) else Wake(old(Shared())).counter
      ensures !inLoop ==> counter > 0
    {
      quit := true;
      if !inLoop {
        Wakeup();
      }
    }

    method QueueInLoop(f: F, inLoop: bool)
      modifies this`pending, this`counter
      ensures Shared() == Queued(old(Shared()), f, inLoop)
      ensures pending == old(pending) + [f]
      ensures if !inLoop || calling then counter > 0 else counter == old(counter)
      ensures counter >= old(counter) && quit == old(quit) && calling == old(calling)
    {
      pending := pending + [f];
      if !inLoop || calling {
        Wakeup();
      }
    }

    /** `functor()`, on the loop thread. What it does to this loop it does through
        the methods of this class. */
    method Execute(f: F)
      modifies this`executed
      ensures executed == old(executed) + [f]
    {
      executed := executed + [f];
    }

    method RunInLoop(f: F, inLoop: bool)
      modifies this`pending, this`counter, this`executed
      ensures inLoop ==> executed == old(executed) + [f] && Shared() == old(Shared())
      ensures !inLoop ==> executed == old(executed) && Shared() == Queued(old(Shared()), f, false) && counter > 0
    {
      if inLoop {
        Execute(f);
      } else {
        QueueInLoop(f, false);
      }
    }

    method QueueAll(fs: seq<F>, inLoop: bool)
      modifies this`pending, this`counter
      ensures pending == old(pending) + fs
      ensures fs != [] && (!inLoop || calling) ==> counter > 0
      ensures counter >= old(counter)
    {
      for k := 0 to |fs|
        invariant pending == old(pending) + fs[..k]
        invariant k > 0 && (!inLoop || calling) ==> counter > 0
        invariant counter >= old(counter)
      {
        QueueInLoop(fs[k], inLoop);
        assert fs[..k + 1] == fs[..k] + [fs[k]];
      }
      assert fs[..|fs|] == fs;
    }

    /** One functor of a batch, and what happens while it runs. */
    method ExecuteOne(f: F, e: During<F>)
      requires calling
      modifies this`pending, this`counter, this`quit, this`executed
      ensures executed == old(executed) + [f]
      ensures pending == old(pending) + e.spawned + e.arrived
      ensures quit <==> old(quit) || e.quits
      ensures counter >= old(counter) && (e.spawned + e.arrived != [] ==> counter > 0)
    {
      Execute(f);
      QueueAll(e.spawned, true);
      QueueAll(e.arrived, false);
      if e.quits {
        Quit(true);
      }
    }

    /** `doPendingFunctors`: swap the queue out, run the batch; `events[k]` happens
        while functor k runs. What is executed is exactly the queue as it was at the
        swap, in order; everything pushed meanwhile is queued behind, and then the
        eventfd is readable, so the next poll does not block. */
    method DoPendingFunctors(events: seq<During<F>>)
      requires |events| == |pending|
      modifies this`calling, this`pending, this`counter, this`quit, this`executed
      ensures executed == old(executed) + old(pending)
      ensures pending == Refill(events)
      ensures !calling
      ensures quit <==> old(quit) || AnyQuits(events)
      ensures pending != [] ==> counter > 0
    {
      var functors := pending;
      calling := true;
      pending := [];
      for k := 0 to |functors|
        invariant calling
        invariant quit <==> old(quit) || AnyQuits(events[..k])
        invariant executed == old(executed) + functors[..k]
        invariant pending == Refill(events[..k])
        invariant pending != [] ==> counter > 0
      {
        OneMore(events, k);
        ExecuteOne(functors[k], events[k]);
        assert functors[..k + 1] == functors[..k] + [functors[k]];
      }
      calling := false;
      assert functors[..|functors|] == functors && events[..|functors|] == events;
    }
  }
}
