/** `TcpServer` (src/TcpServer.cc) as a mutable object: its table of connections,
    its id counter, its thread pool, and the queues of the loops it posts to.

    `Abs` is the server of `Lifecycle`, and each method is proved to take it where
    the functions used there take it and to post exactly the functor it should,
    to exactly the right loop. */
module TcpServers {
  import opened Naming
  import opened ThreadPools
  import opened EventLoops
  import opened Lifecycle

  /** What the server queues: functors of connections, and `Acceptor::listen`. */
  datatype Task = Listen | Run(functor: Functor)

  type ServerLoop = EventLoop<Task>

  class TcpServer {
    const name: string
    const ipPort: string
    const loop: ServerLoop
    const threadPool: EventLoopThreadPool<ServerLoop>
    var connections: map<string, nat>
    var nextConnId: nat
    /** How often `start` has been called. */
    var started: nat
    /** How many entries have been erased so far. */
    ghost var removed: nat

    ghost predicate Valid()
      reads this, threadPool
    {
      threadPool.Valid() && threadPool.baseLoop == loop && loop !in threadPool.loops
    }

    ghost function Abs(): Server
      reads this, threadPool
    {
      Server(name, ipPort, connections, nextConnId, threadPool.next, removed)
    }

    constructor (loop: ServerLoop, ipPort: string, name: string)
      ensures Valid() && fresh(threadPool) && this.loop == loop && threadPool.loops == [] && started == 0
      ensures Abs() == Initial(name, ipPort, 0).server
    {
      this.name, this.ipPort, this.loop := name, ipPort, loop;
      threadPool := new EventLoopThreadPool(loop);
      connections, nextConnId, started, removed := map[], 1, 0, 0;
    }

    /** The first call starts the I/O loops and has the base loop listen; every
        later one does nothing. `onBase` says whose thread calls. */
    method Start(ioLoops: seq<ServerLoop>, onBase: bool)
      requires Valid() && (started == 0 ==> threadPool.loops == []) && loop !in ioLoops
      modifies this`started, threadPool`loops, loop`pending, loop`counter, loop`executed
      ensures Valid() && Abs() == old(Abs()) && started == old(started) + 1
      ensures threadPool.loops == if old(started) == 0 then ioLoops else old(threadPool.loops)
      ensures old(started) == 0 && onBase ==>
                loop.executed == old(loop.executed) + [Listen] && loop.Shared() == old(loop.Shared())
      ensures old(started) == 0 && !onBase ==>
                loop.executed == old(loop.executed) && loop.Shared() == Queued(old(loop.Shared()), Listen, false)
      ensures old(started) > 0 ==> loop.executed == old(loop.executed) && loop.Shared() == old(loop.Shared())
    {
      started := started + 1;
      if started == 1 {
        threadPool.Start(ioLoops);
        loop.RunInLoop(Listen, onBase);
      }
    }

    /** Runs on the base loop. Returns the connection's id and loop. */
    method NewConnection() returns (id: nat, ioLoop: ServerLoop)
      requires Valid()
      modifies this`connections, this`nextConnId, threadPool`next
      modifies loop`pending, loop`counter, loop`executed
      modifies (set l | l in threadPool.loops)`pending, (set l | l in threadPool.loops)`counter
      modifies (set l | l in threadPool.loops)`executed
      ensures Valid() && threadPool.loops == old(threadPool.loops)
      ensures Abs() == Enlisted(old(Abs()), |threadPool.loops|)
      ensures id == old(nextConnId)
      ensures ioLoop == if threadPool.loops == [] then loop else threadPool.loops[old(threadPool.next)]
      ensures threadPool.loops == [] ==>
                && ioLoop.executed == old(loop.executed) + [Run(Establishment(id))]
                && ioLoop.Shared() == old(loop.Shared())
      ensures threadPool.loops != [] ==>
                && ioLoop.executed == old(ioLoop.executed)
                && ioLoop.Shared() == Queued(old(ioLoop.Shared()), Run(Establishment(id)), false)
      ensures forall l :: (l in threadPool.loops || l == loop) && l != ioLoop ==>
                l.Shared() == old(l.Shared()) && l.executed == old(l.executed)
    {
      ioLoop := threadPool.GetNextLoop();
      id := nextConnId;
      var connName := ConnName(name, ipPort, id);
      nextConnId := nextConnId + 1;
      connections := connections[connName := id];
      ioLoop.RunInLoop(Run(Establishment(id)), ioLoop == loop);
    }

    /** Runs on any loop's thread; `onBase` says whether it is the base loop's. */
    method RemoveConnection(id: nat, onBase: bool)
      requires Valid()
      modifies loop`pending, loop`counter, loop`executed
      ensures Valid() && Abs() == old(Abs())
      ensures onBase ==>
                loop.executed == old(loop.executed) + [Run(Removal(id))] && loop.Shared() == old(loop.Shared())
      ensures !onBase ==>
                loop.executed == old(loop.executed) && loop.Shared() == Queued(old(loop.Shared()), Run(Removal(id)), false)
    {
      loop.RunInLoop(Run(Removal(id)), onBase);
    }

    /** Runs on the base loop. The functor is queued even on the base loop itself,
        so a connection is never destroyed inside its own event handler. */
    method RemoveConnectionInLoop(id: nat, ioLoop: ServerLoop)
      requires Valid()
      modifies this`connections, this`removed, ioLoop`pending, ioLoop`counter
      ensures Valid() && Abs() == Unlisted(old(Abs()), id)
      ensures ioLoop.Shared() == Queued(old(ioLoop.Shared()), Run(Destruction(id)), ioLoop == loop)
    {
      var connName := ConnName(name, ipPort, id);
      removed := removed + if connName in connections then 1 else 0;
      connections := connections - {connName};
      ioLoop.QueueInLoop(Run(Destruction(id)), ioLoop == loop);
    }
  }
}
