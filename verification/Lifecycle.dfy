/** The life of connections across threads: src/TcpServer.cc together with the
    loops of src/EventLoop.cc and the pollers of src/EPollPoller.cc.

    Loop 0 is the base loop, which accepts; the others are the I/O loops, chosen
    round robin (without I/O loops the base loop serves the connections itself).
    A world is the server's table, every loop with its poller and its queue of
    functors, and all connections that have not been freed. The state of each
    connection is the one of `ConnectionSpec`.

    Each action is one functor, or one part of handling one event, on one thread.
    Such an action pushes at most one functor to another loop, as the last thing
    it does, and everything else it touches belongs to its own thread, so
    interleaving whole actions is interleaving the threads. `handleEvent` takes
    four actions: it locks the tie and then runs the close, the read and the
    write callback. Other threads may act between any two of them. */
module Lifecycle {
  import opened Registrations
  import opened ConnectionSpec
  import opened ConnectionCallbacks
  import opened Naming
  import opened ThreadPools

  const BASE: nat := 0

  /** What the loops queue. Each functor holds a shared pointer. */
  datatype Functor =
    | Establishment(id: nat)   // TcpConnection::connectEstablished
    | Removal(id: nat)         // TcpServer::removeConnectionInLoop
    | Destruction(id: nat)     // TcpConnection::connectDestroyed
    | Callback(id: nat)        // write-complete, high-water and user functors

  datatype Turn = Polling | Dispatching | Running

  datatype Active = Active(id: nat, revents: Mask)

  /** The channel whose `handleEvent` is under way, and the stage that is next. It
      holds `guard`, a shared pointer to the connection. */
  datatype Visit = Idle | Visiting(id: nat, revents: Mask, stage: Stage)

  /** `channels` is the poller's map and `kernel` the epoll set behind it, both
      from descriptor to the connection whose channel is registered. `batch` is
      the local vector of doPendingFunctors, which keeps its functors alive until
      it is destroyed; the first `ran` of them have been run. */
  datatype Loop = Loop(
    turn: Turn,
    active: seq<Active>,
    visit: Visit,
    pending: seq<Functor>,
    batch: seq<Functor>,
    ran: nat,
    channels: map<int, nat>,
    kernel: map<int, nat>)

  datatype Server = Server(
    name: string,
    ipPort: string,
    connections: map<string, nat>,
    nextConnId: nat,
    cursor: nat,
    removed: nat)

  datatype Conn = Conn(fd: int, home: nat, state: Connection)

  /** `held` are the connections user code keeps a shared pointer to; `crashed`
      records that a pointer to a freed connection was followed. */
  datatype World = World(
    server: Server,
    loops: seq<Loop>,
    conns: map<nat, Conn>,
    held: set<nat>,
    crashed: bool)

  datatype Ready = Ready(fd: int, revents: Mask)

  datatype Step =
    | Accept(fd: int, config: Config, onConnect: Script)
    | PollReturn(loop: nat, ready: seq<Ready>)
    | Begin(loop: nat)
    | Handle(loop: nat, answers: Answers)
    | EndDispatch(loop: nat)
    | RunFunctor(loop: nat, script: Script)
    | EndBatch(loop: nat)
    | UserAct(id: nat, action: Action)
    | Post(id: nat)
    | Hold(id: nat)
    | Drop(id: nat)
    | Free(id: nat)

  // ---------------------------------------------------------------- parts

  function NameOf(s: Server, id: nat): string {
    ConnName(s.name, s.ipPort, id)
  }

  predicate Listed(s: Server, id: nat) {
    NameOf(s, id) in s.connections && s.connections[NameOf(s, id)] == id
  }

  /** Functors queued or running that have not been run. */
  function Todo(l: Loop): seq<Functor> {
    if l.ran <= |l.batch| then l.batch[l.ran..] + l.pending else l.pending
  }

  predicate Mentions(l: Loop, id: nat) {
    || (l.visit.Visiting? && l.visit.id == id)
    || (exists i :: 0 <= i < |l.batch| && l.batch[i].id == id)
    || (exists i :: 0 <= i < |l.pending| && l.pending[i].id == id)
  }

  /** Some shared pointer to the connection is left. */
  predicate Referenced(w: World, id: nat) {
    || (exists name :: name in w.server.connections && w.server.connections[name] == id)
    || id in w.held
    || (exists k :: 0 <= k < |w.loops| && Mentions(w.loops[k], id))
  }

  /** `runInLoop` and `queueInLoop` from another thread. */
  function Push(w: World, loop: nat, f: Functor): World
    requires loop < |w.loops|
  {
    w.(loops := w.loops[loop := w.loops[loop].(pending := w.loops[loop].pending + [f])])
  }

  /** The poller of a loop after the interest of a channel may have changed. */
  function Synced(l: Loop, fd: int, id: nat, before: ChannelState, after: ChannelState): Loop {
    if before == after then l
    else l.(channels := l.channels[fd := id],
            kernel := if after.index == Added then l.kernel[fd := id] else l.kernel - {fd})
  }

  /** The poller of a loop after `removeChannel`. */
  function Unregistered(l: Loop, fd: int, before: ChannelState): Loop {
    l.(channels := l.channels - {fd}, kernel := if before.index == Added then l.kernel - {fd} else l.kernel)
  }

  function WithLoop(w: World, loop: nat, l: Loop): World
    requires loop < |w.loops|
  {
    w.(loops := w.loops[loop := l])
  }

  /** The connection, and with it its channel, has not been freed. */
  predicate Reachable(w: World, id: nat) {
    id in w.conns && w.conns[id].home < |w.loops|
  }

  function WithState(w: World, id: nat, s: Connection): World
    requires id in w.conns && w.conns[id].home < |w.loops|
  {
    var c := w.conns[id];
    w.(conns := w.conns[id := c.(state := s)],
       loops := w.loops[c.home := Synced(w.loops[c.home], c.fd, id, c.state.channel, s.channel)])
  }

  // ---------------------------------------------------------------- server

  function Serving(w: World): nat
    requires |w.loops| > 0
  {
    if |w.loops| == 1 then BASE else 1 + w.server.cursor
  }

  /** The table, the id counter and the round-robin cursor after newConnection,
      for a server with `ioLoops` I/O loops. */
  function Enlisted(s: Server, ioLoops: nat): Server {
    s.(connections := s.connections[NameOf(s, s.nextConnId) := s.nextConnId],
       nextConnId := s.nextConnId + 1,
       cursor := if ioLoops == 0 then s.cursor else NextCursor(s.cursor, ioLoops))
  }

  /** The table after removeConnectionInLoop. */
  function Unlisted(s: Server, x: nat): Server {
    s.(connections := s.connections - {NameOf(s, x)},
       removed := s.removed + if NameOf(s, x) in s.connections then 1 else 0)
  }

  /** newConnection: choose the loop, name the connection, list it, and run or
      queue connectEstablished. */
  function NewConnection(w: World, fd: int, config: Config, onConnect: Script): World
    requires |w.loops| > 0 && Serving(w) < |w.loops|
  {
    var id, home := w.server.nextConnId, Serving(w);
    var w' := w.(server := Enlisted(w.server, |w.loops| - 1),
                 conns := w.conns[id := Conn(fd, home, NewlyAccepted(config))]);
    if home == BASE then WithState(w', id, Establish(NewlyAccepted(config), onConnect))
    else Push(w', home, Establishment(id))
  }

  /** removeConnectionInLoop, on the base loop. */
  function RemoveConnectionInLoop(w: World, id: nat): World
    requires id in w.conns && w.conns[id].home < |w.loops|
  {
    Push(w.(server := Unlisted(w.server, id)), w.conns[id].home, Destruction(id))
  }

  /** removeConnection, called from the thread of `loop`. */
  function RemoveConnection(w: World, id: nat, loop: nat): World
    requires id in w.conns && w.conns[id].home < |w.loops|
  {
    if loop == BASE then RemoveConnectionInLoop(w, id) else Push(w, BASE, Removal(id))
  }

  /** The event handler after the stage it is in. */
  function Advanced(v: Visit): Visit {
    match v
    case Idle => Idle
    case Visiting(id, revents, stage) => if stage == Writing then Idle else v.(stage := NextStage(stage))
  }

  /** One stage of an event handler, with its close report if it has one. */
  function HandleStage(w: World, loop: nat, answers: Answers): World
    requires loop < |w.loops| && w.loops[loop].visit.Visiting? && Reachable(w, w.loops[loop].visit.id)
  {
    var Visiting(id, revents, stage) := w.loops[loop].visit;
    var w1 := WithLoop(w, loop, w.loops[loop].(visit := Advanced(w.loops[loop].visit)));
    var w2 := WithState(w1, id, RunStage(w.conns[id].state, stage, revents, answers));
    if Closes(stage, revents, answers) then RemoveConnection(w2, id, loop) else w2
  }

  // ---------------------------------------------------------------- steps

  predicate OnLoop(w: World, loop: nat, turn: Turn) {
    loop < |w.loops| && w.loops[loop].turn == turn
  }

  predicate Enabled(w: World, step: Step) {
    match step
    case Accept(fd, _, _) =>
      && OnLoop(w, BASE, Dispatching) && w.loops[BASE].visit.Idle?
      && (forall id :: id in w.conns ==> w.conns[id].fd != fd)
      && w.server.nextConnId <= INT_MAX
    case PollReturn(loop, ready) =>
      && OnLoop(w, loop, Polling)
      && (forall i :: 0 <= i < |ready| ==> ready[i].fd in w.loops[loop].kernel)
      && (forall i, j :: 0 <= i < j < |ready| ==> ready[i].fd != ready[j].fd)
    case Begin(loop) =>
      && OnLoop(w, loop, Dispatching) && w.loops[loop].visit.Idle? && w.loops[loop].active != []
    case Handle(loop, _) =>
      && OnLoop(w, loop, Dispatching) && w.loops[loop].visit.Visiting?
    case EndDispatch(loop) =>
      && OnLoop(w, loop, Dispatching) && w.loops[loop].visit.Idle? && w.loops[loop].active == []
    case RunFunctor(loop, _) =>
      && OnLoop(w, loop, Running) && w.loops[loop].ran < |w.loops[loop].batch|
    case EndBatch(loop) =>
      && OnLoop(w, loop, Running) && w.loops[loop].ran == |w.loops[loop].batch|
    case UserAct(id, _) =>
      id in w.held && (Reachable(w, id) ==> w.loops[w.conns[id].home].turn != Polling)
    case Post(id) => Referenced(w, id)
    case Hold(id) => Referenced(w, id)
    case Drop(id) => id in w.held
    case Free(id) => id in w.conns && !Referenced(w, id)
  }

  /** Everything the step dereferences is still there: the channels whose
      `revents_` a returning poll sets, the channel whose tie is locked (and the
      lock succeeds, for some shared pointer is left), the connection a callback,
      a functor or user code works on. `LifecycleSafety` proves that no run ever
      reaches a step for which this fails. */
  predicate Sound(w: World, step: Step) {
    match step
    case Accept(_, _, _) => |w.loops| > 0 && Serving(w) < |w.loops|
    case PollReturn(loop, ready) =>
      && loop < |w.loops|
      && forall i :: 0 <= i < |ready| ==>
           ready[i].fd in w.loops[loop].kernel && Reachable(w, w.loops[loop].kernel[ready[i].fd])
    case Begin(loop) =>
      && loop < |w.loops| && w.loops[loop].active != []
      && Reachable(w, w.loops[loop].active[0].id) && Referenced(w, w.loops[loop].active[0].id)
    case Handle(loop, _) =>
      loop < |w.loops| && w.loops[loop].visit.Visiting? && Reachable(w, w.loops[loop].visit.id)
    case RunFunctor(loop, _) =>
      && loop < |w.loops| && w.loops[loop].ran < |w.loops[loop].batch|
      && Reachable(w, w.loops[loop].batch[w.loops[loop].ran].id)
    case UserAct(id, _) => Reachable(w, id)
    case Post(id) => Reachable(w, id)
    case Hold(id) => Reachable(w, id)
    case _ => true
  }

  function Next(w: World, step: Step): World
    requires Enabled(w, step)
  {
    if !Sound(w, step) then w.(crashed := true) else
    match step
    case Accept(fd, config, onConnect) => NewConnection(w, fd, config, onConnect)
    case PollReturn(loop, ready) =>
      var l := w.loops[loop];
      WithLoop(w, loop, l.(turn := Dispatching,
                           active := seq(|ready|, i requires 0 <= i < |ready| && ready[i].fd in l.kernel =>
                                           Active(l.kernel[ready[i].fd], ready[i].revents))))
    case Begin(loop) =>
      var l := w.loops[loop];
      WithLoop(w, loop, l.(active := l.active[1..],
                           visit := Visiting(l.active[0].id, l.active[0].revents, Closing)))
    case Handle(loop, answers) => HandleStage(w, loop, answers)
    case EndDispatch(loop) =>
      var l := w.loops[loop];
      WithLoop(w, loop, l.(turn := Running, batch := l.pending, ran := 0, pending := []))
    case RunFunctor(loop, script) =>
      var l := w.loops[loop];
      var f := l.batch[l.ran];
      var w' := WithLoop(w, loop, l.(ran := l.ran + 1));
      Ran(w', f, script)
    case EndBatch(loop) =>
      var l := w.loops[loop];
      WithLoop(w, loop, l.(turn := Polling, batch := [], ran := 0))
    case UserAct(id, action) => WithState(w, id, Act(w.conns[id].state, action))
    case Post(id) => Push(w, w.conns[id].home, Callback(id))
    case Hold(id) => w.(held := w.held + {id})
    case Drop(id) => w.(held := w.held - {id})
    case Free(id) => w.(conns := w.conns - {id})
  }

  function Ran(w: World, f: Functor, script: Script): World
    requires Reachable(w, f.id)
  {
    var c := w.conns[f.id];
    match f
    case Establishment(id) => WithState(w, id, Establish(c.state, script))
    case Removal(id) => RemoveConnectionInLoop(w, id)
    case Destruction(id) =>
      var s := Destroy(c.state, script);
      w.(conns := w.conns[id := c.(state := s)],
         loops := w.loops[c.home := Unregistered(w.loops[c.home], c.fd, c.state.channel)])
    case Callback(id) => WithState(w, id, RunScript(c.state, script))
  }

  function Initial(name: string, ipPort: string, ioLoops: nat): World {
    World(Server(name, ipPort, map[], 1, 0, 0),
          seq(ioLoops + 1, _ => Loop(Polling, [], Idle, [], [], 0, map[], map[])),
          map[], {}, false)
  }

  predicate Possible(name: string, ipPort: string, ioLoops: nat, steps: seq<Step>)
    decreases |steps|, 0
  {
    steps == [] || (
      && Possible(name, ipPort, ioLoops, steps[..|steps| - 1])
      && Enabled(Run(name, ipPort, ioLoops, steps[..|steps| - 1]), steps[|steps| - 1]))
  }

  function Run(name: string, ipPort: string, ioLoops: nat, steps: seq<Step>): World
    requires Possible(name, ipPort, ioLoops, steps)
    decreases |steps|, 1
  {
    if steps == [] then Initial(name, ipPort, ioLoops)
    else Next(Run(name, ipPort, ioLoops, steps[..|steps| - 1]), steps[|steps| - 1])
  }
}
