/** How calls from other threads are overtaken: the states in which it happens, what
    happens then, and possible runs that lead there. */
module OffThreadFailures {
  import opened Bytes
  import opened Buffers
  import opened Registrations
  import opened ConnectionSpec
  import opened ConnectionWiring
  import opened ConnectionLedger
  import opened ConnectionOffThread
  import opened OffThreadLaws
  import M = ConnectionOffThread

  // ---------------------------------------------------------------- ways there

  lemma Grow(c: Shared, moves: seq<Move>, move: Move)
    requires M.Possible(c, moves) && AllOrderly(c, moves)
    requires M.Enabled(M.Run(c, moves), move) && Orderly(M.Run(c, moves), move)
    ensures M.Possible(c, moves + [move]) && AllOrderly(c, moves + [move])
    ensures M.Run(c, moves + [move]) == M.Next(M.Run(c, moves), move)
  {
    var more := moves + [move];
    assert more[..|more| - 1] == moves && more[|more| - 1] == move;
  }

  /** An established connection with one byte that could not be written yet. */
  function Loaded(config: Config, b: byte): Connection {
    Act(Establish(NewlyAccepted(config), []), Send([b], Refuses(WouldBlock)))
  }

  lemma LoadedShape(config: Config, b: byte)
    ensures var s := Loaded(config, b); s.status == Connected && s.unsent == [b]
  {
    InterestAlgebra();
    assert [b][0..] == [b];
  }

  /** A send and then a shutdown from another thread reach the state from which the
      failures by a queued functor start, and nothing has been overtaken yet. */
  lemma CallsCanBeOvertaken(config: Config, b: byte, msg: Stream)
    ensures exists moves ::
              && M.Possible(Fresh(config), moves) && AllOrderly(Fresh(config), moves)
              && var c := M.Run(Fresh(config), moves);
              && c.conn.status == Disconnecting && c.conn.unsent == [b]
              && c.queue == [LateSend(msg), LateShutdown]
  {
    hide Act, Establish, Orderly, M.Run, M.Possible, AllOrderly;
    LoadedShape(config, b);
    var c := Fresh(config);
    var m2 := SendingMoves(config, b);
    LoadedIsReached(config, b);
    assert M.Run(c, m2) == Shared(Loaded(config, b), [], map[]);
    var m4 := m2 + [TestSend(0, msg)] + [Continue(0)];
    QueueSend(c, m2, msg);
    assert M.Run(c, m4) == Shared(Loaded(config, b), [LateSend(msg)], map[]);
    QueueShutdown(c, m4);
  }

  function SendingMoves(config: Config, b: byte): seq<Move> {
    [] + [OnLoop(Established([]))] + [OnLoop(Acted(Send([b], Refuses(WouldBlock))))]
  }

  lemma LoadedIsReached(config: Config, b: byte)
    ensures var c, moves := Fresh(config), SendingMoves(config, b);
            M.Possible(c, moves) && AllOrderly(c, moves) && M.Run(c, moves) == Shared(Loaded(config, b), [], map[])
  {
    hide Act, Establish;
    var c := Fresh(config);
    var m0: seq<Move> := [];
    Grow(c, m0, OnLoop(Established([])));
    Grow(c, m0 + [OnLoop(Established([]))], OnLoop(Acted(Send([b], Refuses(WouldBlock)))));
  }

  lemma QueueSend(c: Shared, moves: seq<Move>, msg: Stream)
    requires M.Possible(c, moves) && AllOrderly(c, moves)
    requires M.Run(c, moves).calls == map[] && M.Run(c, moves).conn.status == Connected
    ensures var more := moves + [TestSend(0, msg)] + [Continue(0)];
            && M.Possible(c, more) && AllOrderly(c, more)
            && M.Run(c, more) == M.Run(c, moves).(queue := M.Run(c, moves).queue + [LateSend(msg)])
  {
    hide M.Run, M.Possible, AllOrderly;
    Grow(c, moves, TestSend(0, msg));
    Grow(c, moves + [TestSend(0, msg)], Continue(0));
    assert map[0 := Sending(msg)] - {0} == map[];
  }

  lemma QueueShutdown(c: Shared, moves: seq<Move>)
    requires M.Possible(c, moves) && AllOrderly(c, moves)
    requires M.Run(c, moves).calls == map[] && M.Run(c, moves).conn.status == Connected
    ensures var more := moves + [TestShutdown(0)] + [Continue(0)] + [Continue(0)];
            && M.Possible(c, more) && AllOrderly(c, more)
            && M.Run(c, more) == Shared(Emit(M.Run(c, moves).conn, ShutdownAsked).(status := Disconnecting),
                                      M.Run(c, moves).queue + [LateShutdown], map[])
  {
    hide M.Run, M.Possible, AllOrderly;
    var m1 := moves + [TestShutdown(0)];
    Grow(c, moves, TestShutdown(0));
    Grow(c, m1, Continue(0));
    Grow(c, m1 + [Continue(0)], Continue(0));
    assert map[0 := Stopping][0 := Stopped] - {0} == map[];
  }

  /** The peer hangs up. */
  const HANG_UP: Move := OnLoop(Dispatched({Hup}, Answers(Failed(WouldBlock), Accepts(0), [], [])))

  lemma HangUpCloses(s: Connection)
    requires Wired(s) && Live(s)
    ensures ConnectionSpec.Enabled(s, HANG_UP.step)
    ensures var s' := ConnectionSpec.Next(s, HANG_UP.step);
            s' == HandleClose(s, []) && s'.status == Disconnected && s'.unsent == s.unsent
  {
    hide Watch;
    CloseWired(s, []);
    assert RunScript(Emit(SetInterest(s.(status := Disconnected), DisableAll), Offline), []) ==
           Emit(SetInterest(s.(status := Disconnected), DisableAll), Offline);
  }

  lemma LoadedIsWired(config: Config, b: byte)
    ensures Wired(Loaded(config, b))
  {
    hide Act, Establish;
    FreshPlaced(config);
    EstablishWired(NewlyAccepted(config), []);
    ActWired(Establish(NewlyAccepted(config), []), Send([b], Refuses(WouldBlock)));
  }

  /** The peer can hang up between the test and the set of a shutdown, and between
      the set and its shutdownInLoop, both times with a byte unsent; up to there
      nothing has been overtaken. */
  lemma CloseCanOvertake(config: Config, b: byte)
    ensures exists moves ::
              && M.Possible(Fresh(config), moves) && AllOrderly(Fresh(config), moves)
              && var c := M.Run(Fresh(config), moves);
              c.conn.status == Disconnected && c.conn.unsent == [b] && c.calls == map[0 := Stopping]
    ensures exists moves ::
              && M.Possible(Fresh(config), moves) && AllOrderly(Fresh(config), moves)
              && var c := M.Run(Fresh(config), moves);
              c.conn.status == Disconnected && c.conn.unsent == [b] && c.queue == [LateShutdown]
  {
    hide Act, Establish, M.Run, M.Possible, AllOrderly, Wired, ConnectionSpec.Next;
    LoadedShape(config, b);
    LoadedIsWired(config, b);
    LoadedIsReached(config, b);
    var c, m2 := Fresh(config), SendingMoves(config, b);
    Grow(c, m2, TestShutdown(0));
    HangUpCloses(Loaded(config, b));
    Grow(c, m2 + [TestShutdown(0)], HANG_UP);
    QueueShutdown(c, m2);
    var m5 := m2 + [TestShutdown(0)] + [Continue(0)] + [Continue(0)];
    var s := Emit(Loaded(config, b), ShutdownAsked).(status := Disconnecting);
    StoppedIsWired(Loaded(config, b));
    HangUpCloses(s);
    Grow(c, m5, HANG_UP);
  }

  lemma StoppedIsWired(s: Connection)
    requires Wired(s) && s.status == Connected
    ensures Wired(Emit(s, ShutdownAsked).(status := Disconnecting))
  {
  }

  // ---------------------------------------------------------------- what happens

  /** A deferred half-close is pending, and a send queued before the shutdown runs
      only now: the message is taken although sending has ended. */
  lemma ShutdownOvertakesSend(c: Shared, msg: Stream, w: WriteOutcome)
    requires Sound(c) && c.conn.status == Disconnecting && c.conn.unsent != []
    requires c.queue != [] && c.queue[0] == LateSend(msg)
    ensures Of(c.conn).asked && M.Enabled(c, RunLate(w))
    ensures var s := M.Next(c, RunLate(w)).conn;
            s.unsent == c.conn.unsent + msg && Sent(msg) in s.log && !Of(s).lawful
  {
    assert msg[0..] == msg;
    assert Emit(c.conn, Sent(msg)).log[|c.conn.log|] == Sent(msg);
    SendSettlesFirst(c.conn, msg, w);
    DisorderIsUnlawful(c, RunLate(w));
  }

  /** handleWrite sends the last bytes of a connection that is disconnecting. */
  function Drain(c: Shared): Move {
    OnLoop(Dispatched({Out}, Answers(Failed(WouldBlock), Accepts(|c.conn.unsent|), [], [])))
  }

  lemma DrainHalfCloses(c: Shared)
    requires Sound(c) && c.conn.status == Disconnecting && c.conn.unsent != []
    ensures M.Enabled(c, Drain(c))
    ensures var s := M.Next(c, Drain(c)).conn;
            && s.status == Disconnecting && s.unsent == [] && !s.channel.Writing() && Of(s).halfClosed
            && s.log != [] && s.log[|s.log| - 1] == HalfClose
  {
    hide Watch, Observe;
    var s := M.Next(c, Drain(c)).conn;
    assert s == HandleWrite(c.conn, Accepts(|c.conn.unsent|));
    var before := s.log[..|s.log| - 1];
    assert s.log == before + [HalfClose];
    EmitObserved(s.(log := before), HalfClose);
    ObserveStep(s.config, Of(s.(log := before)), HalfClose);
  }

  /** The bytes before it drain first, the draining handleWrite half-closes, and the
      queued send can only be refused: the message is lost. */
  lemma DrainOvertakesSend(c: Shared, msg: Stream, w: WriteOutcome)
    requires Sound(c) && c.conn.status == Disconnecting && c.conn.unsent != []
    requires c.queue != [] && c.queue[0] == LateSend(msg)
    requires M.Enabled(c, Drain(c)) && M.Enabled(M.Next(c, Drain(c)), RunLate(w))
    ensures var c1 := M.Next(c, Drain(c)); M.Next(c1, RunLate(w)).conn == Emit(c1.conn, Dropped(msg))
  {
    hide Watch, HandleWrite;
    DrainHalfCloses(c);
  }

  /** A thread has found the connection connected; then the peer closes it; then the
      thread sets the status: the connection is disconnecting again, after its
      offline callback and without any interest. */
  lemma CloseOvertakesShutdown(c: Shared, t: nat)
    requires Sound(c) && c.conn.status == Disconnected && t in c.calls && c.calls[t] == Stopping
    ensures M.Enabled(c, Continue(t))
    ensures var s := M.Next(c, Continue(t)).conn;
            && Live(s) && Of(c.conn).offline && s.channel.events == NONE_EVENT
            && !Of(s).lawful && !NotStranded(s)
  {
    DisorderIsUnlawful(c, Continue(t));
  }

  /** The peer has closed the connection with bytes unsent before the queued
      shutdownInLoop runs: it shuts the write side although not everything accepted
      has been written. */
  lemma CloseOvertakesShutdownInLoop(c: Shared, w: WriteOutcome)
    requires Sound(c) && c.conn.status == Disconnected && c.conn.unsent != []
    requires c.queue != [] && c.queue[0] == LateShutdown && M.Enabled(c, RunLate(w))
    ensures Of(c.conn).written != Of(c.conn).accepted
    ensures var s := M.Next(c, RunLate(w)).conn; s == Emit(c.conn, HalfClose) && !Of(s).lawful
  {
    hide Watch, Observe;
    DisorderIsUnlawful(c, RunLate(w));
  }

  /** The same handleWrite overtakes the queued shutdownInLoop, which shuts the
      write side a second time. */
  lemma DrainOvertakesShutdown(c: Shared, w: WriteOutcome)
    requires Sound(c) && c.conn.status == Disconnecting && c.conn.unsent != []
    requires c.queue != [] && c.queue[0] == LateShutdown
    requires M.Enabled(c, Drain(c)) && M.Enabled(M.Next(c, Drain(c)), RunLate(w))
    ensures var log := M.Next(M.Next(c, Drain(c)), RunLate(w)).conn.log;
            |log| >= 2 && log[|log| - 1] == HalfClose == log[|log| - 2]
  {
    hide Watch, HandleWrite;
    DrainHalfCloses(c);
  }
}
