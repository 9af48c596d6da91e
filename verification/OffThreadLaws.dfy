/** The laws of a connection that survive calls from other threads, each over every
    interleaving and with its own exact condition.

    Bytes and posts need no order at all. That unsent bytes are watched for, and that
    a half-close comes exactly when nothing is left, fails only when another thread
    sets the status after the connection was closed. */
module OffThreadLaws {
  import opened Bytes
  import opened Buffers
  import opened Registrations
  import opened ConnectionSpec
  import opened ConnectionWiring
  import opened ConnectionLedger
  import opened ConnectionTally
  import opened ConnectionOffThread
  import M = ConnectionOffThread

  // ---------------------------------------------------------------- bytes and posts

  lemma MoveTallied(c: Shared, move: Move)
    requires M.Enabled(c, move) && Tallied(c.conn)
    ensures Tallied(M.Next(c, move).conn)
  {
    hide Watch, Observe, SendInLoop;
    match move
    case OnLoop(step) => StepTallied(c.conn, step);
    case Continue(t) => EmitQuiet(c.conn, ShutdownAsked);
    case RunLate(w) =>
      if c.queue[0].LateSend? {
        SendTallied(c.conn, c.queue[0].msg, w);
      } else {
        EmitQuiet(c.conn, HalfClose);
      }
    case _ =>
  }

  lemma {:induction false} RunTallied(config: Config, moves: seq<Move>)
    requires M.Possible(Fresh(config), moves)
    ensures Tallied(M.Run(Fresh(config), moves).conn)
  {
    hide Tallied, M.Next;
    if moves == [] {
      FreshTallied(config);
    } else {
      var before := moves[..|moves| - 1];
      RunTallied(config, before);
      MoveTallied(M.Run(Fresh(config), before), moves[|moves| - 1]);
    }
  }

  lemma FreshTallied(config: Config)
    ensures Tallied(NewlyAccepted(config))
  {
  }

  /** Whatever threads call `send` and `shutdown`, and whatever overtakes what: no
      byte is lost, duplicated or reordered between what sendInLoop took and what
      the kernel got, or between the socket and the user; and the write-complete
      and high-water posts are exactly those that are due. */
  lemma OffThreadConserves(config: Config, moves: seq<Move>)
    requires M.Possible(Fresh(config), moves)
    ensures var s := M.Run(Fresh(config), moves).conn;
            var m := Of(s);
            && m.accepted == m.written + s.unsent
            && m.arrived == m.consumed + s.input
            && m.writeCompletes == (if config.writeComplete then m.completions else 0)
            && m.highWaters == (if config.highWater then m.crossings else [])
  {
    hide Watch, Observe, M.Next;
    RunTallied(config, moves);
    ConfigStays(config, moves);
  }

  lemma {:induction false} ConfigStays(config: Config, moves: seq<Move>)
    requires M.Possible(Fresh(config), moves)
    ensures M.Run(Fresh(config), moves).conn.config == config
  {
    if moves != [] {
      ConfigStays(config, moves[..|moves| - 1]);
      ConfigStep(M.Run(Fresh(config), moves[..|moves| - 1]), moves[|moves| - 1]);
    }
  }

  lemma ConfigStep(c: Shared, move: Move)
    requires M.Enabled(c, move)
    ensures M.Next(c, move).conn.config == c.conn.config
  {
    hide Watch, Observe, LateRun, ConnectionSpec.Next;
  }

  // ---------------------------------------------------------------- unsent bytes

  /** Unsent bytes exist exactly when the channel is writing, and the kernel watches
      what a connection that is up wants. */
  predicate NotStranded(s: Connection) {
    Live(s) ==> (s.unsent != [] <==> s.channel.Writing()) && s.channel.Watched() == Some(Wanted(s))
  }

  /** No shutdown sets the status after the connection was closed. */
  predicate InTime(c: Shared, move: Move)
    requires M.Enabled(c, move)
  {
    move.Continue? && c.calls[move.thread].Stopping? ==> c.conn.status != Disconnected
  }

  predicate AlwaysInTime(c: Shared, moves: seq<Move>)
    requires M.Possible(c, moves)
  {
    moves == [] || (
      && AlwaysInTime(c, moves[..|moves| - 1])
      && InTime(M.Run(c, moves[..|moves| - 1]), moves[|moves| - 1]))
  }

  predicate NeverStranded(c: Shared, moves: seq<Move>)
    requires M.Possible(c, moves)
  {
    NotStranded(M.Run(c, moves).conn) && (moves == [] || NeverStranded(c, moves[..|moves| - 1]))
  }

  predicate Placed(c: Shared) {
    Wired(c.conn) && (c.queue != [] || c.calls != map[] ==> c.conn.status != Connecting)
  }

  lemma LateSendWired(s: Connection, msg: Stream, w: WriteOutcome)
    requires Wired(s) && s.status != Connecting
    ensures Wired(SendInLoop(s, msg, w)) && SendInLoop(s, msg, w).status == s.status
  {
    InterestAlgebra();
  }

  lemma LoopStepPlaced(c: Shared, step: ConnectionSpec.Step)
    requires Placed(c) && M.Enabled(c, OnLoop(step))
    ensures Placed(M.Next(c, OnLoop(step)))
  {
    hide Wired, ConnectionSpec.Next, ConnectionSpec.Enabled;
    StepWired(c.conn, step);
    if c.conn.status != Connecting {
      NeverConnectingAgain(c.conn, step);
    }
  }

  lemma MovePlaced(c: Shared, move: Move)
    requires Placed(c) && M.Enabled(c, move) && InTime(c, move)
    ensures Placed(M.Next(c, move))
  {
    hide Watch, SendInLoop;
    match move
    case OnLoop(step) => LoopStepPlaced(c, step);
    case RunLate(w) =>
      if c.queue[0].LateSend? {
        LateSendWired(c.conn, c.queue[0].msg, w);
      }
    case Continue(t) => assert c.calls != map[];
    case _ =>
  }

  lemma PlacedIsWatched(c: Shared)
    requires Placed(c)
    ensures NotStranded(c.conn)
  {
  }

  /** A status set after the close strands the connection at once. */
  lemma LateSetStrands(c: Shared, move: Move)
    requires Placed(c) && M.Enabled(c, move) && !InTime(c, move)
    ensures !NotStranded(M.Next(c, move).conn)
  {
  }

  lemma {:induction false} StrandingDecided(config: Config, moves: seq<Move>)
    requires M.Possible(Fresh(config), moves)
    ensures if AlwaysInTime(Fresh(config), moves)
            then Placed(M.Run(Fresh(config), moves)) && NeverStranded(Fresh(config), moves)
            else !NeverStranded(Fresh(config), moves)
  {
    hide Placed, M.Next, M.Enabled, NotStranded, InTime;
    if moves == [] {
      FreshPlaced(config);
    } else {
      var before, last := moves[..|moves| - 1], moves[|moves| - 1];
      var c := M.Run(Fresh(config), before);
      StrandingDecided(config, before);
      if AlwaysInTime(Fresh(config), before) {
        if InTime(c, last) {
          MovePlaced(c, last);
          PlacedIsWatched(M.Next(c, last));
        } else {
          LateSetStrands(c, last);
        }
      }
    }
  }

  lemma FreshPlaced(config: Config)
    ensures Placed(Fresh(config)) && NotStranded(Fresh(config).conn)
  {
  }

  /** The exact condition: over every interleaving, unsent bytes are never stranded,
      at any moment of the run, if and only if no shutdown sets the status after the
      connection was closed. Overtaken functors do no harm here. */
  lemma OffThreadNeverStrandedIff(config: Config, moves: seq<Move>)
    requires M.Possible(Fresh(config), moves)
    ensures NeverStranded(Fresh(config), moves) <==> AlwaysInTime(Fresh(config), moves)
  {
    hide Placed;
    StrandingDecided(config, moves);
  }

  // ---------------------------------------------------------------- half-close

  /** A connection that is disconnecting is writing whatever is unsent, and its
      write side is shut exactly when nothing is, unless the shutdownInLoop is still
      to come; then it may also be open. */
  predicate Graceful(s: Connection, owing: bool) {
    s.status == Disconnecting ==>
      && (s.unsent != [] <==> s.channel.Writing())
      && (Of(s).halfClosed ==> s.unsent == [])
      && (s.unsent == [] && !owing ==> Of(s).halfClosed)
  }

  /** What keeps `Graceful`, from every handler to the next. */
  predicate Halved(s: Connection, owing: bool) {
    && Graceful(s, owing)
    && (s.status == Connecting ==> s.channel == ChannelState(New, NONE_EVENT) && s.unsent == [])
    && (s.status in {Connecting, Connected} ==> !Of(s).halfClosed && !owing)
    && (s.status == Connected ==> (s.unsent != [] <==> s.channel.Writing()))
    && (s.status == Disconnected ==> s.channel.events == NONE_EVENT)
  }

  lemma EmitHalf(s: Connection, e: Event)
    ensures Of(Emit(s, e)).halfClosed <==> Of(s).halfClosed || e.HalfClose?
  {
    hide Watch, Observe;
    EmitObserved(s, e);
    ObserveStep(s.config, Of(s), e);
  }

  lemma EnqueueHalf(s: Connection, rest: Stream)
    ensures var s' := Enqueue(s, rest);
            && (Of(s').halfClosed <==> Of(s).halfClosed)
            && s'.status == s.status && s'.unsent == s.unsent + rest && s'.channel.Writing()
  {
    hide Watch;
    var level := |s.unsent| + |rest|;
    var post := Crosses(s.config.mark, |s.unsent|, level) && s.config.highWater;
    EmitHalf(s, PostHighWater(level));
    EmitHalf(EmitIf(s, post, PostHighWater(level)), Buffered(rest));
  }

  /** A send moves neither the status nor the write side, and leaves the channel
      writing exactly what is unsent. */
  lemma SendHalf(s: Connection, msg: Stream, w: WriteOutcome)
    requires s.status != Disconnected ==> (s.unsent != [] <==> s.channel.Writing())
    ensures var s' := SendInLoop(s, msg, w);
            && (Of(s').halfClosed <==> Of(s).halfClosed) && s'.status == s.status
            && (s.status != Disconnected ==> (s'.unsent != [] <==> s'.channel.Writing()))
            && (s.status == Disconnected ==> s' == s)
            && (s.unsent != [] ==> s'.unsent != [])
            && (WritesDirectly(s) && Fault(w) ==> s'.unsent == s.unsent)
  {
    hide Watch;
    if s.status != Disconnected {
      if WritesDirectly(s) && Fault(w) {
        EmitHalf(s, Dropped(msg));
      } else {
        var n, s0 := DirectCount(s, msg, w), Emit(s, Sent(msg));
        EmitHalf(s, Sent(msg));
        EmitHalf(s0, Direct(msg[..n]));
        var s1 := EmitIf(s0, WritesDirectly(s) && w.Accepts?, Direct(msg[..n]));
        EmitHalf(s1, PostWriteComplete);
        EnqueueHalf(s1, msg[n..]);
      }
    }
  }

  /** From `s` to `s'` a connection is never new again, and stays closed. */
  predicate Onward(s: Connection, s': Connection) {
    && (s.status != Connecting ==> s'.status != Connecting)
    && (s.status == Disconnected ==> s'.status == Disconnected)
  }

  lemma ActHalved(s: Connection, a: Action, owing: bool)
    requires Halved(s, owing)
    ensures Halved(Act(s, a), owing) && Onward(s, Act(s, a))
  {
    hide Watch;
    match a
    case Send(msg, w) =>
      if s.status == Connected {
        SendHalf(s, msg, w);
      }
    case Shutdown =>
      EmitHalf(s, ShutdownAsked);
      EmitHalf(Emit(s, ShutdownAsked).(status := Disconnecting), HalfClose);
    case Consume(len) => EmitHalf(s, Consumed(s.input[..Min(len, |s.input|)]));
  }

  lemma {:induction false} ScriptHalved(s: Connection, script: Script, owing: bool)
    requires Halved(s, owing)
    ensures Halved(RunScript(s, script), owing) && Onward(s, RunScript(s, script))
  {
    hide Halved, Act;
    if script != [] {
      ScriptHalved(s, script[..|script| - 1], owing);
      ActHalved(RunScript(s, script[..|script| - 1]), script[|script| - 1], owing);
    }
  }

  lemma CloseHalved(s: Connection, callback: Script, owing: bool)
    ensures var s' := HandleClose(s, callback); Halved(s', owing) && s'.status == Disconnected
  {
    hide Watch, RunScript;
    ScriptHalved(Emit(SetInterest(s.(status := Disconnected), DisableAll), Offline), callback, owing);
  }

  lemma ReadHalved(s: Connection, r: ReadOutcome, callback: Script, owing: bool)
    requires Halved(s, owing) && s.status != Connecting
    ensures Halved(HandleRead(s, r, callback), owing) && Onward(s, HandleRead(s, r, callback))
  {
    hide Watch, RunScript;
    if r.Delivered? {
      if r.bytes == [] {
        CloseHalved(s, callback, owing);
      } else {
        var s1 := Emit(s, Arrived(r.bytes)).(input := s.input + r.bytes);
        EmitHalf(s, Arrived(r.bytes));
        EmitHalf(s1, Message(s1.input));
        ScriptHalved(Emit(s1, Message(s1.input)), callback, owing);
      }
    }
  }

  lemma WriteHalved(s: Connection, w: WriteOutcome, owing: bool)
    requires Halved(s, owing) && s.status != Connecting
    ensures Halved(HandleWrite(s, w), owing) && Onward(s, HandleWrite(s, w))
  {
    hide Watch;
    if s.channel.Writing() && w.Accepts? {
      var n := Min(w.room, |s.unsent|);
      var s1 := Emit(s, Flushed(s.unsent[..n])).(unsent := s.unsent[n..]);
      EmitHalf(s, Flushed(s.unsent[..n]));
      var s2 := SetInterest(s1, DisableWriting);
      EmitHalf(s2, PostWriteComplete);
      EmitHalf(EmitIf(s2, s.config.writeComplete, PostWriteComplete), HalfClose);
    }
  }

  lemma StageHalved(s: Connection, stage: Stage, revents: Mask, a: Answers, owing: bool)
    requires Halved(s, owing) && s.status != Connecting
    ensures var s' := RunStage(s, stage, revents, a); Halved(s', owing) && Onward(s, s')
  {
    hide Halved, HandleClose, HandleRead, HandleWrite;
    match stage
    case Closing => CloseHalved(s, a.onClose, owing);
    case Reading => ReadHalved(s, a.read, a.onRead, owing);
    case Writing => WriteHalved(s, a.write, owing);
  }

  lemma StepHalved(s: Connection, step: ConnectionSpec.Step, owing: bool)
    requires Halved(s, owing) && ConnectionSpec.Enabled(s, step)
    ensures var s' := ConnectionSpec.Next(s, step);
            Halved(s', owing) && (s.status != Connecting ==> s'.status != Connecting)
  {
    hide Watch, RunStage, RunScript, Act;
    match step
    case Established(script) =>
      var s0 := SetInterest(s.(status := Connected), EnableReading);
      EmitHalf(s0, Online);
      ScriptHalved(Emit(s0, Online), script, owing);
    case Dispatched(revents, a) =>
      var s1 := RunStage(s, Closing, revents, a);
      StageHalved(s, Closing, revents, a, owing);
      StageHalved(s1, Reading, revents, a, owing);
      StageHalved(RunStage(s1, Reading, revents, a), Writing, revents, a, owing);
    case Acted(action) => ActHalved(s, action, owing);
    case Destroyed(script) =>
  }

  /** No shutdown sets the status after the connection was closed with bytes unsent. */
  predicate NothingLeft(c: Shared, move: Move)
    requires M.Enabled(c, move)
  {
    move.Continue? && c.calls[move.thread].Stopping? && c.conn.status == Disconnected ==> c.conn.unsent == []
  }

  predicate AlwaysNothingLeft(c: Shared, moves: seq<Move>)
    requires M.Possible(c, moves)
  {
    moves == [] || (
      && AlwaysNothingLeft(c, moves[..|moves| - 1])
      && NothingLeft(M.Run(c, moves[..|moves| - 1]), moves[|moves| - 1]))
  }

  predicate AlwaysGraceful(c: Shared, moves: seq<Move>)
    requires M.Possible(c, moves)
  {
    && Graceful(M.Run(c, moves).conn, Owing(M.Run(c, moves)))
    && (moves == [] || AlwaysGraceful(c, moves[..|moves| - 1]))
  }

  predicate HalfPlaced(c: Shared) {
    Halved(c.conn, Owing(c)) && (c.queue != [] || c.calls != map[] ==> c.conn.status != Connecting)
  }

  lemma LateHalved(s: Connection, late: Late, w: WriteOutcome, owing: bool)
    requires Halved(s, owing) && s.status != Connecting && (Of(s).halfClosed ==> w == Refuses(BrokenPipe))
    requires late == LateShutdown ==> owing
    ensures var s' := LateRun(s, late, w);
            && s'.status != Connecting && Halved(s', owing)
            && (late == LateShutdown ==> Halved(s', false))
  {
    hide Watch, SendInLoop;
    match late
    case LateSend(msg) => SendHalf(s, msg, w);
    case LateShutdown => EmitHalf(s, HalfClose);
  }

  lemma RunLateHalved(c: Shared, w: WriteOutcome)
    requires HalfPlaced(c) && M.Enabled(c, RunLate(w))
    ensures HalfPlaced(M.Next(c, RunLate(w)))
  {
    hide Halved, LateRun;
    var c', late := M.Next(c, RunLate(w)), c.queue[0];
    assert c.queue == [late] + c'.queue;
    LateHalved(c.conn, late, w, Owing(c));
    if late != LateShutdown {
      assert Owing(c') == Owing(c);
    }
  }

  lemma ContinueHalved(c: Shared, t: nat)
    requires HalfPlaced(c) && M.Enabled(c, Continue(t)) && NothingLeft(c, Continue(t))
    ensures HalfPlaced(M.Next(c, Continue(t)))
  {
    hide Watch;
    var c' := M.Next(c, Continue(t));
    assert c.calls != map[];
    ContinueOwing(c, t);
    EmitHalf(c.conn, ShutdownAsked);
  }

  lemma LoopStepHalved(c: Shared, step: ConnectionSpec.Step)
    requires HalfPlaced(c) && M.Enabled(c, OnLoop(step))
    ensures HalfPlaced(M.Next(c, OnLoop(step)))
  {
    hide Halved, ConnectionSpec.Next, ConnectionSpec.Enabled, Owing;
    StepHalved(c.conn, step, Owing(c));
    OwingFrame(c, M.Next(c, OnLoop(step)));
  }

  lemma MoveHalved(c: Shared, move: Move)
    requires HalfPlaced(c) && M.Enabled(c, move) && NothingLeft(c, move)
    ensures HalfPlaced(M.Next(c, move))
  {
    match move
    case OnLoop(step) => LoopStepHalved(c, step);
    case Continue(t) => ContinueHalved(c, t);
    case RunLate(w) => RunLateHalved(c, w);
    case TestSend(_, _) => TestHalved(c, move);
    case TestShutdown(_) => TestHalved(c, move);
  }

  lemma TestHalved(c: Shared, move: Move)
    requires HalfPlaced(c) && M.Enabled(c, move) && (move.TestSend? || move.TestShutdown?)
    ensures HalfPlaced(M.Next(c, move))
  {
    hide Halved;
    TestOwing(c, move);
  }

  lemma {:induction false} GraceDecided(config: Config, moves: seq<Move>)
    requires M.Possible(Fresh(config), moves)
    ensures if AlwaysNothingLeft(Fresh(config), moves)
            then HalfPlaced(M.Run(Fresh(config), moves)) && AlwaysGraceful(Fresh(config), moves)
            else !AlwaysGraceful(Fresh(config), moves)
  {
    hide HalfPlaced, M.Next, M.Enabled, Graceful, NothingLeft, Owing;
    if moves == [] {
      FreshHalved(config);
    } else {
      var before, last := moves[..|moves| - 1], moves[|moves| - 1];
      var c := M.Run(Fresh(config), before);
      GraceDecided(config, before);
      if AlwaysNothingLeft(Fresh(config), before) {
        if NothingLeft(c, last) {
          MoveHalved(c, last);
          HalvedIsGraceful(M.Next(c, last));
        } else {
          LateSetIsNotGraceful(c, last);
        }
      }
    }
  }

  lemma FreshHalved(config: Config)
    ensures HalfPlaced(Fresh(config)) && Graceful(Fresh(config).conn, Owing(Fresh(config)))
  {
  }

  lemma HalvedIsGraceful(c: Shared)
    requires HalfPlaced(c)
    ensures Graceful(c.conn, Owing(c))
  {
  }

  lemma LateSetIsNotGraceful(c: Shared, move: Move)
    requires HalfPlaced(c) && M.Enabled(c, move) && !NothingLeft(c, move)
    ensures !Graceful(M.Next(c, move).conn, Owing(M.Next(c, move)))
  {
    hide Watch;
  }

  /** The exact condition: over every interleaving, a disconnecting connection writes
      whatever is unsent and is half-closed exactly when nothing is, at every moment
      of the run, if and only if no shutdown sets the status after the connection was
      closed with bytes unsent. */
  lemma OffThreadGracefulIff(config: Config, moves: seq<Move>)
    requires M.Possible(Fresh(config), moves)
    ensures AlwaysGraceful(Fresh(config), moves) <==> AlwaysNothingLeft(Fresh(config), moves)
  {
    hide HalfPlaced;
    GraceDecided(config, moves);
  }
}
