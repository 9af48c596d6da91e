/** `send` and `shutdown` called from other threads (src/TcpConnection.cc:64-82 and
    145-154), next to everything the loop thread does.

    Another thread first tests the status. For a send it then queues a sendInLoop;
    for a shutdown it first sets the status and then queues a shutdownInLoop. These
    are steps of their own, between which all other threads may act. A step of the
    loop thread is one handler, one functor or one action of user code. All that
    another thread changes in a connection is its status, and a change in the middle
    of a handler has the effect of one before or after it: only user code reads the
    status again, and its actions may be steps of their own. Messages are values
    here, and the connection outlives the functors queued for it. */
module ConnectionOffThread {
  import opened Bytes
  import opened Buffers
  import opened Registrations
  import opened ConnectionSpec
  import opened ConnectionWiring
  import opened ConnectionLedger
  import Spec = ConnectionSpec

  /** What other threads queue on the loop. */
  datatype Late = LateSend(msg: Stream) | LateShutdown

  /** How far a call has come: a send that has found the connection connected, a
      shutdown that has, and a shutdown that has set the status. */
  datatype Call = Sending(msg: Stream) | Stopping | Stopped

  datatype Shared = Shared(conn: Connection, queue: seq<Late>, calls: map<nat, Call>)

  datatype Move =
    | OnLoop(step: Spec.Step)
    | TestSend(thread: nat, msg: Stream)
    | TestShutdown(thread: nat)
    | Continue(thread: nat)
    | RunLate(outcome: WriteOutcome)

  /** A socket shut for writing refuses every write with EPIPE. */
  predicate Enabled(c: Shared, move: Move) {
    match move
    case OnLoop(step) => Spec.Enabled(c.conn, step)
    case TestSend(t, _) => t !in c.calls
    case TestShutdown(t) => t !in c.calls
    case Continue(t) => t in c.calls
    case RunLate(w) => c.queue != [] && (Of(c.conn).halfClosed ==> w == Refuses(BrokenPipe))
  }

  function Next(c: Shared, move: Move): Shared
    requires Enabled(c, move)
  {
    match move
    case OnLoop(step) => c.(conn := Spec.Next(c.conn, step))
    case TestSend(t, msg) => if c.conn.status == Connected then c.(calls := c.calls[t := Sending(msg)]) else c
    case TestShutdown(t) => if c.conn.status == Connected then c.(calls := c.calls[t := Stopping]) else c
    case Continue(t) =>
      (match c.calls[t]
       case Sending(msg) => c.(queue := c.queue + [LateSend(msg)], calls := c.calls - {t})
       case Stopping =>
         c.(conn := Emit(c.conn, ShutdownAsked).(status := Disconnecting), calls := c.calls[t := Stopped])
       case Stopped => c.(queue := c.queue + [LateShutdown], calls := c.calls - {t}))
    case RunLate(w) => c.(conn := LateRun(c.conn, c.queue[0], w), queue := c.queue[1..])
  }

  function LateRun(s: Connection, late: Late, w: WriteOutcome): (s': Connection)
    ensures s'.config == s.config
  {
    match late
    case LateSend(msg) => SendInLoop(s, msg, w)
    case LateShutdown => ShutdownInLoop(s)
  }

  function Fresh(config: Config): Shared {
    Shared(NewlyAccepted(config), [], map[])
  }

  predicate Possible(c: Shared, moves: seq<Move>)
    decreases |moves|, 0
  {
    moves == [] || (
      && Possible(c, moves[..|moves| - 1])
      && Enabled(Run(c, moves[..|moves| - 1]), moves[|moves| - 1]))
  }

  function Run(c: Shared, moves: seq<Move>): Shared
    requires Possible(c, moves)
    decreases |moves|, 1
  {
    if moves == [] then c else Next(Run(c, moves[..|moves| - 1]), moves[|moves| - 1])
  }

  // ---------------------------------------------------------------- order

  /** Nothing has been overtaken: the status is still connected when a shutdown
      sets it; no shutdown has come before a queued sendInLoop runs; and when a
      queued shutdownInLoop runs, bytes are still being written or all have been
      and the write side is open. */
  predicate Orderly(c: Shared, move: Move)
    requires Enabled(c, move)
  {
    match move
    case Continue(t) => c.calls[t].Stopping? ==> c.conn.status == Connected
    case RunLate(_) => LateInOrder(c.conn, c.queue[0])
    case _ => true
  }

  predicate LateInOrder(s: Connection, late: Late) {
    match late
    case LateSend(_) => s.status != Disconnecting
    case LateShutdown => s.channel.Writing() || (s.unsent == [] && !Of(s).halfClosed)
  }

  predicate AllOrderly(c: Shared, moves: seq<Move>)
    requires Possible(c, moves)
  {
    moves == [] || (
      && AllOrderly(c, moves[..|moves| - 1])
      && Orderly(Run(c, moves[..|moves| - 1]), moves[|moves| - 1]))
  }

  // ---------------------------------------------------------------- invariant

  /** Some thread has set the status and its shutdownInLoop has not run yet. */
  predicate Owing(c: Shared) {
    LateShutdown in c.queue || exists t :: t in c.calls && c.calls[t] == Stopped
  }

  predicate Sound(c: Shared) {
    && Wired(c.conn) && Kept(c.conn, Owing(c))
    && (c.queue != [] || c.calls != map[] ==> c.conn.status != Connecting)
  }

  lemma NeverConnectingAgain(s: Connection, step: Spec.Step)
    requires Wired(s) && Spec.Enabled(s, step) && s.status != Connecting
    ensures Spec.Next(s, step).status != Connecting
  {
    match step
    case Dispatched(revents, answers) => DispatchWired(s, revents, answers);
    case Acted(action) => ActWired(s, action);
    case _ =>
  }

  lemma LoopStepSound(c: Shared, step: Spec.Step)
    requires Sound(c) && Spec.Enabled(c.conn, step)
    ensures Sound(Next(c, OnLoop(step)))
  {
    hide Wired, Kept, Spec.Next, Spec.Enabled, Owing;
    StepWired(c.conn, step);
    StepKept(c.conn, step, Owing(c));
    if c.conn.status != Connecting {
      NeverConnectingAgain(c.conn, step);
    }
    assert Owing(Next(c, OnLoop(step))) == Owing(c) by {
      OwingFrame(c, Next(c, OnLoop(step)));
    }
  }

  lemma OwingFrame(c: Shared, c': Shared)
    requires c'.queue == c.queue && c'.calls == c.calls
    ensures Owing(c') == Owing(c)
  {
  }

  /** What is owed changes only when a thread sets the status or a functor runs. */
  lemma ContinueOwing(c: Shared, t: nat)
    requires Enabled(c, Continue(t))
    ensures Owing(Next(c, Continue(t))) == (Owing(c) || c.calls[t] == Stopping)
  {
    var c' := Next(c, Continue(t));
    match c.calls[t]
    case Sending(msg) =>
      assert forall u :: u in c.calls && c.calls[u] == Stopped ==> u in c'.calls && c'.calls[u] == Stopped;
      assert forall late :: late in c'.queue ==> late in c.queue || late == LateSend(msg);
      assert forall late :: late in c.queue ==> late in c'.queue;
    case Stopping =>
      assert t in c'.calls && c'.calls[t] == Stopped;
    case Stopped =>
      assert Owing(c);
      assert LateShutdown == c'.queue[|c.queue|];
  }

  lemma TestOwing(c: Shared, move: Move)
    requires Enabled(c, move) && (move.TestSend? || move.TestShutdown?)
    ensures Owing(Next(c, move)) == Owing(c)
  {
    var c' := Next(c, move);
    assert forall u :: u in c.calls && c.calls[u] == Stopped ==> u in c'.calls && c'.calls[u] == Stopped;
  }

  /** A call of another thread moves on. */
  lemma ContinueSound(c: Shared, t: nat)
    requires Sound(c) && Enabled(c, Continue(t)) && Orderly(c, Continue(t))
    ensures Sound(Next(c, Continue(t)))
  {
    hide Wired, Kept;
    var c' := Next(c, Continue(t));
    assert c.calls != map[];
    ContinueOwing(c, t);
    if c.calls[t] == Stopping {
      SetStatusSound(c.conn, Owing(c));
    }
  }

  /** Another thread sets the status of a connected connection. */
  lemma SetStatusSound(s: Connection, late: bool)
    requires Wired(s) && Kept(s, late) && s.status == Connected
    ensures var s' := Emit(s, ShutdownAsked).(status := Disconnecting); Wired(s') && Kept(s', true)
  {
    hide Observe, Watch;
    EmitObserved(s, ShutdownAsked);
    ShutdownBooks(s.config, Of(s), s.unsent, s.input);
  }

  /** A queued functor that has not been overtaken; a shutdownInLoop leaves nothing
      owed. */
  lemma LateSound(s: Connection, late: Late, w: WriteOutcome, owing: bool)
    requires Wired(s) && Kept(s, owing) && s.status != Connecting && LateInOrder(s, late)
    requires late == LateShutdown ==> owing
    ensures var s' := LateRun(s, late, w);
            && Wired(s') && s'.status != Connecting && Kept(s', owing)
            && (late == LateShutdown ==> Kept(s', false))
  {
    hide Observe, Watch;
    match late
    case LateSend(msg) =>
      if s.status == Connected {
        SendKept(s, msg, w, owing);
        ActWired(s, Send(msg, w));
      }
    case LateShutdown =>
      EmitObserved(s, HalfClose);
      if s.unsent == [] && !Of(s).halfClosed {
        ShutdownBooks(s.config, Of(s), s.unsent, s.input);
      }
  }

  lemma RunLateSound(c: Shared, w: WriteOutcome)
    requires Sound(c) && Enabled(c, RunLate(w)) && Orderly(c, RunLate(w))
    ensures Sound(Next(c, RunLate(w)))
  {
    hide Wired, Kept, LateInOrder, LateRun;
    var c', late := Next(c, RunLate(w)), c.queue[0];
    assert c.queue == [late] + c'.queue;
    LateSound(c.conn, late, w, Owing(c));
    if late != LateShutdown {
      assert Owing(c') == Owing(c);
    }
  }

  lemma MoveSound(c: Shared, move: Move)
    requires Sound(c) && Enabled(c, move) && Orderly(c, move)
    ensures Sound(Next(c, move))
  {
    match move
    case OnLoop(step) => LoopStepSound(c, step);
    case Continue(t) => ContinueSound(c, t);
    case RunLate(w) => RunLateSound(c, w);
    case TestSend(_, _) => TestSound(c, move);
    case TestShutdown(_) => TestSound(c, move);
  }

  lemma TestSound(c: Shared, move: Move)
    requires Sound(c) && Enabled(c, move) && (move.TestSend? || move.TestShutdown?)
    ensures Sound(Next(c, move))
  {
    hide Wired, Kept;
    TestOwing(c, move);
  }

  // ---------------------------------------------------------------- disorder

  /** Being overtaken breaks the law of the history, at once. */
  lemma DisorderIsUnlawful(c: Shared, move: Move)
    requires Sound(c) && Enabled(c, move) && !Orderly(c, move)
    ensures !Of(Next(c, move).conn).lawful
  {
    hide Observe, Watch;
    match move
    case Continue(t) =>
      assert c.calls != map[];
      EmitObserved(c.conn, ShutdownAsked);
      ObserveStep(c.conn.config, Of(c.conn), ShutdownAsked);
    case RunLate(w) => OvertakenIsUnlawful(c.conn, c.queue[0], w, Owing(c));
    case _ =>
  }

  lemma OvertakenIsUnlawful(s: Connection, late: Late, w: WriteOutcome, owing: bool)
    requires Kept(s, owing) && !LateInOrder(s, late)
    ensures !Of(LateRun(s, late, w)).lawful
  {
    match late
    case LateSend(msg) => QueuedSendLawfulIff(s, msg, w);
    case LateShutdown =>
      hide Observe, Watch;
      EmitObserved(s, HalfClose);
      ObserveStep(s.config, Of(s), HalfClose);
  }

  /** sendInLoop first settles what becomes of the message. */
  lemma SendSettlesFirst(s: Connection, msg: Stream, w: WriteOutcome)
    requires s.status != Disconnected
    ensures var log := SendInLoop(s, msg, w).log;
            && |s.log| < |log| && s.log <= log
            && (log[|s.log|] == Sent(msg) || log[|s.log|] == Dropped(msg))
  {
  }

  /** A `sendInLoop` that another thread's `send` has queued keeps the history
      lawful exactly when no `shutdown()` overtook it: run after one, the message
      is settled although sending had ended. */
  lemma QueuedSendLawfulIff(s: Connection, msg: Stream, w: WriteOutcome)
    requires s.status in {Connected, Disconnecting}
    requires s.status == Connected ==> Kept(s)
    requires s.status == Disconnecting ==> Of(s).asked
    ensures Of(SendInLoop(s, msg, w)).lawful <==> s.status == Connected
  {
    hide Observe, Lawful, SendInLoop;
    if s.status == Connected {
      ConnectedSend(s, msg, w);
    } else {
      var log := SendInLoop(s, msg, w).log;
      SendSettlesFirst(s, msg, w);
      ConfigKept(s, msg, w);
      LogPrefix(s.config, s.log, log);
      if Watch(s.config, log, |log|).lawful {
        LawfulThroughout(s.config, log, |s.log|, |log|);
        NothingSettledAfter(s.config, Of(s), log[|s.log|]);
      }
    }
  }

  lemma ConnectedSend(s: Connection, msg: Stream, w: WriteOutcome)
    requires s.status == Connected && Kept(s)
    ensures Of(SendInLoop(s, msg, w)).lawful
  {
    hide Observe, Watch;
    SendKept(s, msg, w);
  }

  lemma ConfigKept(s: Connection, msg: Stream, w: WriteOutcome)
    ensures SendInLoop(s, msg, w).config == s.config
  {
  }

  lemma LogPrefix(c: Config, log: seq<Event>, more: seq<Event>)
    requires log <= more
    ensures Watch(c, more, |log|) == Watch(c, log, |log|)
  {
    WatchPrefix(c, log, more[|log|..], |log|);
    assert more == log + more[|log|..];
  }

  lemma NothingSettledAfter(c: Config, m: Ledger, e: Event)
    requires m.asked && (e.Sent? || e.Dropped?)
    ensures !Lawful(c, m, e)
  {
  }

  // ---------------------------------------------------------------- histories only grow

  predicate Extends(s: Connection, s': Connection) {
    s'.config == s.config && s.log <= s'.log
  }

  lemma {:induction false} ScriptExtends(s: Connection, script: Script)
    ensures Extends(s, RunScript(s, script))
  {
    if script != [] {
      ScriptExtends(s, script[..|script| - 1]);
    }
  }

  lemma StageExtends(s: Connection, stage: Stage, revents: Mask, a: Answers)
    ensures Extends(s, RunStage(s, stage, revents, a))
  {
    ScriptExtends(Emit(SetInterest(s.(status := Disconnected), DisableAll), Offline), a.onClose);
    ScriptExtends(Emit(SetInterest(s.(status := Disconnected), DisableAll), Offline), a.onRead);
    if a.read.Delivered? {
      var s1 := Emit(s, Arrived(a.read.bytes)).(input := s.input + a.read.bytes);
      ScriptExtends(Emit(s1, Message(s1.input)), a.onRead);
    }
  }

  lemma StepExtends(s: Connection, step: Spec.Step)
    ensures Extends(s, Spec.Next(s, step))
  {
    hide RunStage, RunScript;
    match step
    case Established(script) =>
      ScriptExtends(Emit(SetInterest(s.(status := Connected), EnableReading), Online), script);
    case Dispatched(revents, a) =>
      var s1 := RunStage(s, Closing, revents, a);
      StageExtends(s, Closing, revents, a);
      StageExtends(s1, Reading, revents, a);
      StageExtends(RunStage(s1, Reading, revents, a), Writing, revents, a);
    case Acted(_) =>
    case Destroyed(script) =>
      ScriptExtends(Emit(SetInterest(s.(status := Disconnected), DisableAll), Offline), script);
  }

  /** A history that is not lawful never becomes so. */
  lemma UnlawfulForGood(c: Shared, move: Move)
    requires Enabled(c, move) && !Of(c.conn).lawful
    ensures !Of(Next(c, move).conn).lawful
  {
    hide Watch;
    if move.OnLoop? {
      StepExtends(c.conn, move.step);
    }
    var s, s' := c.conn, Next(c, move).conn;
    assert Extends(s, s');
    LogPrefix(s.config, s.log, s'.log);
    if Of(s').lawful {
      LawfulBefore(s.config, s'.log, |s.log|, |s'.log|);
    }
  }

  // ---------------------------------------------------------------- theorems

  lemma FreshIsSound(config: Config)
    ensures Sound(Fresh(config))
  {
  }

  lemma {:induction false} RunDecided(config: Config, moves: seq<Move>)
    requires Possible(Fresh(config), moves)
    ensures var c := Run(Fresh(config), moves);
            if AllOrderly(Fresh(config), moves) then Sound(c) else !Of(c.conn).lawful
  {
    hide Sound, Next, Orderly, Fresh, Watch;
    if moves == [] {
      FreshIsSound(config);
    } else {
      var before, last := moves[..|moves| - 1], moves[|moves| - 1];
      var c := Run(Fresh(config), before);
      RunDecided(config, before);
      if !AllOrderly(Fresh(config), before) {
        UnlawfulForGood(c, last);
      } else if Orderly(c, last) {
        MoveSound(c, last);
      } else {
        DisorderIsUnlawful(c, last);
      }
    }
  }

  /** The exact condition: with any number of threads calling `send` and `shutdown`
      and over every interleaving with the loop thread, the history of the
      connection is lawful if and only if no queued call was overtaken. */
  lemma OffThreadLawfulIff(config: Config, moves: seq<Move>)
    requires Possible(Fresh(config), moves)
    ensures Of(Run(Fresh(config), moves).conn).lawful <==> AllOrderly(Fresh(config), moves)
  {
    hide Watch;
    RunDecided(config, moves);
  }
}
