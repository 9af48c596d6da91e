/** How a connection's status, its unsent bytes and its epoll interest belong
    together, through every handler. Nothing here looks at the history. */
module ConnectionWiring {
  import opened Buffers
  import opened Registrations
  import opened ConnectionSpec

  predicate Live(s: Connection) {
    s.status == Connected || s.status == Disconnecting
  }

  function Wanted(s: Connection): Mask {
    if s.unsent == [] then READ_EVENT else READ_EVENT + WRITE_EVENT
  }

  predicate Wired(s: Connection) {
    && s.channel.Coherent()
    && (s.status == Connecting ==>
         s.log == [] && s.unsent == [] && s.input == [] && s.channel == ChannelState(New, NONE_EVENT))
    && (Live(s) ==> s.channel == ChannelState(Added, Wanted(s)))
    && (s.status == Disconnected ==> s.channel.events == NONE_EVENT)
  }

  lemma InterestAlgebra()
    ensures Changed(NONE_EVENT, EnableReading) == READ_EVENT
    ensures Changed(READ_EVENT, EnableWriting) == READ_EVENT + WRITE_EVENT
    ensures Changed(READ_EVENT + WRITE_EVENT, DisableWriting) == READ_EVENT
  {
  }

  /** User code can only move a connected connection on to disconnecting; in every
      other status it leaves status, interest and unsent bytes alone. */
  predicate UserMove(s: Connection, s': Connection) {
    && (s.status == Connecting ==> s' == s)
    && (s.status != Connected ==> s'.status == s.status && s'.channel == s.channel && s'.unsent == s.unsent)
    && (Live(s) ==> Live(s'))
  }

  lemma ActWired(s: Connection, a: Action)
    requires Wired(s)
    ensures Wired(Act(s, a)) && UserMove(s, Act(s, a))
  {
    InterestAlgebra();
  }

  lemma {:induction false} ScriptWired(s: Connection, script: Script)
    requires Wired(s)
    ensures Wired(RunScript(s, script)) && UserMove(s, RunScript(s, script))
  {
    if script != [] {
      ScriptWired(s, script[..|script| - 1]);
      ActWired(RunScript(s, script[..|script| - 1]), script[|script| - 1]);
    }
  }

  lemma EstablishWired(s: Connection, onConnect: Script)
    requires Wired(s) && s.status == Connecting
    ensures Wired(Establish(s, onConnect)) && Live(Establish(s, onConnect))
  {
    InterestAlgebra();
    ScriptWired(Emit(SetInterest(s.(status := Connected), EnableReading), Online), onConnect);
  }

  lemma CloseWired(s: Connection, onClose: Script)
    requires Wired(s)
    ensures Wired(HandleClose(s, onClose)) && HandleClose(s, onClose).status == Disconnected
    ensures HandleClose(s, onClose).channel == Apply(s.channel, Interest(DisableAll))
  {
    ScriptWired(Emit(SetInterest(s.(status := Disconnected), DisableAll), Offline), onClose);
  }

  /** handleRead either closes the connection or leaves it as alive as it was. */
  lemma ReadWired(s: Connection, r: ReadOutcome, callback: Script)
    requires Wired(s) && s.status != Connecting
    ensures var s' := HandleRead(s, r, callback);
            && Wired(s')
            && if r == Delivered([])
               then s'.status == Disconnected && s'.channel == Apply(s.channel, Interest(DisableAll))
               else UserMove(s, s')
  {
    if r == Delivered([]) {
      CloseWired(s, callback);
    } else if r.Delivered? {
      var s1 := Emit(s, Arrived(r.bytes)).(input := s.input + r.bytes);
      ScriptWired(Emit(s1, Message(s1.input)), callback);
    }
  }

  lemma WriteWired(s: Connection, w: WriteOutcome)
    requires Wired(s) && s.status != Connecting
    ensures Wired(HandleWrite(s, w)) && HandleWrite(s, w).status == s.status
    ensures s.status == Disconnected ==> HandleWrite(s, w) == s
  {
    InterestAlgebra();
  }

  /** One stage of a dispatch closes the connection, or leaves it as alive as it
      was; a disconnected connection stays so, and no stage unregisters it. */
  lemma StageWired(s: Connection, stage: Stage, revents: Mask, a: Answers)
    requires Wired(s) && s.status != Connecting
    ensures var s' := RunStage(s, stage, revents, a);
            && Wired(s') && s'.status != Connecting
            && (s.status == Disconnected ==> s'.status == Disconnected)
            && (s.channel.index != New ==> s'.channel.index != New)
            && if Closes(stage, revents, a) then s'.status == Disconnected
               else s'.status == s.status || (Live(s) && Live(s'))
  {
    match stage
    case Closing => CloseWired(s, a.onClose);
    case Reading => ReadWired(s, a.read, a.onRead);
    case Writing => WriteWired(s, a.write);
  }

  lemma DispatchWired(s: Connection, revents: Mask, a: Answers)
    requires Wired(s) && s.status != Connecting
    ensures Wired(Dispatch(s, revents, a))
    ensures Dispatch(s, revents, a).status != Connecting
    ensures s.status == Disconnected ==> Dispatch(s, revents, a).status == Disconnected
    ensures s.channel.index != New ==> Dispatch(s, revents, a).channel.index != New
  {
    hide RunStage, Wired;
    var s1 := RunStage(s, Closing, revents, a);
    StageWired(s, Closing, revents, a);
    StageWired(s1, Reading, revents, a);
    StageWired(RunStage(s1, Reading, revents, a), Writing, revents, a);
  }

  lemma StepWired(s: Connection, step: Step)
    requires Wired(s) && Enabled(s, step)
    ensures Wired(Next(s, step))
  {
    match step
    case Established(script) => EstablishWired(s, script);
    case Dispatched(revents, answers) => DispatchWired(s, revents, answers);
    case Acted(action) => ActWired(s, action);
    case Destroyed(script) =>
  }

  lemma {:induction false} RunWired(config: Config, steps: seq<Step>)
    requires Possible(config, steps)
    ensures Wired(Run(config, steps))
  {
    if steps != [] {
      RunWired(config, steps[..|steps| - 1]);
      StepWired(Run(config, steps[..|steps| - 1]), steps[|steps| - 1]);
    }
  }

  /** Unsent bytes are never stranded: while the connection is up they exist
      exactly when the channel is writing, exactly when the kernel watches for
      writability; reading is watched all the time. */
  lemma NeverStranded(config: Config, steps: seq<Step>)
    requires Possible(config, steps) && Live(Run(config, steps))
    ensures var s := Run(config, steps);
            && (s.unsent != [] <==> s.channel.Writing())
            && s.channel.Watched().Some?
            && (s.unsent != [] <==> Out in s.channel.Watched().value)
            && In in s.channel.Watched().value && Pri in s.channel.Watched().value
  {
    RunWired(config, steps);
  }

  lemma StaysDisconnected(s: Connection, step: Step)
    requires Wired(s) && s.status == Disconnected && Enabled(s, step)
    ensures Next(s, step).status == Disconnected && Next(s, step).unsent == s.unsent
  {
    match step
    case Dispatched(revents, answers) =>
      DispatchWired(s, revents, answers);
      ClosedDispatch(s, revents, answers);
    case Acted(action) => ActWired(s, action);
    case _ =>
  }

  lemma ClosedDispatch(s: Connection, revents: Mask, a: Answers)
    requires Wired(s) && s.status == Disconnected
    ensures Dispatch(s, revents, a).unsent == s.unsent
  {
    hide Wired, RunStage;
    var s1 := RunStage(s, Closing, revents, a);
    ClosedStage(s, Closing, revents, a);
    ClosedStage(s1, Reading, revents, a);
    ClosedStage(RunStage(s1, Reading, revents, a), Writing, revents, a);
  }

  lemma ClosedStage(s: Connection, stage: Stage, revents: Mask, a: Answers)
    requires Wired(s) && s.status == Disconnected
    ensures var s' := RunStage(s, stage, revents, a);
            Wired(s') && s'.status == Disconnected && s'.unsent == s.unsent
  {
    StageWired(s, stage, revents, a);
    match stage
    case Closing => ClosedClose(s, a.onClose);
    case Reading =>
      if a.read == Delivered([]) {
        ClosedClose(s, a.onRead);
      } else {
        ReadWired(s, a.read, a.onRead);
      }
    case Writing => WriteWired(s, a.write);
  }

  lemma ClosedClose(s: Connection, callback: Script)
    requires Wired(s) && s.status == Disconnected
    ensures HandleClose(s, callback).unsent == s.unsent
  {
    ScriptWired(Emit(SetInterest(s, DisableAll), Offline), callback);
  }

  /** Once disconnected a connection never comes back: after any further steps it
      is still disconnected, has no interest, and holds the same unsent bytes. */
  lemma {:induction false} DisconnectedIsFinal(config: Config, steps: seq<Step>, more: seq<Step>)
    requires Possible(config, steps + more) && Possible(config, steps)
    requires Run(config, steps).status == Disconnected
    ensures var s := Run(config, steps + more);
            && s.status == Disconnected && s.channel.events == NONE_EVENT
            && s.unsent == Run(config, steps).unsent
  {
    hide Wired, Next, Enabled;
    RunWired(config, steps + more);
    ClosedIsQuiet(Run(config, steps + more));
    if more == [] {
      assert steps + more == steps;
    } else {
      var before := more[..|more| - 1];
      assert (steps + more)[..|steps + more| - 1] == steps + before;
      DisconnectedIsFinal(config, steps, before);
      RunWired(config, steps + before);
      StaysDisconnected(Run(config, steps + before), more[|more| - 1]);
    }
  }

  lemma ClosedIsQuiet(s: Connection)
    requires Wired(s)
    ensures s.status == Disconnected ==> s.channel.events == NONE_EVENT
  {
  }
}
