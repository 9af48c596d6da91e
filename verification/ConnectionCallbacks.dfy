/** The order of the user's callbacks on one connection.

    `Talk` is an automaton over the history that knows only the callbacks and
    the close reports; `Protocol` is the same law written on the sequence of
    callbacks, and `TalkIffProtocol` shows that they agree. */
module ConnectionCallbacks {
  import opened Bytes
  import opened Buffers
  import opened Registrations
  import opened ConnectionSpec
  import opened ConnectionWiring

  datatype Phase = Unopened | Open | Closed | Broken

  datatype Talk = Talk(phase: Phase, reports: nat)

  predicate IsCallback(e: Event) {
    e.Online? || e.Message? || e.Offline?
  }

  function Heard(t: Talk, e: Event): Talk {
    match e
    case Online => t.(phase := if t.phase == Unopened then Open else Broken)
    case Message(_) => t.(phase := if t.phase == Open then Open else Broken)
    case Offline => t.(phase := if t.phase == Open then Closed else Broken)
    case CloseReport => t.(reports := t.reports + 1)
    case _ => t
  }

  function Listen(log: seq<Event>): Talk {
    if log == [] then Talk(Unopened, 0) else Heard(Listen(log[..|log| - 1]), log[|log| - 1])
  }

  function TalkOf(s: Connection): Talk {
    Listen(s.log)
  }

  // ---------------------------------------------------------------- meaning

  function Callbacks(log: seq<Event>): seq<Event> {
    if log == [] then []
    else Callbacks(log[..|log| - 1]) + if IsCallback(log[|log| - 1]) then [log[|log| - 1]] else []
  }

  /** A prefix of: online, any number of messages, one offline. */
  predicate Protocol(calls: seq<Event>) {
    && (forall i :: 0 <= i < |calls| ==> IsCallback(calls[i]))
    && (forall i :: 0 <= i < |calls| ==> (calls[i].Online? <==> i == 0))
    && (forall i :: 0 <= i < |calls| && calls[i].Offline? ==> i == |calls| - 1)
  }

  lemma {:induction false} TalkIffProtocol(log: seq<Event>)
    ensures Listen(log).phase != Broken <==> Protocol(Callbacks(log))
    ensures Listen(log).phase == Unopened <==> Callbacks(log) == []
    ensures Listen(log).phase == Closed ==> Callbacks(log) != [] && Callbacks(log)[|Callbacks(log)| - 1].Offline?
    ensures Listen(log).phase == Open ==> Callbacks(log) != [] && !Callbacks(log)[|Callbacks(log)| - 1].Offline?
  {
    if log != [] {
      var before, e := log[..|log| - 1], log[|log| - 1];
      TalkIffProtocol(before);
      if IsCallback(e) {
        assert Callbacks(log) == Callbacks(before) + [e];
        ProtocolGrows(Callbacks(before), e);
      } else {
        assert Callbacks(log) == Callbacks(before);
      }
    }
  }

  lemma ProtocolGrows(calls: seq<Event>, e: Event)
    requires IsCallback(e)
    ensures Protocol(calls + [e]) <==>
              && Protocol(calls)
              && (e.Online? <==> calls == [])
              && (calls != [] ==> !calls[|calls| - 1].Offline?)
  {
    var more := calls + [e];
    if Protocol(more) {
      assert more[|calls|] == e;
      assert forall i :: 0 <= i < |calls| ==> calls[i] == more[i];
    }
  }

  // ---------------------------------------------------------------- handlers

  lemma EmitHeard(s: Connection, e: Event)
    ensures TalkOf(Emit(s, e)) == Heard(TalkOf(s), e)
  {
    assert (s.log + [e])[..|s.log|] == s.log;
  }

  lemma EnqueueIsQuiet(s: Connection, rest: Stream)
    ensures TalkOf(Enqueue(s, rest)) == TalkOf(s)
  {
    var level := |s.unsent| + |rest|;
    var post := Crosses(s.config.mark, |s.unsent|, level) && s.config.highWater;
    EmitHeard(s, PostHighWater(level));
    EmitHeard(EmitIf(s, post, PostHighWater(level)), Buffered(rest));
  }

  lemma SendIsQuiet(s: Connection, msg: Stream, w: WriteOutcome)
    ensures TalkOf(SendInLoop(s, msg, w)) == TalkOf(s)
  {
    if WritesDirectly(s) && Fault(w) {
      EmitHeard(s, Dropped(msg));
    } else {
      var n := DirectCount(s, msg, w);
      var s0 := Emit(s, Sent(msg));
      EmitHeard(s, Sent(msg));
      EmitHeard(s0, Direct(msg[..n]));
      var s1 := EmitIf(s0, WritesDirectly(s) && w.Accepts?, Direct(msg[..n]));
      assert TalkOf(s1) == TalkOf(s);
      if n == |msg| {
        EmitHeard(s1, PostWriteComplete);
      } else {
        EnqueueIsQuiet(s1, msg[n..]);
      }
    }
  }

  lemma ActIsQuiet(s: Connection, a: Action)
    ensures TalkOf(Act(s, a)) == TalkOf(s)
  {
    match a
    case Send(msg, w) => SendIsQuiet(s, msg, w);
    case Shutdown =>
      EmitHeard(s, ShutdownAsked);
      EmitHeard(Emit(s, ShutdownAsked).(status := Disconnecting), HalfClose);
    case Consume(len) =>
      EmitHeard(s, Consumed(s.input[..Min(len, |s.input|)]));
  }

  lemma {:induction false} ScriptIsQuiet(s: Connection, script: Script)
    ensures TalkOf(RunScript(s, script)) == TalkOf(s)
  {
    if script != [] {
      ScriptIsQuiet(s, script[..|script| - 1]);
      ActIsQuiet(RunScript(s, script[..|script| - 1]), script[|script| - 1]);
    }
  }

  lemma EstablishIsHeard(s: Connection, onConnect: Script)
    ensures TalkOf(Establish(s, onConnect)) == Heard(TalkOf(s), Online)
  {
    var s1 := SetInterest(s.(status := Connected), EnableReading);
    EmitHeard(s1, Online);
    ScriptIsQuiet(Emit(s1, Online), onConnect);
  }

  lemma CloseIsHeard(s: Connection, onClose: Script)
    ensures TalkOf(HandleClose(s, onClose)) == Heard(Heard(TalkOf(s), Offline), CloseReport)
  {
    var s1 := SetInterest(s.(status := Disconnected), DisableAll);
    EmitHeard(s1, Offline);
    ScriptIsQuiet(Emit(s1, Offline), onClose);
    EmitHeard(RunScript(Emit(s1, Offline), onClose), CloseReport);
  }

  lemma ReadIsHeard(s: Connection, r: ReadOutcome, callback: Script)
    ensures TalkOf(HandleRead(s, r, callback)) ==
              if r.Failed? then TalkOf(s)
              else if r.bytes == [] then Heard(Heard(TalkOf(s), Offline), CloseReport)
              else Heard(TalkOf(s), Message([]))
  {
    if r.Delivered? {
      if r.bytes == [] {
        CloseIsHeard(s, callback);
      } else {
        var s1 := Emit(s, Arrived(r.bytes)).(input := s.input + r.bytes);
        EmitHeard(s, Arrived(r.bytes));
        EmitHeard(s1, Message(s1.input));
        ScriptIsQuiet(Emit(s1, Message(s1.input)), callback);
      }
    }
  }

  lemma WriteIsQuiet(s: Connection, w: WriteOutcome)
    ensures TalkOf(HandleWrite(s, w)) == TalkOf(s)
  {
    if s.channel.Writing() && w.Accepts? {
      var n := Min(w.room, |s.unsent|);
      var s1 := Emit(s, Flushed(s.unsent[..n])).(unsent := s.unsent[n..]);
      EmitHeard(s, Flushed(s.unsent[..n]));
      var s2 := SetInterest(s1, DisableWriting);
      EmitHeard(s2, PostWriteComplete);
      EmitHeard(EmitIf(s2, s.config.writeComplete, PostWriteComplete), HalfClose);
    }
  }

  // ---------------------------------------------------------------- dispatch

  /** The event mask under which `handleEventWithGuard` closes the connection and
      then still reads from it. */
  predicate Ambiguous(revents: Mask) {
    Hup in revents && In !in revents && Pri in revents
  }

  /** A read that follows a close and does not fail. */
  predicate Tangles(stage: Stage, revents: Mask, a: Answers) {
    stage == Reading && Ambiguous(revents) && a.read.Delivered?
  }

  /** The callbacks of a connection that is up, or that was closed once. */
  predicate Spoken(s: Connection) {
    && (s.status == Connecting ==> TalkOf(s) == Talk(Unopened, 0))
    && (Live(s) ==> TalkOf(s) == Talk(Open, 0))
    && (s.status == Disconnected ==> TalkOf(s) == Talk(Closed, 1) && s.channel.Watched() == None)
  }

  /** What a stage of a dispatch to a live connection finds: the connection still
      up, unless the close stage has closed it. */
  predicate InTurn(s: Connection, stage: Stage, revents: Mask) {
    match stage
    case Closing => Live(s)
    case Reading => if Hup in revents && In !in revents then s.status == Disconnected else Live(s)
    case Writing => Live(s) || s.status == Disconnected
  }

  function NextStage(stage: Stage): Stage {
    if stage == Closing then Reading else Writing
  }

  lemma StageIsHeard(s: Connection, stage: Stage, revents: Mask, a: Answers)
    ensures TalkOf(RunStage(s, stage, revents, a)) ==
              if Closes(stage, revents, a) then Heard(Heard(TalkOf(s), Offline), CloseReport)
              else if stage == Reading && (In in revents || Pri in revents) && a.read.Delivered?
                then Heard(TalkOf(s), Message([]))
              else TalkOf(s)
  {
    match stage
    case Closing => CloseIsHeard(s, a.onClose);
    case Reading => ReadIsHeard(s, a.read, a.onRead);
    case Writing => WriteIsQuiet(s, a.write);
  }

  /** A stage in its turn keeps the callbacks in order exactly when it is not a
      read that follows a close; else the protocol is broken for good. */
  lemma StageSpoken(s: Connection, stage: Stage, revents: Mask, a: Answers)
    requires Wired(s) && Spoken(s) && InTurn(s, stage, revents)
    ensures var s' := RunStage(s, stage, revents, a);
            if Tangles(stage, revents, a) then TalkOf(s').phase == Broken
            else Spoken(s') && InTurn(s', NextStage(stage), revents)
  {
    hide Listen, HandleRead, HandleWrite, HandleClose;
    StageIsHeard(s, stage, revents, a);
    StageWired(s, stage, revents, a);
    CloseWired(s, a.onClose);
    ReadWired(s, a.read, a.onRead);
    WriteWired(s, a.write);
  }

  lemma DispatchIsHeard(s: Connection, revents: Mask, a: Answers)
    ensures var closes := Hup in revents && In !in revents;
            var readable := In in revents || Pri in revents;
            var t1 := if closes then Heard(Heard(TalkOf(s), Offline), CloseReport) else TalkOf(s);
            var t2 := if !readable || a.read.Failed? then t1
                      else if a.read.bytes == [] then Heard(Heard(t1, Offline), CloseReport)
                      else Heard(t1, Message([]));
            TalkOf(Dispatch(s, revents, a)) == t2
  {
    hide RunStage, Listen;
    var s1 := RunStage(s, Closing, revents, a);
    StageIsHeard(s, Closing, revents, a);
    StageIsHeard(s1, Reading, revents, a);
    StageIsHeard(RunStage(s1, Reading, revents, a), Writing, revents, a);
  }

  /** One dispatch to a live connection breaks the callback protocol exactly when
      the mask has HUP and PRI without IN and the read does not fail. */
  lemma DispatchProtocol(s: Connection, revents: Mask, a: Answers)
    requires Spoken(s) && Live(s)
    ensures TalkOf(Dispatch(s, revents, a)).phase == Broken <==> Ambiguous(revents) && a.read.Delivered?
  {
    hide Dispatch, Listen;
    DispatchIsHeard(s, revents, a);
  }

  /** How often one dispatch reports the connection closed to the server. */
  function CloseCount(revents: Mask, a: Answers): (n: nat)
    ensures n <= 2
    ensures n == 2 ==> Ambiguous(revents)
  {
    (if Closes(Closing, revents, a) then 1 else 0) + if Closes(Reading, revents, a) then 1 else 0
  }

  lemma DispatchReports(s: Connection, revents: Mask, a: Answers)
    requires Wired(s) && s.status != Connecting
    ensures TalkOf(Dispatch(s, revents, a)).reports == TalkOf(s).reports + CloseCount(revents, a)
    ensures Live(s) ==> (Dispatch(s, revents, a).status == Disconnected <==> CloseCount(revents, a) > 0)
  {
    hide Listen, RunStage, Wired;
    DispatchIsHeard(s, revents, a);
    var s1 := RunStage(s, Closing, revents, a);
    StageWired(s, Closing, revents, a);
    StageWired(s1, Reading, revents, a);
    StageWired(RunStage(s1, Reading, revents, a), Writing, revents, a);
  }

  lemma DispatchSpoken(s: Connection, revents: Mask, a: Answers)
    requires Wired(s) && Spoken(s) && Live(s) && !Tangles(Reading, revents, a)
    ensures Spoken(Dispatch(s, revents, a))
  {
    hide RunStage, Spoken, Wired, Ambiguous;
    var s1 := RunStage(s, Closing, revents, a);
    StageSpoken(s, Closing, revents, a);
    StageWired(s, Closing, revents, a);
    StageSpoken(s1, Reading, revents, a);
    StageWired(s1, Reading, revents, a);
    StageSpoken(RunStage(s1, Reading, revents, a), Writing, revents, a);
  }

  // ---------------------------------------------------------------- runs

  predicate Tangled(step: Step) {
    step.Dispatched? && Tangles(Reading, step.revents, step.answers)
  }

  lemma StepSpoken(s: Connection, step: Step)
    requires Wired(s) && Spoken(s) && Enabled(s, step)
    ensures if Tangled(step) then TalkOf(Next(s, step)).phase == Broken else Spoken(Next(s, step))
  {
    hide Dispatch, Act, Establish, Listen;
    match step
    case Established(script) =>
      EstablishIsHeard(s, script);
      EstablishWired(s, script);
    case Dispatched(revents, answers) =>
      DispatchProtocol(s, revents, answers);
      if !Tangled(step) {
        DispatchSpoken(s, revents, answers);
      }
    case Acted(action) =>
      ActIsQuiet(s, action);
      ActWired(s, action);
    case Destroyed(script) =>
  }

  /** A broken history stays broken. */
  lemma StepStaysBroken(s: Connection, step: Step)
    requires Enabled(s, step) && TalkOf(s).phase == Broken
    ensures TalkOf(Next(s, step)).phase == Broken
  {
    hide Dispatch, Act, Establish, Listen;
    match step
    case Established(script) => EstablishIsHeard(s, script);
    case Dispatched(revents, answers) => DispatchIsHeard(s, revents, answers);
    case Acted(action) => ActIsQuiet(s, action);
    case Destroyed(script) =>
  }

  predicate Untangled(steps: seq<Step>) {
    forall i :: 0 <= i < |steps| ==> !Tangled(steps[i])
  }

  lemma {:induction false} RunSpoken(config: Config, steps: seq<Step>)
    requires Possible(config, steps)
    ensures if Untangled(steps) then Spoken(Run(config, steps)) else TalkOf(Run(config, steps)).phase == Broken
  {
    hide Spoken, Next, Tangled;
    if steps == [] {
      NewlySpoken(config);
    } else {
      var before, last := steps[..|steps| - 1], steps[|steps| - 1];
      RunSpoken(config, before);
      RunWired(config, before);
      assert Untangled(steps) <==> Untangled(before) && !Tangled(last);
      if Untangled(before) {
        StepSpoken(Run(config, before), last);
      } else {
        StepStaysBroken(Run(config, before), last);
      }
    }
  }

  lemma NewlySpoken(config: Config)
    ensures Spoken(NewlyAccepted(config))
  {
  }

  /** Over every run in which no read follows a close, the user hears a prefix of
      online, message*, offline, and the server is told of the close exactly once:
      not before the connection is down, after which the kernel is quiet. */
  lemma CallbackProtocol(config: Config, steps: seq<Step>)
    requires Possible(config, steps) && Untangled(steps)
    ensures var s := Run(config, steps);
            && Protocol(Callbacks(s.log))
            && Listen(s.log).reports == (if s.status == Disconnected then 1 else 0)
            && (s.status == Disconnected ==> s.channel.Watched() == None)
  {
    hide Listen, Untangled;
    RunSpoken(config, steps);
    TalkIffProtocol(Run(config, steps).log);
  }

  /** The exact condition, over every run: the user hears a prefix of online,
      message*, offline if and only if no dispatch combines HUP and PRI without IN
      with a read that does not fail. */
  lemma ProtocolIffUntangled(config: Config, steps: seq<Step>)
    requires Possible(config, steps)
    ensures Protocol(Callbacks(Run(config, steps).log)) <==> Untangled(steps)
  {
    hide Listen, Untangled;
    RunSpoken(config, steps);
    TalkIffProtocol(Run(config, steps).log);
    if Untangled(steps) {
      SpokenIsProtocol(Run(config, steps));
    }
  }

  lemma SpokenIsProtocol(s: Connection)
    requires Spoken(s)
    ensures Protocol(Callbacks(s.log))
  {
    TalkIffProtocol(s.log);
  }

  /** A concrete failure: the peer of a freshly established connection closes, and
      the kernel reports HUP and PRI. */
  lemma AmbiguousMaskBreaksProtocol(config: Config, write: WriteOutcome)
    ensures var steps := [Established([]), Dispatched({Hup, Pri}, Answers(Delivered([]), write, [], []))];
            Possible(config, steps) && !Protocol(Callbacks(Run(config, steps).log))
  {
    var steps, a := [Established([])], Answers(Delivered([]), write, [], []);
    assert steps[..0] == [] && steps[0] == Established([]);
    assert Run(config, []) == NewlyAccepted(config) && Run(config, steps) == Establish(NewlyAccepted(config), []);
    EstablishWired(NewlyAccepted(config), []);
    var more := [Established([]), Dispatched({Hup, Pri}, a)];
    assert more[..1] == steps;
    assert Possible(config, steps) && Enabled(Run(config, steps), more[1]) && Possible(config, more);
    assert Tangled(more[1]);
    ProtocolIffUntangled(config, more);
  }
}
