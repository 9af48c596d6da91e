/** The part of an observer's books that balances whatever the order of events.

    `Tally` is `Books` of `ConnectionLedger` without lawfulness. It is kept by every
    function of `ConnectionSpec` in every state, also in states that no call on the
    loop thread alone leads to, so nothing here asks for `Wired` or `Kept`. */
module ConnectionTally {
  import opened Bytes
  import opened Buffers
  import opened Registrations
  import opened ConnectionSpec
  import opened ConnectionLedger

  /** Bytes and posts of a connection that holds `unsent` and `input`, and has taken
      `rest` but neither written nor buffered it yet. */
  predicate Tally(c: Config, m: Ledger, unsent: Stream, input: Stream, rest: Stream) {
    && m.announced == None
    && m.accepted == m.written + unsent + rest
    && m.queue == unsent
    && m.arrived == m.consumed + input
    && m.highWaters == (if c.highWater then m.crossings else [])
    && m.writeCompletes == (if c.writeComplete then m.completions else 0)
  }

  predicate Tallied(s: Connection, rest: Stream := []) {
    Tally(s.config, Of(s), s.unsent, s.input, rest)
  }

  // ---------------------------------------------------------------- events

  predicate Quiet(e: Event) {
    e.Online? || e.Offline? || e.CloseReport? || e.ShutdownAsked? || e.HalfClose? || e.Dropped?
  }

  lemma QuietTally(c: Config, m: Ledger, unsent: Stream, input: Stream, rest: Stream, e: Event)
    requires Tally(c, m, unsent, input, rest) && Quiet(e)
    ensures Tally(c, Observe(c, m, e), unsent, input, rest)
  {
    hide Lawful;
  }

  lemma SentTally(c: Config, m: Ledger, unsent: Stream, input: Stream, msg: Stream)
    requires Tally(c, m, unsent, input, [])
    ensures Tally(c, Observe(c, m, Sent(msg)), unsent, input, msg)
  {
    hide Lawful;
  }

  lemma PostedTally(c: Config, m: Ledger)
    requires m.announced == None
    ensures var m' := Observe(c, m, PostWriteComplete);
            m' == m.(writeCompletes := m.writeCompletes + 1, lawful := m'.lawful)
  {
    hide Lawful;
  }

  lemma DirectTally(c: Config, m: Ledger, bytes: Stream)
    ensures var m' := Observe(c, m, Direct(bytes));
            m' == Complete(m.(written := m.written + bytes, lawful := m'.lawful))
  {
    hide Lawful;
  }

  lemma WrittenTally(c: Config, m: Ledger, input: Stream, msg: Stream, n: nat)
    requires Tally(c, m, [], input, msg) && n <= |msg|
    ensures var m1 := Observe(c, m, Direct(msg[..n]));
            var m2 := if c.writeComplete then Observe(c, m1, PostWriteComplete) else m1;
            && (n < |msg| ==> Tally(c, m1, [], input, msg[n..]))
            && (n == |msg| ==> Tally(c, m2, [], input, []))
  {
    hide Observe;
    assert m.accepted == m.written + msg[..n] + msg[n..];
    DirectTally(c, m, msg[..n]);
    PostedTally(c, Observe(c, m, Direct(msg[..n])));
  }

  lemma BufferedTally(c: Config, m: Ledger, unsent: Stream, input: Stream, rest: Stream)
    requires Tally(c, m, unsent, input, rest)
    ensures Tally(c, EnqueueLedger(c, m, rest), unsent + rest, input, [])
  {
    hide Lawful;
    assert m.written + (unsent + rest) + [] == m.written + unsent + rest;
  }

  lemma FlushTally(c: Config, m: Ledger, n: nat)
    requires n <= |m.queue|
    ensures var m' := Observe(c, m, Flushed(m.queue[..n]));
            m' == Complete(m.(written := m.written + m.queue[..n], queue := m.queue[n..], lawful := m'.lawful))
  {
    hide Lawful;
  }

  lemma FlushedTally(c: Config, m: Ledger, unsent: Stream, input: Stream, n: nat)
    requires Tally(c, m, unsent, input, []) && 0 < n <= |unsent|
    ensures var m1 := Observe(c, m, Flushed(unsent[..n]));
            var m2 := if c.writeComplete then Observe(c, m1, PostWriteComplete) else m1;
            && (n < |unsent| ==> Tally(c, m1, unsent[n..], input, []))
            && (n == |unsent| ==> Tally(c, m2, [], input, []))
  {
    hide Observe;
    assert m.accepted == m.written + unsent[..n] + unsent[n..];
    FlushTally(c, m, n);
    PostedTally(c, Observe(c, m, Flushed(unsent[..n])));
  }

  lemma ConsumedTally(c: Config, m: Ledger, unsent: Stream, input: Stream, n: nat)
    requires Tally(c, m, unsent, input, []) && n <= |input|
    ensures Tally(c, Observe(c, m, Consumed(input[..n])), unsent, input[n..], [])
  {
    hide Lawful;
    assert m.arrived == m.consumed + input[..n] + input[n..];
  }

  lemma ArrivedTally(c: Config, m: Ledger, unsent: Stream, input: Stream, bytes: Stream)
    requires Tally(c, m, unsent, input, [])
    ensures Tally(c, Observe(c, Observe(c, m, Arrived(bytes)), Message(input + bytes)), unsent, input + bytes, [])
  {
    hide Lawful;
  }

  // ---------------------------------------------------------------- functions

  lemma EmitQuiet(s: Connection, e: Event)
    requires Tallied(s) && Quiet(e)
    ensures Tallied(Emit(s, e))
  {
    hide Observe, Watch;
    EmitObserved(s, e);
    QuietTally(s.config, Of(s), s.unsent, s.input, [], e);
  }

  lemma EnqueueTallied(s: Connection, rest: Stream)
    requires Tallied(s, rest)
    ensures Tallied(Enqueue(s, rest))
  {
    hide Observe, Watch;
    EnqueueObserved(s, rest);
    BufferedTally(s.config, Of(s), s.unsent, s.input, rest);
  }

  lemma DirectTallied(s: Connection, msg: Stream, w: WriteOutcome)
    requires Tallied(s) && s.status != Disconnected && WritesDirectly(s) && w.Accepts?
    ensures Tallied(SendInLoop(s, msg, w))
  {
    hide Observe, Watch;
    var n, s0 := DirectCount(s, msg, w), Emit(s, Sent(msg));
    EmitObserved(s, Sent(msg));
    SentTally(s.config, Of(s), [], s.input, msg);
    EmitObserved(s0, Direct(msg[..n]));
    WrittenTally(s.config, Of(s0), s.input, msg, n);
    var s1 := Emit(s0, Direct(msg[..n]));
    if n < |msg| {
      EnqueueTallied(s1, msg[n..]);
    } else {
      EmitObserved(s1, PostWriteComplete);
    }
  }

  lemma SendTallied(s: Connection, msg: Stream, w: WriteOutcome)
    requires Tallied(s)
    ensures Tallied(SendInLoop(s, msg, w))
  {
    hide Observe, Watch;
    if s.status != Disconnected {
      if WritesDirectly(s) && w.Accepts? {
        DirectTallied(s, msg, w);
      } else if WritesDirectly(s) && Fault(w) {
        EmitQuiet(s, Dropped(msg));
      } else {
        EmitObserved(s, Sent(msg));
        SentTally(s.config, Of(s), s.unsent, s.input, msg);
        if msg != [] {
          assert msg[0..] == msg;
          EnqueueTallied(Emit(s, Sent(msg)), msg);
        }
      }
    }
  }

  lemma ActTallied(s: Connection, a: Action)
    requires Tallied(s)
    ensures Tallied(Act(s, a))
  {
    hide Observe, Watch, SendInLoop;
    match a
    case Send(msg, w) => SendTallied(s, msg, w);
    case Shutdown =>
      EmitQuiet(s, ShutdownAsked);
      EmitQuiet(Emit(s, ShutdownAsked).(status := Disconnecting), HalfClose);
    case Consume(len) =>
      var n := Min(len, |s.input|);
      EmitObserved(s, Consumed(s.input[..n]));
      ConsumedTally(s.config, Of(s), s.unsent, s.input, n);
  }

  lemma {:induction false} ScriptTallied(s: Connection, script: Script)
    requires Tallied(s)
    ensures Tallied(RunScript(s, script))
  {
    hide Tallied, Act;
    if script != [] {
      ScriptTallied(s, script[..|script| - 1]);
      ActTallied(RunScript(s, script[..|script| - 1]), script[|script| - 1]);
    }
  }

  /** Going offline, with or without the close report. */
  lemma OfflineTallied(s: Connection, script: Script)
    requires Tallied(s)
    ensures var s1 := RunScript(Emit(SetInterest(s.(status := Disconnected), DisableAll), Offline), script);
            Tallied(s1) && Tallied(Emit(s1, CloseReport))
  {
    hide Observe, Watch, RunScript;
    var s0 := SetInterest(s.(status := Disconnected), DisableAll);
    assert Tallied(s0);
    EmitQuiet(s0, Offline);
    ScriptTallied(Emit(s0, Offline), script);
    EmitQuiet(RunScript(Emit(s0, Offline), script), CloseReport);
  }

  lemma ReadTallied(s: Connection, r: ReadOutcome, callback: Script)
    requires Tallied(s)
    ensures Tallied(HandleRead(s, r, callback))
  {
    hide Observe, Watch, RunScript;
    if r.Delivered? {
      if r.bytes == [] {
        OfflineTallied(s, callback);
      } else {
        var s1 := Emit(s, Arrived(r.bytes)).(input := s.input + r.bytes);
        EmitObserved(s, Arrived(r.bytes));
        EmitObserved(s1, Message(s1.input));
        ArrivedTally(s.config, Of(s), s.unsent, s.input, r.bytes);
        ScriptTallied(Emit(s1, Message(s1.input)), callback);
      }
    }
  }

  lemma WriteTallied(s: Connection, w: WriteOutcome)
    requires Tallied(s)
    ensures Tallied(HandleWrite(s, w))
  {
    hide Observe, Watch;
    if s.channel.Writing() && w.Accepts? {
      var n := Min(w.room, |s.unsent|);
      if n > 0 {
        var s1 := Emit(s, Flushed(s.unsent[..n])).(unsent := s.unsent[n..]);
        EmitObserved(s, Flushed(s.unsent[..n]));
        FlushedTally(s.config, Of(s), s.unsent, s.input, n);
        if n == |s.unsent| {
          var s2 := SetInterest(s1, DisableWriting);
          EmitObserved(s2, PostWriteComplete);
          EmitQuiet(EmitIf(s2, s.config.writeComplete, PostWriteComplete), HalfClose);
        }
      }
    }
  }

  lemma StageTallied(s: Connection, stage: Stage, revents: Mask, a: Answers)
    requires Tallied(s)
    ensures Tallied(RunStage(s, stage, revents, a))
  {
    hide Tallied, HandleRead, HandleWrite;
    match stage
    case Closing => OfflineTallied(s, a.onClose);
    case Reading => ReadTallied(s, a.read, a.onRead);
    case Writing => WriteTallied(s, a.write);
  }

  lemma StepTallied(s: Connection, step: Step)
    requires Tallied(s)
    ensures Tallied(Next(s, step))
  {
    hide Observe, Watch, RunScript, RunStage, Act;
    match step
    case Established(script) =>
      var s0 := SetInterest(s.(status := Connected), EnableReading);
      assert Tallied(s0);
      EmitQuiet(s0, Online);
      ScriptTallied(Emit(s0, Online), script);
    case Dispatched(revents, a) =>
      var s1 := RunStage(s, Closing, revents, a);
      StageTallied(s, Closing, revents, a);
      StageTallied(s1, Reading, revents, a);
      StageTallied(RunStage(s1, Reading, revents, a), Writing, revents, a);
    case Acted(action) => ActTallied(s, action);
    case Destroyed(script) => OfflineTallied(s, script);
  }
}
