/** What a connection does, as the outside sees it, told without any mechanism.

    `Outside` knows no channel, no epoll interest, no buffer and no event history: it
    is the bytes still owed to the kernel, the bytes on the wire, what the user was
    told, and how often the write side was shut. Its steps answer the kernel and the
    user directly. `RunIsAsSeen` proves that every run of `ConnectionSpec`, observed
    through its history, is a run of this reference. */
module ConnectionReference {
  import opened Bytes
  import opened Buffers
  import opened Registrations
  import opened ConnectionSpec
  import opened ConnectionWiring

  /** What has happened, stream by stream. */
  datatype Record = Record(
    accepted: Stream,      // all messages taken, in order
    lost: seq<Stream>,     // messages given up whole
    wire: Stream,          // all bytes the kernel took, in order
    received: Stream,      // all bytes read, in order
    consumed: Stream,      // all bytes handed to the user, in order
    told: seq<Event>,      // callbacks, posted callbacks and close reports, in order
    asked: nat,            // how often shutdown() took effect
    shut: nat)             // how often the write side was shut

  datatype Outside = Outside(status: Status, owed: Stream, inbox: Stream, record: Record)

  const NOTHING := Record([], [], [], [], [], [], 0, 0)

  function Start(): Outside {
    Outside(Connecting, [], [], NOTHING)
  }

  predicate IsUp(o: Outside) {
    o.status == Connected || o.status == Disconnecting
  }

  // ---------------------------------------------------------------- the reference

  function Tell(o: Outside, e: Event): Outside {
    o.(record := o.record.(told := o.record.told + [e]))
  }

  function TellIf(o: Outside, wanted: bool, e: Event): Outside {
    if wanted then Tell(o, e) else o
  }

  /** The kernel takes the first `n` bytes of what is owed; when that was the last of
      them the user is told. */
  function Pay(c: Config, o: Outside, n: nat): Outside
    requires n <= |o.owed|
  {
    var paid := o.(owed := o.owed[n..], record := o.record.(wire := o.record.wire + o.owed[..n]));
    TellIf(paid, n == |o.owed| && c.writeComplete, PostWriteComplete)
  }

  /** Bytes the kernel did not take at once are owed; the user is told when the debt
      reaches the mark from below. */
  function Owe(c: Config, o: Outside, bytes: Stream): Outside {
    var debt := |o.owed| + |bytes|;
    TellIf(o, c.highWater && |o.owed| < c.mark && debt >= c.mark, PostHighWater(debt)).(owed := o.owed + bytes)
  }

  /** The user sends a message. The kernel is asked only when nothing is owed. */
  function Sends(c: Config, o: Outside, msg: Stream, w: WriteOutcome): Outside {
    if o.status != Connected then o
    else if o.owed == [] && (w == Refuses(BrokenPipe) || w == Refuses(ConnReset)) then
      o.(record := o.record.(lost := o.record.lost + [msg]))
    else
      var taken := o.(record := o.record.(accepted := o.record.accepted + msg));
      if o.owed == [] && w.Accepts? then
        if w.room < |msg|
        then Owe(c, taken.(record := taken.record.(wire := taken.record.wire + msg[..w.room])), msg[w.room..])
        else TellIf(taken.(record := taken.record.(wire := taken.record.wire + msg)), c.writeComplete, PostWriteComplete)
      else Owe(c, taken, msg)
  }

  function ShutDown(o: Outside): Outside {
    o.(record := o.record.(shut := o.record.shut + 1))
  }

  /** The user shuts down: at once if nothing is owed, else when all is paid. */
  function Shuts(o: Outside): Outside {
    if o.status != Connected then o
    else
      var asked := o.(status := Disconnecting, record := o.record.(asked := o.record.asked + 1));
      if o.owed == [] then ShutDown(asked) else asked
  }

  function Consumes(o: Outside, len: nat): Outside {
    var n := if len < |o.inbox| then len else |o.inbox|;
    o.(inbox := o.inbox[n..], record := o.record.(consumed := o.record.consumed + o.inbox[..n]))
  }

  function Acts(c: Config, o: Outside, a: Action): Outside {
    match a
    case Send(msg, w) => Sends(c, o, msg, w)
    case Shutdown => Shuts(o)
    case Consume(len) => Consumes(o, len)
  }

  function Plays(c: Config, o: Outside, script: Script): Outside {
    if script == [] then o else Acts(c, Plays(c, o, script[..|script| - 1]), script[|script| - 1])
  }

  function Opens(c: Config, o: Outside, script: Script): Outside {
    Plays(c, Tell(o.(status := Connected), Online), script)
  }

  function Closes(c: Config, o: Outside, script: Script): Outside {
    Tell(Plays(c, Tell(o.(status := Disconnected), Offline), script), CloseReport)
  }

  /** connectDestroyed closes a connection that nobody closed before. */
  function Ends(c: Config, o: Outside, script: Script): Outside {
    if o.status == Connected then Plays(c, Tell(o.(status := Disconnected), Offline), script) else o
  }

  function Reads(c: Config, o: Outside, r: ReadOutcome, script: Script): Outside {
    match r
    case Failed(_) => o
    case Delivered(bytes) =>
      if |bytes| == 0 then Closes(c, o, script)
      else
        var more := o.(inbox := o.inbox + bytes, record := o.record.(received := o.record.received + bytes));
        Plays(c, Tell(more, Message(more.inbox)), script)
  }

  /** The kernel has room again. A connection that is up pays what it can, and one
      that is disconnecting shuts the write side with the last byte. */
  function Writes(c: Config, o: Outside, w: WriteOutcome): Outside {
    if !IsUp(o) || o.owed == [] || w.Refuses? || w.room == 0 then o
    else if w.room < |o.owed| then Pay(c, o, w.room)
    else if o.status == Disconnecting then ShutDown(Pay(c, o, |o.owed|))
    else Pay(c, o, |o.owed|)
  }

  /** One event: a hang-up without input closes, input or urgent data is read, and
      then, in every case, writability is used. */
  function Hears(c: Config, o: Outside, revents: Mask, a: Answers): Outside {
    var o1 := if Hup in revents && In !in revents then Closes(c, o, a.onClose) else o;
    var o2 := if revents * {In, Pri} != {} then Reads(c, o1, a.read, a.onRead) else o1;
    if Out in revents then Writes(c, o2, a.write) else o2
  }

  function Reference(config: Config, steps: seq<Step>): Outside {
    if steps == [] then Start()
    else
      var o := Reference(config, steps[..|steps| - 1]);
      match steps[|steps| - 1]
      case Established(script) => Opens(config, o, script)
      case Dispatched(revents, answers) => Hears(config, o, revents, answers)
      case Acted(action) => Acts(config, o, action)
      case Destroyed(script) => Ends(config, o, script)
  }

  // ---------------------------------------------------------------- what a history shows

  function Noted(r: Record, e: Event): Record {
    match e
    case Sent(msg) => r.(accepted := r.accepted + msg)
    case Dropped(msg) => r.(lost := r.lost + [msg])
    case Direct(bytes) => r.(wire := r.wire + bytes)
    case Flushed(bytes) => r.(wire := r.wire + bytes)
    case Arrived(bytes) => r.(received := r.received + bytes)
    case Consumed(bytes) => r.(consumed := r.consumed + bytes)
    case ShutdownAsked => r.(asked := r.asked + 1)
    case HalfClose => r.(shut := r.shut + 1)
    case Buffered(_) => r
    case _ => r.(told := r.told + [e])
  }

  function Shown(log: seq<Event>): Record {
    if log == [] then NOTHING else Noted(Shown(log[..|log| - 1]), log[|log| - 1])
  }

  function Seen(s: Connection): Outside {
    Outside(s.status, s.unsent, s.input, Shown(s.log))
  }

  lemma EmitSeen(s: Connection, e: Event)
    ensures Shown(Emit(s, e).log) == Noted(Shown(s.log), e)
  {
    assert (s.log + [e])[..|s.log|] == s.log;
  }

  // ---------------------------------------------------------------- refinement

  lemma EnqueueSeen(s: Connection, rest: Stream)
    ensures Seen(Enqueue(s, rest)) == Owe(s.config, Seen(s), rest)
  {
    hide Shown;
    var level := |s.unsent| + |rest|;
    EmitSeen(s, PostHighWater(level));
    EmitSeen(s, Buffered(rest));
    EmitSeen(Emit(s, PostHighWater(level)), Buffered(rest));
  }

  lemma SendSeen(s: Connection, msg: Stream, w: WriteOutcome)
    requires Wired(s)
    ensures Seen(SendNow(s, msg, w)) == Sends(s.config, Seen(s), msg, w)
  {
    hide Shown, Enqueue;
    if s.status == Connected {
      EmitSeen(s, Dropped(msg));
      var s0, n := Emit(s, Sent(msg)), DirectCount(s, msg, w);
      EmitSeen(s, Sent(msg));
      EmitSeen(s0, Direct(msg[..n]));
      var s1 := Emit(s0, Direct(msg[..n]));
      EmitSeen(s1, PostWriteComplete);
      EnqueueSeen(s1, msg[n..]);
      EnqueueSeen(s0, msg[0..]);
      assert msg[..|msg|] == msg && msg[0..] == msg;
      if msg == [] {
        assert s.unsent + msg == s.unsent;
      }
    }
  }

  lemma ActSeen(s: Connection, a: Action)
    requires Wired(s)
    ensures Seen(Act(s, a)) == Acts(s.config, Seen(s), a)
  {
    hide Shown, SendNow;
    match a
    case Send(msg, w) => SendSeen(s, msg, w);
    case Shutdown =>
      var s1 := Emit(s, ShutdownAsked).(status := Disconnecting);
      EmitSeen(s, ShutdownAsked);
      EmitSeen(s1, HalfClose);
    case Consume(len) =>
      EmitSeen(s, Consumed(s.input[..Min(len, |s.input|)]));
      NothingConsumed(s);
  }

  lemma NothingConsumed(s: Connection)
    ensures Seen(s).(record := Shown(s.log).(consumed := Shown(s.log).consumed + s.input[..0])) == Seen(s)
  {
    assert Shown(s.log).consumed + s.input[..0] == Shown(s.log).consumed;
  }

  lemma {:induction false} ScriptSeen(s: Connection, script: Script)
    requires Wired(s)
    ensures Seen(RunScript(s, script)) == Plays(s.config, Seen(s), script)
  {
    hide Seen, Act, Acts, Wired;
    if script != [] {
      ScriptSeen(s, script[..|script| - 1]);
      ScriptWired(s, script[..|script| - 1]);
      ActSeen(RunScript(s, script[..|script| - 1]), script[|script| - 1]);
    }
  }

  lemma EstablishSeen(s: Connection, script: Script)
    requires Wired(s) && s.status == Connecting
    ensures Seen(Establish(s, script)) == Opens(s.config, Seen(s), script)
  {
    hide Shown, RunScript, Plays;
    InterestAlgebra();
    var s1 := SetInterest(s.(status := Connected), EnableReading);
    EmitSeen(s1, Online);
    ScriptSeen(Emit(s1, Online), script);
  }

  lemma CloseSeen(s: Connection, script: Script)
    requires Wired(s)
    ensures Seen(HandleClose(s, script)) == Closes(s.config, Seen(s), script)
  {
    hide Shown, RunScript, Plays;
    var s1 := SetInterest(s.(status := Disconnected), DisableAll);
    EmitSeen(s1, Offline);
    ScriptSeen(Emit(s1, Offline), script);
    EmitSeen(RunScript(Emit(s1, Offline), script), CloseReport);
  }

  lemma ReadSeen(s: Connection, r: ReadOutcome, script: Script)
    requires Wired(s) && s.status != Connecting
    ensures Seen(HandleRead(s, r, script)) == Reads(s.config, Seen(s), r, script)
  {
    hide Shown, RunScript, Plays;
    if r.Delivered? {
      if r.bytes == [] {
        CloseSeen(s, script);
      } else {
        var s1 := Emit(s, Arrived(r.bytes)).(input := s.input + r.bytes);
        EmitSeen(s, Arrived(r.bytes));
        EmitSeen(s1, Message(s1.input));
        ScriptSeen(Emit(s1, Message(s1.input)), script);
      }
    }
  }

  lemma WriteSeen(s: Connection, w: WriteOutcome)
    requires Wired(s) && s.status != Connecting
    ensures Seen(HandleWrite(s, w)) == Writes(s.config, Seen(s), w)
  {
    hide Shown;
    InterestAlgebra();
    if s.channel.Writing() && w.Accepts? && w.room > 0 {
      var n := Min(w.room, |s.unsent|);
      var s1 := Emit(s, Flushed(s.unsent[..n])).(unsent := s.unsent[n..]);
      EmitSeen(s, Flushed(s.unsent[..n]));
      var s2 := SetInterest(s1, DisableWriting);
      EmitSeen(s2, PostWriteComplete);
      EmitSeen(s2, HalfClose);
      EmitSeen(Emit(s2, PostWriteComplete), HalfClose);
    }
  }

  lemma DispatchSeen(s: Connection, revents: Mask, a: Answers)
    requires Wired(s) && s.status != Connecting
    ensures Seen(Dispatch(s, revents, a)) == Hears(s.config, Seen(s), revents, a)
  {
    hide Seen, Wired, HandleClose, HandleRead, HandleWrite, Closes, Reads, Writes;
    assert revents * {In, Pri} != {} <==> In in revents || Pri in revents by {
      assert In in revents ==> In in revents * {In, Pri};
      assert Pri in revents ==> Pri in revents * {In, Pri};
    }
    var s1 := RunStage(s, Closing, revents, a);
    var s2 := RunStage(s1, Reading, revents, a);
    CloseSeen(s, a.onClose);
    StageWired(s, Closing, revents, a);
    ReadSeen(s1, a.read, a.onRead);
    StageWired(s1, Reading, revents, a);
    WriteSeen(s2, a.write);
  }

  /** Every run, with every answer of the kernel, every event mask and every user, is
      seen from outside as the reference says. */
  lemma {:induction false} RunIsAsSeen(config: Config, steps: seq<Step>)
    requires Possible(config, steps)
    ensures Seen(Run(config, steps)) == Reference(config, steps)
  {
    hide Seen, Wired, Dispatch, Establish, Act, Hears, Opens, Acts;
    if steps == [] {
      StartSeen(config);
    } else {
      var before, last := steps[..|steps| - 1], steps[|steps| - 1];
      RunIsAsSeen(config, before);
      RunWired(config, before);
      var s := Run(config, before);
      match last
      case Established(script) => EstablishSeen(s, script);
      case Dispatched(revents, answers) =>
        WatchedIsNotConnecting(s);
        DispatchSeen(s, revents, answers);
      case Acted(action) => ActSeen(s, action);
      case Destroyed(script) => DestroySeen(s, script);
    }
  }

  lemma StartSeen(config: Config)
    ensures Seen(NewlyAccepted(config)) == Start()
  {
  }

  lemma WatchedIsNotConnecting(s: Connection)
    requires Wired(s) && s.channel.Watched().Some?
    ensures s.status != Connecting
  {
  }

  /** Also on a connected connection, which no run of a whole server leads to. */
  lemma DestroySeen(s: Connection, script: Script)
    requires Wired(s)
    ensures Seen(Destroy(s, script)) == Ends(s.config, Seen(s), script)
    ensures Destroy(s, script).channel.index == New
  {
    hide Shown, RunScript, Plays;
    if s.status == Connected {
      var s1 := SetInterest(s.(status := Disconnected), DisableAll);
      EmitSeen(s1, Offline);
      ScriptSeen(Emit(s1, Offline), script);
    }
  }

  // ---------------------------------------------------------------- one operation at a time

  /** A message sent when nothing is queued: what the kernel takes is written once,
      and exactly the rest is kept. */
  lemma DirectWriteKeepsTheRest(s: Connection, msg: Stream, room: nat)
    requires s.status == Connected && s.unsent == [] && Out !in s.channel.events
    ensures var n := if room < |msg| then room else |msg|;
            var s' := SendNow(s, msg, Accepts(room));
            && s'.unsent == msg[n..]
            && |s'.log| >= |s.log| + 2
            && s'.log[..|s.log| + 2] == s.log + [Sent(msg), Direct(msg[..n])]
            && (Out in s'.channel.events <==> n < |msg|)
  {
    var n := if room < |msg| then room else |msg|;
    var s1 := Emit(Emit(s, Sent(msg)), Direct(msg[..n]));
    assert s1.log == s.log + [Sent(msg), Direct(msg[..n])];
  }

  /** A flush takes what the kernel takes, no more and no less. */
  lemma FlushKeepsTheRest(s: Connection, w: WriteOutcome)
    ensures var n := if Out !in s.channel.events || w.Refuses? then 0 else if w.room < |s.unsent| then w.room else |s.unsent|;
            var s' := HandleWrite(s, w);
            && s'.unsent == s.unsent[n..]
            && (n == 0 ==> s' == s)
            && (n > 0 ==> |s'.log| > |s.log| && s'.log[..|s.log| + 1] == s.log + [Flushed(s.unsent[..n])])
  {
  }

  /** Writability is used last, whatever else the event brings, and only if the event
      brings it. */
  lemma WritesLast(s: Connection, revents: Mask, a: Answers)
    ensures Dispatch(s, revents, a) ==
              if Out in revents then HandleWrite(Dispatch(s, revents - {Out}, a), a.write)
              else Dispatch(s, revents - {Out}, a)
    ensures var s2 := Dispatch(s, revents - {Out}, a);
            var n := if Out in revents && Out in s2.channel.events && a.write.Accepts?
                     then if a.write.room < |s2.unsent| then a.write.room else |s2.unsent|
                     else 0;
            Dispatch(s, revents, a).unsent == s2.unsent[n..]
  {
    hide HandleClose, HandleRead, HandleWrite;
    var rest := revents - {Out};
    assert (In in rest <==> In in revents) && (Pri in rest <==> Pri in revents) && (Hup in rest <==> Hup in revents);
    FlushKeepsTheRest(Dispatch(s, rest, a), a.write);
  }

  /** With a failed read and no hang-up an event flushes exactly what the kernel
      takes, whatever other flags it has. */
  lemma EventFlushes(s: Connection, revents: Mask, a: Answers)
    requires Wired(s) && Live(s) && Hup !in revents && a.read.Failed? && a.write.Accepts?
    ensures Dispatch(s, revents, a).unsent ==
              if Out in revents then s.unsent[if a.write.room < |s.unsent| then a.write.room else |s.unsent|..]
              else s.unsent
  {
    hide HandleWrite, Wired;
    FlushKeepsTheRest(s, a.write);
    WantsOutIff(s);
  }

  lemma WantsOutIff(s: Connection)
    requires Wired(s) && Live(s)
    ensures Out in s.channel.events <==> s.unsent != []
  {
  }

  /** A message queued behind others announces the high-water mark if and only if the
      debt was below the mark and now is not. */
  lemma CrossingIsAnnouncedIff(s: Connection, msg: Stream, w: WriteOutcome)
    requires s.status == Connected && Out in s.channel.events && msg != [] && s.config.highWater
    ensures var s' := SendNow(s, msg, w);
            && |s'.log| >= |s.log| + 2 && s'.log[|s.log|] == Sent(msg)
            && (s'.log[|s.log| + 1] == PostHighWater(|s.unsent| + |msg|) <==>
                 |s.unsent| < s.config.mark && |s.unsent| + |msg| >= s.config.mark)
            && s'.unsent == s.unsent + msg
  {
    assert msg[0..] == msg;
  }

  /** `shutdown()` on a connected connection takes effect at once, whatever is unsent. */
  lemma ShutdownIsTaken(s: Connection)
    requires s.status == Connected
    ensures var s' := ShutdownNow(s);
            && s'.status == Disconnecting && s'.unsent == s.unsent
            && s'.log[..|s.log| + 1] == s.log + [ShutdownAsked]
  {
  }

  /** And for good, over every run: from then on the connection is disconnecting or
      disconnected, takes no message, and `shutdown()` has taken effect once. */
  lemma {:induction false} ShutdownTakesEffect(config: Config, steps: seq<Step>, more: seq<Step>)
    requires Possible(config, steps) && Run(config, steps).status == Connected
    requires Possible(config, steps + [Acted(Shutdown)] + more)
    ensures var s, s' := Run(config, steps), Run(config, steps + [Acted(Shutdown)] + more);
            && s'.status in {Disconnecting, Disconnected}
            && Shown(s'.log).accepted == Shown(s.log).accepted
            && Shown(s'.log).lost == Shown(s.log).lost
            && Shown(s'.log).asked == Shown(s.log).asked + 1
  {
    hide Next, Wired, Shown, Enabled;
    var all := steps + [Acted(Shutdown)] + more;
    if more == [] {
      assert all == steps + [Acted(Shutdown)];
      assert all[..|all| - 1] == steps && all[|all| - 1] == Acted(Shutdown);
      RunWired(config, steps);
      ShutdownStep(Run(config, steps));
    } else {
      var most := more[..|more| - 1];
      assert all[..|all| - 1] == steps + [Acted(Shutdown)] + most && all[|all| - 1] == more[|more| - 1];
      ShutdownTakesEffect(config, steps, most);
      RunWired(config, steps + [Acted(Shutdown)] + most);
      EndedStaysEnded(Run(config, steps + [Acted(Shutdown)] + most), more[|more| - 1]);
    }
  }

  lemma ShutdownStep(s: Connection)
    requires Wired(s) && s.status == Connected
    ensures var s' := Next(s, Acted(Shutdown));
            && s'.status == Disconnecting
            && Shown(s'.log).accepted == Shown(s.log).accepted && Shown(s'.log).lost == Shown(s.log).lost
            && Shown(s'.log).asked == Shown(s.log).asked + 1
  {
    hide Shown;
    ActSeen(s, Shutdown);
  }

  predicate OverFor(o: Outside, o': Outside) {
    && o'.status in {Disconnecting, Disconnected}
    && o'.record.accepted == o.record.accepted && o'.record.lost == o.record.lost
    && o'.record.asked == o.record.asked
  }

  lemma {:induction false} PlaysOver(c: Config, o: Outside, script: Script)
    requires o.status in {Disconnecting, Disconnected}
    ensures OverFor(o, Plays(c, o, script)) && Plays(c, o, script).status == o.status
  {
    if script != [] {
      PlaysOver(c, o, script[..|script| - 1]);
    }
  }

  lemma HearsOver(c: Config, o: Outside, revents: Mask, a: Answers)
    requires o.status in {Disconnecting, Disconnected}
    ensures OverFor(o, Hears(c, o, revents, a))
  {
    hide Plays;
    PlaysOver(c, Tell(o.(status := Disconnected), Offline), a.onClose);
    var o1 := if Hup in revents && In !in revents then Closes(c, o, a.onClose) else o;
    PlaysOver(c, Tell(o1.(status := Disconnected), Offline), a.onRead);
    if a.read.Delivered? {
      var more := o1.(inbox := o1.inbox + a.read.bytes, record := o1.record.(received := o1.record.received + a.read.bytes));
      PlaysOver(c, Tell(more, Message(more.inbox)), a.onRead);
    }
  }

  lemma EndedStaysEnded(s: Connection, step: Step)
    requires Wired(s) && s.status in {Disconnecting, Disconnected} && Enabled(s, step)
    ensures OverFor(Seen(s), Seen(Next(s, step)))
  {
    hide Shown, Wired, Dispatch, Act, Hears;
    match step
    case Dispatched(revents, answers) =>
      DispatchSeen(s, revents, answers);
      HearsOver(s.config, Seen(s), revents, answers);
    case Acted(action) => ActSeen(s, action);
    case Destroyed(script) => DestroySeen(s, script);
  }
}
