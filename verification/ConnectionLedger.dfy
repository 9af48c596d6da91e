/** The bytes of a connection, as an outside observer counts them.

    `Ledger` folds the event history and knows nothing of buffers, channels or
    connection states. `Lawful` says which event may follow which history, and
    `Kept` ties the observer's books to the connection at the end of a step. */
module ConnectionLedger {
  import opened Bytes
  import opened Buffers
  import opened Registrations
  import opened ConnectionSpec
  import opened ConnectionWiring

  datatype Ledger = Ledger(
    accepted: Stream,          // all messages taken, in order
    written: Stream,           // all bytes the kernel took, in order
    queue: Stream,             // bytes appended to the output buffer and not flushed
    arrived: Stream,           // all bytes read, in order
    consumed: Stream,          // all bytes handed to the user, in order
    crossings: seq<nat>,       // queue length after each upward crossing of the mark
    highWaters: seq<nat>,      // levels of the high-water posts
    announced: Option<nat>,    // level of a post whose bytes are not buffered yet
    completions: nat,          // writes after which nothing accepted is unwritten
    writeCompletes: nat,       // write-complete posts
    asked: bool,
    halfClosed: bool,
    offline: bool,
    lawful: bool)

  const BLANK := Ledger([], [], [], [], [], [], [], None, 0, 0, false, false, false, true)

  /** May `e` happen after history `m`? */
  predicate Lawful(c: Config, m: Ledger, e: Event) {
    (m.announced.Some? ==> e.Buffered?) &&
    match e
    case Sent(_) => !m.asked && !m.offline
    case Dropped(_) => !m.asked && !m.offline && m.queue == []
    case Direct(bytes) => m.queue == [] && m.written + bytes <= m.accepted
    case Buffered(bytes) =>
      var level := |m.queue| + |bytes|;
      && bytes != [] && m.accepted == m.written + m.queue + bytes
      && m.announced == if c.highWater && |m.queue| < c.mark <= level then Some(level) else None
    case Flushed(bytes) => bytes != [] && bytes <= m.queue && m.written + bytes <= m.accepted
    case PostWriteComplete => c.writeComplete && m.written == m.accepted
    case PostHighWater(level) => c.highWater && |m.queue| < c.mark <= level
    case ShutdownAsked => !m.asked && !m.offline
    case HalfClose => m.asked && !m.halfClosed && m.written == m.accepted
    case Consumed(bytes) => m.consumed + bytes <= m.arrived
    case Message(readable) => m.consumed + readable == m.arrived
    case _ => true
  }

  function Observe(c: Config, m: Ledger, e: Event): Ledger {
    var m1 := m.(lawful := m.lawful && Lawful(c, m, e));
    match e
    case Sent(msg) => m1.(accepted := m.accepted + msg)
    case Direct(bytes) => Complete(m1.(written := m.written + bytes))
    case Buffered(bytes) =>
      m1.(queue := m.queue + bytes,
          announced := None,
          crossings := if |m.queue| < c.mark <= |m.queue| + |bytes| then m.crossings + [|m.queue| + |bytes|]
                       else m.crossings)
    case Flushed(bytes) =>
      Complete(m1.(written := m.written + bytes, queue := m.queue[Min(|bytes|, |m.queue|)..]))
    case PostWriteComplete => m1.(writeCompletes := m.writeCompletes + 1)
    case PostHighWater(level) => m1.(highWaters := m.highWaters + [level], announced := Some(level))
    case ShutdownAsked => m1.(asked := true)
    case HalfClose => m1.(halfClosed := true)
    case Offline => m1.(offline := true)
    case Arrived(bytes) => m1.(arrived := m.arrived + bytes)
    case Consumed(bytes) => m1.(consumed := m.consumed + bytes)
    case _ => m1
  }

  function Complete(m: Ledger): Ledger {
    if m.written == m.accepted then m.(completions := m.completions + 1) else m
  }

  /** The books after the first `k` events. */
  function Watch(c: Config, log: seq<Event>, k: nat): Ledger
    requires k <= |log|
  {
    if k == 0 then BLANK else Observe(c, Watch(c, log, k - 1), log[k - 1])
  }

  function Of(s: Connection): Ledger {
    Watch(s.config, s.log, |s.log|)
  }

  lemma {:induction false} WatchPrefix(c: Config, log: seq<Event>, more: seq<Event>, k: nat)
    requires k <= |log|
    ensures Watch(c, log + more, k) == Watch(c, log, k)
  {
    hide Observe;
    if k > 0 {
      WatchPrefix(c, log, more, k - 1);
    }
  }

  // ---------------------------------------------------------------- invariant

  /** Lawful books of a connection that holds `unsent` and `input`, and has taken
      `rest` but neither written nor buffered it yet. */
  predicate BooksExcept(c: Config, m: Ledger, unsent: Stream, input: Stream, rest: Stream) {
    && m.lawful && m.announced == None
    && m.accepted == m.written + unsent + rest
    && m.queue == unsent
    && m.arrived == m.consumed + input
    && m.highWaters == (if c.highWater then m.crossings else [])
    && m.writeCompletes == (if c.writeComplete then m.completions else 0)
  }

  predicate Books(c: Config, m: Ledger, unsent: Stream, input: Stream) {
    && m.lawful && m.announced == None
    && m.accepted == m.written + unsent
    && m.queue == unsent
    && m.arrived == m.consumed + input
    && m.highWaters == (if c.highWater then m.crossings else [])
    && m.writeCompletes == (if c.writeComplete then m.completions else 0)
  }

  /** Sending has not ended, or has ended and the write side is shut exactly when
      nothing is left to send. `late` says that a shutdownInLoop is still to come,
      queued by another thread; then the write side may also still be open. */
  predicate Ended(m: Ledger, status: Status, drained: bool, late: bool) {
    && (status in {Connecting, Connected} ==> !m.asked && !m.halfClosed)
    && (status == Disconnecting ==> m.asked && (m.halfClosed ==> drained) && (drained && !late ==> m.halfClosed))
    && (m.offline <==> status == Disconnected)
    && (late ==> m.asked)
  }

  predicate Kept(s: Connection, late: bool := false) {
    Books(s.config, Of(s), s.unsent, s.input) && Ended(Of(s), s.status, s.unsent == [], late)
  }

  // ---------------------------------------------------------------- bookkeeping

  predicate SameFlags(m: Ledger, m': Ledger) {
    m'.asked == m.asked && m'.halfClosed == m.halfClosed && m'.offline == m.offline
  }

  lemma SentBooks(c: Config, m: Ledger, unsent: Stream, input: Stream, msg: Stream)
    requires Books(c, m, unsent, input) && !m.asked && !m.offline
    ensures BooksExcept(c, Observe(c, m, Sent(msg)), unsent, input, msg)
    ensures SameFlags(m, Observe(c, m, Sent(msg)))
  {
  }

  lemma PostObserved(c: Config, m: Ledger)
    requires m.lawful && m.announced == None && c.writeComplete && m.written == m.accepted
    ensures Observe(c, m, PostWriteComplete) == m.(writeCompletes := m.writeCompletes + 1)
  {
  }

  lemma DirectObserved(c: Config, m: Ledger, bytes: Stream)
    requires m.lawful && m.announced == None && m.queue == [] && m.written + bytes <= m.accepted
    ensures Observe(c, m, Direct(bytes)) == Complete(m.(written := m.written + bytes))
  {
  }

  lemma FlushObserved(c: Config, m: Ledger, n: nat)
    requires m.lawful && m.announced == None && 0 < n <= |m.queue| && m.accepted == m.written + m.queue
    ensures Observe(c, m, Flushed(m.queue[..n])) == Complete(m.(written := m.written + m.queue[..n], queue := m.queue[n..]))
  {
    assert m.accepted == m.written + m.queue[..n] + m.queue[n..];
  }

  /** The direct write: a prefix of the message goes to the kernel. */
  lemma DirectBooks(c: Config, m: Ledger, input: Stream, msg: Stream, n: nat)
    requires BooksExcept(c, m, [], input, msg) && n <= |msg|
    ensures var m1 := Observe(c, m, Direct(msg[..n]));
            var m2 := if c.writeComplete then Observe(c, m1, PostWriteComplete) else m1;
            && SameFlags(m, m1) && (n == |msg| ==> SameFlags(m, m2))
            && (n < |msg| ==> BooksExcept(c, m1, [], input, msg[n..]))
            && (n == |msg| ==> Books(c, m2, [], input))
  {
    hide Observe;
    assert m.accepted == m.written + msg[..n] + msg[n..];
    DirectObserved(c, m, msg[..n]);
    if n == |msg| && c.writeComplete {
      PostObserved(c, Observe(c, m, Direct(msg[..n])));
    }
  }

  function EnqueueLedger(c: Config, m: Ledger, rest: Stream): Ledger {
    var level := |m.queue| + |rest|;
    var m1 := if |m.queue| < c.mark <= level && c.highWater then Observe(c, m, PostHighWater(level)) else m;
    Observe(c, m1, Buffered(rest))
  }

  lemma AnnounceBooks(c: Config, m: Ledger, level: nat)
    requires m.lawful && m.announced == None && c.highWater && |m.queue| < c.mark <= level
    ensures Observe(c, m, PostHighWater(level)) ==
              m.(highWaters := m.highWaters + [level], announced := Some(level))
  {
  }

  lemma BufferBooks(c: Config, m: Ledger, bytes: Stream)
    requires m.lawful && bytes != [] && m.accepted == m.written + m.queue + bytes
    requires var level := |m.queue| + |bytes|;
             m.announced == if c.highWater && |m.queue| < c.mark <= level then Some(level) else None
    ensures var level := |m.queue| + |bytes|;
            Observe(c, m, Buffered(bytes)) ==
              m.(queue := m.queue + bytes, announced := None,
                 crossings := if |m.queue| < c.mark <= level then m.crossings + [level] else m.crossings)
  {
  }

  lemma EnqueueBooks(c: Config, m: Ledger, unsent: Stream, input: Stream, rest: Stream)
    requires rest != [] && BooksExcept(c, m, unsent, input, rest)
    ensures Books(c, EnqueueLedger(c, m, rest), unsent + rest, input)
    ensures SameFlags(m, EnqueueLedger(c, m, rest))
  {
    hide Observe;
    var level := |m.queue| + |rest|;
    if |m.queue| < c.mark <= level && c.highWater {
      AnnounceBooks(c, m, level);
      BufferBooks(c, m.(highWaters := m.highWaters + [level], announced := Some(level)), rest);
    } else {
      BufferBooks(c, m, rest);
    }
    assert m.written + (unsent + rest) == m.written + unsent + rest;
  }

  lemma FlushBooks(c: Config, m: Ledger, unsent: Stream, input: Stream, n: nat)
    requires Books(c, m, unsent, input) && 0 < n <= |unsent|
    ensures var m1 := Observe(c, m, Flushed(unsent[..n]));
            var m2 := if c.writeComplete then Observe(c, m1, PostWriteComplete) else m1;
            && SameFlags(m, m1) && (n == |unsent| ==> SameFlags(m, m2))
            && (n < |unsent| ==> Books(c, m1, unsent[n..], input))
            && (n == |unsent| ==> Books(c, m2, [], input))
  {
    hide Observe;
    assert m.accepted == m.written + unsent[..n] + unsent[n..];
    FlushObserved(c, m, n);
    if n == |unsent| && c.writeComplete {
      PostObserved(c, Observe(c, m, Flushed(unsent[..n])));
    }
  }

  lemma DroppedBooks(c: Config, m: Ledger, input: Stream, msg: Stream)
    requires Books(c, m, [], input) && !m.asked && !m.offline
    ensures Observe(c, m, Dropped(msg)) == m
  {
  }

  /** Events that carry no bytes leave the books balanced. */
  lemma SilentBooks(c: Config, m: Ledger, unsent: Stream, input: Stream, e: Event)
    requires Books(c, m, unsent, input)
    requires e.Online? || e.Offline? || e.CloseReport?
    ensures Observe(c, m, e) == if e.Offline? then m.(offline := true) else m
  {
  }

  /** The two events of a shutdown. */
  lemma ShutdownBooks(c: Config, m: Ledger, unsent: Stream, input: Stream)
    requires Books(c, m, unsent, input) && !m.halfClosed
    ensures !m.asked && !m.offline ==> Observe(c, m, ShutdownAsked) == m.(asked := true)
    ensures m.asked && unsent == [] ==> Observe(c, m, HalfClose) == m.(halfClosed := true)
  {
  }

  lemma ConsumeBooks(c: Config, m: Ledger, unsent: Stream, input: Stream, n: nat)
    requires Books(c, m, unsent, input) && n <= |input|
    ensures var m1 := Observe(c, m, Consumed(input[..n])); SameFlags(m, m1) && Books(c, m1, unsent, input[n..])
  {
  }

  lemma ArriveBooks(c: Config, m: Ledger, unsent: Stream, input: Stream, bytes: Stream)
    requires Books(c, m, unsent, input)
    ensures var m1 := Observe(c, Observe(c, m, Arrived(bytes)), Message(input + bytes));
            SameFlags(m, m1) && Books(c, m1, unsent, input + bytes)
  {
  }

  // ---------------------------------------------------------------- sending

  lemma EmitObserved(s: Connection, e: Event)
    ensures Of(Emit(s, e)) == Observe(s.config, Of(s), e)
  {
    hide Observe;
    WatchPrefix(s.config, s.log, [e], |s.log|);
  }

  /** The observer's books after the queueing branch of sendInLoop. */
  lemma EnqueueObserved(s: Connection, rest: Stream)
    requires Of(s).queue == s.unsent
    ensures Of(Enqueue(s, rest)) == EnqueueLedger(s.config, Of(s), rest)
  {
    hide Observe, Watch;
    var level := |s.unsent| + |rest|;
    var post := Crosses(s.config.mark, |s.unsent|, level) && s.config.highWater;
    EmitObserved(s, PostHighWater(level));
    EmitObserved(EmitIf(s, post, PostHighWater(level)), Buffered(rest));
  }

  lemma EnqueueKept(s: Connection, rest: Stream)
    requires rest != [] && s.status == Connected
    requires BooksExcept(s.config, Of(s), s.unsent, s.input, rest) && !Of(s).asked && !Of(s).halfClosed
    requires !Of(s).offline
    ensures Kept(Enqueue(s, rest))
  {
    hide Observe, Watch;
    EnqueueObserved(s, rest);
    EnqueueBooks(s.config, Of(s), s.unsent, s.input, rest);
  }

  lemma DirectKept(s: Connection, msg: Stream, w: WriteOutcome)
    requires Kept(s) && s.status == Connected
    requires WritesDirectly(s) && w.Accepts?
    ensures Kept(SendInLoop(s, msg, w))
  {
    hide Observe, Watch;
    var n, s0 := DirectCount(s, msg, w), Emit(s, Sent(msg));
    EmitObserved(s, Sent(msg));
    SentBooks(s.config, Of(s), [], s.input, msg);
    EmitObserved(s0, Direct(msg[..n]));
    DirectBooks(s.config, Of(s0), s.input, msg, n);
    var s1 := Emit(s0, Direct(msg[..n]));
    if n < |msg| {
      EnqueueKept(s1, msg[n..]);
    } else {
      EmitObserved(s1, PostWriteComplete);
    }
  }

  lemma SendKept(s: Connection, msg: Stream, w: WriteOutcome, late: bool := false)
    requires Kept(s, late)
    ensures Kept(SendNow(s, msg, w), late)
  {
    hide Observe, Watch;
    if s.status == Connected {
      if WritesDirectly(s) && w.Accepts? {
        DirectKept(s, msg, w);
      } else if WritesDirectly(s) && Fault(w) {
        EmitObserved(s, Dropped(msg));
        DroppedBooks(s.config, Of(s), s.input, msg);
      } else {
        EmitObserved(s, Sent(msg));
        SentBooks(s.config, Of(s), s.unsent, s.input, msg);
        if msg != [] {
          assert msg[0..] == msg;
          EnqueueKept(Emit(s, Sent(msg)), msg);
        }
      }
    }
  }

  lemma ShutdownKept(s: Connection, late: bool := false)
    requires Kept(s, late) && Wired(s)
    ensures Kept(ShutdownNow(s), late)
  {
    hide Observe, Watch;
    if s.status == Connected {
      var s1 := Emit(s, ShutdownAsked).(status := Disconnecting);
      EmitObserved(s, ShutdownAsked);
      ShutdownBooks(s.config, Of(s), s.unsent, s.input);
      EmitObserved(s1, HalfClose);
      ShutdownBooks(s.config, Of(s1), s.unsent, s.input);
    }
  }

  lemma ActKept(s: Connection, a: Action, late: bool := false)
    requires Kept(s, late) && Wired(s)
    ensures Kept(Act(s, a), late)
  {
    hide Observe, Watch;
    match a
    case Send(msg, outcome) => SendKept(s, msg, outcome, late);
    case Shutdown => ShutdownKept(s, late);
    case Consume(len) =>
      var n := Min(len, |s.input|);
      EmitObserved(s, Consumed(s.input[..n]));
      ConsumeBooks(s.config, Of(s), s.unsent, s.input, n);
  }

  lemma {:induction false} ScriptKept(s: Connection, script: Script, late: bool := false)
    requires Kept(s, late) && Wired(s)
    ensures Kept(RunScript(s, script), late)
  {
    if script != [] {
      ScriptKept(s, script[..|script| - 1], late);
      ScriptWired(s, script[..|script| - 1]);
      ActKept(RunScript(s, script[..|script| - 1]), script[|script| - 1], late);
    }
  }

  // ---------------------------------------------------------------- handlers

  lemma EstablishKept(s: Connection, onConnect: Script, late: bool := false)
    requires Kept(s, late) && Wired(s) && s.status == Connecting
    ensures Kept(Establish(s, onConnect), late)
  {
    hide Observe, Watch;
    InterestAlgebra();
    var s1 := SetInterest(s.(status := Connected), EnableReading);
    EmitObserved(s1, Online);
    SilentBooks(s.config, Of(s1), [], [], Online);
    ScriptKept(Emit(s1, Online), onConnect, late);
  }

  lemma CloseKept(s: Connection, onClose: Script, late: bool := false)
    requires Kept(s, late) && Wired(s)
    ensures Kept(HandleClose(s, onClose), late)
  {
    hide Observe, Watch;
    CloseWired(s, onClose);
    var s1 := SetInterest(s.(status := Disconnected), DisableAll);
    EmitObserved(s1, Offline);
    SilentBooks(s.config, Of(s1), s.unsent, s.input, Offline);
    ScriptKept(Emit(s1, Offline), onClose, late);
    var s2 := RunScript(Emit(s1, Offline), onClose);
    EmitObserved(s2, CloseReport);
    SilentBooks(s.config, Of(s2), s2.unsent, s2.input, CloseReport);
  }

  lemma ReadKept(s: Connection, r: ReadOutcome, callback: Script, late: bool := false)
    requires Kept(s, late) && Wired(s) && s.status != Connecting
    ensures Kept(HandleRead(s, r, callback), late)
  {
    hide Observe, Watch;
    if r.Delivered? {
      if r.bytes == [] {
        CloseKept(s, callback, late);
      } else {
        var s1 := Emit(s, Arrived(r.bytes)).(input := s.input + r.bytes);
        EmitObserved(s, Arrived(r.bytes));
        EmitObserved(s1, Message(s1.input));
        ArriveBooks(s.config, Of(s), s.unsent, s.input, r.bytes);
        ScriptKept(Emit(s1, Message(s1.input)), callback, late);
      }
    }
  }

  /** handleWrite after the last byte: write-complete and a deferred half-close. */
  lemma DrainedKept(s: Connection, n: nat, late: bool := false)
    requires Kept(s, late) && Wired(s) && Live(s) && 0 < n == |s.unsent|
    ensures Kept(Drained(Emit(s, Flushed(s.unsent[..n])).(unsent := s.unsent[n..])), late)
  {
    hide Observe, Watch;
    InterestAlgebra();
    EmitObserved(s, Flushed(s.unsent[..n]));
    FlushBooks(s.config, Of(s), s.unsent, s.input, n);
    var s2 := SetInterest(Emit(s, Flushed(s.unsent[..n])).(unsent := s.unsent[n..]), DisableWriting);
    EmitObserved(s2, PostWriteComplete);
    var s3 := EmitIf(s2, s.config.writeComplete, PostWriteComplete);
    EmitObserved(s3, HalfClose);
    ShutdownBooks(s.config, Of(s3), [], s.input);
  }

  lemma WriteKept(s: Connection, w: WriteOutcome, late: bool := false)
    requires Kept(s, late) && Wired(s) && s.status != Connecting
    ensures Kept(HandleWrite(s, w), late)
  {
    hide Observe, Watch;
    if s.channel.Writing() && w.Accepts? {
      var n := Min(w.room, |s.unsent|);
      if n == |s.unsent| > 0 {
        DrainedKept(s, n, late);
      } else if n > 0 {
        EmitObserved(s, Flushed(s.unsent[..n]));
        FlushBooks(s.config, Of(s), s.unsent, s.input, n);
      }
    }
  }

  lemma StageKept(s: Connection, stage: Stage, revents: Mask, a: Answers, late: bool := false)
    requires Kept(s, late) && Wired(s) && s.status != Connecting
    ensures Kept(RunStage(s, stage, revents, a), late)
  {
    hide Kept, Wired;
    match stage
    case Closing => CloseKept(s, a.onClose, late);
    case Reading => ReadKept(s, a.read, a.onRead, late);
    case Writing => WriteKept(s, a.write, late);
  }

  lemma DispatchKept(s: Connection, revents: Mask, a: Answers, late: bool := false)
    requires Kept(s, late) && Wired(s) && s.status != Connecting
    ensures Kept(Dispatch(s, revents, a), late)
  {
    hide Kept, Wired, RunStage;
    var s1 := RunStage(s, Closing, revents, a);
    StageKept(s, Closing, revents, a, late);
    StageWired(s, Closing, revents, a);
    StageKept(s1, Reading, revents, a, late);
    StageWired(s1, Reading, revents, a);
    StageKept(RunStage(s1, Reading, revents, a), Writing, revents, a, late);
  }

  lemma StepKept(s: Connection, step: Step, late: bool := false)
    requires Kept(s, late) && Wired(s) && Enabled(s, step)
    ensures Kept(Next(s, step), late)
  {
    match step
    case Established(script) => EstablishKept(s, script, late);
    case Dispatched(revents, answers) => DispatchKept(s, revents, answers, late);
    case Acted(action) => ActKept(s, action, late);
    case Destroyed(script) =>
  }

  lemma {:induction false} RunKept(config: Config, steps: seq<Step>)
    requires Possible(config, steps)
    ensures Kept(Run(config, steps))
  {
    if steps != [] {
      var before := steps[..|steps| - 1];
      RunKept(config, before);
      RunWired(config, before);
      StepKept(Run(config, before), steps[|steps| - 1]);
    }
  }

  // ---------------------------------------------------------------- laws of runs

  /** No byte is lost, duplicated or reordered: at every moment of every run the
      kernel has taken a prefix of the accepted messages and the output buffer
      holds exactly the rest; what arrived is what the user consumed followed by
      the input buffer. */
  lemma ByteStreamConserved(config: Config, steps: seq<Step>)
    requires Possible(config, steps)
    ensures var s := Run(config, steps);
            && Of(s).accepted == Of(s).written + s.unsent
            && Of(s).arrived == Of(s).consumed + s.input
  {
    RunKept(config, steps);
  }

  lemma ObserveStep(c: Config, m: Ledger, e: Event)
    ensures Observe(c, m, e).lawful <==> m.lawful && Lawful(c, m, e)
    ensures m.asked || e.ShutdownAsked? <==> Observe(c, m, e).asked
    ensures m.halfClosed || e.HalfClose? <==> Observe(c, m, e).halfClosed
  {
    hide Lawful;
  }

  lemma {:induction false} LawfulThroughout(c: Config, log: seq<Event>, i: nat, k: nat)
    requires i < k <= |log| && Watch(c, log, k).lawful
    ensures Lawful(c, Watch(c, log, i), log[i])
  {
    hide Observe, Lawful;
    ObserveStep(c, Watch(c, log, k - 1), log[k - 1]);
    if i < k - 1 {
      LawfulThroughout(c, log, i, k - 1);
    }
  }

  lemma {:induction false} FlagsStay(c: Config, log: seq<Event>, i: nat, j: nat)
    requires i <= j <= |log|
    ensures Watch(c, log, i).asked ==> Watch(c, log, j).asked
    ensures Watch(c, log, i).halfClosed ==> Watch(c, log, j).halfClosed
    decreases j - i
  {
    hide Observe;
    if i < j {
      ObserveStep(c, Watch(c, log, i), log[i]);
      FlagsStay(c, log, i + 1, j);
    }
  }

  /** Posts of the two write callbacks, over every run: one write-complete for
      each write that left nothing accepted unwritten, and one high-water
      notification, carrying the level, for each upward crossing of the mark. At
      each write-complete everything accepted has been written. */
  lemma PostsAreExact(config: Config, steps: seq<Step>)
    requires Possible(config, steps)
    ensures var m := Of(Run(config, steps));
            && m.writeCompletes == (if config.writeComplete then m.completions else 0)
            && m.highWaters == (if config.highWater then m.crossings else [])
    ensures var log := Run(config, steps).log;
            forall i :: 0 <= i < |log| && log[i].PostWriteComplete? ==>
              config.writeComplete && Watch(config, log, i).written == Watch(config, log, i).accepted
  {
    hide Observe;
    RunKept(config, steps);
    var log := Run(config, steps).log;
    forall i | 0 <= i < |log| && log[i].PostWriteComplete?
      ensures config.writeComplete && Watch(config, log, i).written == Watch(config, log, i).accepted
    {
      LawfulThroughout(config, log, i, |log|);
    }
  }

  lemma {:induction false} LawfulBefore(c: Config, log: seq<Event>, i: nat, k: nat)
    requires i <= k <= |log| && Watch(c, log, k).lawful
    ensures Watch(c, log, i).lawful
    decreases k
  {
    hide Observe, Lawful;
    if i < k {
      ObserveStep(c, Watch(c, log, k - 1), log[k - 1]);
      LawfulBefore(c, log, i, k - 1);
    }
  }

  /** What a lawful history says about a shutdown or half-close at `i` and
      anything that follows it. */
  lemma ShutdownOrder(c: Config, log: seq<Event>, i: nat, j: nat)
    requires i < j < |log| && Watch(c, log, |log|).lawful
    ensures log[i].HalfClose? ==> !log[j].HalfClose?
    ensures log[i].ShutdownAsked? ==> !log[j].Sent? && !log[j].Dropped? && !log[j].ShutdownAsked?
  {
    hide Observe;
    LawfulThroughout(c, log, j, |log|);
    ObserveStep(c, Watch(c, log, i), log[i]);
    FlagsStay(c, log, i + 1, j);
  }

  /** Graceful half-close, over every run: when the write side is shut,
      `shutdown()` was called before and every accepted byte has been written; it
      is shut at most once; and after `shutdown()` no message is ever accepted. */
  lemma GracefulHalfClose(config: Config, steps: seq<Step>)
    requires Possible(config, steps)
    ensures var log := Run(config, steps).log;
            && (forall i :: 0 <= i < |log| && log[i].HalfClose? ==>
                 var m := Watch(config, log, i); m.asked && m.written == m.accepted)
            && (forall i, j :: 0 <= i < j < |log| && log[i].HalfClose? ==> !log[j].HalfClose?)
            && (forall i, j :: 0 <= i < j < |log| && log[i].ShutdownAsked? ==>
                 !log[j].Sent? && !log[j].Dropped? && !log[j].ShutdownAsked?)
  {
    RunKept(config, steps);
    var log := Run(config, steps).log;
    forall i | 0 <= i < |log| && log[i].HalfClose?
      ensures var m := Watch(config, log, i); m.asked && m.written == m.accepted
    {
      LawfulThroughout(config, log, i, |log|);
    }
    forall i, j | 0 <= i < j < |log|
      ensures log[i].HalfClose? ==> !log[j].HalfClose?
      ensures log[i].ShutdownAsked? ==> !log[j].Sent? && !log[j].Dropped? && !log[j].ShutdownAsked?
    {
      ShutdownOrder(config, log, i, j);
    }
  }

  /** A deferred half-close is not forgotten: after `shutdown()` the write side
      is shut exactly when nothing is left to send. */
  lemma HalfCloseNotForgotten(config: Config, steps: seq<Step>)
    requires Possible(config, steps) && Run(config, steps).status == Disconnecting
    ensures Of(Run(config, steps)).halfClosed <==> Run(config, steps).unsent == []
  {
    RunKept(config, steps);
  }

  /** High-water notifications are edge-triggered: each is followed at once by
      the append that lifts the queue from below the mark to the announced level,
      and before the next notification the queue was strictly below the mark. */
  lemma HighWaterIsEdgeTriggered(config: Config, steps: seq<Step>, i: nat, j: nat)
    requires Possible(config, steps)
    requires i < j < |Run(config, steps).log|
    requires Run(config, steps).log[i].PostHighWater? && Run(config, steps).log[j].PostHighWater?
    ensures var log := Run(config, steps).log;
            && i + 2 <= j
            && |Watch(config, log, i).queue| < config.mark
            && |Watch(config, log, i + 2).queue| == log[i].level >= config.mark
            && |Watch(config, log, j).queue| < config.mark
  {
    RunKept(config, steps);
    HighWaterOrder(config, Run(config, steps).log, i, j);
  }

  lemma HighWaterStep(c: Config, m: Ledger, level: nat, e: Event)
    requires Lawful(c, m, PostHighWater(level)) && Lawful(c, Observe(c, m, PostHighWater(level)), e)
    ensures e.Buffered?
    ensures |m.queue| < c.mark <= level
    ensures |Observe(c, Observe(c, m, PostHighWater(level)), e).queue| == level
  {
  }

  lemma HighWaterLaw(c: Config, m: Ledger, e: Event)
    requires Lawful(c, m, e) && e.PostHighWater?
    ensures |m.queue| < c.mark
  {
  }

  lemma HighWaterOrder(c: Config, log: seq<Event>, i: nat, j: nat)
    requires i < j < |log| && Watch(c, log, |log|).lawful
    requires log[i].PostHighWater? && log[j].PostHighWater?
    ensures i + 2 <= j
    ensures |Watch(c, log, i).queue| < c.mark
    ensures |Watch(c, log, i + 2).queue| == log[i].level >= c.mark
    ensures |Watch(c, log, j).queue| < c.mark
  {
    hide Observe, Lawful;
    LawfulThroughout(c, log, i, |log|);
    LawfulThroughout(c, log, i + 1, |log|);
    LawfulThroughout(c, log, j, |log|);
    assert Watch(c, log, i + 1) == Observe(c, Watch(c, log, i), log[i]);
    assert Watch(c, log, i + 2) == Observe(c, Watch(c, log, i + 1), log[i + 1]);
    HighWaterStep(c, Watch(c, log, i), log[i].level, log[i + 1]);
    HighWaterLaw(c, Watch(c, log, j), log[j]);
  }

  /** A message hit by EPIPE or ECONNRESET on the direct path is dropped whole:
      nothing of it is written, buffered or announced, and the connection can go
      on sending. */
  lemma FaultDropsWhole(s: Connection, msg: Stream, w: WriteOutcome)
    requires Kept(s) && Wired(s) && s.status == Connected
    requires s.unsent == [] && (w == Refuses(BrokenPipe) || w == Refuses(ConnReset))
    ensures SendNow(s, msg, w) == s.(log := s.log + [Dropped(msg)])
    ensures Of(SendNow(s, msg, w)) == Of(s)
  {
    hide Observe, Watch;
    EmitObserved(s, Dropped(msg));
    DroppedBooks(s.config, Of(s), s.input, msg);
  }

  lemma AcceptedStep(c: Config, m: Ledger, e: Event)
    ensures Observe(c, m, e).accepted == if e.Sent? then m.accepted + e.msg else m.accepted
  {
  }

  /** Every other message is taken whole: whatever the kernel answers, the bytes
      accepted grow by exactly the message. */
  lemma SendTakesWhole(s: Connection, msg: Stream, w: WriteOutcome)
    requires s.status == Connected
    requires s.unsent == [] && Out !in s.channel.events ==> w != Refuses(BrokenPipe) && w != Refuses(ConnReset)
    ensures Of(SendNow(s, msg, w)).accepted == Of(s).accepted + msg
  {
    hide Observe, Watch;
    var n, s0 := DirectCount(s, msg, w), Emit(s, Sent(msg));
    EmitAccepted(s, Sent(msg));
    EmitAccepted(s0, Direct(msg[..n]));
    var s1 := EmitIf(s0, WritesDirectly(s) && w.Accepts?, Direct(msg[..n]));
    if n == |msg| {
      EmitAccepted(s1, PostWriteComplete);
    } else {
      var level := |s1.unsent| + |msg[n..]|;
      var post := Crosses(s.config.mark, |s1.unsent|, level) && s.config.highWater;
      EmitAccepted(s1, PostHighWater(level));
      EmitAccepted(EmitIf(s1, post, PostHighWater(level)), Buffered(msg[n..]));
    }
  }

  lemma EmitAccepted(s: Connection, e: Event)
    ensures Of(Emit(s, e)).accepted == if e.Sent? then Of(s).accepted + e.msg else Of(s).accepted
  {
    EmitObserved(s, e);
    AcceptedStep(s.config, Of(s), e);
  }
}
