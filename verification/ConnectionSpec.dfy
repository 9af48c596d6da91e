/** What src/TcpConnection.cc does to one connection, as functions on its state.

    Everything the outside can notice is recorded, in order, in `log`. All
    functions run on the connection's own loop thread. */
module ConnectionSpec {
  import opened Bytes
  import opened Buffers
  import opened Registrations

  datatype Status = Disconnected | Connecting | Connected | Disconnecting

  /** Which optional callbacks are set, and the high-water mark. */
  datatype Config = Config(writeComplete: bool, highWater: bool, mark: nat)

  datatype Event =
    | Sent(msg: Stream)             // sendInLoop takes responsibility for the message
    | Dropped(msg: Stream)          // sendInLoop gives the whole message up
    | Direct(bytes: Stream)         // written straight from the message
    | Buffered(bytes: Stream)       // appended to outputBuffer_
    | Flushed(bytes: Stream)        // written from the head of outputBuffer_
    | PostWriteComplete             // writeCompleteCallback_ queued on the loop
    | PostHighWater(level: nat)     // highWaterMarkCallback_ queued on the loop
    | ShutdownAsked                 // shutdown() took effect
    | HalfClose                     // socket_->shutdownWrite()
    | Arrived(bytes: Stream)        // readFd appended to inputBuffer_
    | Consumed(bytes: Stream)       // the user retrieved from inputBuffer_
    | Online                        // connectionCallback_ while connected
    | Message(readable: Stream)     // messageCallback_
    | Offline                       // connectionCallback_ after the disconnect
    | CloseReport                   // closeCallback_, TcpServer::removeConnection

  datatype Connection = Connection(
    config: Config,
    status: Status,
    channel: ChannelState,
    unsent: Stream,
    input: Stream,
    log: seq<Event>)

  /** What a user callback may do to the connection on its loop thread. */
  datatype Action = Send(msg: Stream, outcome: WriteOutcome) | Shutdown | Consume(len: nat)

  type Script = seq<Action>

  /** What the kernel and the user callbacks answer during one dispatch. */
  datatype Answers = Answers(read: ReadOutcome, write: WriteOutcome, onClose: Script, onRead: Script)

  function NewlyAccepted(config: Config): Connection {
    Connection(config, Connecting, ChannelState(New, NONE_EVENT), [], [], [])
  }

  function Emit(s: Connection, e: Event): Connection {
    s.(log := s.log + [e])
  }

  function EmitIf(s: Connection, wanted: bool, e: Event): Connection {
    if wanted then Emit(s, e) else s
  }

  function SetInterest(s: Connection, change: Change): Connection {
    s.(channel := Apply(s.channel, Interest(change)))
  }

  // ---------------------------------------------------------------- sending

  /** sendInLoop calls `write` itself only when nothing is queued before it. */
  predicate WritesDirectly(s: Connection) {
    !s.channel.Writing() && s.unsent == []
  }

  predicate Fault(w: WriteOutcome) {
    w.Refuses? && (w.errno == BrokenPipe || w.errno == ConnReset)
  }

  function DirectCount(s: Connection, msg: Stream, w: WriteOutcome): (n: nat)
    ensures n <= |msg|
  {
    if WritesDirectly(s) && w.Accepts? then Min(w.room, |msg|) else 0
  }

  function SendInLoop(s: Connection, msg: Stream, w: WriteOutcome): Connection {
    if s.status == Disconnected then s
    else if WritesDirectly(s) && Fault(w) then Emit(s, Dropped(msg))
    else
      var n := DirectCount(s, msg, w);
      var written := WritesDirectly(s) && w.Accepts?;
      var s1 := EmitIf(Emit(s, Sent(msg)), written, Direct(msg[..n]));
      if n == |msg| then EmitIf(s1, written && s.config.writeComplete, PostWriteComplete)
      else Enqueue(s1, msg[n..])
  }

  predicate Crosses(mark: nat, before: nat, after: nat) {
    before < mark <= after
  }

  function Enqueue(s: Connection, rest: Stream): Connection {
    var level := |s.unsent| + |rest|;
    var s1 := EmitIf(s, Crosses(s.config.mark, |s.unsent|, level) && s.config.highWater, PostHighWater(level));
    var s2 := Emit(s1, Buffered(rest)).(unsent := s.unsent + rest);
    if s2.channel.Writing() then s2 else SetInterest(s2, EnableWriting)
  }

  function SendNow(s: Connection, msg: Stream, w: WriteOutcome): (s': Connection)
    ensures s'.config == s.config
  {
    if s.status == Connected then SendInLoop(s, msg, w) else s
  }

  // ---------------------------------------------------------------- shutdown

  function ShutdownInLoop(s: Connection): Connection {
    if s.channel.Writing() then s else Emit(s, HalfClose)
  }

  function ShutdownNow(s: Connection): (s': Connection)
    ensures s'.config == s.config
  {
    if s.status == Connected then ShutdownInLoop(Emit(s, ShutdownAsked).(status := Disconnecting)) else s
  }

  // ---------------------------------------------------------------- user code

  function Act(s: Connection, a: Action): (s': Connection)
    ensures s'.config == s.config
  {
    match a
    case Send(msg, outcome) => SendNow(s, msg, outcome)
    case Shutdown => ShutdownNow(s)
    case Consume(len) =>
      var n := Min(len, |s.input|);
      if n == 0 then s else Emit(s, Consumed(s.input[..n])).(input := s.input[n..])
  }

  function RunScript(s: Connection, script: Script): (s': Connection)
    ensures s'.config == s.config
  {
    if script == [] then s else Act(RunScript(s, script[..|script| - 1]), script[|script| - 1])
  }

  // ---------------------------------------------------------------- handlers

  function Establish(s: Connection, onConnect: Script): (s': Connection)
    ensures s'.config == s.config
  {
    RunScript(Emit(SetInterest(s.(status := Connected), EnableReading), Online), onConnect)
  }

  function HandleClose(s: Connection, onClose: Script): (s': Connection)
    ensures s'.config == s.config
  {
    Emit(RunScript(Emit(SetInterest(s.(status := Disconnected), DisableAll), Offline), onClose), CloseReport)
  }

  function HandleRead(s: Connection, r: ReadOutcome, callback: Script): (s': Connection)
    ensures s'.config == s.config
  {
    match r
    case Failed(_) => s
    case Delivered(bytes) =>
      if bytes == [] then HandleClose(s, callback)
      else
        var s1 := Emit(s, Arrived(bytes)).(input := s.input + bytes);
        RunScript(Emit(s1, Message(s1.input)), callback)
  }

  function HandleWrite(s: Connection, w: WriteOutcome): (s': Connection)
    ensures s'.config == s.config
  {
    if !s.channel.Writing() || w.Refuses? then s
    else
      var n := Min(w.room, |s.unsent|);
      if n == 0 then s
      else
        var s1 := Emit(s, Flushed(s.unsent[..n])).(unsent := s.unsent[n..]);
        if s1.unsent != [] then s1 else Drained(s1)
  }

  function Drained(s: Connection): Connection {
    var s1 := EmitIf(SetInterest(s, DisableWriting), s.config.writeComplete, PostWriteComplete);
    if s1.status == Disconnecting then ShutdownInLoop(s1) else s1
  }

  /** The parts of `Channel::handleEventWithGuard`, in this order. Between the
      first two, the error callback only logs. */
  datatype Stage = Closing | Reading | Writing

  function RunStage(s: Connection, stage: Stage, revents: Mask, a: Answers): (s': Connection)
    ensures s'.config == s.config
  {
    match stage
    case Closing => if Hup in revents && In !in revents then HandleClose(s, a.onClose) else s
    case Reading => if In in revents || Pri in revents then HandleRead(s, a.read, a.onRead) else s
    case Writing => if Out in revents then HandleWrite(s, a.write) else s
  }

  /** The stage ends in handleClose, which reports to the server. */
  predicate Closes(stage: Stage, revents: Mask, a: Answers) {
    match stage
    case Closing => Hup in revents && In !in revents
    case Reading => (In in revents || Pri in revents) && a.read == Delivered([])
    case Writing => false
  }

  function Dispatch(s: Connection, revents: Mask, a: Answers): (s': Connection)
    ensures s'.config == s.config
  {
    RunStage(RunStage(RunStage(s, Closing, revents, a), Reading, revents, a), Writing, revents, a)
  }

  function Destroy(s: Connection, onDisconnect: Script): (s': Connection)
    ensures s'.config == s.config
  {
    var s1 := if s.status == Connected
              then RunScript(Emit(SetInterest(s.(status := Disconnected), DisableAll), Offline), onDisconnect)
              else s;
    s1.(channel := Apply(s1.channel, Remove))
  }

  // ---------------------------------------------------------------- runs

  datatype Step =
    | Established(onConnect: Script)
    | Dispatched(revents: Mask, answers: Answers)
    | Acted(action: Action)
    | Destroyed(onDisconnect: Script)

  /** A connection is established once, hears from the kernel only while it is
      watched, and is destroyed only after it was closed. The last two are
      proved of the whole server in `LifecycleSafety`. */
  predicate Enabled(s: Connection, step: Step) {
    match step
    case Established(_) => s.status == Connecting
    case Dispatched(_, _) => s.channel.Watched().Some?
    case Acted(_) => true
    case Destroyed(_) => s.status == Disconnected
  }

  function Next(s: Connection, step: Step): (s': Connection)
    ensures s'.config == s.config
  {
    match step
    case Established(script) => Establish(s, script)
    case Dispatched(revents, answers) => Dispatch(s, revents, answers)
    case Acted(action) => Act(s, action)
    case Destroyed(script) => Destroy(s, script)
  }

  predicate Possible(config: Config, steps: seq<Step>) {
    steps == [] || (
      && Possible(config, steps[..|steps| - 1])
      && Enabled(Run(config, steps[..|steps| - 1]), steps[|steps| - 1]))
  }

  function Run(config: Config, steps: seq<Step>): (s: Connection)
    ensures s.config == config
  {
    if steps == [] then NewlyAccepted(config)
    else Next(Run(config, steps[..|steps| - 1]), steps[|steps| - 1])
  }
}
