/** `TcpConnection` (src/TcpConnection.cc) as a mutable object on top of its two
    buffers, its channel and the loop's poller.

    `Abs` is the connection of `ConnectionSpec` this object stands for. Every
    method is the code of its namesake and is proved to take `Abs` exactly where
    the function of the same name takes it, so the laws of `ConnectionWiring`,
    `ConnectionCallbacks` and `ConnectionLedger` are laws of this object. Kernel
    answers and user callbacks are parameters. */
module TcpConnections {
  import opened Bytes
  import opened Buffers
  import opened Registrations
  import opened Pollers
  import opened ConnectionSpec
  import Spec = ConnectionSpec

  /** The connection callback is not given the input buffer. */
  predicate NoConsume(script: Script) {
    forall i :: 0 <= i < |script| ==> !script[i].Consume?
  }

  class TcpConnection {
    const config: Config
    const channel: Channel
    const inputBuffer: Buffer
    const outputBuffer: Buffer
    var status: Status
    /** Everything the outside has noticed of this connection. */
    ghost var log: seq<Event>

    ghost predicate Valid()
      reads this, channel, channel.poller, channel.poller.clients
      reads inputBuffer, inputBuffer.storage, outputBuffer, outputBuffer.storage
    {
      && channel.poller.Valid() && channel in channel.poller.clients
      && inputBuffer != outputBuffer && inputBuffer.storage != outputBuffer.storage
      && inputBuffer.Valid() && outputBuffer.Valid()
    }

    ghost function Abs(): Connection
      requires Valid()
      reads this, channel, channel.poller, channel.poller.clients
      reads inputBuffer, inputBuffer.storage, outputBuffer, outputBuffer.storage
    {
      Connection(config, status, channel.State(), outputBuffer.Contents(), inputBuffer.Contents(), log)
    }

    /** What no method of this object does: get a call refused by the kernel, or
        touch the registration of another descriptor. */
    twostate predicate Harmless()
      reads this, channel, channel.poller, inputBuffer, outputBuffer
    {
      var p, fd := channel.poller, channel.fd;
      && p.clients == old(p.clients) && p.refusals == old(p.refusals)
      && p.channels - {fd} == old(p.channels) - {fd}
      && p.kernel - {fd} == old(p.kernel) - {fd}
      && (inputBuffer.storage == old(inputBuffer.storage) || fresh(inputBuffer.storage))
      && (outputBuffer.storage == old(outputBuffer.storage) || fresh(outputBuffer.storage))
    }

    constructor (poller: EPollPoller, fd: int, config: Config)
      requires poller.Valid()
      requires forall c :: c in poller.clients ==> c.fd != fd
      modifies poller`clients
      ensures Valid() && fresh(channel) && channel.poller == poller && channel.fd == fd
      ensures fresh(inputBuffer) && fresh(outputBuffer) && fresh(inputBuffer.storage) && fresh(outputBuffer.storage)
      ensures poller.clients == old(poller.clients) + {channel}
      ensures Abs() == NewlyAccepted(config)
    {
      this.config := config;
      status := Connecting;
      log := [];
      channel := new Channel(poller, fd);
      inputBuffer := new Buffer(INITIAL_SIZE);
      outputBuffer := new Buffer(INITIAL_SIZE);
    }

    method SetInterest(change: Change)
      requires Valid()
      modifies channel`events, channel`index
      modifies channel.poller`channels, channel.poller`kernel, channel.poller`refusals
      ensures Valid() && Harmless()
      ensures Abs() == Spec.SetInterest(old(Abs()), change)
    {
      channel.SetInterest(change);
    }

    method Append(data: Stream)
      requires Valid()
      modifies outputBuffer, outputBuffer.storage
      ensures Valid() && Harmless()
      ensures Abs() == old(Abs()).(unsent := old(Abs()).unsent + data)
    {
      outputBuffer.Append(data);
    }

    /** `send`, on the loop thread or another. Off the loop thread a connected
        connection queues a sendInLoop of the message, which is returned. */
    method SendNow(msg: Stream, outcome: WriteOutcome, inLoop: bool) returns (queued: Option<Stream>)
      requires Valid()
      modifies this`log, channel`events, channel`index
      modifies channel.poller`channels, channel.poller`kernel, channel.poller`refusals
      modifies outputBuffer, outputBuffer.storage
      ensures Valid() && Harmless()
      ensures inLoop ==> Abs() == Spec.SendNow(old(Abs()), msg, outcome)
      ensures !inLoop ==> Abs() == old(Abs())
      ensures queued == if old(status) == Connected && !inLoop then Some(msg) else None
    {
      queued := None;
      if status == Connected {
        if inLoop {
          SendInLoop(msg, outcome);
        } else {
          queued := Some(msg);
        }
      }
    }

    method SendInLoop(msg: Stream, outcome: WriteOutcome)
      requires Valid()
      modifies this`log, channel`events, channel`index
      modifies channel.poller`channels, channel.poller`kernel, channel.poller`refusals
      modifies outputBuffer, outputBuffer.storage
      ensures Valid() && Harmless()
      ensures Abs() == Spec.SendInLoop(old(Abs()), msg, outcome)
    {
      var nwrote: nat := 0;
      var remaining := |msg|;
      var faultError := false;
      if status == Disconnected {
        return;
      }
      if !channel.IsWriting() && outputBuffer.writerIndex - outputBuffer.readerIndex == 0 {
        match outcome
        case Accepts(room) =>
          nwrote := Min(room, |msg|);
          log := log + [Sent(msg)] + [Direct(msg[..nwrote])];
          remaining := |msg| - nwrote;
          if remaining == 0 && config.writeComplete {
            log := log + [PostWriteComplete];
          }
        case Refuses(errno) =>
          if errno != WouldBlock {
            if errno == BrokenPipe || errno == ConnReset {
              faultError := true;
            }
          }
          log := log + if faultError then [Dropped(msg)] else [Sent(msg)];
      } else {
        log := log + [Sent(msg)];
      }
      if !faultError && remaining > 0 {
        Enqueue(msg[nwrote..]);
      }
    }

    /** The last part of sendInLoop: announce, append, watch for writability. */
    method Enqueue(rest: Stream)
      requires Valid()
      modifies this`log, channel`events, channel`index
      modifies channel.poller`channels, channel.poller`kernel, channel.poller`refusals
      modifies outputBuffer, outputBuffer.storage
      ensures Valid() && Harmless()
      ensures Abs() == Spec.Enqueue(old(Abs()), rest)
    {
      var oldLen := outputBuffer.writerIndex - outputBuffer.readerIndex;
      if oldLen + |rest| >= config.mark && oldLen < config.mark && config.highWater {
        log := log + [PostHighWater(oldLen + |rest|)];
      }
      log := log + [Buffered(rest)];
      Append(rest);
      if !channel.IsWriting() {
        SetInterest(EnableWriting);
      }
    }

    /** `shutdown`, on the loop thread or another. The status changes at once on
        any thread; off the loop thread shutdownInLoop is only queued. */
    method ShutdownNow(inLoop: bool) returns (queued: bool)
      requires Valid()
      modifies this`status, this`log
      ensures Valid()
      ensures inLoop ==> Abs() == Spec.ShutdownNow(old(Abs()))
      ensures !inLoop ==>
                Abs() == if old(status) == Connected
                         then Emit(old(Abs()), ShutdownAsked).(status := Disconnecting) else old(Abs())
      ensures queued <==> old(status) == Connected && !inLoop
    {
      queued := false;
      if status == Connected {
        status := Disconnecting;
        log := log + [ShutdownAsked];
        if inLoop {
          ShutdownInLoop();
        } else {
          queued := true;
        }
      }
    }

    method ShutdownInLoop()
      requires Valid()
      modifies this`log
      ensures Valid()
      ensures Abs() == Spec.ShutdownInLoop(old(Abs()))
    {
      if !channel.IsWriting() {
        log := log + [HalfClose];
      }
    }

    /** The message callback retrieves from the input buffer. */
    method ConsumeInput(len: nat)
      requires Valid()
      modifies this`log, inputBuffer
      ensures Valid() && Harmless()
      ensures Abs() == Spec.Act(old(Abs()), Consume(len))
    {
      var n := Min(len, inputBuffer.writerIndex - inputBuffer.readerIndex);
      if n > 0 {
        log := log + [Consumed(inputBuffer.Contents()[..n])];
      }
      inputBuffer.Retrieve(len);
    }

    method Act(a: Action)
      requires Valid()
      modifies this`status, this`log, channel`events, channel`index
      modifies channel.poller`channels, channel.poller`kernel, channel.poller`refusals
      modifies inputBuffer, inputBuffer.storage, outputBuffer, outputBuffer.storage
      ensures Valid() && Harmless()
      ensures Abs() == Spec.Act(old(Abs()), a)
      ensures !a.Consume? ==> inputBuffer.LayoutOf() == old(inputBuffer.LayoutOf())
    {
      match a
      case Send(msg, outcome) => var _ := SendNow(msg, outcome, true);
      case Shutdown => var _ := ShutdownNow(true);
      case Consume(len) => ConsumeInput(len);
    }

    /** A user callback: any finite sequence of actions on this connection. */
    method RunScript(script: Script)
      requires Valid()
      modifies this`status, this`log, channel`events, channel`index
      modifies channel.poller`channels, channel.poller`kernel, channel.poller`refusals
      modifies inputBuffer, inputBuffer.storage, outputBuffer, outputBuffer.storage
      ensures Valid() && Harmless()
      ensures Abs() == Spec.RunScript(old(Abs()), script)
      ensures NoConsume(script) ==> inputBuffer.LayoutOf() == old(inputBuffer.LayoutOf())
    {
      for i := 0 to |script|
        invariant Valid() && Harmless()
        invariant Abs() == Spec.RunScript(old(Abs()), script[..i])
        invariant NoConsume(script) ==> inputBuffer.LayoutOf() == old(inputBuffer.LayoutOf())
      {
        assert script[..i + 1][..i] == script[..i];
        Act(script[i]);
      }
      assert script[..|script|] == script;
    }

    method ConnectEstablished(onConnect: Script)
      requires Valid()
      modifies this`status, this`log, channel`events, channel`index, channel`tied
      modifies channel.poller`channels, channel.poller`kernel, channel.poller`refusals
      modifies inputBuffer, inputBuffer.storage, outputBuffer, outputBuffer.storage
      ensures Valid() && Harmless() && channel.tied
      ensures Abs() == Establish(old(Abs()), onConnect)
    {
      status := Connected;
      channel.Tie();
      SetInterest(EnableReading);
      log := log + [Online];
      RunScript(onConnect);
    }

    /** Leave the connected statuses: no interest, and tell the user. */
    method GoOffline()
      requires Valid()
      modifies this`status, this`log, channel`events, channel`index
      modifies channel.poller`channels, channel.poller`kernel, channel.poller`refusals
      ensures Valid() && Harmless()
      ensures Abs() == Emit(Spec.SetInterest(old(Abs()).(status := Disconnected), DisableAll), Offline)
    {
      status := Disconnected;
      channel.SetInterest(DisableAll);
      log := log + [Offline];
    }

    method HandleClose(onClose: Script)
      requires Valid()
      modifies this`status, this`log, channel`events, channel`index
      modifies channel.poller`channels, channel.poller`kernel, channel.poller`refusals
      modifies inputBuffer, inputBuffer.storage, outputBuffer, outputBuffer.storage
      ensures Valid() && Harmless()
      ensures Abs() == Spec.HandleClose(old(Abs()), onClose)
      ensures NoConsume(onClose) ==> inputBuffer.LayoutOf() == old(inputBuffer.LayoutOf())
    {
      GoOffline();
      RunScript(onClose);
      log := log + [CloseReport];
    }

    method HandleRead(outcome: ReadOutcome, callback: Script)
      requires Valid()
      requires outcome.Delivered? ==> |outcome.bytes| <= inputBuffer.LayoutOf().Offered()
      modifies this`status, this`log, channel`events, channel`index
      modifies channel.poller`channels, channel.poller`kernel, channel.poller`refusals
      modifies inputBuffer, inputBuffer.storage, outputBuffer, outputBuffer.storage
      ensures Valid() && Harmless()
      ensures Abs() == Spec.HandleRead(old(Abs()), outcome, callback)
    {
      var n, savedErrno := inputBuffer.ReadFd(outcome);
      if n > 0 {
        log := log + [Arrived(outcome.bytes)] + [Message(inputBuffer.Contents())];
        RunScript(callback);
      } else if n == 0 {
        assert inputBuffer.Contents() == old(inputBuffer.Contents());
        HandleClose(callback);
      }
    }

    /** What handleWrite does once the output buffer is empty. */
    method Drained()
      requires Valid()
      modifies this`log, channel`events, channel`index
      modifies channel.poller`channels, channel.poller`kernel, channel.poller`refusals
      ensures Valid() && Harmless()
      ensures Abs() == Spec.Drained(old(Abs()))
    {
      SetInterest(DisableWriting);
      if config.writeComplete {
        log := log + [PostWriteComplete];
      }
      if status == Disconnecting {
        ShutdownInLoop();
      }
    }

    method HandleWrite(outcome: WriteOutcome)
      requires Valid()
      modifies this`log, channel`events, channel`index
      modifies channel.poller`channels, channel.poller`kernel, channel.poller`refusals
      modifies outputBuffer
      ensures Valid() && Harmless()
      ensures Abs() == Spec.HandleWrite(old(Abs()), outcome)
    {
      if channel.IsWriting() {
        var n, savedErrno := outputBuffer.WriteFd(outcome);
        if n > 0 {
          log := log + [Flushed(outputBuffer.Contents()[..n])];
          outputBuffer.Retrieve(n);
          if outputBuffer.writerIndex - outputBuffer.readerIndex == 0 {
            Drained();
          }
        }
      }
    }

    /** `Channel::handleEvent` for this connection's channel. `alive` says whether
        a tie can be locked; without a tie the event is handled unguarded. */
    method HandleEvent(answers: Answers, alive: bool)
      requires Valid()
      requires answers.read.Delivered? ==> |answers.read.bytes| <= inputBuffer.LayoutOf().Offered()
      requires NoConsume(answers.onClose)
      modifies this`status, this`log, channel`events, channel`index
      modifies channel.poller`channels, channel.poller`kernel, channel.poller`refusals
      modifies inputBuffer, inputBuffer.storage, outputBuffer, outputBuffer.storage
      ensures Valid() && Harmless()
      ensures Abs() == if channel.tied && !alive then old(Abs())
                       else Dispatch(old(Abs()), old(channel.revents), answers)
    {
      if channel.tied {
        if alive {
          HandleEventWithGuard(answers);
        }
      } else {
        HandleEventWithGuard(answers);
      }
    }

    method HandleEventWithGuard(answers: Answers)
      requires Valid()
      requires answers.read.Delivered? ==> |answers.read.bytes| <= inputBuffer.LayoutOf().Offered()
      requires NoConsume(answers.onClose)
      modifies this`status, this`log, channel`events, channel`index
      modifies channel.poller`channels, channel.poller`kernel, channel.poller`refusals
      modifies inputBuffer, inputBuffer.storage, outputBuffer, outputBuffer.storage
      ensures Valid() && Harmless()
      ensures Abs() == Dispatch(old(Abs()), old(channel.revents), answers)
    {
      var revents := channel.revents;
      if Hup in revents && In !in revents {
        HandleClose(answers.onClose);
      }
      if In in revents || Pri in revents {
        HandleRead(answers.read, answers.onRead);
      }
      if Out in revents {
        HandleWrite(answers.write);
      }
    }

    method ConnectDestroyed(onDisconnect: Script)
      requires Valid()
      modifies this`status, this`log, channel`events, channel`index
      modifies channel.poller`channels, channel.poller`kernel, channel.poller`refusals
      modifies inputBuffer, inputBuffer.storage, outputBuffer, outputBuffer.storage
      ensures Valid() && Harmless()
      ensures Abs() == Destroy(old(Abs()), onDisconnect)
      ensures channel.fd !in channel.poller.channels && channel.fd !in channel.poller.kernel
    {
      if status == Connected {
        GoOffline();
        RunScript(onDisconnect);
      }
      channel.Unregister();
    }
  }
}
