/** What the invariant means: safety of the whole server over every interleaving
    of the base loop and any number of I/O loops. The server is not destroyed. */
module LifecycleSafety {
  import Bytes
  import opened Registrations
  import opened ConnectionSpec
  import opened ConnectionWiring
  import opened ConnectionCallbacks
  import opened ConnectionLedger
  import opened Naming
  import opened ThreadPools
  import opened Lifecycle
  import opened LifecycleInvariant
  import opened LifecycleSteps
  import W = Lifecycle

  /** No run ever follows a pointer to a freed connection, and no step that can be
      taken would; in particular a tie can always be locked. */
  lemma NeverCrashes(name: string, ipPort: string, ioLoops: nat, steps: seq<W.Step>, step: W.Step)
    requires |ipPort| <= 51 && W.Possible(name, ipPort, ioLoops, steps)
    ensures var w := W.Run(name, ipPort, ioLoops, steps);
            !w.crashed && (W.Enabled(w, step) ==> Sound(w, step))
  {
    hide ServerOk, DistinctFds, LoopOk, ConnOk, Cared;
    var w := W.Run(name, ipPort, ioLoops, steps);
    RunGood(name, ipPort, ioLoops, steps);
    if W.Enabled(w, step) {
      StepKeeps(w, step);
    }
  }

  /** Every entry of every poller is a connection that is still there, of that
      loop and with that descriptor, and it is listed in the server's table or
      waits on that loop for its connectDestroyed. What the kernel watches is
      mapped. */
  lemma NoStaleEntries(name: string, ipPort: string, ioLoops: nat, steps: seq<W.Step>, k: nat, fd: int)
    requires |ipPort| <= 51 && W.Possible(name, ipPort, ioLoops, steps)
    requires k < |W.Run(name, ipPort, ioLoops, steps).loops|
    ensures var w := W.Run(name, ipPort, ioLoops, steps);
            var l := w.loops[k];
            && (fd in l.channels ==>
                 var id := l.channels[fd];
                 && id in w.conns && w.conns[id].fd == fd && w.conns[id].home == k
                 && (Listed(w.server, id) || Destruction(id) in Todo(l)))
            && (fd in l.kernel ==> fd in l.channels && l.channels[fd] == l.kernel[fd])
  {
    RunGood(name, ipPort, ioLoops, steps);
    EntriesAreCared(W.Run(name, ipPort, ioLoops, steps), k, fd);
  }

  lemma EntriesAreCared(w: World, k: nat, fd: int)
    requires Good(w) && k < |w.loops|
    ensures var l := w.loops[k];
            && (fd in l.channels ==>
                 var id := l.channels[fd];
                 && id in w.conns && w.conns[id].fd == fd && w.conns[id].home == k
                 && w.conns[id].state.channel.index != New
                 && (Listed(w.server, id) || Destruction(id) in Todo(l)))
            && (fd in l.kernel ==>
                 && fd in l.channels && l.channels[fd] == l.kernel[fd]
                 && w.conns[l.kernel[fd]].state.channel.index == Added)
  {
    hide ServerOk, DistinctFds, QueueOk, ActivesOk, Todo, Listed, Wired, Kept;
    assert LoopOk(w, k);
    Homes(w);
    if fd in w.loops[k].channels {
      assert Cared(w, w.loops[k].channels[fd]);
    }
    if fd in w.loops[k].kernel {
      assert ConnOk(w, w.loops[k].kernel[fd]);
    }
  }

  /** A connection is freed, and its descriptor closed, only after no poller, no
      kernel set, no active list, no event handler and no queue of any loop
      mentions it. */
  lemma FreedOnlyWhenForgotten(name: string, ipPort: string, ioLoops: nat, steps: seq<W.Step>, id: nat)
    requires |ipPort| <= 51 && W.Possible(name, ipPort, ioLoops, steps)
    requires W.Enabled(W.Run(name, ipPort, ioLoops, steps), Free(id))
    ensures forall k, fd :: 0 <= k < |W.Run(name, ipPort, ioLoops, steps).loops| ==>
              var l := W.Run(name, ipPort, ioLoops, steps).loops[k];
              && (fd in l.channels ==> l.channels[fd] != id)
              && (fd in l.kernel ==> l.kernel[fd] != id)
    ensures forall k :: 0 <= k < |W.Run(name, ipPort, ioLoops, steps).loops| ==>
              var l := W.Run(name, ipPort, ioLoops, steps).loops[k]; l.visit.Visiting? ==> l.visit.id != id
    ensures forall k, i :: 0 <= k < |W.Run(name, ipPort, ioLoops, steps).loops| ==>
              var l := W.Run(name, ipPort, ioLoops, steps).loops[k];
              && (0 <= i < |l.active| ==> l.active[i].id != id)
              && (0 <= i < |Todo(l)| ==> Todo(l)[i].id != id)
  {
    RunGood(name, ipPort, ioLoops, steps);
    ForgottenBeforeFree(W.Run(name, ipPort, ioLoops, steps), id);
  }

  lemma ForgottenBeforeFree(w: World, id: nat)
    requires Good(w) && W.Enabled(w, Free(id))
    ensures forall k, fd :: 0 <= k < |w.loops| ==>
              && (fd in w.loops[k].channels ==> w.loops[k].channels[fd] != id)
              && (fd in w.loops[k].kernel ==> w.loops[k].kernel[fd] != id)
    ensures forall k :: 0 <= k < |w.loops| ==> (w.loops[k].visit.Visiting? ==> w.loops[k].visit.id != id)
    ensures forall k, i :: 0 <= k < |w.loops| ==>
              && (0 <= i < |w.loops[k].active| ==> w.loops[k].active[i].id != id)
              && (0 <= i < |Todo(w.loops[k])| ==> Todo(w.loops[k])[i].id != id)
  {
    hide ServerOk, DistinctFds, QueueOk, Todo, Listed, ConnOk, Cared, Referenced;
    FreeIsClean(w, id);
    forall k | 0 <= k < |w.loops|
      ensures w.loops[k].visit.Visiting? ==> w.loops[k].visit.id != id
    {
      assert LoopOk(w, k);
      assert w.loops[k].visit.Visiting? ==> VisitedOk(w, k, w.loops[k].visit.id);
    }
    forall k, fd | 0 <= k < |w.loops|
      ensures fd in w.loops[k].channels ==> w.loops[k].channels[fd] != id
      ensures fd in w.loops[k].kernel ==> w.loops[k].kernel[fd] != id
    {
      assert LoopOk(w, k);
    }
    forall k, i | 0 <= k < |w.loops|
      ensures 0 <= i < |w.loops[k].active| ==> w.loops[k].active[i].id != id
      ensures 0 <= i < |Todo(w.loops[k])| ==> Todo(w.loops[k])[i].id != id
    {
      assert LoopOk(w, k);
      if 0 <= i < |w.loops[k].active| {
        assert ActiveOk(w, k, w.loops[k].active[i].id);
      }
    }
  }

  /** A descriptor the kernel hands out again never meets a stale entry: whenever
      a connection can be accepted on it, no poller knows it. */
  lemma ReusedDescriptorIsFresh(name: string, ipPort: string, ioLoops: nat, steps: seq<W.Step>,
                                fd: int, config: Config, onConnect: Script, k: nat)
    requires |ipPort| <= 51 && W.Possible(name, ipPort, ioLoops, steps)
    requires W.Enabled(W.Run(name, ipPort, ioLoops, steps), Accept(fd, config, onConnect))
    requires k < |W.Run(name, ipPort, ioLoops, steps).loops|
    ensures var l := W.Run(name, ipPort, ioLoops, steps).loops[k]; fd !in l.channels && fd !in l.kernel
  {
    RunGood(name, ipPort, ioLoops, steps);
    EntriesAreCared(W.Run(name, ipPort, ioLoops, steps), k, fd);
  }

  /** While a loop works through the result of one poll, every channel still on
      its active list belongs to a connection that is there, is registered and is
      watched. */
  lemma ActiveListIsValid(name: string, ipPort: string, ioLoops: nat, steps: seq<W.Step>, k: nat, i: nat)
    requires |ipPort| <= 51 && W.Possible(name, ipPort, ioLoops, steps)
    requires k < |W.Run(name, ipPort, ioLoops, steps).loops|
    requires i < |W.Run(name, ipPort, ioLoops, steps).loops[k].active|
    ensures var w := W.Run(name, ipPort, ioLoops, steps);
            var id := w.loops[k].active[i].id;
            && id in w.conns && w.conns[id].home == k
            && w.conns[id].fd in w.loops[k].channels && w.loops[k].channels[w.conns[id].fd] == id
            && w.conns[id].fd in w.loops[k].kernel
            && w.conns[id].state.channel.Watched().Some?
  {
    RunGood(name, ipPort, ioLoops, steps);
    ActiveIsKnown(W.Run(name, ipPort, ioLoops, steps), k, i);
  }

  lemma ActiveIsKnown(w: World, k: nat, i: nat)
    requires Good(w) && k < |w.loops| && i < |w.loops[k].active|
    ensures var id := w.loops[k].active[i].id;
            && id in w.conns && w.conns[id].home == k && w.conns[id].state.channel.index == Added
            && w.conns[id].fd in w.loops[k].channels && w.loops[k].channels[w.conns[id].fd] == id
            && w.conns[id].fd in w.loops[k].kernel
  {
    hide ServerOk, DistinctFds, QueueOk, PollerOk, Cared, Wired, Kept;
    assert LoopOk(w, k);
    assert ActiveOk(w, k, w.loops[k].active[i].id);
    assert ConnOk(w, w.loops[k].active[i].id);
  }

  /** While a loop is inside handleEvent, whatever the other threads do between
      the callbacks, the connection is there and registered, and if it has been
      closed it is listed or waits for its connectDestroyed on this loop. */
  lemma HandlerIsGuarded(name: string, ipPort: string, ioLoops: nat, steps: seq<W.Step>, k: nat)
    requires |ipPort| <= 51 && W.Possible(name, ipPort, ioLoops, steps)
    requires k < |W.Run(name, ipPort, ioLoops, steps).loops|
    requires W.Run(name, ipPort, ioLoops, steps).loops[k].visit.Visiting?
    ensures var w := W.Run(name, ipPort, ioLoops, steps);
            var id := w.loops[k].visit.id;
            && id in w.conns && w.conns[id].home == k
            && w.conns[id].fd in w.loops[k].channels && w.loops[k].channels[w.conns[id].fd] == id
            && (Listed(w.server, id) || Destruction(id) in Todo(w.loops[k]))
  {
    hide W.Run, Good;
    RunGood(name, ipPort, ioLoops, steps);
    VisitedIsKnown(W.Run(name, ipPort, ioLoops, steps), k);
  }

  lemma VisitedIsKnown(w: World, k: nat)
    requires Good(w) && k < |w.loops| && w.loops[k].visit.Visiting?
    ensures var id := w.loops[k].visit.id;
            && id in w.conns && w.conns[id].home == k && w.conns[id].state.channel.index != New
            && w.conns[id].fd in w.loops[k].channels && w.loops[k].channels[w.conns[id].fd] == id
            && (Listed(w.server, id) || Destruction(id) in Todo(w.loops[k]))
  {
    hide ServerOk, DistinctFds, LoopOk, Todo, Listed, Wired, Kept;
    VisitParts(w, k);
    assert ConnOk(w, w.loops[k].visit.id) && Cared(w, w.loops[k].visit.id);
  }

  /** One step of any thread while loop k is dispatching. */
  lemma DispatchStep(w: World, step: W.Step, k: nat)
    requires Good(w) && W.Enabled(w, step)
    requires k < |w.loops| && w.loops[k].turn == Turn.Dispatching && step != EndDispatch(k)
    ensures var w' := W.Next(w, step);
            && k < |w'.loops|
            && w'.loops[k].turn == Turn.Dispatching
            && w'.loops[k].active == (if step == Begin(k) then w.loops[k].active[1..] else w.loops[k].active)
            && (step == Begin(k) || (step.Handle? && step.loop == k) || w'.loops[k].visit == w.loops[k].visit)
            && w.loops[k].channels.Keys <= w'.loops[k].channels.Keys
  {
    hide Good, Establish, RunStage, Destroy, RunScript, Act, NameOf, Closes;
    StepKeeps(w, step);
    match step
    case Handle(j, a) => HandleQueues(w, j, a, k);
    case RunFunctor(j, script) =>
      DestructionHome(w, j);
    case _ =>
  }

  lemma HandleQueues(w: World, j: nat, a: Answers, k: nat)
    requires W.Enabled(w, Handle(j, a)) && Sound(w, Handle(j, a)) && k < |w.loops|
    ensures var w' := W.Next(w, Handle(j, a));
            && |w'.loops| == |w.loops|
            && w'.loops[k].turn == w.loops[k].turn && w'.loops[k].active == w.loops[k].active
            && (k != j ==> w'.loops[k].visit == w.loops[k].visit)
            && w.loops[k].channels.Keys <= w'.loops[k].channels.Keys
  {
    hide RunStage, NameOf, Closes;
    var Visiting(x, revents, stage) := w.loops[j].visit;
    var w1 := WithLoop(w, j, w.loops[j].(visit := Advanced(w.loops[j].visit)));
    RemovalQueues(WithState(w1, x, RunStage(w.conns[x].state, stage, revents, a)), x, j, k);
  }

  /** Removal only queues: pollers and active lists stay as they are. */
  lemma RemovalQueues(w: World, x: nat, j: nat, k: nat)
    requires x in w.conns && w.conns[x].home < |w.loops| && k < |w.loops|
    ensures var w' := RemoveConnection(w, x, j);
            && |w'.loops| == |w.loops|
            && w'.loops[k] == w.loops[k].(pending := w'.loops[k].pending)
  {
    hide NameOf;
  }

  /** Nothing any thread does while loop k is dispatching takes a channel out of its
      poller or off its active list, over every interleaving: until the loop ends
      the dispatch itself, its active list is what it has not worked through yet,
      and no channel has left its map. Teardown waits for the functor phase. */
  lemma {:induction false} DispatchIsUndisturbed(name: string, ipPort: string, ioLoops: nat, steps: seq<W.Step>,
                                                 more: seq<W.Step>, k: nat)
    requires |ipPort| <= 51 && W.Possible(name, ipPort, ioLoops, steps)
    requires W.Possible(name, ipPort, ioLoops, steps + more)
    requires OnLoop(W.Run(name, ipPort, ioLoops, steps), k, Turn.Dispatching)
    requires EndDispatch(k) !in more
    ensures OnLoop(W.Run(name, ipPort, ioLoops, steps + more), k, Turn.Dispatching)
    ensures var l, l' := W.Run(name, ipPort, ioLoops, steps).loops[k], W.Run(name, ipPort, ioLoops, steps + more).loops[k];
            && |l'.active| <= |l.active| && l'.active == l.active[|l.active| - |l'.active|..]
            && l.channels.Keys <= l'.channels.Keys
  {
    hide Good, W.Next, W.Enabled;
    if more == [] {
      assert steps + more == steps;
    } else {
      var most, last := more[..|more| - 1], more[|more| - 1];
      assert (steps + more)[..|steps + more| - 1] == steps + most && (steps + more)[|steps + more| - 1] == last;
      DispatchIsUndisturbed(name, ipPort, ioLoops, steps, most, k);
      var w := W.Run(name, ipPort, ioLoops, steps + most);
      RunGood(name, ipPort, ioLoops, steps + most);
      BeginHasActive(w, last, k);
      DispatchStep(w, last, k);
    }
  }

  lemma BeginHasActive(w: World, step: W.Step, k: nat)
    requires W.Enabled(w, step)
    ensures step == Begin(k) ==> k < |w.loops| && w.loops[k].active != []
  {
  }

  /** connectDestroyed runs only on the connection's own loop. */
  lemma DestructionHome(w: World, j: nat)
    requires Good(w) && CanPop(w, j)
    ensures var f := w.loops[j].batch[w.loops[j].ran];
            f.id in w.conns && (f.Destruction? ==> w.conns[f.id].home == j)
  {
    hide Structure, NameOf, Todo, Cared;
    PopKeeps(w, j);
  }

  /** Whenever connectDestroyed runs, the connection is already disconnected and
      has no interest left, so it neither calls back nor finds anything to give up. */
  lemma DestroyFindsClosed(name: string, ipPort: string, ioLoops: nat, steps: seq<W.Step>, k: nat, script: Script)
    requires |ipPort| <= 51 && W.Possible(name, ipPort, ioLoops, steps)
    requires W.Enabled(W.Run(name, ipPort, ioLoops, steps), RunFunctor(k, script))
    requires var l := W.Run(name, ipPort, ioLoops, steps).loops[k]; l.batch[l.ran].Destruction?
    ensures var w := W.Run(name, ipPort, ioLoops, steps);
            var f := w.loops[k].batch[w.loops[k].ran];
            && f.id in w.conns
            && w.conns[f.id].state.status == Disconnected
            && w.conns[f.id].state.channel.events == NONE_EVENT
            && Destroy(w.conns[f.id].state, script).log == w.conns[f.id].state.log
  {
    hide Good, Destroy, W.Run;
    RunGood(name, ipPort, ioLoops, steps);
    ClosedBeforeDestroy(W.Run(name, ipPort, ioLoops, steps), k, script);
  }

  lemma ClosedBeforeDestroy(w: World, k: nat, script: Script)
    requires Good(w) && CanPop(w, k) && w.loops[k].batch[w.loops[k].ran].Destruction?
    ensures var f := w.loops[k].batch[w.loops[k].ran];
            && f.id in w.conns
            && w.conns[f.id].state.status == Disconnected
            && w.conns[f.id].state.channel.events == NONE_EVENT
            && Destroy(w.conns[f.id].state, script).log == w.conns[f.id].state.log
  {
    hide Structure, NameOf, Todo, Cared, Kept, Listed;
    PopKeeps(w, k);
    ConnParts(w, w.loops[k].batch[w.loops[k].ran].id);
  }

  /** Every connection of every reachable world obeys the laws of its own history,
      however the threads interleave. */
  lemma EveryConnectionIsLawful(name: string, ipPort: string, ioLoops: nat, steps: seq<W.Step>, id: nat)
    requires |ipPort| <= 51 && W.Possible(name, ipPort, ioLoops, steps)
    requires id in W.Run(name, ipPort, ioLoops, steps).conns
    ensures var s := W.Run(name, ipPort, ioLoops, steps).conns[id].state;
            && Of(s).lawful
            && Of(s).accepted == Of(s).written + s.unsent
            && Of(s).arrived == Of(s).consumed + s.input
            && (Live(s) ==> (s.unsent != [] <==> s.channel.Writing()) && s.channel.Watched() == Bytes.Some(Wanted(s)))
  {
    hide W.Run, Watch, ServerOk, DistinctFds, ConnOk, LoopOk, Cared;
    RunGood(name, ipPort, ioLoops, steps);
    ConnParts(W.Run(name, ipPort, ioLoops, steps), id);
  }

  // ---------------------------------------------------------------- accounting

  /** Connections made so far are listed or removed, each listed under its own
      name, and the next one finds its name free: no live entry is overwritten. */
  lemma AccountsBalance(name: string, ipPort: string, ioLoops: nat, steps: seq<W.Step>)
    requires |ipPort| <= 51 && W.Possible(name, ipPort, ioLoops, steps)
    ensures var w := W.Run(name, ipPort, ioLoops, steps);
            var s := w.server;
            && s.nextConnId - 1 == |s.connections| + s.removed
            && (forall n :: n in s.connections ==> s.connections[n] in w.conns && n == NameOf(s, s.connections[n]))
            && (s.nextConnId <= INT_MAX ==> NameOf(s, s.nextConnId) !in s.connections)
  {
    hide W.Run, ConnOk, LoopOk, Cared, NameOf;
    RunGood(name, ipPort, ioLoops, steps);
    var w := W.Run(name, ipPort, ioLoops, steps);
    if w.server.nextConnId <= INT_MAX {
      NewName(w);
    }
    forall n | n in w.server.connections
      ensures w.server.connections[n] in w.conns && n == NameOf(w.server, w.server.connections[n])
    {
      assert EntryOk(w, n);
    }
  }

  /** The connection with id k, the k-th accepted, is served by I/O loop (k-1) mod
      n, counted from zero; `ThreadPools.Balanced` bounds the difference in load. */
  lemma ServedRoundRobin(name: string, ipPort: string, ioLoops: nat, steps: seq<W.Step>,
                         fd: int, config: Config, onConnect: Script)
    requires |ipPort| <= 51 && W.Possible(name, ipPort, ioLoops, steps)
    requires W.Enabled(W.Run(name, ipPort, ioLoops, steps), Accept(fd, config, onConnect))
    ensures var w := W.Run(name, ipPort, ioLoops, steps);
            var id, w' := w.server.nextConnId, W.Next(w, Accept(fd, config, onConnect));
            && id > 0 && id !in w.conns && id in w'.conns && w'.conns[id].fd == fd
            && |w.loops| > 0
            && w'.conns[id].home == if |w.loops| == 1 then BASE else 1 + Slot(id, |w.loops| - 1)
  {
    hide W.Run, Good, W.Next, Serving;
    RunGood(name, ipPort, ioLoops, steps);
    AcceptedOnSlot(W.Run(name, ipPort, ioLoops, steps), fd, config, onConnect);
  }

  lemma AcceptedOnSlot(w: World, fd: int, config: Config, onConnect: Script)
    requires Good(w) && W.Enabled(w, Accept(fd, config, onConnect))
    ensures var id, w' := w.server.nextConnId, W.Next(w, Accept(fd, config, onConnect));
            && id > 0 && id !in w.conns && id in w'.conns && w'.conns[id].fd == fd
            && |w.loops| > 0
            && w'.conns[id].home == if |w.loops| == 1 then BASE else 1 + Slot(id, |w.loops| - 1)
  {
    hide Structure, Cared, NameOf, Establish, Listed;
    NextIdPositive(w);
    NewName(w);
    NewServer(w, fd, config);
    CursorIsSlot(w);
  }

  lemma CursorIsSlot(w: World)
    requires Structure(w)
    ensures |w.loops| > 0
    ensures |w.loops| > 1 && w.server.nextConnId > 0 ==> w.server.cursor == Slot(w.server.nextConnId, |w.loops| - 1)
  {
    hide ConnOk, LoopOk, DistinctFds, EntryOk;
  }

  /** How many connections a run has given to a loop. */
  function Assigned(name: string, ipPort: string, ioLoops: nat, steps: seq<W.Step>, loop: nat): nat
    requires W.Possible(name, ipPort, ioLoops, steps)
  {
    if steps == [] then 0
    else
      var before, last := steps[..|steps| - 1], steps[|steps| - 1];
      Assigned(name, ipPort, ioLoops, before, loop)
      + if GivenTo(W.Run(name, ipPort, ioLoops, before), last, loop) then 1 else 0
  }

  /** The step accepts a connection, and the new connection lives on `loop`. */
  predicate GivenTo(w: World, step: W.Step, loop: nat)
    requires W.Enabled(w, step)
  {
    && step.Accept?
    && w.server.nextConnId in W.Next(w, step).conns
    && W.Next(w, step).conns[w.server.nextConnId].home == loop
  }

  lemma CountersStep(w: World, step: W.Step)
    requires Good(w) && W.Enabled(w, step)
    ensures var w' := W.Next(w, step);
            && |w'.loops| == |w.loops|
            && w'.server.nextConnId == w.server.nextConnId + if step.Accept? then 1 else 0
  {
    hide Good, Establish, RunStage, Destroy, RunScript, Act, NameOf, Closes;
    StepKeeps(w, step);
    if step.Handle? {
      HandleQueues(w, step.loop, step.answers, 0);
    }
  }

  /** Over every interleaving, what the server has given to an I/O loop is the
      round-robin load of the connections accepted so far. */
  lemma {:induction false} AssignedIsLoad(name: string, ipPort: string, ioLoops: nat, steps: seq<W.Step>, i: nat)
    requires |ipPort| <= 51 && W.Possible(name, ipPort, ioLoops, steps) && i < ioLoops
    ensures var w := W.Run(name, ipPort, ioLoops, steps);
            && |w.loops| == ioLoops + 1 && w.server.nextConnId > 0
            && Assigned(name, ipPort, ioLoops, steps, 1 + i) == Load(w.server.nextConnId - 1, ioLoops, i)
  {
    hide Good, W.Enabled, W.Next;
    if steps != [] {
      var before, last := steps[..|steps| - 1], steps[|steps| - 1];
      AssignedIsLoad(name, ipPort, ioLoops, before, i);
      RunGood(name, ipPort, ioLoops, before);
      var w := W.Run(name, ipPort, ioLoops, before);
      CountersStep(w, last);
      if last.Accept? {
        AcceptedOnSlot(w, last.fd, last.config, last.onConnect);
      }
    }
  }

  /** So after any run the numbers of connections given to two I/O loops differ by
      at most one. */
  lemma LoadsDifferByOne(name: string, ipPort: string, ioLoops: nat, steps: seq<W.Step>, i: nat, j: nat)
    requires |ipPort| <= 51 && W.Possible(name, ipPort, ioLoops, steps) && i < ioLoops && j < ioLoops
    ensures -1 <= Assigned(name, ipPort, ioLoops, steps, 1 + i) - Assigned(name, ipPort, ioLoops, steps, 1 + j) <= 1
  {
    hide W.Run, Assigned;
    AssignedIsLoad(name, ipPort, ioLoops, steps, i);
    AssignedIsLoad(name, ipPort, ioLoops, steps, j);
    Balanced(W.Run(name, ipPort, ioLoops, steps).server.nextConnId - 1, ioLoops, i, j);
  }

  /** In a world with nothing left to do, every connection is up, listed and
      registered, or it is neither; and when all loops are polling, nothing but user
      code keeps the latter from being freed. */
  lemma QuietWorldIsClean(name: string, ipPort: string, ioLoops: nat, steps: seq<W.Step>, id: nat)
    requires |ipPort| <= 51 && W.Possible(name, ipPort, ioLoops, steps)
    requires forall k :: 0 <= k < |W.Run(name, ipPort, ioLoops, steps).loops| ==>
               Todo(W.Run(name, ipPort, ioLoops, steps).loops[k]) == []
    requires id in W.Run(name, ipPort, ioLoops, steps).conns
    ensures var w := W.Run(name, ipPort, ioLoops, steps);
            var s := w.conns[id].state;
            && s.status != Connecting
            && (Listed(w.server, id) <==> Live(s))
            && (s.channel.index != New <==> Live(s))
            && (AllPolling(w) && !Live(s) && id !in w.held ==> W.Enabled(w, Free(id)))
  {
    hide W.Run, ConnOk, LoopOk, ServerOk, DistinctFds, NameOf, Todo, Listed, Kept;
    RunGood(name, ipPort, ioLoops, steps);
    var w := W.Run(name, ipPort, ioLoops, steps);
    Homes(w);
    ConnParts(w, id);
    assert Cared(w, id);
    if AllPolling(w) && !Live(w.conns[id].state) && id !in w.held {
      NobodyRefers(w, id);
    }
  }

  predicate AllPolling(w: World) {
    forall k :: 0 <= k < |w.loops| ==> w.loops[k].turn == Turn.Polling
  }

  /** With all loops polling and nothing queued, only the table and user code hold
      connections. */
  lemma NobodyRefers(w: World, id: nat)
    requires Good(w) && AllPolling(w) && id in w.conns && id !in w.held && !Listed(w.server, id)
    requires forall k :: 0 <= k < |w.loops| ==> Todo(w.loops[k]) == []
    ensures !Referenced(w, id)
  {
    hide ConnOk, DistinctFds, FunctorOk, ActiveOk, VisitedOk, PollerOk, NameOf, CursorOk, Cared;
    forall name | name in w.server.connections
      ensures w.server.connections[name] != id
    {
      assert EntryOk(w, name);
    }
    forall k | 0 <= k < |w.loops|
      ensures !Mentions(w.loops[k], id)
    {
      assert LoopOk(w, k);
    }
  }

  // ---------------------------------------------------------------- callbacks

  /** Connection `id` has so far spoken by the protocol, and a handler of its events
      that is under way is in its turn. */
  predicate PoliteAt(w: World, id: nat) {
    && id in w.conns && Spoken(w.conns[id].state)
    && (forall k :: 0 <= k < |w.loops| && VisitsAt(w.loops[k].visit, id) ==>
         InTurn(w.conns[id].state, w.loops[k].visit.stage, w.loops[k].visit.revents))
  }

  predicate VisitsAt(v: Visit, id: nat) {
    v.Visiting? && v.id == id
  }

  /** The step is a stage of a handler of connection `id`. */
  predicate HandlesAt(w: World, step: W.Step, id: nat) {
    step.Handle? && step.loop < |w.loops| && VisitsAt(w.loops[step.loop].visit, id)
  }

  /** It is a read, under HUP and PRI without IN, that does not fail. */
  predicate TanglesAt(w: World, step: W.Step, id: nat) {
    HandlesAt(w, step, id)
    && Tangles(w.loops[step.loop].visit.stage, w.loops[step.loop].visit.revents, step.answers)
  }

  /** No step of the run reads from connection `id` after a close. */
  predicate UntangledAt(name: string, ipPort: string, ioLoops: nat, steps: seq<W.Step>, id: nat)
    requires W.Possible(name, ipPort, ioLoops, steps)
  {
    steps == [] || (
      && UntangledAt(name, ipPort, ioLoops, steps[..|steps| - 1], id)
      && !TanglesAt(W.Run(name, ipPort, ioLoops, steps[..|steps| - 1]), steps[|steps| - 1], id))
  }

  /** What any step that is not a stage of its handlers does to the callbacks of a
      connection: nothing, or its first callback. */
  predicate Gentle(s: Connection, s': Connection) {
    || s' == s
    || (UserMove(s, s') && TalkOf(s') == TalkOf(s))
    || (s.status == Connecting && Live(s') && TalkOf(s') == Heard(TalkOf(s), Online))
    || (s.status == Disconnected == s'.status && TalkOf(s') == TalkOf(s) && s'.channel.Watched() == Bytes.None)
  }

  lemma GentleSpoken(s: Connection, s': Connection)
    requires Wired(s) && Spoken(s) && Gentle(s, s')
    ensures Spoken(s')
  {
    hide Listen;
  }

  lemma GentleInTurn(s: Connection, s': Connection, stage: Stage, revents: Mask)
    requires InTurn(s, stage, revents) && Gentle(s, s')
    ensures InTurn(s', stage, revents)
  {
    hide Listen;
  }

  /** The state of connection `id` after a functor. */
  lemma FunctorIsGentle(w: World, k: nat, script: Script, id: nat)
    requires Good(w) && W.Enabled(w, RunFunctor(k, script)) && id in w.conns
    ensures var w' := W.Next(w, RunFunctor(k, script));
            id in w'.conns && Gentle(w.conns[id].state, w'.conns[id].state)
  {
    hide Structure, Cared, Establish, RunScript, Kept, NameOf, Todo, Listed, Wired, UserMove, Listen, Destroy;
    RunFunctorKeeps(w, k, script);
    PopKeeps(w, k);
    var f := w.loops[k].batch[w.loops[k].ran];
    var s := w.conns[f.id].state;
    ConnParts(w, f.id);
    match f
    case Establishment(x) =>
      EstablishIsHeard(s, script);
      EstablishWired(s, script);
    case Callback(x) =>
      ScriptIsQuiet(s, script);
      ScriptWired(s, script);
    case Destruction(x) => DestroyIsGentle(s, script);
    case Removal(x) =>
  }

  lemma DestroyIsGentle(s: Connection, script: Script)
    requires s.status == Disconnected
    ensures Gentle(s, Destroy(s, script))
  {
    hide Listen, UserMove;
  }

  lemma UserActIsGentle(w: World, x: nat, action: Action)
    requires Good(w) && W.Enabled(w, UserAct(x, action)) && x in w.conns
    ensures var w' := W.Next(w, UserAct(x, action)); x in w'.conns && Gentle(w.conns[x].state, w'.conns[x].state)
  {
    hide Structure, Cared, Act, Kept, NameOf, Wired, UserMove, Listen;
    HeldIsThere(w, x);
    ConnParts(w, x);
    ActIsQuiet(w.conns[x].state, action);
    ActWired(w.conns[x].state, action);
  }

  lemma OthersAreGentle(w: World, step: W.Step, id: nat)
    requires Good(w) && W.Enabled(w, step) && !HandlesAt(w, step, id)
    requires id in w.conns && id in W.Next(w, step).conns
    ensures Gentle(w.conns[id].state, W.Next(w, step).conns[id].state)
  {
    hide Good, Establish, RunStage, Destroy, RunScript, Act, NameOf, Closes, Gentle;
    StepKeeps(w, step);
    SameIsGentle(w.conns[id].state);
    match step
    case Accept(fd, config, onConnect) => AcceptIsFresh(w);
    case RunFunctor(k, script) => FunctorIsGentle(w, k, script, id);
    case UserAct(x, action) =>
      if x == id {
        UserActIsGentle(w, x, action);
      }
    case _ =>
  }

  lemma AcceptIsFresh(w: World)
    requires Good(w) && w.server.nextConnId <= INT_MAX
    ensures w.server.nextConnId !in w.conns
  {
    hide Structure;
    NewName(w);
  }

  lemma SameIsGentle(s: Connection)
    ensures Gentle(s, s)
  {
  }

  /** How a step moves the event handler of a loop. */
  lemma VisitStep(w: World, step: W.Step, k: nat)
    requires Good(w) && W.Enabled(w, step) && k < |w.loops|
    ensures |W.Next(w, step).loops| == |w.loops|
    ensures W.Next(w, step).loops[k].visit ==
              if step == Begin(k) then Visiting(w.loops[k].active[0].id, w.loops[k].active[0].revents, Closing)
              else if step.Handle? && step.loop == k then Advanced(w.loops[k].visit)
              else w.loops[k].visit
  {
    hide Good, Establish, RunStage, Destroy, RunScript, Act, NameOf, Closes;
    StepKeeps(w, step);
    if step.Handle? {
      HandleVisits(w, step.loop, step.answers, k);
    }
  }

  lemma HandleVisits(w: World, j: nat, a: Answers, k: nat)
    requires W.Enabled(w, Handle(j, a)) && Sound(w, Handle(j, a)) && k < |w.loops|
    ensures var w' := W.Next(w, Handle(j, a));
            && |w'.loops| == |w.loops|
            && w'.loops[k].visit == if j == k then Advanced(w.loops[k].visit) else w.loops[k].visit
  {
    hide RunStage, NameOf, Closes;
    var Visiting(x, revents, stage) := w.loops[j].visit;
    var w1 := WithLoop(w, j, w.loops[j].(visit := Advanced(w.loops[j].visit)));
    RemovalQueues(WithState(w1, x, RunStage(w.conns[x].state, stage, revents, a)), x, j, k);
  }

  /** handleEvent begins with a connection that is up. */
  lemma BeginIsInTurn(w: World, k: nat)
    requires Good(w) && W.Enabled(w, Begin(k)) && PoliteAt(w, w.loops[k].active[0].id)
    ensures InTurn(w.conns[w.loops[k].active[0].id].state, Closing, w.loops[k].active[0].revents)
  {
    hide Structure, Cared, Listen;
    ActiveIsKnown(w, k, 0);
    ConnParts(w, w.loops[k].active[0].id);
  }

  lemma OthersArePoliteAt(w: World, step: W.Step, id: nat)
    requires Good(w) && W.Enabled(w, step) && !HandlesAt(w, step, id)
    requires PoliteAt(w, id) && id in W.Next(w, step).conns
    ensures PoliteAt(W.Next(w, step), id)
  {
    hide Good, W.Next, W.Enabled, Spoken, InTurn, Gentle;
    var w' := W.Next(w, step);
    var s, s' := w.conns[id].state, w'.conns[id].state;
    GoodConnParts(w, id);
    OthersAreGentle(w, step, id);
    GentleSpoken(s, s');
    StepKeepsLoops(w, step);
    forall k | 0 <= k < |w'.loops| && VisitsAt(w'.loops[k].visit, id)
      ensures InTurn(s', w'.loops[k].visit.stage, w'.loops[k].visit.revents)
    {
      VisitStep(w, step, k);
      if step == Begin(k) {
        BeginIsInTurn(w, k);
        GentleInTurn(s, s', Closing, w'.loops[k].visit.revents);
      } else {
        GentleInTurn(s, s', w'.loops[k].visit.stage, w'.loops[k].visit.revents);
      }
    }
  }

  lemma StepKeepsLoops(w: World, step: W.Step)
    requires Good(w) && W.Enabled(w, step)
    ensures |W.Next(w, step).loops| == |w.loops|
  {
    hide Good, W.Next;
    CountersStep(w, step);
  }

  lemma GoodConnParts(w: World, id: nat)
    requires Good(w) && id in w.conns
    ensures Wired(w.conns[id].state)
  {
    hide Structure, Wired, Kept;
    ConnParts(w, id);
  }

  lemma HandledState(w: World, k: nat, a: Answers)
    requires W.Enabled(w, Handle(k, a)) && Sound(w, Handle(k, a))
    ensures var w', x := W.Next(w, Handle(k, a)), w.loops[k].visit.id;
            && x in w'.conns
            && w'.conns[x].state == RunStage(w.conns[x].state, w.loops[k].visit.stage, w.loops[k].visit.revents, a)
  {
    hide RunStage, Closes, NameOf;
  }

  /** Only the loop of a connection handles its events. */
  lemma VisitsApart(w: World, j: nat, k: nat)
    requires Good(w) && j < |w.loops| && k < |w.loops|
    requires w.loops[j].visit.Visiting? && w.loops[k].visit.Visiting? && w.loops[j].visit.id == w.loops[k].visit.id
    ensures j == k
  {
    hide Structure;
    VisitParts(w, j);
    VisitParts(w, k);
  }

  /** One stage of a handler of `id`. */
  lemma HandlerDecides(w: World, k: nat, a: Answers, id: nat)
    requires Good(w) && W.Enabled(w, Handle(k, a)) && HandlesAt(w, Handle(k, a), id) && PoliteAt(w, id)
    ensures var w' := W.Next(w, Handle(k, a));
            && id in w'.conns
            && if TanglesAt(w, Handle(k, a), id) then TalkOf(w'.conns[id].state).phase == Broken
               else PoliteAt(w', id)
  {
    hide Good, W.Next, W.Enabled, RunStage, Spoken, InTurn, Listen, Wired, Tangles;
    var w', v, s := W.Next(w, Handle(k, a)), w.loops[k].visit, w.conns[id].state;
    StepKeeps(w, Handle(k, a));
    GoodConnParts(w, id);
    HandledState(w, k, a);
    StageSpoken(s, v.stage, v.revents, a);
    StepKeepsLoops(w, Handle(k, a));
    forall j | 0 <= j < |w'.loops| && VisitsAt(w'.loops[j].visit, id) && !Tangles(v.stage, v.revents, a)
      ensures InTurn(w'.conns[id].state, w'.loops[j].visit.stage, w'.loops[j].visit.revents)
    {
      VisitStep(w, Handle(k, a), j);
      if j != k {
        VisitsApart(w, j, k);
      }
    }
  }

  /** A broken history stays broken. */
  lemma StaysBroken(w: World, step: W.Step, id: nat)
    requires Good(w) && W.Enabled(w, step) && id in w.conns && id in W.Next(w, step).conns
    requires TalkOf(w.conns[id].state).phase == Broken
    ensures TalkOf(W.Next(w, step).conns[id].state).phase == Broken
  {
    hide Good, W.Next, W.Enabled, RunStage, Listen, UserMove;
    if HandlesAt(w, step, id) {
      var v := w.loops[step.loop].visit;
      StepKeeps(w, step);
      HandledState(w, step.loop, step.answers);
      StageIsHeard(w.conns[id].state, v.stage, v.revents, step.answers);
    } else {
      OthersAreGentle(w, step, id);
    }
  }

  /** A connection that has just been accepted. */
  lemma NewcomerIsPolite(w: World, step: W.Step, id: nat)
    requires Good(w) && W.Enabled(w, step) && id !in w.conns && id in W.Next(w, step).conns
    ensures PoliteAt(W.Next(w, step), id)
    ensures id == w.server.nextConnId
  {
    hide Good, Establish, RunStage, Destroy, RunScript, Act, NameOf, Closes, Spoken, InTurn;
    StepKeeps(w, step);
    var w' := W.Next(w, step);
    assert step.Accept? && id == w.server.nextConnId;
    NewcomerSpoken(step.config, step.onConnect);
    StepKeepsLoops(w, step);
    forall k | 0 <= k < |w'.loops|
      ensures !VisitsAt(w'.loops[k].visit, id)
    {
      VisitStep(w, step, k);
      NoVisitTo(w, k, id);
    }
  }

  lemma NewcomerSpoken(config: Config, script: Script)
    ensures Spoken(NewlyAccepted(config)) && Spoken(Establish(NewlyAccepted(config), script))
  {
    hide Establish;
    EstablishIsHeard(NewlyAccepted(config), script);
    EstablishWired(NewlyAccepted(config), script);
  }

  lemma NoVisitTo(w: World, k: nat, id: nat)
    requires Good(w) && k < |w.loops| && id !in w.conns
    ensures !VisitsAt(w.loops[k].visit, id)
  {
    hide Structure;
    if w.loops[k].visit.Visiting? {
      VisitParts(w, k);
    }
  }

  /** Only connections accepted before have their events handled. */
  lemma HandledIsOld(w: World, step: W.Step, id: nat)
    requires Good(w) && HandlesAt(w, step, id)
    ensures id in w.conns && id < w.server.nextConnId
  {
    hide Structure, Wired, Kept;
    VisitParts(w, step.loop);
    ConnParts(w, id);
  }

  lemma {:induction false} SpeechDecided(name: string, ipPort: string, ioLoops: nat, steps: seq<W.Step>, id: nat)
    requires |ipPort| <= 51 && W.Possible(name, ipPort, ioLoops, steps)
    ensures var w := W.Run(name, ipPort, ioLoops, steps);
            && (id in w.conns ==>
                 if UntangledAt(name, ipPort, ioLoops, steps, id) then PoliteAt(w, id)
                 else TalkOf(w.conns[id].state).phase == Broken)
            && (!UntangledAt(name, ipPort, ioLoops, steps, id) ==> id < w.server.nextConnId)
  {
    hide Good, W.Next, W.Enabled, PoliteAt, TanglesAt, Listen;
    if steps != [] {
      var before, step := steps[..|steps| - 1], steps[|steps| - 1];
      var w := W.Run(name, ipPort, ioLoops, before);
      SpeechDecided(name, ipPort, ioLoops, before, id);
      RunGood(name, ipPort, ioLoops, before);
      CountersStep(w, step);
      if HandlesAt(w, step, id) {
        HandledIsOld(w, step, id);
      }
      assert TanglesAt(w, step, id) ==> HandlesAt(w, step, id) by { TangleHandles(w, step, id); }
      if id in W.Next(w, step).conns {
        SpeechStep(w, step, id, UntangledAt(name, ipPort, ioLoops, before, id));
      }
    }
  }

  lemma TangleHandles(w: World, step: W.Step, id: nat)
    ensures TanglesAt(w, step, id) ==> HandlesAt(w, step, id)
  {
  }

  lemma SpeechStep(w: World, step: W.Step, id: nat, untangled: bool)
    requires Good(w) && W.Enabled(w, step) && id in W.Next(w, step).conns
    requires id in w.conns ==> if untangled then PoliteAt(w, id) else TalkOf(w.conns[id].state).phase == Broken
    requires !untangled ==> id < w.server.nextConnId
    ensures if untangled && !TanglesAt(w, step, id) then PoliteAt(W.Next(w, step), id)
            else TalkOf(W.Next(w, step).conns[id].state).phase == Broken
  {
    hide Good, W.Next, W.Enabled, PoliteAt, Listen, Tangles;
    if id !in w.conns {
      NewcomerIsPolite(w, step, id);
      if HandlesAt(w, step, id) {
        HandledIsOld(w, step, id);
      }
    } else if !untangled {
      StaysBroken(w, step, id);
    } else if HandlesAt(w, step, id) {
      HandlerDecides(w, step.loop, step.answers, id);
    } else {
      OthersArePoliteAt(w, step, id);
    }
  }

  /** The exact condition, connection by connection and over every interleaving: the
      user of a connection that is still there has heard a prefix of online,
      message*, offline if and only if no step has read from that very connection
      after a close. What happens on other connections makes no difference. */
  lemma EveryoneSpeaksByProtocol(name: string, ipPort: string, ioLoops: nat, steps: seq<W.Step>, id: nat)
    requires |ipPort| <= 51 && W.Possible(name, ipPort, ioLoops, steps)
    requires id in W.Run(name, ipPort, ioLoops, steps).conns
    ensures Protocol(Callbacks(W.Run(name, ipPort, ioLoops, steps).conns[id].state.log))
       <==> UntangledAt(name, ipPort, ioLoops, steps, id)
  {
    hide W.Run, UntangledAt, Listen, InTurn, Spoken;
    SpeechDecided(name, ipPort, ioLoops, steps, id);
    var s := W.Run(name, ipPort, ioLoops, steps).conns[id].state;
    TalkIffProtocol(s.log);
    if UntangledAt(name, ipPort, ioLoops, steps, id) {
      SpokenIsProtocol(s);
    }
  }
}
