/** Every step of the server's world keeps the invariant. */
module LifecycleSteps {
  import opened Registrations
  import opened ConnectionSpec
  import opened ConnectionWiring
  import opened ConnectionLedger
  import opened Naming
  import opened ThreadPools
  import opened Lifecycle
  import W = Lifecycle
  import opened LifecycleInvariant

  // ---------------------------------------------------------------- the loop's own steps

  /** A loop may rearrange its queue and its active list as long as what is left
      to do and what its poller knows stay the same. */
  lemma LoopUpdateFrame(w: World, k: nat, l: Loop)
    requires k < |w.loops|
    requires l.channels == w.loops[k].channels && l.kernel == w.loops[k].kernel && Todo(l) == Todo(w.loops[k])
    ensures var w' := WithLoop(w, k, l);
            && (ServerOk(w') <==> ServerOk(w)) && (DistinctFds(w') <==> DistinctFds(w))
            && (forall j, g :: FunctorOk(w', j, g) <==> FunctorOk(w, j, g))
            && (forall j, id :: ActiveOk(w', j, id) <==> ActiveOk(w, j, id))
            && (forall j, id :: VisitedOk(w', j, id) <==> VisitedOk(w, j, id))
            && (forall j :: 0 <= j < |w.loops| ==> (PollerOk(w', j) <==> PollerOk(w, j)))
            && (forall j :: 0 <= j < |w.loops| && j != k ==> (QueueOk(w', j) <==> QueueOk(w, j)))
            && (forall j :: 0 <= j < |w.loops| && j != k ==> (ActivesOk(w', j) <==> ActivesOk(w, j)))
            && (forall id :: id in w.conns ==> (ConnOk(w', id) <==> ConnOk(w, id)))
            && (forall j :: 0 <= j < |w.loops| ==> Todo(w'.loops[j]) == Todo(w.loops[j]))
  {
    hide Wired, Kept, NameOf, Todo, CursorOk;
    var w' := WithLoop(w, k, l);
    forall j | 0 <= j < |w.loops|
      ensures PollerOk(w', j) <==> PollerOk(w, j)
      ensures j != k ==> (QueueOk(w', j) <==> QueueOk(w, j))
      ensures j != k ==> (ActivesOk(w', j) <==> ActivesOk(w, j))
    {
      assert w'.loops[j] == w.loops[j] || (j == k && w'.loops[j] == l);
    }
  }

  lemma LoopUpdateKeeps(w: World, k: nat, l: Loop)
    requires Good(w) && k < |w.loops|
    requires l.channels == w.loops[k].channels && l.kernel == w.loops[k].kernel && Todo(l) == Todo(w.loops[k])
    requires QueueOk(WithLoop(w, k, l), k) && ActivesOk(WithLoop(w, k, l), k)
    ensures Good(WithLoop(w, k, l))
  {
    hide ServerOk, DistinctFds, FunctorOk, ActiveOk, VisitedOk, ActivesOk, PollerOk, QueueOk, ConnOk, Todo, Listed, Live;
    Homes(w);
    LoopUpdateFrame(w, k, l);
    var w' := WithLoop(w, k, l);
    forall j | 0 <= j < |w'.loops|
      ensures LoopOk(w', j)
    {
      assert LoopOk(w, j);
    }
    forall id | id in w'.conns
      ensures Cared(w', id)
    {
      assert Cared(w, id);
    }
  }

  /** The queue part of `LoopUpdateKeeps`, when the batch mentions only what was
      waiting before. */
  lemma QueueUpdate(w: World, k: nat, l: Loop)
    requires k < |w.loops| && QueueOk(w, k)
    requires l.channels == w.loops[k].channels && l.kernel == w.loops[k].kernel && Todo(l) == Todo(w.loops[k])
    requires l.ran <= |l.batch| && (l.turn != Running ==> l.batch == [] && l.ran == 0)
    requires forall i :: 0 <= i < |l.batch| ==> l.batch[i].id in w.conns
    ensures QueueOk(WithLoop(w, k, l), k)
  {
    hide FunctorOk, ActiveOk, VisitedOk, ActivesOk, PollerOk, ConnOk, ServerOk, DistinctFds, Todo;
    LoopUpdateFrame(w, k, l);
    forall i | 0 <= i < |Todo(l)|
      ensures FunctorOk(WithLoop(w, k, l), k, Todo(l)[i])
    {
      assert FunctorOk(w, k, Todo(w.loops[k])[i]);
    }
  }

  lemma EndBatchKeeps(w: World, k: nat)
    requires Good(w) && W.Enabled(w, EndBatch(k))
    ensures Good(W.Next(w, EndBatch(k)))
  {
    hide ServerOk, DistinctFds, FunctorOk, ActiveOk, VisitedOk, PollerOk, ConnOk, Cared;
    assert LoopOk(w, k);
    var l := w.loops[k];
    var l' := l.(turn := Turn.Polling, batch := [], ran := 0);
    assert Todo(l') == Todo(l);
    QueueUpdate(w, k, l');
    LoopUpdateKeeps(w, k, l');
  }

  lemma EndDispatchKeeps(w: World, k: nat)
    requires Good(w) && W.Enabled(w, EndDispatch(k))
    ensures Good(W.Next(w, EndDispatch(k)))
  {
    hide ServerOk, DistinctFds, FunctorOk, ActiveOk, VisitedOk, PollerOk, ConnOk, Cared;
    assert LoopOk(w, k);
    var l := w.loops[k];
    var l' := l.(turn := Turn.Running, batch := l.pending, ran := 0, pending := []);
    assert Todo(l') == l.pending == Todo(l);
    forall i | 0 <= i < |l'.batch|
      ensures l'.batch[i].id in w.conns
    {
      assert FunctorOk(w, k, Todo(l)[i]);
      FunctorKnown(w, k, Todo(l)[i]);
    }
    QueueUpdate(w, k, l');
    LoopUpdateKeeps(w, k, l');
  }

  /** What `epoll_wait` reports are connections that are still there, watched by
      this very poller, each once. */
  lemma PollReturnKeeps(w: World, k: nat, ready: seq<Ready>)
    requires Good(w) && W.Enabled(w, PollReturn(k, ready))
    ensures Sound(w, PollReturn(k, ready)) && Good(W.Next(w, PollReturn(k, ready)))
  {
    hide ServerOk, DistinctFds, FunctorOk, ConnOk, Cared;
    assert LoopOk(w, k);
    Homes(w);
    var w' := W.Next(w, PollReturn(k, ready));
    var l := w'.loops[k];
    assert w' == WithLoop(w, k, l);
    assert Todo(l) == Todo(w.loops[k]);
    forall i | 0 <= i < |l.active|
      ensures l.active[i].id == w.loops[k].kernel[ready[i].fd]
      ensures ActiveOk(w', k, l.active[i].id)
      ensures w.conns[l.active[i].id].fd == ready[i].fd
    {
    }
    QueueUpdate(w, k, l);
    LoopUpdateKeeps(w, k, l);
  }

  // ---------------------------------------------------------------- removal

  /** One close report, of a connection that is closed and whose registration is
      still accounted for. */
  lemma RemoveConnectionKeeps(w: World, x: nat, k: nat)
    requires GoodBut(w, x) && x in w.conns && w.conns[x].home < |w.loops| && k < |w.loops|
    requires w.conns[x].state.status == Disconnected
    requires w.conns[x].state.channel.index != New ==>
               Listed(w.server, x) || Destruction(x) in Todo(w.loops[w.conns[x].home])
    ensures Good(RemoveConnection(w, x, k))
    ensures RemoveConnection(w, x, k).conns == w.conns && |RemoveConnection(w, x, k).loops| == |w.loops|
  {
    hide Structure, ConnOk, ServerOk, Todo, Listed, NameOf;
    Homes(w);
    QueueShapes(w);
    if k == BASE {
      RemoveInLoopKeeps(w, x);
    } else {
      PushKeeps(w, BASE, Removal(x), x);
      var w' := Push(w, BASE, Removal(x));
      assert Removal(x) in Todo(w'.loops[BASE]);
      CaredPushed(w, x);
    }
  }

  lemma QueueShapes(w: World)
    requires Structure(w)
    ensures forall k :: 0 <= k < |w.loops| ==> w.loops[k].ran <= |w.loops[k].batch|
  {
    hide ConnOk, ServerOk, DistinctFds, ActivesOk, PollerOk, FunctorOk;
    forall k | 0 <= k < |w.loops|
      ensures w.loops[k].ran <= |w.loops[k].batch|
    {
      assert LoopOk(w, k);
    }
  }

  lemma CaredPushed(w: World, x: nat)
    requires |w.loops| > 0 && x in w.conns && w.conns[x].home < |w.loops|
    requires w.loops[BASE].ran <= |w.loops[BASE].batch|
    requires w.conns[x].state.status == Disconnected
    requires w.conns[x].state.channel.index != New ==>
               Listed(w.server, x) || Destruction(x) in Todo(w.loops[w.conns[x].home])
    ensures Cared(Push(w, BASE, Removal(x)), x)
  {
    hide Todo, Listed;
    TodoPush(w.loops[BASE], Removal(x));
  }

  lemma RemoveInLoopKeeps(w: World, x: nat)
    requires GoodBut(w, x) && x in w.conns && w.conns[x].home < |w.loops|
    requires w.conns[x].state.status == Disconnected
    ensures Good(RemoveConnectionInLoop(w, x))
    ensures RemoveConnectionInLoop(w, x).conns == w.conns
  {
    hide Structure, ConnOk, ServerOk, Todo, Listed, NameOf;
    UnlistKeeps(w, x);
    var w1, home := w.(server := Unlisted(w.server, x)), w.conns[x].home;
    PushKeeps(w1, home, Destruction(x), x);
    var w2 := Push(w1, home, Destruction(x));
    assert w2 == RemoveConnectionInLoop(w, x);
    assert Destruction(x) in Todo(w2.loops[home]);
  }

  // ---------------------------------------------------------------- events

  /** If nothing but the state of `x` changes, and user code or a handler that
      does not close the connection made the change, `x` stays cared for. */
  lemma CaredStays(w: World, x: nat, s': Connection)
    requires |w.loops| > 0 && x in w.conns && w.conns[x].home < |w.loops|
    requires Cared(w, x) && Allowed(w, x, s')
    requires s'.status == w.conns[x].state.status || (Live(w.conns[x].state) && Live(s'))
    requires w.conns[x].state.channel.index == New ==> s'.channel.index == New
    ensures Cared(WithState(w, x, s'), x)
  {
    hide Wired, Kept, Listed, InActive;
    StateFrame(w, x, s');
    hide Todo;
  }

  /** handleEvent begins: the tie can be locked, since the server's table or a
      queued connectDestroyed still holds the connection. */
  lemma BeginKeeps(w: World, k: nat)
    requires Good(w) && W.Enabled(w, Begin(k))
    ensures Sound(w, Begin(k)) && Good(W.Next(w, Begin(k)))
  {
    hide ServerOk, DistinctFds, FunctorOk, PollerOk, ConnOk, Cared;
    assert LoopOk(w, k);
    Homes(w);
    var l := w.loops[k];
    var x := l.active[0].id;
    assert ActiveOk(w, k, x);
    RegisteredIsReferenced(w, x);
    var l1 := l.(active := l.active[1..], visit := Visiting(x, l.active[0].revents, Closing));
    assert Todo(l1) == Todo(l);
    QueueUpdate(w, k, l1);
    LoopUpdateFrame(w, k, l1);
    BeginActives(w, k, l1);
    LoopUpdateKeeps(w, k, l1);
  }

  lemma BeginActives(w: World, k: nat, l: Loop)
    requires k < |w.loops| && ActivesOk(w, k) && w.loops[k].turn == Turn.Dispatching && w.loops[k].active != []
    requires var a := w.loops[k].active;
             l == w.loops[k].(active := a[1..], visit := Visiting(a[0].id, a[0].revents, Closing))
    requires forall j, id :: ActiveOk(WithLoop(w, k, l), j, id) <==> ActiveOk(w, j, id)
    ensures ActivesOk(WithLoop(w, k, l), k)
  {
    assert ActiveOk(w, k, w.loops[k].active[0].id);
    forall i | 0 <= i < |l.active|
      ensures ActiveOk(w, k, l.active[i].id) && l.active[i].id != w.loops[k].active[0].id
    {
      assert l.active[i] == w.loops[k].active[i + 1];
    }
  }

  /** A registered connection is held by the table or by its connectDestroyed. */
  lemma RegisteredIsReferenced(w: World, x: nat)
    requires Good(w) && x in w.conns && w.conns[x].state.channel.index != New
    ensures Referenced(w, x)
  {
    hide Structure, NameOf, Live, Mentions;
    Homes(w);
    assert Cared(w, x);
    if !Listed(w.server, x) {
      QueueShapes(w);
      var l := w.loops[w.conns[x].home];
      var i :| 0 <= i < |Todo(l)| && Todo(l)[i] == Destruction(x);
      TodoIsMentioned(l, i);
    }
  }

  lemma TodoIsMentioned(l: Loop, i: nat)
    requires l.ran <= |l.batch| && i < |Todo(l)|
    ensures Mentions(l, Todo(l)[i].id)
  {
    TodoSplits(l, i);
  }

  /** One stage of an event handler, with its close report. */
  lemma HandleKeeps(w: World, k: nat, a: Answers)
    requires Good(w) && W.Enabled(w, Handle(k, a))
    ensures Sound(w, Handle(k, a)) && Good(W.Next(w, Handle(k, a)))
  {
    hide Structure, RunStage, Wired, Kept, Closes, VisitedOk, RemoveConnection, Cared;
    VisitParts(w, k);
    var v := w.loops[k].visit;
    var x := v.id;
    VisitAdvances(w, k);
    var w1 := WithLoop(w, k, w.loops[k].(visit := Advanced(v)));
    ConnParts(w, x);
    StageAllowed(w1, x, v.stage, v.revents, a);
    var s' := RunStage(w.conns[x].state, v.stage, v.revents, a);
    StateKeeps(w1, x, s');
    assert Cared(w1, x);
    StageCared(w1, x, v.stage, v.revents, a);
    if Closes(v.stage, v.revents, a) {
      RemoveConnectionKeeps(WithState(w1, x, s'), x, k);
    }
  }

  lemma VisitParts(w: World, k: nat)
    requires Structure(w) && k < |w.loops| && w.loops[k].visit.Visiting?
    ensures var x := w.loops[k].visit.id;
            && x in w.conns && w.conns[x].home == k && w.conns[x].state.channel.index != New
            && w.loops[k].turn == Turn.Dispatching && !InActive(w, x)
  {
    hide ServerOk, DistinctFds, FunctorOk, QueueOk, PollerOk, ConnOk;
    assert LoopOk(w, k);
  }

  lemma VisitAdvances(w: World, k: nat)
    requires Good(w) && k < |w.loops| && w.loops[k].visit.Visiting?
    ensures Good(WithLoop(w, k, w.loops[k].(visit := Advanced(w.loops[k].visit))))
  {
    hide ServerOk, DistinctFds, FunctorOk, ActiveOk, VisitedOk, PollerOk, ConnOk, Cared;
    assert LoopOk(w, k);
    var l := w.loops[k];
    var l1 := l.(visit := Advanced(l.visit));
    assert Todo(l1) == Todo(l);
    QueueUpdate(w, k, l1);
    LoopUpdateFrame(w, k, l1);
    LoopUpdateKeeps(w, k, l1);
  }

  lemma ConnParts(w: World, x: nat)
    requires Structure(w) && x in w.conns
    ensures Wired(w.conns[x].state) && Kept(w.conns[x].state)
    ensures 0 < x < w.server.nextConnId && w.conns[x].home < |w.loops|
  {
    hide Wired, Kept, LoopOk, ServerOk, DistinctFds;
    assert ConnOk(w, x);
  }

  lemma StageAllowed(w: World, x: nat, stage: Stage, revents: Mask, a: Answers)
    requires x in w.conns && w.conns[x].home < |w.loops| && !InActive(w, x)
    requires Wired(w.conns[x].state) && Kept(w.conns[x].state)
    requires w.conns[x].state.channel.index != New
    ensures Allowed(w, x, RunStage(w.conns[x].state, stage, revents, a))
  {
    hide Kept, RunStage, InActive;
    StageWired(w.conns[x].state, stage, revents, a);
    StageKept(w.conns[x].state, stage, revents, a);
  }

  /** After a stage the connection is cared for, or it has been closed and the
      close report that follows will take care of it. */
  lemma StageCared(w: World, x: nat, stage: Stage, revents: Mask, a: Answers)
    requires |w.loops| > 0 && x in w.conns && w.conns[x].home < |w.loops| && Cared(w, x)
    requires Wired(w.conns[x].state) && w.conns[x].state.channel.index != New
    requires Allowed(w, x, RunStage(w.conns[x].state, stage, revents, a))
    ensures var w' := WithState(w, x, RunStage(w.conns[x].state, stage, revents, a));
            var c := w'.conns[x];
            if Closes(stage, revents, a) then
              && c.state.status == Disconnected
              && (Listed(w'.server, x) || Destruction(x) in Todo(w'.loops[c.home]))
            else Cared(w', x)
  {
    hide Kept, RunStage, Listed, InActive, Closes;
    var s := w.conns[x].state;
    StageWired(s, stage, revents, a);
    StateFrame(w, x, RunStage(s, stage, revents, a));
    if !Closes(stage, revents, a) {
      CaredStays(w, x, RunStage(s, stage, revents, a));
    }
    hide Todo;
  }

  // ---------------------------------------------------------------- functors

  lemma NoActive(w: World, k: nat, x: nat)
    requires Structure(w) && k < |w.loops| && w.loops[k].turn != Turn.Dispatching
    requires x in w.conns && w.conns[x].home == k
    ensures !InActive(w, x) && w.loops[k].visit.Idle?
  {
    hide ServerOk, DistinctFds, FunctorOk, QueueOk, PollerOk, ConnOk;
    assert LoopOk(w, k);
  }

  lemma EstablishKeepsGood(w: World, x: nat, script: Script)
    requires GoodBut(w, x) && x in w.conns && w.conns[x].home < |w.loops| && !InActive(w, x)
    requires w.conns[x].state.status == Connecting && Listed(w.server, x)
    requires Establishment(x) !in Todo(w.loops[w.conns[x].home])
    ensures Good(WithState(w, x, Establish(w.conns[x].state, script)))
  {
    hide Structure, Kept, Wired, InActive, Todo, Listed, Establish, ConnOk;
    ConnParts(w, x);
    var s := w.conns[x].state;
    EstablishWired(s, script);
    EstablishKept(s, script);
    EstablishAllowed(w, x, script);
    StateKeeps(w, x, Establish(s, script));
  }

  lemma EstablishAllowed(w: World, x: nat, script: Script)
    requires x in w.conns && w.conns[x].home < |w.loops| && !InActive(w, x)
    requires Wired(w.conns[x].state) && w.conns[x].state.status == Connecting
    requires Establishment(x) !in Todo(w.loops[w.conns[x].home])
    requires Wired(Establish(w.conns[x].state, script)) && Kept(Establish(w.conns[x].state, script))
    requires Live(Establish(w.conns[x].state, script))
    ensures Allowed(w, x, Establish(w.conns[x].state, script))
  {
    hide Kept, InActive, Todo, Establish;
  }

  /** User code on the loop thread: a callback or a functor of its own. */
  lemma UserMoveKeeps(w: World, x: nat, s': Connection)
    requires Good(w) && x in w.conns && w.conns[x].home < |w.loops|
    requires Wired(s') && Kept(s') && UserMove(w.conns[x].state, s')
    ensures Good(WithState(w, x, s'))
  {
    hide Structure, Kept, InActive, Todo, Listed;
    ConnParts(w, x);
    if InActive(w, x) {
      ActiveWatched(w, x);
    }
    assert Allowed(w, x, s');
    CaredStays(w, x, s');
    StateKeeps(w, x, s');
  }

  lemma ActiveWatched(w: World, x: nat)
    requires Structure(w) && x in w.conns && w.conns[x].home < |w.loops| && InActive(w, x)
    ensures w.conns[x].state.channel.index == Added
  {
    hide ServerOk, DistinctFds, FunctorOk, QueueOk, PollerOk, ConnOk;
    var k := w.conns[x].home;
    assert LoopOk(w, k);
    var i :| 0 <= i < |w.loops[k].active| && w.loops[k].active[i].id == x;
    assert ActiveOk(w, k, w.loops[k].active[i].id);
  }

  lemma DestroyFrame(w: World, x: nat, s': Connection)
    requires GoodBut(w, x) && x in w.conns && w.conns[x].home < |w.loops| && !InActive(w, x)
    requires w.loops[w.conns[x].home].visit.Idle?
    requires w.conns[x].state.status == Disconnected == s'.status && s'.channel.index == New
    ensures var w' := Destroyed(w, x, s');
            && ServerOk(w') && DistinctFds(w')
            && (forall j, g :: FunctorOk(w, j, g) ==> FunctorOk(w', j, g))
            && (forall j, id :: ActiveOk(w, j, id) && id != x ==> ActiveOk(w', j, id))
            && (forall j, id :: VisitedOk(w, j, id) && id != x ==> VisitedOk(w', j, id))
            && (forall j :: 0 <= j < |w.loops| ==> Todo(w'.loops[j]) == Todo(w.loops[j]))
  {
    hide Wired, Kept, NameOf, LoopOk, ConnOk, Cared, CursorOk;
    var w' := Destroyed(w, x, s');
    forall name | name in w'.server.connections
      ensures EntryOk(w', name)
    {
      assert EntryOk(w, name);
    }
  }

  function Destroyed(w: World, x: nat, s': Connection): World
    requires x in w.conns && w.conns[x].home < |w.loops|
  {
    var c := w.conns[x];
    w.(conns := w.conns[x := c.(state := s')],
       loops := w.loops[c.home := Unregistered(w.loops[c.home], c.fd, c.state.channel)])
  }

  lemma DestroyLoop(w: World, x: nat, s': Connection, j: nat)
    requires GoodBut(w, x) && x in w.conns && w.conns[x].home < |w.loops| && !InActive(w, x)
    requires w.loops[w.conns[x].home].visit.Idle?
    requires w.conns[x].state.status == Disconnected == s'.status && s'.channel.index == New
    requires j < |w.loops|
    ensures LoopOk(Destroyed(w, x, s'), j)
  {
    hide ServerOk, DistinctFds, FunctorOk, ActiveOk, VisitedOk, Todo, Cared, Wired, Kept;
    assert LoopOk(w, j);
    assert ConnOk(w, x);
    DestroyFrame(w, x, s');
    var w' := Destroyed(w, x, s');
    assert QueueOk(w', j);
    forall i | 0 <= i < |w'.loops[j].active|
      ensures ActiveOk(w', j, w'.loops[j].active[i].id)
    {
      assert ActiveOk(w, j, w.loops[j].active[i].id);
      ActiveHome(w, j, w.loops[j].active[i].id);
    }
    if w.loops[j].visit.Visiting? {
      VisitedHome(w, j, w.loops[j].visit.id);
    }
    assert PollerOk(w', j);
  }

  lemma ActiveHome(w: World, j: nat, id: nat)
    requires ActiveOk(w, j, id)
    ensures id in w.conns && w.conns[id].home == j
  {
  }

  lemma VisitedHome(w: World, j: nat, id: nat)
    requires VisitedOk(w, j, id)
    ensures id in w.conns && w.conns[id].home == j
  {
  }

  lemma DestroyKeepsGood(w: World, x: nat, script: Script)
    requires GoodBut(w, x) && x in w.conns && w.conns[x].home < |w.loops| && !InActive(w, x)
    requires w.loops[w.conns[x].home].visit.Idle?
    requires w.conns[x].state.status == Disconnected && !Listed(w.server, x)
    ensures Good(Destroyed(w, x, Destroy(w.conns[x].state, script)))
  {
    hide ServerOk, DistinctFds, FunctorOk, ActiveOk, VisitedOk, Todo, LoopOk, InActive, Listed, Kept;
    Homes(w);
    ConnParts(w, x);
    var s := w.conns[x].state;
    var s' := Destroy(s, script);
    StepWired(s, ConnectionSpec.Step.Destroyed(script));
    StepKept(s, ConnectionSpec.Step.Destroyed(script));
    DestroyFrame(w, x, s');
    var w' := Destroyed(w, x, s');
    forall j | 0 <= j < |w'.loops|
      ensures LoopOk(w', j)
    {
      DestroyLoop(w, x, s', j);
    }
    forall id | id in w'.conns
      ensures ConnOk(w', id) && Cared(w', id)
    {
      DestroyOther(w, x, s', id);
    }
  }

  lemma DestroyOther(w: World, x: nat, s': Connection, id: nat)
    requires GoodBut(w, x) && x in w.conns && w.conns[x].home < |w.loops| && !InActive(w, x)
    requires w.loops[w.conns[x].home].visit.Idle?
    requires w.conns[x].state.status == Disconnected == s'.status && s'.channel.index == New
    requires Wired(s') && Kept(s') && !Listed(w.server, x) && id in w.conns
    ensures ConnOk(Destroyed(w, x, s'), id) && Cared(Destroyed(w, x, s'), id)
  {
    hide ServerOk, FunctorOk, ActiveOk, VisitedOk, Todo, LoopOk, InActive, Listed, Wired, Kept;
    DestroyFrame(w, x, s');
    assert ConnOk(w, id) && ConnOk(w, x);
    if id != x {
      assert Cared(w, id);
    }
  }

  /** One functor of the batch. */
  lemma RunFunctorKeeps(w: World, k: nat, script: Script)
    requires Good(w) && W.Enabled(w, RunFunctor(k, script))
    ensures Sound(w, RunFunctor(k, script)) && Good(W.Next(w, RunFunctor(k, script)))
  {
    hide Structure, FunctorOk, ConnOk, Todo, Listed, Wired, Kept, Cared, InActive, Establish, Destroy, Good, GoodBut;
    var f, w1 := w.loops[k].batch[w.loops[k].ran], Popped(w, k);
    PopKeeps(w, k);
    RanKeeps(w1, k, f, script);
  }

  lemma RanKeeps(w: World, k: nat, f: Functor, script: Script)
    requires GoodBut(w, f.id) && k < |w.loops| && FunctorOk(w, k, f)
    requires w.loops[k].turn == Turn.Running
    requires f.id in w.conns && w.conns[f.id].home < |w.loops|
    requires f.Establishment? ==> f !in Todo(w.loops[k])
    requires f.Callback? ==> Cared(w, f.id)
    ensures Good(Ran(w, f, script))
  {
    hide Structure, ConnOk, Todo, Listed, Wired, Kept, Cared, InActive, Establish, Destroy, RunScript;
    match f
    case Establishment(x) =>
      NoActive(w, k, x);
      EstablishKeepsGood(w, x, script);
    case Removal(x) => RemoveInLoopKeeps(w, x);
    case Destruction(x) =>
      NoActive(w, k, x);
      DestroyKeepsGood(w, x, script);
    case Callback(x) =>
      ConnParts(w, x);
      ScriptWired(w.conns[x].state, script);
      ScriptKept(w.conns[x].state, script);
      UserMoveKeeps(w, x, RunScript(w.conns[x].state, script));
  }

  // ---------------------------------------------------------------- accepting

  /** newConnection before connectEstablished is run or queued. */
  function Newcomer(w: World, fd: int, config: Config): World
    requires |w.loops| > 0
  {
    w.(server := Enlisted(w.server, |w.loops| - 1),
       conns := w.conns[w.server.nextConnId := Conn(fd, Serving(w), NewlyAccepted(config))])
  }

  lemma IdsBelow(w: World)
    requires Structure(w)
    ensures forall id :: id in w.conns ==> 0 < id < w.server.nextConnId
  {
    hide Wired, Kept, LoopOk, ServerOk, DistinctFds;
    forall id | id in w.conns
      ensures 0 < id < w.server.nextConnId
    {
      assert ConnOk(w, id);
    }
  }

  lemma NewName(w: World)
    requires Structure(w) && w.server.nextConnId <= INT_MAX
    ensures NameOf(w.server, w.server.nextConnId) !in w.server.connections
    ensures w.server.nextConnId !in w.conns
  {
    hide Wired, Kept, LoopOk, NameOf;
    var x := w.server.nextConnId;
    IdsBelow(w);
    if NameOf(w.server, x) in w.server.connections {
      assert EntryOk(w, NameOf(w.server, x));
      var y := w.server.connections[NameOf(w.server, x)];
      OnlyOwnName(w.server, x, y);
    }
  }

  /** Listing the newcomer overwrites nobody. */
  lemma NewListed(w: World, fd: int, config: Config)
    requires Structure(w) && w.server.nextConnId <= INT_MAX
    ensures var w', x := Newcomer(w, fd, config), w.server.nextConnId;
            && Listed(w'.server, x)
            && (forall id :: id in w.conns ==> (Listed(w'.server, id) <==> Listed(w.server, id)))
            && (forall name :: name in w'.server.connections ==> EntryOk(w', name))
            && |w'.server.connections| == |w.server.connections| + 1
  {
    hide Wired, Kept, LoopOk, ConnOk, CursorOk, ConnName;
    NewName(w);
    var w', x := Newcomer(w, fd, config), w.server.nextConnId;
    var name := NameOf(w.server, x);
    assert forall id :: NameOf(w'.server, id) == NameOf(w.server, id);
    forall n | n in w'.server.connections
      ensures EntryOk(w', n)
    {
      if n != name {
        assert EntryOk(w, n);
      }
    }
    forall id | id in w.conns
      ensures Listed(w'.server, id) <==> Listed(w.server, id)
    {
      NewNameDiffers(w, id);
    }
  }

  lemma NewNameDiffers(w: World, id: nat)
    requires Structure(w) && w.server.nextConnId <= INT_MAX && id in w.conns
    ensures NameOf(w.server, id) != NameOf(w.server, w.server.nextConnId)
  {
    hide Wired, Kept, LoopOk, ConnName;
    assert ConnOk(w, id);
    OnlyOwnName(w.server, id, w.server.nextConnId);
  }

  lemma NewServer(w: World, fd: int, config: Config)
    requires Structure(w) && w.server.nextConnId <= INT_MAX
    ensures ServerOk(Newcomer(w, fd, config))
    ensures Serving(w) < |w.loops|
  {
    hide Wired, Kept, LoopOk, ConnOk, NameOf, EntryOk;
    NewListed(w, fd, config);
    if |w.loops| > 1 {
      CursorFollows(w.server.nextConnId - 1, |w.loops| - 1);
    }
  }

  lemma NewFrame(w: World, fd: int, config: Config)
    requires Structure(w) && w.server.nextConnId <= INT_MAX
    ensures var w', x := Newcomer(w, fd, config), w.server.nextConnId;
            && x !in w.conns
            && (forall j, g :: FunctorOk(w, j, g) ==> g.id != x && FunctorOk(w', j, g))
            && (forall j, id :: ActiveOk(w, j, id) ==> id != x && ActiveOk(w', j, id))
            && (forall j, id :: VisitedOk(w, j, id) ==> id != x && VisitedOk(w', j, id))
  {
    hide ServerOk, DistinctFds, LoopOk, ConnOk, Listed, NameOf;
    NewName(w);
    NewListed(w, fd, config);
  }

  lemma NewLoop(w: World, fd: int, config: Config, j: nat)
    requires Structure(w) && w.server.nextConnId <= INT_MAX && j < |w.loops|
    ensures LoopOk(Newcomer(w, fd, config), j)
    ensures Establishment(w.server.nextConnId) !in Todo(w.loops[j])
    ensures forall i :: 0 <= i < |w.loops[j].active| ==> w.loops[j].active[i].id != w.server.nextConnId
  {
    hide ServerOk, DistinctFds, ConnOk, FunctorOk, ActiveOk, VisitedOk, Todo, NameOf, Wired, Kept;
    assert LoopOk(w, j);
    NewFrame(w, fd, config);
    var w', x := Newcomer(w, fd, config), w.server.nextConnId;
    assert forall i :: 0 <= i < |Todo(w.loops[j])| ==> FunctorOk(w, j, Todo(w.loops[j])[i]);
  }

  lemma NewConns(w: World, fd: int, config: Config, id: nat)
    requires Good(w) && w.server.nextConnId <= INT_MAX
    requires id in Newcomer(w, fd, config).conns
    ensures ConnOk(Newcomer(w, fd, config), id)
    ensures id != w.server.nextConnId ==> Cared(Newcomer(w, fd, config), id)
  {
    hide ServerOk, DistinctFds, LoopOk, FunctorOk, Todo, NameOf, Wired, Kept, Listed, Live;
    NewName(w);
    NewListed(w, fd, config);
    NewServer(w, fd, config);
    NewState(config);
    if id != w.server.nextConnId {
      assert ConnOk(w, id) && Cared(w, id);
    } else {
      NextIdPositive(w);
    }
  }

  lemma NextIdPositive(w: World)
    requires Structure(w)
    ensures w.server.nextConnId > 0
  {
  }

  lemma NewState(config: Config)
    ensures Wired(NewlyAccepted(config)) && Kept(NewlyAccepted(config))
  {
  }

  lemma NewcomerKeeps(w: World, fd: int, config: Config)
    requires Good(w) && w.server.nextConnId <= INT_MAX
    requires forall id :: id in w.conns ==> w.conns[id].fd != fd
    ensures var w', x := Newcomer(w, fd, config), w.server.nextConnId;
            && GoodBut(w', x) && Listed(w'.server, x)
            && x in w'.conns && w'.conns[x] == Conn(fd, Serving(w), NewlyAccepted(config))
            && Serving(w) < |w.loops| && w'.loops == w.loops
            && Establishment(x) !in Todo(w'.loops[Serving(w)])
            && !InActive(w', x)
  {
    hide ServerOk, LoopOk, ConnOk, FunctorOk, Todo, NameOf, Wired, Kept, Listed, Live, Cared;
    NewName(w);
    NewListed(w, fd, config);
    NewServer(w, fd, config);
    Homes(w);
    var w', x := Newcomer(w, fd, config), w.server.nextConnId;
    assert forall id :: id in w'.conns ==> w'.conns[id].home < |w'.loops|;
    forall j | 0 <= j < |w'.loops|
      ensures LoopOk(w', j)
    {
      NewLoop(w, fd, config, j);
    }
    NewLoop(w, fd, config, Serving(w));
    forall id | id in w'.conns
      ensures ConnOk(w', id)
      ensures id != x ==> Cared(w', id)
    {
      NewConns(w, fd, config, id);
    }
  }

  lemma AcceptKeeps(w: World, fd: int, config: Config, script: Script)
    requires Good(w) && W.Enabled(w, Accept(fd, config, script))
    ensures Sound(w, Accept(fd, config, script)) && Good(W.Next(w, Accept(fd, config, script)))
  {
    hide Structure, LoopOk, ConnOk, FunctorOk, Todo, NameOf, Listed, Live, Establish, InActive, Wired, Kept;
    NewcomerKeeps(w, fd, config);
    var w1, x := Newcomer(w, fd, config), w.server.nextConnId;
    if Serving(w) == BASE {
      EstablishKeepsGood(w1, x, script);
    } else {
      NewcomerWaits(w1, x);
      PushKeeps(w1, Serving(w), Establishment(x), x);
      var w2 := Push(w1, Serving(w), Establishment(x));
      assert Establishment(x) in Todo(w2.loops[Serving(w)]);
      NewcomerCared(w2, x);
    }
  }

  lemma NewcomerWaits(w: World, x: nat)
    requires x in w.conns && w.conns[x].state.status == Connecting && Listed(w.server, x)
    ensures FunctorOk(w, w.conns[x].home, Establishment(x))
  {
  }

  lemma NewcomerCared(w: World, x: nat)
    requires |w.loops| > 0 && x in w.conns && w.conns[x].home < |w.loops|
    requires w.conns[x].state.status == Connecting && w.conns[x].state.channel.index == New
    requires Listed(w.server, x) && Establishment(x) in Todo(w.loops[w.conns[x].home])
    ensures Cared(w, x)
  {
  }

  // ---------------------------------------------------------------- the rest

  /** The last shared pointer goes: the connection is freed and its descriptor
      closed. Nothing refers to it any more. */
  lemma FreeIsClean(w: World, x: nat)
    requires Good(w) && W.Enabled(w, Free(x))
    ensures !Listed(w.server, x) && x !in w.held
    ensures w.conns[x].state.channel.index == New
    ensures forall j, i :: 0 <= j < |w.loops| && 0 <= i < |w.loops[j].batch| ==> w.loops[j].batch[i].id != x
    ensures forall j, i :: 0 <= j < |w.loops| && 0 <= i < |Todo(w.loops[j])| ==> Todo(w.loops[j])[i].id != x
  {
    hide Structure, NameOf, Live;
    Homes(w);
    QueueShapes(w);
    forall j, i | 0 <= j < |w.loops| && 0 <= i < |w.loops[j].batch|
      ensures w.loops[j].batch[i].id != x
    {
      assert !Mentions(w.loops[j], x);
    }
    forall j, i | 0 <= j < |w.loops| && 0 <= i < |Todo(w.loops[j])|
      ensures Todo(w.loops[j])[i].id != x
    {
      assert !Mentions(w.loops[j], x);
      TodoSplits(w.loops[j], i);
    }
    assert Cared(w, x);
    assert Destruction(x) !in Todo(w.loops[w.conns[x].home]);
  }

  lemma TodoSplits(l: Loop, i: nat)
    requires l.ran <= |l.batch| && i < |Todo(l)|
    ensures (exists m :: 0 <= m < |l.batch| && l.batch[m] == Todo(l)[i])
         || (exists m :: 0 <= m < |l.pending| && l.pending[m] == Todo(l)[i])
  {
    var n := |l.batch| - l.ran;
    if i < n {
      assert l.batch[l.ran + i] == Todo(l)[i];
    } else {
      assert l.pending[i - n] == Todo(l)[i];
    }
  }

  lemma FreeServer(w: World, x: nat)
    requires Good(w) && W.Enabled(w, Free(x))
    ensures ServerOk(w.(conns := w.conns - {x}))
  {
    hide LoopOk, ConnOk, Cared, NameOf, Listed, CursorOk, Todo, Mentions, DistinctFds;
    var w' := w.(conns := w.conns - {x});
    forall name | name in w'.server.connections
      ensures EntryOk(w', name)
    {
      assert EntryOk(w, name);
      assert w.server.connections[name] != x;
    }
  }

  lemma FreeFrame(w: World, x: nat)
    requires Good(w) && W.Enabled(w, Free(x))
    ensures var w' := w.(conns := w.conns - {x});
            && ServerOk(w') && DistinctFds(w') && HeldOk(w')
            && (forall j, g :: FunctorOk(w, j, g) && g.id != x ==> FunctorOk(w', j, g))
            && (forall j, id :: ActiveOk(w, j, id) ==> id != x && ActiveOk(w', j, id))
            && (forall j, id :: VisitedOk(w, j, id) ==> id != x && VisitedOk(w', j, id))
  {
    hide LoopOk, ConnOk, ServerOk, Cared, NameOf, Listed, Todo, Referenced;
    FreeIsClean(w, x);
    FreeServer(w, x);
    assert x !in w.held;
  }

  lemma FreeLoop(w: World, x: nat, j: nat)
    requires Good(w) && W.Enabled(w, Free(x)) && j < |w.loops|
    ensures LoopOk(w.(conns := w.conns - {x}), j)
  {
    hide ServerOk, DistinctFds, ConnOk, Cared, FunctorOk, ActiveOk, VisitedOk, Todo, Listed, Wired, Kept, Referenced;
    assert LoopOk(w, j);
    FreeIsClean(w, x);
    FreeFrame(w, x);
    var w' := w.(conns := w.conns - {x});
    assert QueueOk(w', j);
    assert PollerOk(w', j);
  }

  lemma FreeKeeps(w: World, x: nat)
    requires Good(w) && W.Enabled(w, Free(x))
    ensures Good(W.Next(w, Free(x)))
  {
    hide ServerOk, DistinctFds, LoopOk, FunctorOk, ActiveOk, VisitedOk, Todo, Listed, Wired, Kept, Referenced, Live;
    Homes(w);
    FreeFrame(w, x);
    var w' := w.(conns := w.conns - {x});
    forall j | 0 <= j < |w'.loops|
      ensures LoopOk(w', j)
    {
      FreeLoop(w, x, j);
    }
    forall id | id in w'.conns
      ensures ConnOk(w', id) && Cared(w', id)
    {
      assert ConnOk(w, id) && Cared(w, id);
    }
  }

  lemma HeldFrame(w: World, held: set<nat>)
    ensures var w' := w.(held := held);
            && (ServerOk(w) ==> ServerOk(w')) && (DistinctFds(w) ==> DistinctFds(w'))
            && (forall j, g :: FunctorOk(w', j, g) <==> FunctorOk(w, j, g))
            && (forall j, id :: ActiveOk(w', j, id) <==> ActiveOk(w, j, id))
            && (forall j, id :: VisitedOk(w', j, id) <==> VisitedOk(w, j, id))
  {
    hide Wired, Kept, NameOf, CursorOk, Listed, Live;
    forall name | name in w.server.connections && EntryOk(w, name)
      ensures EntryOk(w.(held := held), name)
    {
    }
  }

  lemma HeldLoop(w: World, held: set<nat>, j: nat)
    requires j < |w.loops| && LoopOk(w, j)
    ensures LoopOk(w.(held := held), j)
  {
    hide FunctorOk, ActiveOk, VisitedOk, ServerOk, DistinctFds, Todo;
    HeldFrame(w, held);
    assert QueueOk(w.(held := held), j) && ActivesOk(w.(held := held), j) && PollerOk(w.(held := held), j);
  }

  /** The user's shared pointers play no part in the invariant. */
  lemma HeldKeeps(w: World, held: set<nat>)
    requires Good(w) && held <= w.conns.Keys
    ensures Good(w.(held := held))
  {
    hide Wired, Kept, Todo, Listed, Live, LoopOk, ServerOk, DistinctFds, FunctorOk;
    var w' := w.(held := held);
    HeldFrame(w, held);
    forall j | 0 <= j < |w'.loops|
      ensures LoopOk(w', j)
    {
      HeldLoop(w, held, j);
    }
    forall id | id in w'.conns
      ensures ConnOk(w', id) && Cared(w', id)
    {
      assert ConnOk(w, id) && Cared(w, id);
    }
  }

  /** Whatever some shared pointer refers to is there. */
  lemma ReferencedIsThere(w: World, x: nat)
    requires Good(w) && Referenced(w, x)
    ensures Reachable(w, x)
  {
    hide NameOf, ConnOk, Cared, PollerOk, DistinctFds, FunctorOk, VisitedOk, ActiveOk, Todo, CursorOk;
    Homes(w);
    if name :| name in w.server.connections && w.server.connections[name] == x {
      assert EntryOk(w, name);
    } else if x !in w.held {
      var k :| 0 <= k < |w.loops| && Mentions(w.loops[k], x);
      assert LoopOk(w, k);
      MentionedIsThere(w, k, x);
    }
  }

  lemma MentionedIsThere(w: World, k: nat, x: nat)
    requires k < |w.loops| && QueueOk(w, k) && ActivesOk(w, k) && Mentions(w.loops[k], x)
    ensures x in w.conns
  {
    hide FunctorOk, ActiveOk;
    var l := w.loops[k];
    if i :| 0 <= i < |l.pending| && l.pending[i].id == x {
      assert Todo(l)[|l.batch| - l.ran + i] == l.pending[i];
      FunctorKnown(w, k, l.pending[i]);
    }
  }

  lemma PostKeeps(w: World, x: nat)
    requires Good(w) && W.Enabled(w, Post(x))
    ensures Sound(w, Post(x)) && Good(W.Next(w, Post(x)))
  {
    hide Structure, Todo, Listed, Live, Cared, Referenced;
    ReferencedIsThere(w, x);
    CallbackFits(w, x);
    PushKeeps(w, w.conns[x].home, Callback(x), x);
    assert Cared(w, x);
    PostCared(w, x);
  }

  lemma CallbackFits(w: World, x: nat)
    requires x in w.conns
    ensures FunctorOk(w, w.conns[x].home, Callback(x))
  {
  }

  lemma PostCared(w: World, x: nat)
    requires Structure(w) && x in w.conns && w.conns[x].home < |w.loops| && |w.loops| > 0 && Cared(w, x)
    ensures Cared(Push(w, w.conns[x].home, Callback(x)), x)
  {
    hide Structure, Todo, Listed, Cared;
    QueueShapes(w);
    CaredPush(w, w.conns[x].home, Callback(x), x);
  }

  lemma HeldIsThere(w: World, x: nat)
    requires Structure(w) && x in w.held
    ensures Reachable(w, x)
  {
    hide ServerOk, DistinctFds, LoopOk, ConnOk;
    Homes(w);
  }

  lemma UserActKeeps(w: World, x: nat, action: Action)
    requires Good(w) && W.Enabled(w, UserAct(x, action))
    ensures Sound(w, UserAct(x, action)) && Good(W.Next(w, UserAct(x, action)))
  {
    hide Structure, Todo, Listed, Live, Cared, Kept, Wired, Act, WithState;
    HeldIsThere(w, x);
    ConnParts(w, x);
    ActWired(w.conns[x].state, action);
    ActKept(w.conns[x].state, action);
    UserMoveKeeps(w, x, Act(w.conns[x].state, action));
  }

  lemma HoldKeeps(w: World, x: nat)
    requires Good(w) && W.Enabled(w, Hold(x))
    ensures Sound(w, Hold(x)) && Good(W.Next(w, Hold(x)))
  {
    hide ServerOk, DistinctFds, LoopOk, ConnOk, Cared, Referenced;
    ReferencedIsThere(w, x);
    HeldKeeps(w, w.held + {x});
  }

  lemma DropKeeps(w: World, x: nat)
    requires Good(w) && W.Enabled(w, Drop(x))
    ensures Good(W.Next(w, Drop(x)))
  {
    hide ServerOk, DistinctFds, LoopOk, ConnOk, Cared;
    HeldKeeps(w, w.held - {x});
  }

  /** Every step that can be taken is sound and keeps the invariant. */
  lemma StepKeeps(w: World, step: W.Step)
    requires Good(w) && W.Enabled(w, step)
    ensures Sound(w, step) && Good(W.Next(w, step))
  {
    hide Good;
    match step
    case Accept(fd, config, onConnect) => AcceptKeeps(w, fd, config, onConnect);
    case PollReturn(k, ready) => PollReturnKeeps(w, k, ready);
    case Begin(k) => BeginKeeps(w, k);
    case Handle(k, answers) => HandleKeeps(w, k, answers);
    case EndDispatch(k) => EndDispatchKeeps(w, k);
    case RunFunctor(k, script) => RunFunctorKeeps(w, k, script);
    case EndBatch(k) => EndBatchKeeps(w, k);
    case UserAct(id, action) => UserActKeeps(w, id, action);
    case Post(id) => PostKeeps(w, id);
    case Hold(id) => HoldKeeps(w, id);
    case Drop(id) => DropKeeps(w, id);
    case Free(id) => FreeKeeps(w, id);
  }

  lemma InitialGood(name: string, ipPort: string, ioLoops: nat)
    requires |ipPort| <= 51
    ensures Good(Initial(name, ipPort, ioLoops))
  {
    hide Wired, Kept;
    var w := Initial(name, ipPort, ioLoops);
    if ioLoops > 0 {
      DivModUnique(0, ioLoops, 0, 0);
    }
    forall j | 0 <= j < |w.loops|
      ensures LoopOk(w, j)
    {
      assert w.loops[j] == Loop(Turn.Polling, [], Idle, [], [], 0, map[], map[]);
    }
  }

  lemma {:induction false} RunGood(name: string, ipPort: string, ioLoops: nat, steps: seq<W.Step>)
    requires |ipPort| <= 51
    requires W.Possible(name, ipPort, ioLoops, steps)
    ensures Good(W.Run(name, ipPort, ioLoops, steps))
  {
    hide Good;
    if steps == [] {
      InitialGood(name, ipPort, ioLoops);
    } else {
      RunGood(name, ipPort, ioLoops, steps[..|steps| - 1]);
      StepKeeps(W.Run(name, ipPort, ioLoops, steps[..|steps| - 1]), steps[|steps| - 1]);
    }
  }
}
