/** What a run of the whole server amounts to, told without its mechanism: the life of
    each connection as the reference tells it, the functors of each loop as a queue,
    and the callbacks of each event as three stages. */
module LifecycleHistory {
  import opened Buffers
  import opened Registrations
  import opened ConnectionSpec
  import opened ConnectionWiring
  import opened ConnectionLedger
  import opened Lifecycle
  import opened LifecycleInvariant
  import opened LifecycleSteps
  import opened LifecycleSafety
  import R = ConnectionReference
  import W = Lifecycle

  // ---------------------------------------------------------------- lives

  datatype Life = Unborn | Life(config: Config, home: nat, outside: R.Outside)

  function StageSeen(c: Config, o: R.Outside, stage: Stage, revents: Mask, a: Answers): R.Outside {
    match stage
    case Closing => if Hup in revents && In !in revents then R.Closes(c, o, a.onClose) else o
    case Reading => if In in revents || Pri in revents then R.Reads(c, o, a.read, a.onRead) else o
    case Writing => if Out in revents then R.Writes(c, o, a.write) else o
  }

  function FunctorSeen(c: Config, o: R.Outside, f: Functor, script: Script): R.Outside {
    match f
    case Establishment(_) => R.Opens(c, o, script)
    case Removal(_) => o
    case Destruction(_) => R.Ends(c, o, script)
    case Callback(_) => R.Plays(c, o, script)
  }

  /** What one step of the world is to connection `id`. */
  function Lived(w: World, step: W.Step, id: nat, life: Life): Life {
    match step
    case Accept(_, config, onConnect) =>
      if id != w.server.nextConnId then life
      else if |w.loops| == 1 then Life(config, 0, R.Opens(config, R.Start(), onConnect))
      else Life(config, 1 + w.server.cursor, R.Start())
    case Handle(k, a) =>
      if HandlesAt(w, step, id) && life.Life?
      then var v := w.loops[k].visit; life.(outside := StageSeen(life.config, life.outside, v.stage, v.revents, a))
      else life
    case RunFunctor(k, script) =>
      if k < |w.loops| && w.loops[k].ran < |w.loops[k].batch| && w.loops[k].batch[w.loops[k].ran].id == id && life.Life?
      then life.(outside := FunctorSeen(life.config, life.outside, w.loops[k].batch[w.loops[k].ran], script))
      else life
    case UserAct(x, action) =>
      if x == id && life.Life? then life.(outside := R.Acts(life.config, life.outside, action)) else life
    case _ => life
  }

  function LifeOf(name: string, ipPort: string, ioLoops: nat, steps: seq<W.Step>, id: nat): Life
    requires W.Possible(name, ipPort, ioLoops, steps)
  {
    if steps == [] then Unborn
    else
      var before := steps[..|steps| - 1];
      Lived(W.Run(name, ipPort, ioLoops, before), steps[|steps| - 1], id, LifeOf(name, ipPort, ioLoops, before, id))
  }

  /** Connection `c` as the outside sees it. */
  function Shows(c: Conn): Life {
    Life(c.state.config, c.home, R.Seen(c.state))
  }

  lemma StageIsSeen(s: Connection, stage: Stage, revents: Mask, a: Answers)
    requires Wired(s) && s.status != Connecting
    ensures R.Seen(RunStage(s, stage, revents, a)) == StageSeen(s.config, R.Seen(s), stage, revents, a)
  {
    hide R.Seen, Wired;
    match stage
    case Closing => R.CloseSeen(s, a.onClose);
    case Reading => R.ReadSeen(s, a.read, a.onRead);
    case Writing => R.WriteSeen(s, a.write);
  }

  lemma HandleIsLived(w: World, k: nat, a: Answers, id: nat)
    requires Good(w) && W.Enabled(w, Handle(k, a)) && id in w.conns
    ensures id in W.Next(w, Handle(k, a)).conns
    ensures Shows(W.Next(w, Handle(k, a)).conns[id]) == Lived(w, Handle(k, a), id, Shows(w.conns[id]))
  {
    hide Structure, Cared, RunStage, Wired, Kept, R.Seen, Closes, StageSeen;
    HandleKeeps(w, k, a);
    VisitParts(w, k);
    var v := w.loops[k].visit;
    ConnParts(w, v.id);
    VisitedIsNotConnecting(w, k);
    StageIsSeen(w.conns[v.id].state, v.stage, v.revents, a);
    HandledConns(w, k, a);
  }

  lemma VisitedIsNotConnecting(w: World, k: nat)
    requires Good(w) && k < |w.loops| && w.loops[k].visit.Visiting?
    ensures w.loops[k].visit.id in w.conns && w.conns[w.loops[k].visit.id].state.status != Connecting
  {
    hide Structure, Cared, Kept;
    VisitParts(w, k);
    ConnParts(w, w.loops[k].visit.id);
  }

  /** A stage changes the state of its own connection and nothing else about
      connections. */
  lemma HandledConns(w: World, k: nat, a: Answers)
    requires W.Enabled(w, Handle(k, a)) && Sound(w, Handle(k, a))
    ensures var x, v := w.loops[k].visit.id, w.loops[k].visit;
            W.Next(w, Handle(k, a)).conns ==
              w.conns[x := w.conns[x].(state := RunStage(w.conns[x].state, v.stage, v.revents, a))]
  {
    hide RunStage, NameOf;
  }

  lemma FunctorIsLived(w: World, k: nat, script: Script, id: nat)
    requires Good(w) && W.Enabled(w, RunFunctor(k, script)) && id in w.conns
    ensures id in W.Next(w, RunFunctor(k, script)).conns
    ensures Shows(W.Next(w, RunFunctor(k, script)).conns[id]) == Lived(w, RunFunctor(k, script), id, Shows(w.conns[id]))
  {
    hide Structure, Cared, Establish, RunScript, Destroy, Kept, NameOf, Todo, Listed, Wired, R.Seen, R.Plays, R.Opens, R.Ends;
    RunFunctorKeeps(w, k, script);
    PopKeeps(w, k);
    var f := w.loops[k].batch[w.loops[k].ran];
    var s := w.conns[f.id].state;
    ConnParts(w, f.id);
    match f
    case Establishment(x) => R.EstablishSeen(s, script);
    case Callback(x) => R.ScriptSeen(s, script);
    case Destruction(x) => R.DestroySeen(s, script);
    case Removal(x) =>
  }

  lemma UserActIsLived(w: World, x: nat, action: Action, id: nat)
    requires Good(w) && W.Enabled(w, UserAct(x, action)) && id in w.conns
    ensures id in W.Next(w, UserAct(x, action)).conns
    ensures Shows(W.Next(w, UserAct(x, action)).conns[id]) == Lived(w, UserAct(x, action), id, Shows(w.conns[id]))
  {
    hide Structure, Cared, Act, Kept, Wired, R.Seen, R.Acts;
    HeldIsThere(w, x);
    ConnParts(w, x);
    R.ActSeen(w.conns[x].state, action);
  }

  lemma AcceptIsLived(w: World, fd: int, config: Config, script: Script, id: nat, life: Life)
    requires Good(w) && W.Enabled(w, Accept(fd, config, script))
    requires id in w.conns ==> life == Shows(w.conns[id])
    requires id in w.conns || id == w.server.nextConnId
    ensures id in W.Next(w, Accept(fd, config, script)).conns
    ensures Shows(W.Next(w, Accept(fd, config, script)).conns[id]) == Lived(w, Accept(fd, config, script), id, life)
  {
    hide Structure, Cared, Establish, Kept, Wired, R.Seen, R.Opens, NameOf, R.Start;
    AcceptKeeps(w, fd, config, script);
    AcceptIsFresh(w);
    NewState(config);
    R.StartSeen(config);
    R.EstablishSeen(NewlyAccepted(config), script);
  }

  lemma StepIsLived(w: World, step: W.Step, id: nat, life: Life)
    requires Good(w) && W.Enabled(w, step) && id in W.Next(w, step).conns
    requires id in w.conns ==> life == Shows(w.conns[id])
    ensures Shows(W.Next(w, step).conns[id]) == Lived(w, step, id, life)
  {
    hide Good, Shows, RunStage, Establish, Destroy, RunScript, Act, NameOf, Closes, R.Acts;
    StepKeeps(w, step);
    match step
    case Accept(fd, config, onConnect) => AcceptIsLived(w, fd, config, onConnect, id, life);
    case Handle(k, a) =>
      HandledConns(w, k, a);
      HandleIsLived(w, k, a, id);
    case RunFunctor(k, script) => FunctorIsLived(w, k, script, id);
    case UserAct(x, action) => UserActIsLived(w, x, action, id);
    case _ =>
  }

  /** Every connection of every reachable world has lived as the reference says: each
      of its callbacks, functors and user actions had exactly the effect it has in
      `ConnectionReference`, in the order of the run, on the loop chosen for it; no
      step of any other connection had any. */
  lemma {:induction false} EveryConnectionIsAsSeen(name: string, ipPort: string, ioLoops: nat, steps: seq<W.Step>, id: nat)
    requires |ipPort| <= 51 && W.Possible(name, ipPort, ioLoops, steps)
    ensures var w := W.Run(name, ipPort, ioLoops, steps);
            id in w.conns ==> Shows(w.conns[id]) == LifeOf(name, ipPort, ioLoops, steps, id)
  {
    hide Good, W.Next, W.Enabled, Shows, Lived;
    if steps != [] {
      var before, last := steps[..|steps| - 1], steps[|steps| - 1];
      var w := W.Run(name, ipPort, ioLoops, before);
      EveryConnectionIsAsSeen(name, ipPort, ioLoops, before, id);
      RunGood(name, ipPort, ioLoops, before);
      if id in W.Next(w, last).conns {
        StepIsLived(w, last, id, LifeOf(name, ipPort, ioLoops, before, id));
      }
    }
  }

  // ---------------------------------------------------------------- queues

  predicate ReportsClose(v: Visit, a: Answers) {
    v.Visiting? &&
    if v.stage == Closing then Hup in v.revents && In !in v.revents
    else v.stage == Reading && v.revents * {In, Pri} != {} && a.read == Delivered([])
  }

  /** What a step queues on loop k. A close seen on an I/O loop is reported to the base
      loop; one seen on the base loop is acted on at once. */
  function Posted(w: World, step: W.Step, k: nat): seq<Functor> {
    match step
    case Accept(_, _, _) =>
      if k > 0 && k == 1 + w.server.cursor && |w.loops| > 1 then [Establishment(w.server.nextConnId)] else []
    case Handle(j, a) =>
      if j < |w.loops| && ReportsClose(w.loops[j].visit, a) && k == 0
      then [if j == 0 then Destruction(w.loops[j].visit.id) else Removal(w.loops[j].visit.id)]
      else []
    case RunFunctor(j, _) =>
      if j < |w.loops| && w.loops[j].ran < |w.loops[j].batch| then
        var f := w.loops[j].batch[w.loops[j].ran];
        if f.Removal? && f.id in w.conns && w.conns[f.id].home == k then [Destruction(f.id)] else []
      else []
    case Post(id) => if id in w.conns && w.conns[id].home == k then [Callback(id)] else []
    case _ => []
  }

  function PostedTo(name: string, ipPort: string, ioLoops: nat, steps: seq<W.Step>, k: nat): seq<Functor>
    requires W.Possible(name, ipPort, ioLoops, steps)
  {
    if steps == [] then []
    else
      var before := steps[..|steps| - 1];
      PostedTo(name, ipPort, ioLoops, before, k) + Posted(W.Run(name, ipPort, ioLoops, before), steps[|steps| - 1], k)
  }

  /** The functors loop k has run, in order. */
  function RunBy(name: string, ipPort: string, ioLoops: nat, steps: seq<W.Step>, k: nat): seq<Functor>
    requires W.Possible(name, ipPort, ioLoops, steps)
  {
    if steps == [] then []
    else
      var before, last := steps[..|steps| - 1], steps[|steps| - 1];
      RunBy(name, ipPort, ioLoops, before, k)
      + if last.RunFunctor? && last.loop == k then Head(W.Run(name, ipPort, ioLoops, before), k) else []
  }

  /** What loop k has left to do. */
  function Waiting(w: World, k: nat): seq<Functor> {
    if k < |w.loops| then Todo(w.loops[k]) else []
  }

  function Rest(fs: seq<Functor>): seq<Functor> {
    if fs == [] then [] else fs[1..]
  }

  function Head(w: World, k: nat): seq<Functor> {
    if k < |w.loops| && w.loops[k].ran < |w.loops[k].batch| then [w.loops[k].batch[w.loops[k].ran]] else []
  }

  lemma PushTodo(w: World, j: nat, f: Functor, k: nat)
    requires j < |w.loops| && k < |w.loops| && w.loops[j].ran <= |w.loops[j].batch|
    ensures Todo(Push(w, j, f).loops[k]) == Todo(w.loops[k]) + if j == k then [f] else []
  {
    TodoPush(w.loops[j], f);
  }

  /** Changing the state of a connection leaves all queues alone. */
  lemma StateTodo(w: World, x: nat, s': Connection, k: nat)
    requires x in w.conns && w.conns[x].home < |w.loops| && k < |w.loops|
    ensures Todo(WithState(w, x, s').loops[k]) == Todo(w.loops[k])
    ensures WithState(w, x, s').loops[k].ran == w.loops[k].ran && WithState(w, x, s').loops[k].batch == w.loops[k].batch
    ensures |WithState(w, x, s').loops| == |w.loops|
  {
  }

  /** A close report, made on loop j. */
  lemma RemovalTodo(w: World, x: nat, j: nat, k: nat)
    requires x in w.conns && w.conns[x].home < |w.loops| && k < |w.loops|
    requires forall i :: 0 <= i < |w.loops| ==> w.loops[i].ran <= |w.loops[i].batch|
    ensures Todo(RemoveConnection(w, x, j).loops[k]) ==
              Todo(w.loops[k])
              + (if j == 0 then if k == w.conns[x].home then [Destruction(x)] else []
                 else if k == 0 then [Removal(x)] else [])
  {
    hide Todo, Unlisted;
    PushTodo(w, 0, Removal(x), k);
    PushTodo(w.(server := Unlisted(w.server, x)), w.conns[x].home, Destruction(x), k);
  }

  lemma StageTodo(w: World, j: nat, a: Answers, k: nat)
    requires j < |w.loops| && k < |w.loops| && w.loops[j].visit.Visiting?
    requires w.loops[j].visit.id in w.conns && w.conns[w.loops[j].visit.id].home == j
    requires forall i :: 0 <= i < |w.loops| ==> w.loops[i].ran <= |w.loops[i].batch|
    ensures Todo(HandleStage(w, j, a).loops[k]) == Todo(w.loops[k]) + Posted(w, Handle(j, a), k)
  {
    hide RunStage, NameOf, Todo, WithState, Advanced, RemoveConnection, ReportsClose, Closes;
    var v := w.loops[j].visit;
    var w1 := WithLoop(w, j, w.loops[j].(visit := Advanced(v)));
    var s' := RunStage(w.conns[v.id].state, v.stage, v.revents, a);
    var w2 := WithState(w1, v.id, s');
    StateOnly(w1, v.id, s');
    forall i | 0 <= i < |w.loops|
      ensures |w2.loops| == |w.loops| && Todo(w2.loops[i]) == Todo(w.loops[i])
      ensures w2.loops[i].ran <= |w2.loops[i].batch|
    {
      VisitTodo(w, j, i);
      StateTodo(w1, v.id, s', i);
    }
    ReportsIffCloses(v, a);
    RemovalTodo(w2, v.id, j, k);
  }

  lemma NextIsStage(w: World, j: nat, a: Answers)
    requires W.Enabled(w, Handle(j, a)) && Sound(w, Handle(j, a))
    ensures W.Next(w, Handle(j, a)) == HandleStage(w, j, a)
  {
    hide HandleStage;
  }

  lemma HandleQueued(w: World, j: nat, a: Answers, k: nat)
    requires Good(w) && W.Enabled(w, Handle(j, a)) && k < |w.loops|
    ensures Waiting(W.Next(w, Handle(j, a)), k) == Waiting(w, k) + Posted(w, Handle(j, a), k)
  {
    hide Structure, Cared, W.Next, HandleStage, Todo, Posted;
    HandleKeeps(w, j, a);
    VisitParts(w, j);
    QueueShapes(w);
    StageTodo(w, j, a, k);
    NextIsStage(w, j, a);
    StepKeepsLoops(w, Handle(j, a));
  }

  lemma StateOnly(w: World, x: nat, s': Connection)
    requires x in w.conns && w.conns[x].home < |w.loops|
    ensures WithState(w, x, s').conns == w.conns[x := w.conns[x].(state := s')]
  {
  }

  lemma VisitTodo(w: World, j: nat, k: nat)
    requires j < |w.loops| && k < |w.loops|
    ensures var w1 := WithLoop(w, j, w.loops[j].(visit := Advanced(w.loops[j].visit)));
            && Todo(w1.loops[k]) == Todo(w.loops[k])
            && w1.loops[k].ran == w.loops[k].ran && w1.loops[k].batch == w.loops[k].batch
  {
  }

  lemma ReportsIffCloses(v: Visit, a: Answers)
    requires v.Visiting?
    ensures ReportsClose(v, a) <==> Closes(v.stage, v.revents, a)
  {
    var both := v.revents * {In, Pri};
    assert both != {} <==> In in v.revents || Pri in v.revents by {
      assert In in v.revents ==> In in both;
      assert Pri in v.revents ==> Pri in both;
    }
  }

  lemma NextIsRan(w: World, j: nat, script: Script)
    requires W.Enabled(w, RunFunctor(j, script)) && Sound(w, RunFunctor(j, script))
    ensures Reachable(Popped(w, j), w.loops[j].batch[w.loops[j].ran].id)
    ensures W.Next(w, RunFunctor(j, script)) == Ran(Popped(w, j), w.loops[j].batch[w.loops[j].ran], script)
  {
    hide Ran;
  }

  lemma RunFunctorQueued(w: World, j: nat, script: Script, k: nat)
    requires Good(w) && W.Enabled(w, RunFunctor(j, script)) && k < |w.loops|
    ensures j == k ==> Waiting(w, k) == Head(w, k) + Rest(Waiting(w, k))
    ensures Waiting(W.Next(w, RunFunctor(j, script)), k) ==
              (if j == k then Rest(Waiting(w, k)) else Waiting(w, k)) + Posted(w, RunFunctor(j, script), k)
  {
    hide Good, W.Next, Todo, Ran;
    StepKeeps(w, RunFunctor(j, script));
    GoodShapes(w);
    NextIsRan(w, j, script);
    TodoPop(w.loops[j]);
    PoppedTodo(w, j, k);
    var f, w1 := w.loops[j].batch[w.loops[j].ran], Popped(w, j);
    assert w1.conns == w.conns && |w1.loops| == |w.loops|;
    PoppedTodo(w, j, w.conns[f.id].home);
    RanTodo(w1, f, script, k);
    StepKeepsLoops(w, RunFunctor(j, script));
  }

  /** A functor queues only the destruction of a connection it removes. */
  lemma RanTodo(w: World, f: Functor, script: Script, k: nat)
    requires f.id in w.conns && w.conns[f.id].home < |w.loops| && k < |w.loops|
    requires w.loops[w.conns[f.id].home].ran <= |w.loops[w.conns[f.id].home].batch|
    ensures Todo(Ran(w, f, script).loops[k]) ==
              Todo(w.loops[k]) + if f.Removal? && w.conns[f.id].home == k then [Destruction(f.id)] else []
  {
    hide Establish, RunScript, Destroy, Todo, WithState, Unlisted;
    var c := w.conns[f.id];
    match f
    case Establishment(x) => StateTodo(w, x, Establish(c.state, script), k);
    case Callback(x) => StateTodo(w, x, RunScript(c.state, script), k);
    case Removal(x) => PushTodo(w.(server := Unlisted(w.server, x)), c.home, Destruction(x), k);
    case Destruction(x) => UnregisteredTodo(w.loops[c.home], c.fd, c.state.channel);
  }

  lemma PoppedTodo(w: World, j: nat, k: nat)
    requires j < |w.loops| && k < |w.loops| && w.loops[j].ran < |w.loops[j].batch|
    requires w.loops[k].ran <= |w.loops[k].batch|
    ensures j == k ==> Todo(w.loops[k]) != []
    ensures Todo(Popped(w, j).loops[k]) == if j == k then Todo(w.loops[k])[1..] else Todo(w.loops[k])
    ensures Popped(w, j).loops[k].ran <= |Popped(w, j).loops[k].batch|
  {
    hide Todo;
    TodoPop(w.loops[j]);
    var rest := Todo(w.loops[j].(ran := w.loops[j].ran + 1));
    assert ([w.loops[j].batch[w.loops[j].ran]] + rest)[1..] == rest;
  }

  lemma UnregisteredTodo(l: Loop, fd: int, before: ChannelState)
    ensures Todo(Unregistered(l, fd, before)) == Todo(l)
  {
  }

  lemma AcceptQueued(w: World, fd: int, config: Config, script: Script, k: nat)
    requires Good(w) && W.Enabled(w, Accept(fd, config, script)) && k < |w.loops|
    ensures Waiting(W.Next(w, Accept(fd, config, script)), k) ==
              Waiting(w, k) + Posted(w, Accept(fd, config, script), k)
  {
    hide Structure, Cared, Establish, NameOf, Todo, WithState, Enlisted;
    AcceptKeeps(w, fd, config, script);
    NewcomerKeeps(w, fd, config);
    QueueShapes(w);
    var w1, x := Newcomer(w, fd, config), w.server.nextConnId;
    if |w.loops| == 1 {
      StateTodo(w1, x, Establish(NewlyAccepted(config), script), k);
    } else {
      PushTodo(w1, Serving(w), Establishment(x), k);
    }
  }

  lemma StepQueued(w: World, step: W.Step, k: nat)
    requires Good(w) && W.Enabled(w, step) && k < |w.loops|
    ensures step.RunFunctor? && step.loop == k ==> Waiting(w, k) == Head(w, k) + Rest(Waiting(w, k))
    ensures |W.Next(w, step).loops| == |w.loops|
    ensures Waiting(W.Next(w, step), k) ==
              (if step.RunFunctor? && step.loop == k then Rest(Waiting(w, k)) else Waiting(w, k)) + Posted(w, step, k)
  {
    hide Good, RunStage, Establish, Destroy, RunScript, Act, NameOf, Closes;
    StepKeepsLoops(w, step);
    StepKeeps(w, step);
    match step
    case Accept(fd, config, onConnect) => AcceptQueued(w, fd, config, onConnect, k);
    case Handle(j, a) => HandleQueued(w, j, a, k);
    case RunFunctor(j, script) => RunFunctorQueued(w, j, script, k);
    case UserAct(x, action) => StateTodo(w, x, Act(w.conns[x].state, action), k);
    case Post(x) =>
      GoodShapes(w);
      PushTodo(w, w.conns[x].home, Callback(x), k);
    case _ => OwnMoveQueued(w, step, k);
  }

  lemma GoodShapes(w: World)
    requires Good(w)
    ensures forall k :: 0 <= k < |w.loops| ==> w.loops[k].ran <= |w.loops[k].batch|
    ensures forall k :: 0 <= k < |w.loops| && w.loops[k].turn != Turn.Running ==>
              w.loops[k].batch == [] && w.loops[k].ran == 0
  {
    hide ConnOk, ServerOk, DistinctFds, ActivesOk, PollerOk, FunctorOk, Cared;
    forall k | 0 <= k < |w.loops|
      ensures w.loops[k].ran <= |w.loops[k].batch|
      ensures w.loops[k].turn != Turn.Running ==> w.loops[k].batch == [] && w.loops[k].ran == 0
    {
      assert LoopOk(w, k);
    }
  }

  lemma OwnMoveQueued(w: World, step: W.Step, k: nat)
    requires Good(w) && W.Enabled(w, step) && Sound(w, step) && k < |w.loops|
    requires step.PollReturn? || step.Begin? || step.EndDispatch? || step.EndBatch? || step.Hold? || step.Drop? || step.Free?
    ensures Waiting(W.Next(w, step), k) == Waiting(w, k)
  {
    hide Good, Referenced;
    GoodShapes(w);
  }

  /** First in, first out, and exactly once, for every loop of the server over every
      interleaving: what it has run, then what it has left to do, is what was posted
      to it. So a close seen on an I/O loop is handed to the base loop, once per
      report, and from there to the connection's own loop; no other functor of the
      server is ever queued. */
  lemma {:induction false} EachLoopIsFifo(name: string, ipPort: string, ioLoops: nat, steps: seq<W.Step>, k: nat)
    requires |ipPort| <= 51 && W.Possible(name, ipPort, ioLoops, steps) && k <= ioLoops
    ensures k < |W.Run(name, ipPort, ioLoops, steps).loops|
    ensures RunBy(name, ipPort, ioLoops, steps, k) + Waiting(W.Run(name, ipPort, ioLoops, steps), k) ==
              PostedTo(name, ipPort, ioLoops, steps, k)
  {
    hide Good, W.Next, W.Enabled, Posted, Waiting, Head, Rest;
    if steps == [] {
      NothingToDo(name, ipPort, ioLoops, k);
    } else {
      var before, last := steps[..|steps| - 1], steps[|steps| - 1];
      EachLoopIsFifo(name, ipPort, ioLoops, before, k);
      RunGood(name, ipPort, ioLoops, before);
      StepQueued(W.Run(name, ipPort, ioLoops, before), last, k);
      var ran, todo := RunBy(name, ipPort, ioLoops, before, k), Waiting(W.Run(name, ipPort, ioLoops, before), k);
      var posted := Posted(W.Run(name, ipPort, ioLoops, before), last, k);
      if last.RunFunctor? && last.loop == k {
        var head := Head(W.Run(name, ipPort, ioLoops, before), k);
        assert (ran + head) + (Rest(todo) + posted) == (ran + (head + Rest(todo))) + posted;
      } else {
        assert ran + (todo + posted) == (ran + todo) + posted;
      }
    }
  }

  lemma NothingToDo(name: string, ipPort: string, ioLoops: nat, k: nat)
    requires k <= ioLoops
    ensures var w := Initial(name, ipPort, ioLoops); k < |w.loops| && Waiting(w, k) == []
  {
  }

  // ---------------------------------------------------------------- events

  /** How many of the steps are stages of a handler on loop k. */
  function StagesOn(steps: seq<W.Step>, k: nat): nat {
    if steps == [] then 0
    else StagesOn(steps[..|steps| - 1], k)
         + if steps[|steps| - 1].Handle? && steps[|steps| - 1].loop == k then 1 else 0
  }

  /** Every event runs all its stages: over every interleaving, once handleEvent has
      begun for a channel, the loop goes through the close, the read and the write
      stage of that channel with that mask, in this order, before it turns to
      anything else. */
  lemma {:induction false} EveryStageRuns(name: string, ipPort: string, ioLoops: nat, steps: seq<W.Step>, more: seq<W.Step>,
                                          k: nat, id: nat, revents: Mask)
    requires |ipPort| <= 51 && W.Possible(name, ipPort, ioLoops, steps)
    requires W.Possible(name, ipPort, ioLoops, steps + more) && Begin(k) !in more
    requires k < |W.Run(name, ipPort, ioLoops, steps).loops|
    requires W.Run(name, ipPort, ioLoops, steps).loops[k].visit == Visiting(id, revents, Closing)
    ensures k < |W.Run(name, ipPort, ioLoops, steps + more).loops|
    ensures var n, v := StagesOn(more, k), W.Run(name, ipPort, ioLoops, steps + more).loops[k].visit;
            && n <= 3
            && v == if n == 0 then Visiting(id, revents, Closing)
                    else if n == 1 then Visiting(id, revents, Reading)
                    else if n == 2 then Visiting(id, revents, Writing)
                    else Idle
    ensures StagesOn(more, k) < 3 ==> EndDispatch(k) !in more
  {
    hide Good, W.Next;
    if more == [] {
      assert steps + more == steps;
    } else {
      var most, last := more[..|more| - 1], more[|more| - 1];
      assert (steps + more)[..|steps + more| - 1] == steps + most && (steps + more)[|steps + more| - 1] == last;
      EveryStageRuns(name, ipPort, ioLoops, steps, most, k, id, revents);
      RunGood(name, ipPort, ioLoops, steps + most);
      VisitStep(W.Run(name, ipPort, ioLoops, steps + most), last, k);
    }
  }

  // ---------------------------------------------------------------- small steps

  /** A returning poll makes the active list exactly what was ready: in order, the
      channel registered for each descriptor, with the events reported for it. */
  lemma PollReportsReady(w: World, k: nat, ready: seq<Ready>)
    requires Good(w) && W.Enabled(w, PollReturn(k, ready))
    ensures var l := W.Next(w, PollReturn(k, ready)).loops[k];
            && l.turn == Turn.Dispatching && l.visit == Idle
            && |l.active| == |ready|
            && forall i :: 0 <= i < |ready| ==>
                 && ready[i].fd in w.loops[k].channels
                 && l.active[i] == Active(w.loops[k].channels[ready[i].fd], ready[i].revents)
  {
    hide ServerOk, DistinctFds, QueueOk, Todo, Listed, Wired, Kept, Cared;
    PollReturnKeeps(w, k, ready);
    assert LoopOk(w, k);
    forall i | 0 <= i < |ready|
      ensures ready[i].fd in w.loops[k].channels
      ensures w.loops[k].channels[ready[i].fd] == w.loops[k].kernel[ready[i].fd]
    {
      EntryIsMapped(w, k, ready[i].fd);
    }
  }

  lemma EntryIsMapped(w: World, k: nat, fd: int)
    requires Good(w) && k < |w.loops| && fd in w.loops[k].kernel
    ensures fd in w.loops[k].channels && w.loops[k].channels[fd] == w.loops[k].kernel[fd]
  {
    hide Good;
    EntriesAreCared(w, k, fd);
  }

  /** What user code holds, and what is freed. */
  lemma HoldDropFree(w: World, id: nat)
    requires Good(w)
    ensures W.Enabled(w, Hold(id)) ==> W.Next(w, Hold(id)).held == w.held + {id}
    ensures W.Enabled(w, Drop(id)) ==> W.Next(w, Drop(id)).held == w.held - {id}
    ensures W.Enabled(w, Free(id)) ==> W.Next(w, Free(id)).conns.Keys == w.conns.Keys - {id}
  {
    hide Good, Referenced;
    if W.Enabled(w, Hold(id)) {
      StepKeeps(w, Hold(id));
    }
  }
}
