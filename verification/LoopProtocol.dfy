/** The task queue and wakeup protocol of src/EventLoop.cc as a transition system.

    Any number of other threads push functors or ask the loop to quit, and write
    the eventfd afterwards in a step of their own; the loop thread checks
    `quit_`, polls, dispatches, swaps the queue out and runs the batch. Each
    action touches the shared state at most once, so every interleaving of the
    threads is a sequence of actions. */
module LoopProtocol {
  /** An eventfd refuses to count beyond this. */
  const MAX_COUNTER: nat := 0xFFFF_FFFF_FFFF_FFFE

  /** What the threads share: the queue behind the mutex, the two flags and the
      eventfd counter. */
  datatype Shared<F> = Shared(pending: seq<F>, quit: bool, calling: bool, counter: nat)

  function Push<F>(s: Shared<F>, f: F): Shared<F> {
    s.(pending := s.pending + [f])
  }

  /** `wakeup`: the write fails, and changes nothing, on a saturated counter. */
  function Wake<F>(s: Shared<F>): Shared<F> {
    if s.counter < MAX_COUNTER then s.(counter := s.counter + 1) else s
  }

  /** `handleRead` of the wakeup channel empties the counter. */
  function Drain<F>(s: Shared<F>): Shared<F> {
    s.(counter := 0)
  }

  datatype Place =
    | Entering                  // loop() has been called, quit_ not reset yet
    | Checking                  // while (!quit_)
    | Polling                   // inside poll
    | Dispatching(woken: bool)  // handling active channels, the wakeup channel among them or not
    | Swapping                  // callingPendingFunctors_ is set, the queue not yet swapped
    | Running                   // running the local batch
    | Exited

  datatype Loop<F> = Loop(
    place: Place,
    shared: Shared<F>,
    batch: seq<F>,
    executed: seq<F>,
    owed: set<nat>,         // threads that made their change and not yet their wakeup write
    loopOwes: bool,         // the same for the loop thread itself
    swapsSinceQuit: nat)

  datatype Action<F> =
    | PushFrom(thread: nat, f: F)
    | QuitFrom(thread: nat)
    | WakeFrom(thread: nat)
    | PushHere(f: F)
    | QuitHere
    | WakeHere
    | Enter
    | Check
    | Return(woken: bool)
    | HandleWakeup
    | BeginPending
    | Swap
    | RunNext
    | EndPending

  predicate Enabled<F>(s: Loop<F>, a: Action<F>) {
    match a
    case PushFrom(t, _) => t !in s.owed
    case QuitFrom(t) => t !in s.owed
    case WakeFrom(t) => t in s.owed
    case PushHere(_) => (s.place.Dispatching? || s.place == Running) && !s.loopOwes
    case QuitHere => (s.place.Dispatching? || s.place == Running) && !s.loopOwes
    case WakeHere => s.loopOwes
    case Enter => s.place == Entering
    case Check => s.place == Checking
    case Return(woken) => s.place == Polling && (woken ==> s.shared.counter > 0)
    case HandleWakeup => s.place == Dispatching(true)
    case BeginPending => s.place == Dispatching(false) && !s.loopOwes
    case Swap => s.place == Swapping
    case RunNext => s.place == Running && s.batch != [] && !s.loopOwes
    case EndPending => s.place == Running && s.batch == [] && !s.loopOwes
  }

  function Next<F>(s: Loop<F>, a: Action<F>): Loop<F>
    requires Enabled(s, a)
  {
    match a
    case PushFrom(t, f) => s.(shared := Push(s.shared, f), owed := s.owed + {t})
    case QuitFrom(t) => s.(shared := s.shared.(quit := true), owed := s.owed + {t})
    case WakeFrom(t) => s.(shared := Wake(s.shared), owed := s.owed - {t})
    case PushHere(f) => s.(shared := Push(s.shared, f), loopOwes := s.shared.calling)
    case QuitHere => s.(shared := s.shared.(quit := true))
    case WakeHere => s.(shared := Wake(s.shared), loopOwes := false)
    case Enter => s.(place := Checking, shared := s.shared.(quit := false), swapsSinceQuit := 0)
    case Check => s.(place := if s.shared.quit then Exited else Polling)
    case Return(woken) => s.(place := Dispatching(woken))
    case HandleWakeup => s.(place := Dispatching(false), shared := Drain(s.shared))
    case BeginPending => s.(place := Swapping, shared := s.shared.(calling := true))
    case Swap =>
      s.(place := Running, batch := s.shared.pending, shared := s.shared.(pending := []),
         swapsSinceQuit := if s.shared.quit then s.swapsSinceQuit + 1 else 0)
    case RunNext => s.(batch := s.batch[1..], executed := s.executed + [s.batch[0]])
    case EndPending => s.(place := Checking, shared := s.shared.(calling := false))
  }

  /** A loop whose thread is about to enter `loop()`; other threads may already
      have pushed to it. */
  predicate Start<F>(s: Loop<F>) {
    && s.place == Entering && s.batch == [] && s.executed == []
    && !s.shared.calling && !s.loopOwes && s.shared.counter <= MAX_COUNTER
    && s.swapsSinceQuit == 0
  }

  predicate Possible<F>(s: Loop<F>, actions: seq<Action<F>>)
    decreases |actions|, 0
  {
    actions == [] || (
      && Possible(s, actions[..|actions| - 1])
      && Enabled(Run(s, actions[..|actions| - 1]), actions[|actions| - 1]))
  }

  function Run<F>(s: Loop<F>, actions: seq<Action<F>>): Loop<F>
    requires Possible(s, actions)
    decreases |actions|, 1
  {
    if actions == [] then s else Next(Run(s, actions[..|actions| - 1]), actions[|actions| - 1])
  }

  // ---------------------------------------------------------------- no lost wakeup

  /** Somebody has woken the poller, or still will. */
  predicate Covered<F>(s: Loop<F>) {
    s.shared.counter > 0 || s.owed != {} || s.loopOwes
  }

  /** The law: a loop that may block in `poll` has nothing to do, or is covered. */
  predicate NotLost<F>(s: Loop<F>) {
    s.place == Polling && (s.shared.pending != [] || s.shared.quit) ==> Covered(s)
  }

  /** Where the loop thread is and what it may hold there; true from the start. */
  predicate Shaped<F>(s: Loop<F>) {
    && s.shared.counter <= MAX_COUNTER
    && (s.shared.calling <==> s.place in {Swapping, Running})
    && (s.loopOwes ==> s.place == Running)
    && (s.batch != [] ==> s.place == Running)
  }

  predicate Safe<F>(s: Loop<F>) {
    && Shaped(s)
    && (s.place in {Entering, Running, Checking, Polling} && s.shared.pending != [] ==> Covered(s))
    && (s.place == Polling && s.shared.quit ==> Covered(s))
  }

  lemma StepSafe<F>(s: Loop<F>, a: Action<F>)
    requires Shaped(s) && Enabled(s, a)
    ensures Shaped(Next(s, a))
    ensures Safe(s) ==> Safe(Next(s, a))
  {
    match a
    case PushFrom(t, _) => assert t in Next(s, a).owed;
    case QuitFrom(t) => assert t in Next(s, a).owed;
    case _ =>
  }

  lemma {:induction false} RunSafe<F>(s: Loop<F>, actions: seq<Action<F>>)
    requires Shaped(s) && Possible(s, actions)
    ensures Shaped(Run(s, actions))
    ensures Safe(s) ==> Safe(Run(s, actions))
  {
    if actions != [] {
      RunSafe(s, actions[..|actions| - 1]);
      StepSafe(Run(s, actions[..|actions| - 1]), actions[|actions| - 1]);
    }
  }

  /** No wakeup is ever lost, for any number of threads and any interleaving, if
      and only if whatever was queued before `loop()` started is covered. */
  lemma NoLostWakeup<F(!new)>(s: Loop<F>)
    requires Start(s)
    ensures (forall actions :: Possible(s, actions) ==> NotLost(Run(s, actions)))
       <==> (s.shared.pending == [] || Covered(s))
  {
    if s.shared.pending == [] || Covered(s) {
      forall actions | Possible(s, actions)
        ensures NotLost(Run(s, actions))
      {
        RunSafe(s, actions);
      }
    } else {
      UncoveredStartBlocks(s);
    }
  }

  /** The failing half: a functor queued on the loop thread before `loop()` wakes
      nobody, and the first poll blocks with it in the queue. */
  lemma UncoveredStartBlocks<F>(s: Loop<F>)
    requires Start(s) && s.shared.pending != [] && !Covered(s)
    ensures var actions := [Enter, Check]; Possible(s, actions) && !NotLost(Run(s, actions))
  {
    var first, actions: seq<Action<F>> := [Enter], [Enter, Check];
    assert first[..0] == [] && actions[..1] == first;
    assert Run(s, first) == Next(s, Enter);
    assert Run(s, actions) == Next(Next(s, Enter), Check);
  }

  /** `loop()` resets `quit_`: a request made before it is forgotten. */
  lemma QuitBeforeLoopIsForgotten<F>(s: Loop<F>)
    requires Start(s) && s.shared.quit
    ensures !Next(s, Enter).shared.quit && Next(Next(s, Enter), Check).place == Polling
  {
  }

  lemma {:induction false} QuitStays<F>(s: Loop<F>, actions: seq<Action<F>>)
    requires s.shared.quit && s.place != Entering && Possible(s, actions)
    ensures Run(s, actions).shared.quit && Run(s, actions).place != Entering
  {
    if actions != [] {
      QuitStays(s, actions[..|actions| - 1]);
    }
  }

  lemma EnterForgetsQuit<F>(s: Loop<F>)
    requires s.place == Entering
    ensures var actions := [Enter]; Possible(s, actions) && !Run(s, actions).shared.quit
  {
    var actions: seq<Action<F>> := [Enter];
    assert actions[..0] == [];
    assert Run(s, actions) == Next(s, Enter);
  }

  /** A request to quit survives every interleaving if and only if the loop thread
      is past the reset at the start of `loop()`. */
  lemma QuitIsKeptIff<F(!new)>(s: Loop<F>)
    requires s.shared.quit
    ensures (forall actions :: Possible(s, actions) ==> Run(s, actions).shared.quit) <==> s.place != Entering
  {
    if s.place != Entering {
      forall actions | Possible(s, actions)
        ensures Run(s, actions).shared.quit
      {
        QuitStays(s, actions);
      }
    } else {
      EnterForgetsQuit(s);
    }
  }

  /** What each action does to the flags and the eventfd, and that no other action
      touches them. */
  lemma OnlyTheseChange<F>(s: Loop<F>, a: Action<F>)
    requires Enabled(s, a)
    ensures var c, c' := s.shared.counter, Next(s, a).shared.counter;
            if a.WakeFrom? || a.WakeHere? then c' == c + 1 || c' == c >= MAX_COUNTER
            else if a.HandleWakeup? then c' == 0
            else c' == c
    ensures Next(s, a).shared.quit ==
              if a.QuitFrom? || a.QuitHere? then true else if a.Enter? then false else s.shared.quit
    ensures Next(s, a).shared.calling ==
              if a.BeginPending? then true else if a.EndPending? then false else s.shared.calling
  {
  }

  /** A request to quit a running loop, by any thread, is obeyed: over every
      interleaving after it, a loop thread that has moved as often as there was work
      and pushes arrived has left the loop. */
  lemma QuitIsObeyed<F>(s: Loop<F>, a: Action<F>, actions: seq<Action<F>>)
    requires Shaped(s) && Enabled(s, a) && (a.QuitFrom? || a.QuitHere?) && s.place != Entering
    requires Possible(Next(s, a), actions)
    requires Moves(actions) >= Work(s) + |Pushes(actions)|
    ensures Run(Next(s, a), actions).place == Exited
  {
    StepSafe(s, a);
    ExitIsBounded(Next(s, a), actions);
  }

  /** A woken poll does not wake again for the same write: over every interleaving,
      the queue is swapped only after the eventfd has been emptied. */
  lemma {:induction false} WokenIsDrained<F>(s: Loop<F>, actions: seq<Action<F>>)
    requires Enabled(s, Return(true)) && Possible(Next(s, Return(true)), actions)
    ensures HandleWakeup in actions || Run(Next(s, Return(true)), actions).place == Dispatching(true)
  {
    if actions != [] {
      var before := actions[..|actions| - 1];
      WokenIsDrained(s, before);
      assert HandleWakeup in before ==> HandleWakeup in actions;
      assert actions[|actions| - 1] in actions;
    }
  }

  // ---------------------------------------------------------------- FIFO

  function PushedBy<F>(a: Action<F>): seq<F> {
    match a
    case PushFrom(_, f) => [f]
    case PushHere(f) => [f]
    case _ => []
  }

  /** The functors pushed by a sequence of actions, in order. */
  function Pushes<F>(actions: seq<Action<F>>): seq<F> {
    if actions == [] then [] else Pushes(actions[..|actions| - 1]) + PushedBy(actions[|actions| - 1])
  }

  /** All functors of a loop, from the first executed to the last queued. */
  function History<F>(s: Loop<F>): seq<F> {
    s.executed + s.batch + s.shared.pending
  }

  lemma StepConserves<F>(s: Loop<F>, a: Action<F>)
    requires Shaped(s) && Enabled(s, a)
    ensures History(Next(s, a)) == History(s) + PushedBy(a)
  {
    match a
    case RunNext => assert s.batch == [s.batch[0]] + s.batch[1..];
    case _ =>
  }

  /** First in, first out, and exactly once: over every run, what was executed,
      then the rest of the local batch, then the queue, is the history of pushes. */
  lemma {:induction false} ExactlyOnceInOrder<F>(s: Loop<F>, actions: seq<Action<F>>)
    requires Shaped(s) && Possible(s, actions)
    ensures History(Run(s, actions)) == History(s) + Pushes(actions)
  {
    if actions != [] {
      var before := actions[..|actions| - 1];
      ExactlyOnceInOrder(s, before);
      RunSafe(s, before);
      StepConserves(Run(s, before), actions[|actions| - 1]);
    }
  }

  /** The functors of `history` have been executed or are in the running batch, or
      the loop is still on its way to swap them out. */
  ghost predicate PickedUp<F>(history: seq<F>, s: Loop<F>) {
    || history <= s.executed + s.batch
    || ((s.place.Dispatching? || s.place == Swapping) && history <= History(s))
  }

  lemma StepPicksUp<F>(history: seq<F>, s: Loop<F>, a: Action<F>)
    requires Shaped(s) && Enabled(s, a) && PickedUp(history, s)
    ensures PickedUp(history, Next(s, a))
  {
    match a
    case PushFrom(_, f) => assert History(Next(s, a)) == History(s) + [f];
    case PushHere(f) => assert History(Next(s, a)) == History(s) + [f];
    case RunNext => assert s.executed + s.batch == (s.executed + [s.batch[0]]) + s.batch[1..];
    case Swap => assert s.batch == [] && s.executed + s.batch == s.executed;
    case _ =>
  }

  lemma {:induction false} RunPicksUp<F>(s: Loop<F>, actions: seq<Action<F>>)
    requires Shaped(s) && Possible(s, actions)
    requires s.place.Dispatching? || s.place == Swapping
    ensures PickedUp(History(s), Run(s, actions))
  {
    hide PickedUp;
    if actions == [] {
      StartsPickedUp(s);
    } else {
      var before := actions[..|actions| - 1];
      RunPicksUp(s, before);
      RunSafe(s, before);
      StepPicksUp(History(s), Run(s, before), actions[|actions| - 1]);
    }
  }

  lemma StartsPickedUp<F>(s: Loop<F>)
    requires s.place.Dispatching? || s.place == Swapping
    ensures PickedUp(History(s), s)
  {
  }

  /** A loop that is woken does the work. Take any moment after a poll has returned
      and before the swap: over every interleaving from there, by the time the loop
      polls again or has ended, everything pushed up to that moment has been
      executed, in order. */
  lemma WorkIsPickedUp<F>(s: Loop<F>, actions: seq<Action<F>>)
    requires Shaped(s) && Possible(s, actions)
    requires s.place.Dispatching? || s.place == Swapping
    requires Run(s, actions).place in {Polling, Exited}
    ensures History(s) <= Run(s, actions).executed
  {
    RunPicksUp(s, actions);
    RunSafe(s, actions);
    assert Run(s, actions).batch == [];
  }

  // ---------------------------------------------------------------- one batch

  /** Actions by which the loop thread moves on; user code and other threads act
      in between. */
  predicate Progress<F>(a: Action<F>) {
    a.Enter? || a.Check? || a.Return? || a.HandleWakeup? || a.BeginPending? || a.Swap? || a.RunNext? || a.EndPending?
  }

  function Moves<F>(actions: seq<Action<F>>): nat {
    if actions == [] then 0
    else Moves(actions[..|actions| - 1]) + if Progress(actions[|actions| - 1]) then 1 else 0
  }

  /** A batch is fixed at the swap: while it runs, no action of any thread puts
      anything into it, and only its own head ever leaves. */
  lemma BatchOnlyShrinks<F>(s: Loop<F>, a: Action<F>)
    requires Shaped(s) && Enabled(s, a) && s.place == Running
    ensures Next(s, a).batch == if a == RunNext then s.batch[1..] else s.batch
    ensures a == RunNext ==> Next(s, a).executed == s.executed + [s.batch[0]]
    ensures Next(s, a).place == Running || s.batch == []
  {
  }

  /** A batch ends, whatever is pushed meanwhile: over every interleaving, after
      as many moves of the loop thread as the batch is long the whole batch has
      been executed, nothing else has, and one more move leaves it behind. So a
      functor that requeues itself cannot keep its batch from ending. */
  lemma {:induction false} BatchEnds<F>(s: Loop<F>, actions: seq<Action<F>>)
    requires Shaped(s) && s.place == Running && Possible(s, actions)
    requires Moves(actions) <= |s.batch| + 1
    ensures var r, moves := Run(s, actions), Moves(actions);
            && r.executed + r.batch == s.executed + s.batch
            && (moves <= |s.batch| ==> r.place == Running && |r.batch| == |s.batch| - moves)
            && (moves == |s.batch| + 1 ==> r.place == Checking && r.batch == [])
  {
    if actions != [] {
      var before := actions[..|actions| - 1];
      BatchEnds(s, before);
      RunSafe(s, before);
      StepOfBatch(Run(s, before), actions[|actions| - 1]);
    }
  }

  lemma StepOfBatch<F>(s: Loop<F>, a: Action<F>)
    requires Shaped(s) && Enabled(s, a) && s.place in {Running, Checking}
    ensures var s' := Next(s, a);
            && (!Progress(a) ==> s'.place == s.place && s'.batch == s.batch && s'.executed == s.executed)
            && (s.place == Running && Progress(a) ==> s'.executed + s'.batch == s.executed + s.batch)
            && (s.place == Running && Progress(a) && s.batch != [] ==>
                 s'.place == Running && |s'.batch| == |s.batch| - 1)
            && (s.place == Running && Progress(a) && s.batch == [] ==> s'.place == Checking && s'.batch == [])
  {
    if a.RunNext? {
      assert s.executed + s.batch == (s.executed + [s.batch[0]]) + s.batch[1..];
    }
  }

  // ---------------------------------------------------------------- bounded exit

  /** Once `quit_` is set inside a running loop the queue is swapped out at most
      once more, and not at all when a batch was already being run. */
  predicate Leaving<F>(s: Loop<F>) {
    && (!s.shared.quit ==> s.swapsSinceQuit == 0)
    && (s.shared.quit ==>
         && s.swapsSinceQuit <= 1
         && (s.swapsSinceQuit == 1 ==> s.place in {Running, Checking, Exited}))
  }

  lemma StepLeaving<F>(s: Loop<F>, a: Action<F>)
    requires Shaped(s) && Leaving(s) && Enabled(s, a)
    ensures Leaving(Next(s, a))
  {
  }

  lemma {:induction false} AtMostOneMoreSwap<F>(s: Loop<F>, actions: seq<Action<F>>)
    requires Start(s) && Possible(s, actions)
    ensures Leaving(Run(s, actions)) && Run(s, actions).swapsSinceQuit <= 1
  {
    if actions != [] {
      var before := actions[..|actions| - 1];
      AtMostOneMoreSwap(s, before);
      RunSafe(s, before);
      StepLeaving(Run(s, before), actions[|actions| - 1]);
    }
  }

  function Stage(p: Place): nat {
    match p
    case Entering => 7
    case Polling => 6
    case Dispatching(woken) => if woken then 5 else 4
    case Swapping => 3
    case Running => 2
    case Checking => 1
    case Exited => 0
  }

  /** With `quit_` set every move of the loop thread brings the exit closer, in
      the lexicographic order of (stage, rest of the batch); nothing another
      thread or a functor does can push it away again. */
  lemma QuitMovesToExit<F>(s: Loop<F>, a: Action<F>)
    requires Shaped(s) && Enabled(s, a) && s.shared.quit && s.place != Entering
    ensures var s' := Next(s, a);
            && s'.shared.quit
            && if Progress(a)
               then Stage(s'.place) < Stage(s.place)
                 || (s'.place == s.place && |s'.batch| < |s.batch|)
               else s'.place == s.place && s'.batch == s.batch
  {
  }

  /** What is left to do before the exit: the stages to come, the rest of the batch,
      and the queue if it will still be swapped out. */
  function Work<F>(s: Loop<F>): nat {
    Stage(s.place) + |s.batch|
    + if s.place.Polling? || s.place.Dispatching? || s.place == Swapping then |s.shared.pending| else 0
  }

  lemma StepWorks<F>(s: Loop<F>, a: Action<F>)
    requires Shaped(s) && Enabled(s, a) && s.shared.quit && s.place != Entering
    ensures Work(Next(s, a)) + (if Progress(a) then 1 else 0) <= Work(s) + |PushedBy(a)|
  {
  }

  /** Bounded exit, over every interleaving: once `quit_` is set in a running loop,
      its thread makes at most as many moves as there is work left and pushes still
      arrive, and it has ended when it has made that many. */
  lemma {:induction false} ExitIsBounded<F>(s: Loop<F>, actions: seq<Action<F>>)
    requires Shaped(s) && s.shared.quit && s.place != Entering && Possible(s, actions)
    ensures Moves(actions) + Work(Run(s, actions)) <= Work(s) + |Pushes(actions)|
    ensures Moves(actions) >= Work(s) + |Pushes(actions)| ==> Run(s, actions).place == Exited
  {
    if actions != [] {
      var before := actions[..|actions| - 1];
      ExitIsBounded(s, before);
      RunSafe(s, before);
      QuitStays(s, before);
      StepWorks(Run(s, before), actions[|actions| - 1]);
    }
  }

  /** The queue has been swapped out for the last time. */
  predicate Past<F>(s: Loop<F>) {
    s.place == Exited || (s.shared.quit && s.place in {Running, Checking})
  }

  lemma StepPast<F>(s: Loop<F>, a: Action<F>)
    requires Shaped(s) && Past(s) && Enabled(s, a)
    ensures var s' := Next(s, a);
            && Past(s') && (s.place == Exited ==> s'.place == Exited)
            && s'.executed + s'.batch == s.executed + s.batch
            && s'.shared.pending == s.shared.pending + PushedBy(a)
  {
    if a.RunNext? {
      assert s.executed + s.batch == (s.executed + [s.batch[0]]) + s.batch[1..];
    }
  }

  /** From the last swap on, over every interleaving, only the rest of the batch is
      ever executed: what any thread or functor pushes from then on, while the batch
      runs, during the last check of `quit_` or after the exit, stays queued. */
  lemma {:induction false} ExitIsFinal<F>(s: Loop<F>, actions: seq<Action<F>>)
    requires Shaped(s) && Past(s) && Possible(s, actions)
    ensures var r := Run(s, actions);
            && Past(r) && (s.place == Exited ==> r.place == Exited)
            && r.executed + r.batch == s.executed + s.batch
            && (r.place == Exited ==> r.executed == s.executed + s.batch)
            && r.shared.pending == s.shared.pending + Pushes(actions)
  {
    hide Past, Next;
    RunSafe(s, actions);
    if actions != [] {
      var before := actions[..|actions| - 1];
      ExitIsFinal(s, before);
      RunSafe(s, before);
      StepPast(Run(s, before), actions[|actions| - 1]);
    }
  }
}
