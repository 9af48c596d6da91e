/** The three-state registration machine of src/EPollPoller.cc, as pure state.

    A channel remembers its interest (`events_`) and its position in the poller
    (`index_`); each change of interest makes the poller issue one `epoll_ctl`.
    The kernel side is a separate reference model that refuses what
    `epoll_ctl(2)` refuses, and the two are connected by `RunIsLegal`. */
module Registrations {
  import opened Bytes

  datatype Flag = In | Pri | Out | Err | Hup
  type Mask = set<Flag>

  const NONE_EVENT: Mask := {}
  const READ_EVENT: Mask := {In, Pri}
  const WRITE_EVENT: Mask := {Out}

  /** kNew (-1), kAdded (1) and kDeleted (2). */
  datatype Index = New | Added | Deleted

  datatype ChannelState = ChannelState(index: Index, events: Mask) {
    predicate Writing() {
      Out in events
    }

    /** What the kernel watches for this channel, if anything. */
    function Watched(): Option<Mask> {
      if index == Added then Some(events) else None
    }

    /** kDeleted is only reached by giving up every interest. */
    predicate Coherent() {
      index == Deleted ==> events == NONE_EVENT
    }
  }

  datatype Change = EnableReading | DisableReading | EnableWriting | DisableWriting | DisableAll

  datatype ChannelOp = Interest(change: Change) | Remove

  function Changed(events: Mask, change: Change): Mask {
    match change
    case EnableReading => events + READ_EVENT
    case DisableReading => events - READ_EVENT
    case EnableWriting => events + WRITE_EVENT
    case DisableWriting => events - WRITE_EVENT
    case DisableAll => NONE_EVENT
  }

  /** `updateChannel`: the index after an interest change. */
  function Updated(index: Index, events: Mask): ChannelState {
    if index != Added then ChannelState(Added, events)
    else if events == NONE_EVENT then ChannelState(Deleted, events)
    else ChannelState(Added, events)
  }

  function Apply(c: ChannelState, op: ChannelOp): (c': ChannelState)
    ensures c.Coherent() ==> c'.Coherent()
  {
    match op
    case Interest(change) => Updated(c.index, Changed(c.events, change))
    case Remove => c.(index := New)
  }

  // ---------------------------------------------------------------- kernel

  datatype Ctl = Add(mask: Mask) | Mod(mask: Mask) | Del

  /** The `epoll_ctl` calls one channel operation issues. */
  function Calls(c: ChannelState, op: ChannelOp): seq<Ctl> {
    match op
    case Interest(change) =>
      var events := Changed(c.events, change);
      if c.index != Added then [Add(events)]
      else if events == NONE_EVENT then [Del]
      else [Mod(events)]
    case Remove =>
      if c.index == Added then [Del] else []
  }

  datatype Kernel = Refused | Watching(mask: Option<Mask>)

  /** `epoll_ctl` on one file descriptor: ADD fails with EEXIST when it is
      present, MOD and DEL fail with ENOENT when it is absent. */
  function KernelStep(k: Kernel, call: Ctl): Kernel {
    match (k, call)
    case (Watching(None), Add(mask)) => Watching(Some(mask))
    case (Watching(Some(_)), Mod(mask)) => Watching(Some(mask))
    case (Watching(Some(_)), Del) => Watching(None)
    case _ => Refused
  }

  function KernelRun(k: Kernel, calls: seq<Ctl>): Kernel
    decreases |calls|
  {
    if calls == [] then k else KernelRun(KernelStep(k, calls[0]), calls[1..])
  }

  // ---------------------------------------------------------------- runs

  function RunOps(ops: seq<ChannelOp>): ChannelState {
    if ops == [] then ChannelState(New, NONE_EVENT)
    else Apply(RunOps(ops[..|ops| - 1]), ops[|ops| - 1])
  }

  function Issued(ops: seq<ChannelOp>): seq<Ctl> {
    if ops == [] then []
    else Issued(ops[..|ops| - 1]) + Calls(RunOps(ops[..|ops| - 1]), ops[|ops| - 1])
  }

  lemma {:induction false} KernelRunConcat(k: Kernel, first: seq<Ctl>, second: seq<Ctl>)
    ensures KernelRun(k, first + second) == KernelRun(KernelRun(k, first), second)
    decreases |first|
  {
    if first == [] {
      assert first + second == second;
    } else {
      assert (first + second)[0] == first[0] && (first + second)[1..] == first[1..] + second;
      KernelRunConcat(KernelStep(k, first[0]), first[1..], second);
    }
  }

  lemma OneOperation(c: ChannelState, op: ChannelOp)
    requires c.Coherent()
    ensures KernelRun(Watching(c.Watched()), Calls(c, op)) == Watching(Apply(c, op).Watched())
  {
    var calls := Calls(c, op);
    if calls != [] {
      assert calls[1..] == [];
      assert KernelRun(Watching(c.Watched()), calls) == KernelStep(Watching(c.Watched()), calls[0]);
    }
  }

  /** Any sequence of channel operations issues only calls the kernel accepts,
      and leaves the kernel watching exactly the interest of an added channel
      and nothing of any other. A deleted channel has no interest left, so for
      every mapped channel the kernel's effective mask is `events_`. */
  lemma {:induction false} RunIsLegal(ops: seq<ChannelOp>)
    ensures RunOps(ops).Coherent()
    ensures KernelRun(Watching(None), Issued(ops)) == Watching(RunOps(ops).Watched())
    ensures RunOps(ops).index != New ==>
              RunOps(ops).events == (if RunOps(ops).Watched().Some? then RunOps(ops).Watched().value else NONE_EVENT)
  {
    if ops != [] {
      var before := ops[..|ops| - 1];
      RunIsLegal(before);
      KernelRunConcat(Watching(None), Issued(before), Calls(RunOps(before), ops[|ops| - 1]));
      OneOperation(RunOps(before), ops[|ops| - 1]);
    }
  }

  // ---------------------------------------------------------------- what was asked for

  /** Whether the last word on a flag, over a run, was to be interested in it. */
  predicate Wants(ops: seq<ChannelOp>, f: Flag) {
    if ops == [] then false
    else
      var before := Wants(ops[..|ops| - 1], f);
      match ops[|ops| - 1]
      case Interest(EnableReading) => f == In || f == Pri || before
      case Interest(DisableReading) => f != In && f != Pri && before
      case Interest(EnableWriting) => f == Out || before
      case Interest(DisableWriting) => f != Out && before
      case Interest(DisableAll) => false
      case Remove => before
  }

  /** Whether interest was expressed or given up since the last removal. */
  predicate Known(ops: seq<ChannelOp>) {
    ops != [] && ops[|ops| - 1].Interest?
  }

  /** Over every run, `events_` is exactly what was asked for, flag by flag, and the
      channel is in the poller's map exactly when its last operation was not a
      removal. */
  lemma {:induction false} InterestIsAsAsked(ops: seq<ChannelOp>, f: Flag)
    ensures f in RunOps(ops).events <==> Wants(ops, f)
    ensures RunOps(ops).index != New <==> Known(ops)
  {
    if ops != [] {
      InterestIsAsAsked(ops[..|ops| - 1], f);
    }
  }

  // ---------------------------------------------------------------- giving up all interest

  /** A change that leaves no interest makes the kernel forget the descriptor exactly
      when the channel was added. A channel that is new or deleted is added instead,
      with an empty mask, under which the kernel still reports errors and hang-ups. */
  lemma GivingUpForgetsIff(c: ChannelState, change: Change)
    requires Changed(c.events, change) == NONE_EVENT
    ensures Apply(c, Interest(change)).Watched() == None <==> c.index == Added
    ensures c.index != Added ==> Apply(c, Interest(change)).Watched() == Some(NONE_EVENT)
  {
  }

  function Repeat(op: ChannelOp, n: nat): (ops: seq<ChannelOp>)
    ensures |ops| == n
  {
    if n == 0 then [] else Repeat(op, n - 1) + [op]
  }

  /** Over every run: `disableAll` called n times in a row leaves the descriptor
      unwatched exactly when n is odd and the channel was added, or n is even and it
      was not. Otherwise the kernel watches it with an empty mask. */
  lemma {:induction false} DisableAllAlternates(ops: seq<ChannelOp>, n: nat)
    requires n > 0
    ensures var c := RunOps(ops + Repeat(Interest(DisableAll), n));
            && (c.Watched() == None <==> (n % 2 == 1 <==> RunOps(ops).index == Added))
            && (c.Watched() != None ==> c.Watched() == Some(NONE_EVENT))
  {
    var most := ops + Repeat(Interest(DisableAll), n - 1);
    var all := ops + Repeat(Interest(DisableAll), n);
    assert all[..|all| - 1] == most && all[|all| - 1] == Interest(DisableAll);
    GivingUpForgetsIff(RunOps(most), DisableAll);
    if n == 1 {
      assert most == ops;
    } else {
      DisableAllAlternates(ops, n - 1);
    }
  }

  /** The shortest failing run: `Acceptor::~Acceptor` of a server that never
      listened disables a channel that was never registered. */
  lemma FirstDisableAllWatches()
    ensures RunOps([Interest(DisableAll)]).Watched() == Some(NONE_EVENT)
  {
    assert [Interest(DisableAll)][..0] == [];
  }

  /** The other failing family: a second `disableAll` finds the channel deleted. */
  lemma DisablingTwiceWatchesAgain(c: ChannelState)
    requires c.index == Added && c.events != NONE_EVENT
    ensures var once := Apply(c, Interest(DisableAll)); var twice := Apply(once, Interest(DisableAll));
            once.Watched() == None && twice.Watched() == Some(NONE_EVENT)
  {
  }
}
