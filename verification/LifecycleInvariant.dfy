/** The invariant of the server's world, and how the parts of a step keep it.

    A step takes a functor off a queue, changes one connection and pushes new
    functors. Half-way through, that one connection is not yet taken care of, so
    the lemmas about the parts speak of `GoodBut(w, id)`. */
module LifecycleInvariant {
  import opened Registrations
  import opened ConnectionSpec
  import opened ConnectionWiring
  import opened ConnectionLedger
  import opened Naming
  import opened Lifecycle

  predicate ServerOk(w: World) {
    var s := w.server;
    && |s.ipPort| <= 51
    && 1 <= s.nextConnId <= INT_MAX + 1
    && |w.loops| > 0
    && (|w.loops| > 1 ==> CursorOk(s.cursor, s.nextConnId - 1, |w.loops| - 1))
    && |s.connections| + s.removed == s.nextConnId - 1
    && (forall name :: name in s.connections ==> EntryOk(w, name))
  }

  /** The round-robin cursor after `made` connections. */
  predicate CursorOk(cursor: nat, made: nat, n: nat)
    requires n > 0
  {
    cursor == made % n
  }

  predicate EntryOk(w: World, name: string)
    requires name in w.server.connections
  {
    var id := w.server.connections[name];
    id in w.conns && name == NameOf(w.server, id)
  }

  predicate DistinctFds(w: World) {
    forall i, j :: i in w.conns && j in w.conns && w.conns[i].fd == w.conns[j].fd ==> i == j
  }

  /** The connection is wired, and its poller knows it as its index says. */
  predicate ConnOk(w: World, id: nat)
    requires id in w.conns
  {
    var c := w.conns[id];
    && 0 < id < w.server.nextConnId
    && c.home < |w.loops|
    && Wired(c.state) && Kept(c.state)
    && var l := w.loops[c.home];
    && (c.state.channel.index != New ==> c.fd in l.channels && l.channels[c.fd] == id)
    && (c.state.channel.index == Added ==> c.fd in l.kernel && l.kernel[c.fd] == id)
  }

  /** A functor waiting on a loop refers to a connection that is still there, is
      waiting on the right loop, and will find the connection in the right status. */
  predicate FunctorOk(w: World, k: nat, f: Functor) {
    && f.id in w.conns
    && var c := w.conns[f.id];
    match f
    case Establishment(id) => c.home == k && c.state.status == Connecting && Listed(w.server, id)
    case Removal(id) => k == BASE && c.state.status == Disconnected
    case Destruction(id) => c.home == k && c.state.status == Disconnected && !Listed(w.server, id)
    case Callback(id) => c.home == k
  }

  predicate ActiveOk(w: World, k: nat, id: nat) {
    id in w.conns && w.conns[id].home == k && w.conns[id].state.channel.index == Added
  }

  /** A channel in the middle of its event handler may have been disabled there,
      but it is still registered. */
  predicate VisitedOk(w: World, k: nat, id: nat) {
    id in w.conns && w.conns[id].home == k && w.conns[id].state.channel.index != New
  }

  predicate QueueOk(w: World, k: nat)
    requires k < |w.loops|
  {
    var l := w.loops[k];
    && l.ran <= |l.batch|
    && (l.turn != Running ==> l.batch == [] && l.ran == 0)
    && (forall i :: 0 <= i < |l.batch| ==> l.batch[i].id in w.conns)
    && (forall i :: 0 <= i < |Todo(l)| ==> FunctorOk(w, k, Todo(l)[i]))
    && (forall i, j :: 0 <= i < j < |Todo(l)| && Todo(l)[i].Establishment? ==> Todo(l)[i] != Todo(l)[j])
  }

  predicate ActivesOk(w: World, k: nat)
    requires k < |w.loops|
  {
    var l := w.loops[k];
    && (l.turn != Dispatching ==> l.active == [] && l.visit.Idle?)
    && (l.visit.Visiting? ==> VisitedOk(w, k, l.visit.id))
    && (l.visit.Visiting? ==> forall i :: 0 <= i < |l.active| ==> l.active[i].id != l.visit.id)
    && (forall i :: 0 <= i < |l.active| ==> ActiveOk(w, k, l.active[i].id))
    && (forall i, j :: 0 <= i < j < |l.active| ==> l.active[i].id != l.active[j].id)
  }

  /** No entry of the poller is stale. */
  predicate PollerOk(w: World, k: nat)
    requires k < |w.loops|
  {
    var l := w.loops[k];
    && (forall fd :: fd in l.channels ==>
         var id := l.channels[fd];
         id in w.conns && w.conns[id].fd == fd && w.conns[id].home == k && w.conns[id].state.channel.index != New)
    && (forall fd :: fd in l.kernel ==>
         var id := l.kernel[fd];
         id in w.conns && w.conns[id].fd == fd && w.conns[id].home == k && w.conns[id].state.channel.index == Added)
  }

  predicate LoopOk(w: World, k: nat)
    requires k < |w.loops|
  {
    QueueOk(w, k) && ActivesOk(w, k) && PollerOk(w, k)
  }

  /** User code holds only connections that are there. */
  predicate HeldOk(w: World) {
    forall id :: id in w.held ==> id in w.conns
  }

  predicate Structure(w: World) {
    && !w.crashed
    && ServerOk(w) && DistinctFds(w) && HeldOk(w)
    && (forall id :: id in w.conns ==> ConnOk(w, id))
    && (forall k :: 0 <= k < |w.loops| ==> LoopOk(w, k))
  }

  /** Whoever is not yet established will be, whoever is registered is listed or
      will be destroyed, whoever is up is listed, and whoever is closed and still
      listed will be removed. */
  predicate Cared(w: World, id: nat)
    requires |w.loops| > 0 && id in w.conns && w.conns[id].home < |w.loops|
  {
    var c := w.conns[id];
    var home := Todo(w.loops[c.home]);
    && (c.state.status == Connecting ==> Listed(w.server, id) && Establishment(id) in home)
    && (Live(c.state) ==> Listed(w.server, id))
    && (c.state.channel.index != New ==> Listed(w.server, id) || Destruction(id) in home)
    && (c.state.status == Disconnected && Listed(w.server, id) ==> Removal(id) in Todo(w.loops[BASE]))
  }

  predicate GoodBut(w: World, x: nat) {
    Structure(w) && forall id :: id in w.conns && id != x ==> Cared(w, id)
  }

  predicate Good(w: World) {
    Structure(w) && forall id :: id in w.conns ==> Cared(w, id)
  }

  // ---------------------------------------------------------------- names

  lemma OnlyOwnName(s: Server, i: nat, j: nat)
    requires |s.ipPort| <= 51 && i <= INT_MAX && j <= INT_MAX
    ensures NameOf(s, i) == NameOf(s, j) ==> i == j
  {
    if NameOf(s, i) == NameOf(s, j) {
      NameDeterminesId(s.name, s.ipPort, i, j);
    }
  }

  lemma NamesApart(w: World, x: nat)
    requires Structure(w) && x < w.server.nextConnId
    ensures forall id :: id in w.conns && NameOf(w.server, id) == NameOf(w.server, x) ==> id == x
  {
    hide Wired, Kept, LoopOk, NameOf, Listed;
    forall id | id in w.conns && NameOf(w.server, id) == NameOf(w.server, x)
      ensures id == x
    {
      assert ConnOk(w, id);
      OnlyOwnName(w.server, id, x);
    }
  }

  /** Taking a name out of the table unlists its own connection and no other. */
  lemma UnlistsOnlyOne(s: Server, x: nat, id: nat)
    requires NameOf(s, id) == NameOf(s, x) ==> id == x
    ensures Listed(Unlisted(s, x), id) <==> Listed(s, id) && id != x
  {
    hide ConnName;
  }

  lemma UnlistedCount(s: Server, x: nat)
    ensures |Unlisted(s, x).connections| + Unlisted(s, x).removed == |s.connections| + s.removed
    ensures var s' := Unlisted(s, x); s' == s.(connections := s'.connections, removed := s'.removed)
    ensures Unlisted(s, x).connections.Keys <= s.connections.Keys
  {
    hide NameOf;
    var name := NameOf(s, x);
    if name in s.connections {
      assert s.connections == (s.connections - {name})[name := s.connections[name]];
    } else {
      assert s.connections - {name} == s.connections;
    }
  }

  // ---------------------------------------------------------------- queues

  lemma TodoPush(l: Loop, f: Functor)
    requires l.ran <= |l.batch|
    ensures Todo(l.(pending := l.pending + [f])) == Todo(l) + [f]
  {
  }

  lemma TodoPop(l: Loop)
    requires l.ran < |l.batch|
    ensures Todo(l) == [l.batch[l.ran]] + Todo(l.(ran := l.ran + 1))
  {
  }

  /** A push leaves every connection, poller and active list as it was. */
  lemma PushFrame(w: World, k: nat, f: Functor)
    requires k < |w.loops|
    ensures var w' := Push(w, k, f);
            && (ServerOk(w') <==> ServerOk(w)) && (DistinctFds(w') <==> DistinctFds(w))
            && (forall j, g :: FunctorOk(w', j, g) <==> FunctorOk(w, j, g))
            && (forall j, id :: ActiveOk(w', j, id) <==> ActiveOk(w, j, id))
            && (forall j, id :: VisitedOk(w', j, id) <==> VisitedOk(w, j, id))
            && (forall j :: 0 <= j < |w.loops| ==> (ActivesOk(w', j) <==> ActivesOk(w, j)))
            && (forall j :: 0 <= j < |w.loops| ==> (PollerOk(w', j) <==> PollerOk(w, j)))
            && (forall j :: 0 <= j < |w.loops| && j != k ==> (QueueOk(w', j) <==> QueueOk(w, j)))
            && (forall id :: id in w.conns ==> (ConnOk(w', id) <==> ConnOk(w, id)))
  {
    hide Wired, Kept, NameOf;
    var w' := Push(w, k, f);
    forall j | 0 <= j < |w.loops|
      ensures PollerOk(w', j) <==> PollerOk(w, j)
      ensures ActivesOk(w', j) <==> ActivesOk(w, j)
      ensures j != k ==> (QueueOk(w', j) <==> QueueOk(w, j))
    {
      assert w'.loops[j] == w.loops[j] || w'.loops[j] == w.loops[j].(pending := w.loops[j].pending + [f]);
    }
  }

  lemma QueuePush(w: World, k: nat, f: Functor)
    requires k < |w.loops| && QueueOk(w, k) && FunctorOk(w, k, f)
    requires f.Establishment? ==> f !in Todo(w.loops[k])
    ensures QueueOk(Push(w, k, f), k)
    ensures Todo(Push(w, k, f).loops[k]) == Todo(w.loops[k]) + [f]
  {
    hide FunctorOk, ActiveOk, VisitedOk, ActivesOk, PollerOk, ConnOk, ServerOk, DistinctFds, Todo;
    PushFrame(w, k, f);
    TodoPush(w.loops[k], f);
    var w' := Push(w, k, f);
    var before, after := Todo(w.loops[k]), Todo(w'.loops[k]);
    assert w'.loops[k].batch == w.loops[k].batch && w'.loops[k].ran == w.loops[k].ran;
    forall i | 0 <= i < |after|
      ensures FunctorOk(w', k, after[i])
    {
      assert i < |before| ==> after[i] == before[i];
    }
  }

  lemma Homes(w: World)
    requires Structure(w)
    ensures |w.loops| > 0
    ensures forall id :: id in w.conns ==> w.conns[id].home < |w.loops|
  {
    hide Wired, Kept, NameOf, LoopOk;
    forall id | id in w.conns
      ensures w.conns[id].home < |w.loops|
    {
      assert ConnOk(w, id);
    }
  }

  lemma CaredPush(w: World, k: nat, f: Functor, id: nat)
    requires k < |w.loops| && w.loops[k].ran <= |w.loops[k].batch|
    requires id in w.conns && w.conns[id].home < |w.loops| && Cared(w, id)
    ensures Cared(Push(w, k, f), id)
  {
    hide Todo, Listed, Live;
    TodoPush(w.loops[k], f);
  }

  lemma PushKeeps(w: World, k: nat, f: Functor, x: nat)
    requires GoodBut(w, x) && k < |w.loops| && FunctorOk(w, k, f)
    requires f.Establishment? ==> f !in Todo(w.loops[k])
    ensures GoodBut(Push(w, k, f), x)
    ensures Todo(Push(w, k, f).loops[k]) == Todo(w.loops[k]) + [f]
  {
    hide ServerOk, DistinctFds, FunctorOk, ActiveOk, VisitedOk, ActivesOk, PollerOk, QueueOk, ConnOk, Cared, Todo;
    assert LoopOk(w, k);
    QueueShape(w, k);
    PushFrame(w, k, f);
    QueuePush(w, k, f);
    Homes(w);
    var w' := Push(w, k, f);
    forall id | id in w.conns && id != x
      ensures Cared(w', id)
    {
      CaredPush(w, k, f, id);
    }
    forall j | 0 <= j < |w'.loops|
      ensures LoopOk(w', j)
    {
      assert LoopOk(w, j);
    }
  }

  lemma QueueShape(w: World, k: nat)
    requires k < |w.loops| && QueueOk(w, k)
    ensures w.loops[k].ran <= |w.loops[k].batch|
  {
    hide FunctorOk;
  }

  // ---------------------------------------------------------------- state changes

  predicate InActive(w: World, x: nat)
    requires x in w.conns && w.conns[x].home < |w.loops|
  {
    exists i :: 0 <= i < |w.loops[w.conns[x].home].active| && w.loops[w.conns[x].home].active[i].id == x
  }

  /** How a step may change the state of connection `x` in place. */
  predicate Allowed(w: World, x: nat, s': Connection)
    requires x in w.conns && w.conns[x].home < |w.loops|
  {
    var s := w.conns[x].state;
    && Wired(s') && Kept(s')
    && (s.status == Disconnected ==> s'.status == Disconnected)
    && (s'.status == Connecting ==> s.status == Connecting)
    && (s.status == Connecting && s'.status != Connecting ==> Establishment(x) !in Todo(w.loops[w.conns[x].home]))
    && (s.channel != s'.channel ==> s'.channel.index != New)
    && (InActive(w, x) ==> s'.channel.index == Added)
  }

  lemma StateFrame(w: World, x: nat, s': Connection)
    requires x in w.conns && w.conns[x].home < |w.loops| && Allowed(w, x, s')
    ensures var w' := WithState(w, x, s');
            && (ServerOk(w) ==> ServerOk(w')) && (DistinctFds(w) ==> DistinctFds(w'))
            && (forall j, g :: FunctorOk(w, j, g) && (g == Establishment(x) ==> s'.status == Connecting) ==>
                 FunctorOk(w', j, g))
            && (forall j, id :: ActiveOk(w, j, id) && (id == x ==> s'.channel.index == Added) ==> ActiveOk(w', j, id))
            && (forall j, id :: VisitedOk(w, j, id) ==> VisitedOk(w', j, id))
            && (forall j :: 0 <= j < |w.loops| ==> Todo(w'.loops[j]) == Todo(w.loops[j]))
            && (forall j :: 0 <= j < |w.loops| ==>
                 && w'.loops[j].batch == w.loops[j].batch && w'.loops[j].ran == w.loops[j].ran
                 && w'.loops[j].turn == w.loops[j].turn && w'.loops[j].active == w.loops[j].active
                 && w'.loops[j].visit == w.loops[j].visit)
  {
    hide Wired, Kept, NameOf;
  }

  lemma StateQueues(w: World, x: nat, s': Connection, j: nat)
    requires x in w.conns && w.conns[x].home < |w.loops| && Allowed(w, x, s')
    requires j < |w.loops| && QueueOk(w, j)
    ensures QueueOk(WithState(w, x, s'), j)
  {
    hide Wired, Kept, NameOf, ServerOk, DistinctFds, ActiveOk, VisitedOk, Todo, Synced;
    StateFrame(w, x, s');
    var w', t := WithState(w, x, s'), Todo(w.loops[j]);
    forall i | 0 <= i < |t|
      ensures FunctorOk(w', j, t[i])
    {
      assert FunctorOk(w, j, t[i]);
      if t[i] == Establishment(x) {
        assert t[i] in t;
      }
    }
  }

  lemma StateActives(w: World, x: nat, s': Connection, j: nat)
    requires x in w.conns && w.conns[x].home < |w.loops| && Allowed(w, x, s')
    requires j < |w.loops| && ActivesOk(w, j)
    ensures ActivesOk(WithState(w, x, s'), j)
  {
    hide Wired, Kept, NameOf, ServerOk, DistinctFds, FunctorOk, Todo, Synced;
    StateFrame(w, x, s');
    var w', active := WithState(w, x, s'), w.loops[j].active;
    forall i | 0 <= i < |active|
      ensures ActiveOk(w', j, active[i].id)
    {
      assert ActiveOk(w, j, active[i].id);
    }
  }

  lemma StatePoller(w: World, x: nat, s': Connection, j: nat)
    requires x in w.conns && w.conns[x].home < |w.loops| && Allowed(w, x, s')
    requires j < |w.loops| && PollerOk(w, j) && ConnOk(w, x)
    ensures PollerOk(WithState(w, x, s'), j)
  {
    hide Wired, Kept, NameOf, Todo, InActive;
  }

  lemma StateConns(w: World, x: nat, s': Connection, id: nat)
    requires x in w.conns && w.conns[x].home < |w.loops| && Allowed(w, x, s')
    requires id in w.conns && ConnOk(w, id) && ConnOk(w, x) && DistinctFds(w)
    ensures ConnOk(WithState(w, x, s'), id)
  {
    hide Wired, Kept, NameOf, Todo, InActive;
  }

  lemma StateKeeps(w: World, x: nat, s': Connection)
    requires GoodBut(w, x) && x in w.conns && w.conns[x].home < |w.loops| && Allowed(w, x, s')
    ensures GoodBut(WithState(w, x, s'), x)
  {
    hide Allowed, Synced, ServerOk, DistinctFds, FunctorOk, ActiveOk, VisitedOk, ActivesOk, PollerOk, QueueOk, ConnOk, Todo, Listed, Live;
    Homes(w);
    StateFrame(w, x, s');
    var w' := WithState(w, x, s');
    forall j | 0 <= j < |w'.loops|
      ensures LoopOk(w', j)
    {
      assert LoopOk(w, j);
      StateQueues(w, x, s', j);
      StateActives(w, x, s', j);
      StatePoller(w, x, s', j);
    }
    forall id | id in w'.conns
      ensures ConnOk(w', id)
      ensures id != x ==> Cared(w', id)
    {
      StateConns(w, x, s', id);
      if id != x {
        assert Cared(w, id);
      }
    }
  }

  // ---------------------------------------------------------------- unlisting

  lemma UnlistEntry(w: World, x: nat, name: string)
    requires name in Unlisted(w.server, x).connections && name in w.server.connections && EntryOk(w, name)
    ensures EntryOk(w.(server := Unlisted(w.server, x)), name)
  {
    hide ConnName;
  }

  lemma UnlistServer(w: World, x: nat)
    requires ServerOk(w)
    ensures ServerOk(w.(server := Unlisted(w.server, x)))
  {
    hide EntryOk, NameOf, Unlisted, CursorOk;
    UnlistedCount(w.server, x);
    var s' := Unlisted(w.server, x);
    forall name | name in s'.connections
      ensures EntryOk(w.(server := s'), name)
    {
      assert name in w.server.connections;
      UnlistEntry(w, x, name);
    }
  }

  lemma UnlistFrame(w: World, x: nat)
    requires Structure(w) && x in w.conns && w.conns[x].state.status == Disconnected
    ensures var w' := w.(server := Unlisted(w.server, x));
            && ServerOk(w') && !Listed(w'.server, x)
            && (forall id :: id in w.conns && id != x ==> (Listed(w'.server, id) <==> Listed(w.server, id)))
            && (forall j, g :: FunctorOk(w, j, g) ==> FunctorOk(w', j, g))
  {
    hide Wired, Kept, LoopOk, NameOf, Listed, ServerOk, DistinctFds, Unlisted;
    assert ConnOk(w, x);
    NamesApart(w, x);
    UnlistServer(w, x);
    UnlistsOnlyOne(w.server, x, x);
    forall id | id in w.conns
      ensures Listed(Unlisted(w.server, x), id) <==> Listed(w.server, id) && id != x
    {
      UnlistsOnlyOne(w.server, x, id);
    }
  }

  lemma UnlistQueue(w: World, w': World, j: nat)
    requires w' == w.(server := w'.server) && j < |w.loops| && QueueOk(w, j)
    requires forall k, g :: FunctorOk(w, k, g) ==> FunctorOk(w', k, g)
    ensures QueueOk(w', j)
  {
    hide FunctorOk, Todo;
    forall i | 0 <= i < |Todo(w.loops[j])|
      ensures FunctorOk(w', j, Todo(w.loops[j])[i])
    {
      assert FunctorOk(w, j, Todo(w.loops[j])[i]);
    }
  }

  lemma UnlistLoops(w: World, x: nat, j: nat)
    requires Structure(w) && x in w.conns && w.conns[x].state.status == Disconnected && j < |w.loops|
    ensures LoopOk(w.(server := Unlisted(w.server, x)), j)
  {
    hide ServerOk, DistinctFds, ConnOk, QueueOk, FunctorOk, Todo, Unlisted;
    assert LoopOk(w, j);
    UnlistFrame(w, x);
    UnlistQueue(w, w.(server := Unlisted(w.server, x)), j);
  }

  lemma UnlistKeeps(w: World, x: nat)
    requires GoodBut(w, x) && x in w.conns && w.conns[x].state.status == Disconnected
    ensures GoodBut(w.(server := Unlisted(w.server, x)), x)
    ensures !Listed(Unlisted(w.server, x), x)
  {
    hide Wired, Kept, ServerOk, LoopOk, FunctorOk, Todo, Listed, NameOf;
    UnlistFrame(w, x);
    Homes(w);
    var w' := w.(server := Unlisted(w.server, x));
    forall j | 0 <= j < |w'.loops|
      ensures LoopOk(w', j)
    {
      UnlistLoops(w, x, j);
    }
    forall id | id in w'.conns
      ensures ConnOk(w', id)
      ensures id != x ==> Cared(w', id)
    {
      assert ConnOk(w, id);
      if id != x {
        assert Cared(w, id);
      }
    }
  }

  // ---------------------------------------------------------------- taking a functor

  function Popped(w: World, k: nat): World
    requires k < |w.loops|
  {
    WithLoop(w, k, w.loops[k].(ran := w.loops[k].ran + 1))
  }

  predicate CanPop(w: World, k: nat) {
    k < |w.loops| && w.loops[k].turn == Running && w.loops[k].ran < |w.loops[k].batch|
  }

  lemma PopFrame(w: World, k: nat)
    requires CanPop(w, k)
    ensures var w' := Popped(w, k);
            && (ServerOk(w') <==> ServerOk(w)) && (DistinctFds(w') <==> DistinctFds(w))
            && (forall j, g :: FunctorOk(w', j, g) <==> FunctorOk(w, j, g))
            && (forall j :: 0 <= j < |w.loops| ==> (ActivesOk(w', j) <==> ActivesOk(w, j)))
            && (forall j :: 0 <= j < |w.loops| ==> (PollerOk(w', j) <==> PollerOk(w, j)))
            && (forall j :: 0 <= j < |w.loops| && j != k ==> (QueueOk(w', j) <==> QueueOk(w, j)))
            && (forall id :: id in w.conns ==> (ConnOk(w', id) <==> ConnOk(w, id)))
            && Todo(w.loops[k]) == [w.loops[k].batch[w.loops[k].ran]] + Todo(w'.loops[k])
  {
    hide Wired, Kept, NameOf;
    TodoPop(w.loops[k]);
    var w' := Popped(w, k);
    forall j | 0 <= j < |w.loops|
      ensures PollerOk(w', j) <==> PollerOk(w, j)
      ensures ActivesOk(w', j) <==> ActivesOk(w, j)
      ensures j != k ==> (QueueOk(w', j) <==> QueueOk(w, j))
    {
      assert w'.loops[j] == w.loops[j] || w'.loops[j] == w.loops[j].(ran := w.loops[j].ran + 1);
    }
  }

  lemma QueuePop(w: World, k: nat)
    requires CanPop(w, k) && QueueOk(w, k)
    ensures QueueOk(Popped(w, k), k)
    ensures var f := w.loops[k].batch[w.loops[k].ran];
            FunctorOk(w, k, f) && (f.Establishment? ==> f !in Todo(Popped(w, k).loops[k]))
  {
    hide FunctorOk, ActivesOk, PollerOk, ConnOk, ServerOk, DistinctFds, Todo;
    PopFrame(w, k);
    var before, after := Todo(w.loops[k]), Todo(Popped(w, k).loops[k]);
    assert before[0] == w.loops[k].batch[w.loops[k].ran];
    assert forall i :: 0 <= i < |after| ==> after[i] == before[i + 1];
  }

  /** A functor is taken off the queue: only its own connection is affected. */
  lemma PopKeeps(w: World, k: nat)
    requires Good(w) && CanPop(w, k)
    ensures var f, w' := w.loops[k].batch[w.loops[k].ran], Popped(w, k);
            && GoodBut(w', f.id)
            && FunctorOk(w', k, f)
            && (f.Establishment? ==> f !in Todo(w'.loops[k]))
            && f.id in w.conns && w.conns[f.id].home < |w.loops|
            && (f.Callback? ==> Cared(w', f.id))
  {
    hide FunctorOk, ActivesOk, PollerOk, QueueOk, ConnOk, ServerOk, DistinctFds, Todo, Listed, Live;
    assert LoopOk(w, k);
    Homes(w);
    PopFrame(w, k);
    QueuePop(w, k);
    var f, w' := w.loops[k].batch[w.loops[k].ran], Popped(w, k);
    FunctorKnown(w, k, f);
    forall j | 0 <= j < |w'.loops|
      ensures LoopOk(w', j)
    {
      assert LoopOk(w, j);
    }
    forall id | id in w'.conns && (id != f.id || f.Callback?)
      ensures Cared(w', id)
    {
      assert Cared(w, id);
    }
  }

  lemma FunctorKnown(w: World, k: nat, f: Functor)
    requires FunctorOk(w, k, f)
    ensures f.id in w.conns
  {
  }
}
