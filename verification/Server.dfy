/** The part of TcpServer and EventLoopThreadPool that runs on the base loop:
    numbering and naming connections, owning them, dealing them out to loops. */
module Server {
  import opened Names

  /** 0 is the base loop, 1 .. n are the I/O loops. */
  type LoopId = nat

  /** Connections are told apart by their number. */
  type ConnId = nat

  const BASE: LoopId := 0

  // ------------------------------------------------------- round robin

  /** getNextLoop: the loop to use and the new value of next_. */
  function NextLoop(numIo: nat, next: nat): (r: (LoopId, nat))
    requires numIo == 0 || next < numIo
    ensures r.0 <= numIo && (numIo == 0 || r.1 < numIo)
  {
    if numIo == 0 then (BASE, next)
    else (1 + next, if next + 1 >= numIo then 0 else next + 1)
  }

  /** Where k consecutive calls leave next_. */
  function NextAfter(numIo: nat, k: nat): (next: nat)
    ensures numIo == 0 || next < numIo
  {
    if k == 0 then 0 else NextLoop(numIo, NextAfter(numIo, k - 1)).1
  }

  /** Connections go to the I/O loops strictly in turn, or all to the base loop. */
  lemma {:induction false} RoundRobin(numIo: nat, k: nat)
    ensures NextLoop(numIo, NextAfter(numIo, k)).0 == if numIo == 0 then BASE else 1 + k % numIo
  {
    if numIo > 0 {
      RoundRobinNext(numIo, k);
    }
  }

  lemma {:induction false} RoundRobinNext(numIo: nat, k: nat)
    requires numIo > 0
    ensures NextAfter(numIo, k) == k % numIo
  {
    if k == 0 {
      assert NextAfter(numIo, 0) == 0;
    } else {
      RoundRobinNext(numIo, k - 1);
      ModSucc(k, numIo);
      NextAfterStep(numIo, k);
    }
  }

  lemma NextAfterStep(numIo: nat, k: nat)
    requires numIo > 0 && k > 0
    ensures var before := NextAfter(numIo, k - 1);
            NextAfter(numIo, k) == if before + 1 >= numIo then 0 else before + 1
  {
  }

  lemma ModSucc(k: nat, n: nat)
    requires k > 0 && n > 0
    ensures k % n == if (k - 1) % n + 1 >= n then 0 else (k - 1) % n + 1
  {
    var q, r := (k - 1) / n, (k - 1) % n;
    if r + 1 == n {
      ModUnique(k, n, q + 1, 0);
    } else {
      ModUnique(k, n, q, r + 1);
    }
  }

  lemma ModUnique(k: nat, n: nat, q: nat, r: nat)
    requires n > 0 && k == n * q + r && r < n
    ensures k % n == r
  {
    var d := q - k / n;
    assert n * d == k % n - r;
    if d > 0 {
      Multiple(n, d);
    } else if d < 0 {
      Multiple(n, -d);
    }
  }

  lemma Multiple(n: nat, d: nat)
    requires d > 0
    ensures n * d >= n
  {
  }

  // ---------------------------------------------------------- ownership

  datatype ServerState = ServerState(
    name: string, ipPort: string, numIo: nat, next: nat, nextConnId: nat, connections: map<string, ConnId>)
  {
    predicate Ok() {
      |ipPort| <= 21 && (numIo == 0 || next < numIo)
    }

    function NameOf(id: ConnId): string {
      ConnName(name, ipPort, id)
    }
  }

  /** newConnection up to the hand-over to the I/O loop. */
  function Register(s: ServerState): (ServerState, ConnId, LoopId)
    requires s.Ok()
  {
    var (loop, next) := NextLoop(s.numIo, s.next);
    (s.(next := next, nextConnId := s.nextConnId + 1,
        connections := s.connections[s.NameOf(s.nextConnId) := s.nextConnId]),
     s.nextConnId, loop)
  }

  /** removeConnectionInLoop's erase, which goes by name. */
  function Erase(s: ServerState, id: ConnId): ServerState {
    s.(connections := s.connections - {s.NameOf(id)})
  }

  /** Every entry sits under its own name and was numbered already. */
  ghost predicate NamesOk(s: ServerState) {
    && s.Ok()
    && forall n :: n in s.connections ==> s.connections[n] < s.nextConnId && n == s.NameOf(s.connections[n])
  }

  ghost predicate Owns(s: ServerState, id: ConnId) {
    s.NameOf(id) in s.connections && s.connections[s.NameOf(id)] == id
  }

  lemma DistinctNames(s: ServerState, i: ConnId, j: ConnId)
    requires s.Ok() && i <= INT_MAX && j <= INT_MAX && i != j
    ensures s.NameOf(i) != s.NameOf(j)
  {
    NamesDistinct(s.name, s.ipPort, i, j);
  }

  /** A new name displaces nobody, as long as the counter is an int that has not
      overflowed: the map assignment is an insertion. */
  lemma RegisterInserts(s: ServerState, d: ConnId)
    requires NamesOk(s) && s.nextConnId <= INT_MAX && d < s.nextConnId
    ensures s.NameOf(s.nextConnId) !in s.connections
    ensures Owns(Register(s).0, d) <==> Owns(s, d)
  {
    DistinctNames(s, d, s.nextConnId);
    var name := s.NameOf(s.nextConnId);
    if name in s.connections {
      DistinctNames(s, s.connections[name], s.nextConnId);
    }
  }

  lemma RegisterKeepsNames(s: ServerState)
    requires NamesOk(s) && s.nextConnId <= INT_MAX
    ensures NamesOk(Register(s).0) && Owns(Register(s).0, s.nextConnId)
  {
  }

  /** An erase by name, however late, removes its own connection or nothing. */
  lemma EraseRemovesOnlyItself(s: ServerState, id: ConnId, d: ConnId)
    requires NamesOk(s) && s.nextConnId <= INT_MAX + 1 && id < s.nextConnId && d < s.nextConnId
    ensures NamesOk(Erase(s, id)) && !Owns(Erase(s, id), id)
    ensures d != id ==> (Owns(Erase(s, id), d) <==> Owns(s, d))
  {
    if d != id {
      DistinctNames(s, id, d);
    }
  }

  // ------------------------------------------------------ across the loops

  /** What the server and its connections put into the queues of the loops. */
  datatype Functor = Established(c: ConnId) | RemoveInLoop(c: ConnId) | Destroyed(c: ConnId) | UserFunctor

  /** What a connection is built with. */
  datatype Home = Home(loop: LoopId, fd: int)

  /** Everything newConnection and removeConnection work on: the server, the
      connections it has built, and the queue of each loop. */
  datatype Scene = Scene(server: ServerState, homes: map<ConnId, Home>, pending: seq<seq<Functor>>)
  {
    predicate Ok() {
      && server.Ok() && |pending| == server.numIo + 1
      && forall c :: c in homes ==> homes[c].loop < |pending|
    }
  }

  function Enqueue(s: Scene, l: LoopId, f: Functor): Scene
    requires l < |s.pending|
  {
    s.(pending := s.pending[l := s.pending[l] + [f]])
  }

  /** newConnection: the new connection, and whether its establishment runs at once. */
  function Accepted(s: Scene, fd: int): (Scene, ConnId, bool)
    requires s.Ok()
  {
    var (server, id, loop) := Register(s.server);
    var t := s.(server := server, homes := s.homes[id := Home(loop, fd)]);
    (if loop == BASE then t else Enqueue(t, loop, Established(id)), id, loop == BASE)
  }

  function RemovedInLoop(s: Scene, id: ConnId): Scene
    requires s.Ok() && id in s.homes
  {
    Enqueue(s.(server := Erase(s.server, id)), s.homes[id].loop, Destroyed(id))
  }

  function RemovalAsked(s: Scene, id: ConnId, inBaseLoop: bool): Scene
    requires s.Ok() && id in s.homes
  {
    if inBaseLoop then RemovedInLoop(s, id) else Enqueue(s, BASE, RemoveInLoop(id))
  }

  // ------------------------------------------------------------- classes

  class EventLoopThreadPool {
    var loops: seq<LoopId>
    var next: nat

    constructor ()
      ensures Valid() && loops == [] && next == 0
    {
      loops, next := [], 0;
    }

    predicate Valid()
      reads this
    {
      && (loops == [] || next < |loops|)
      && forall i :: 0 <= i < |loops| ==> loops[i] == i + 1
    }

    /** Each thread brings up a loop of its own. */
    method Start(numThreads: nat)
      requires Valid() && loops == [] && next == 0
      modifies this
      ensures Valid() && |loops| == numThreads && next == 0
    {
      for i := 0 to numThreads
        invariant |loops| == i && next == 0
        invariant forall k :: 0 <= k < i ==> loops[k] == k + 1
      {
        loops := loops + [i + 1];
      }
    }

    method GetNextLoop() returns (loop: LoopId)
      requires Valid()
      modifies this`next
      ensures Valid() && (loop, next) == NextLoop(|loops|, old(next))
    {
      loop := BASE;
      if loops != [] {
        loop := loops[next];
        next := next + 1;
        if next >= |loops| {
          next := 0;
        }
      }
    }
  }

  class TcpServer {
    const name: string
    const ipPort: string
    const threadPool: EventLoopThreadPool
    var nextConnId: nat
    var connection: map<string, ConnId>
    /** The loop and the socket each TcpConnection object was built with. */
    var homes: map<ConnId, Home>
    /** pendingFunctors_ of the base loop and of each I/O loop. */
    var pending: seq<seq<Functor>>

    constructor (name: string, ipPort: string, threadPool: EventLoopThreadPool)
      requires |ipPort| <= 21 && threadPool.Valid()
      ensures Valid() && this.threadPool == threadPool && NamesOk(View()) && nextConnId == 1
      ensures connection == map[] && homes == map[] && forall l :: 0 <= l < |pending| ==> pending[l] == []
    {
      this.name, this.ipPort, this.threadPool := name, ipPort, threadPool;
      nextConnId, connection, homes := 1, map[], map[];
      pending := seq(|threadPool.loops| + 1, _ => []);
    }

    function View(): ServerState
      reads this, threadPool
    {
      ServerState(name, ipPort, |threadPool.loops|, threadPool.next, nextConnId, connection)
    }

    function Whole(): Scene
      reads this, threadPool
    {
      Scene(View(), homes, pending)
    }

    predicate Valid()
      reads this, threadPool
    {
      threadPool.Valid() && Whole().Ok()
    }

    /** loop->queueInLoop(f) */
    method QueueInLoop(l: LoopId, f: Functor)
      requires Valid() && l < |pending|
      modifies this`pending
      ensures Valid() && Whole() == Enqueue(old(Whole()), l, f)
    {
      pending := pending[l := pending[l] + [f]];
    }

    /** Runs on the base loop. `establishNow` says that runInLoop ran the
        establishment in place. */
    method NewConnection(sockfd: int) returns (id: ConnId, connName: string, establishNow: bool)
      requires Valid() && NamesOk(View()) && nextConnId <= INT_MAX
      modifies this, threadPool
      ensures Valid() && (Whole(), id, establishNow) == Accepted(old(Whole()), sockfd)
      ensures NamesOk(View()) && connName == View().NameOf(id) && Owns(View(), id)
      ensures connName !in old(connection)
    {
      ghost var s := View();
      var ioLoop := threadPool.GetNextLoop();
      id := nextConnId;
      var buf := Snprintf(BUF_SIZE, "-" + ipPort + "#" + Decimal(nextConnId));
      nextConnId := nextConnId + 1;
      connName := name + buf;
      homes := homes[id := Home(ioLoop, sockfd)];
      connection := connection[connName := id];
      RegisterKeepsNames(s);
      if connName in s.connections {
        DistinctNames(s, s.connections[connName], id);
      }
      establishNow := ioLoop == BASE;
      if !establishNow {
        QueueInLoop(ioLoop, Established(id));
      }
    }

    method RemoveConnection(id: ConnId, inBaseLoop: bool)
      requires Valid() && NamesOk(View()) && id in homes && id < nextConnId <= INT_MAX + 1
      modifies this
      ensures Valid() && NamesOk(View()) && Whole() == RemovalAsked(old(Whole()), id, inBaseLoop)
    {
      if inBaseLoop {
        RemoveConnectionInLoop(id);
      } else {
        QueueInLoop(BASE, RemoveInLoop(id));
      }
    }

    method RemoveConnectionInLoop(id: ConnId)
      requires Valid() && NamesOk(View()) && id in homes && id < nextConnId <= INT_MAX + 1
      modifies this
      ensures Valid() && Whole() == RemovedInLoop(old(Whole()), id)
      ensures NamesOk(View()) && !Owns(View(), id)
      ensures forall d: ConnId :: d < nextConnId && d != id ==> (Owns(View(), d) <==> Owns(old(View()), d))
    {
      ghost var s := View();
      connection := connection - {View().NameOf(id)};
      forall d: ConnId | d < nextConnId
        ensures NamesOk(View()) && !Owns(View(), id) && (d != id ==> (Owns(View(), d) <==> Owns(s, d)))
      {
        EraseRemovesOnlyItself(s, id, d);
      }
      QueueInLoop(homes[id].loop, Destroyed(id));
    }
  }
}
