/**
 The frontier rendezvous: how the agents decide when a task of a graph may start. The reading end of
 every stream between two tasks connects to the agent of the writing end; a task is started once it
 has a connection, a frontier, for each of its streams to other tasks.
 */
module Rendezvous {
  import opened Options
  import opened Topologies

  // ---- Data --------------------------------------------------------------------------------

  datatype TaskId = TaskId(graph: Id, container: Id)

  datatype Frontier = Frontier(graph: Id, stream: Id)

  /** A packet on its way to the frontier listener of an agent. */
  datatype Packet = Packet(agent: Id, frontier: Frontier)

  /** A task that waits for frontiers, or one that was started with some. */
  datatype Handle = Hatchery(numInterStreams: nat, frontiers: seq<Frontier>) | Executor(frontiers: seq<Frontier>)

  datatype Task = Task(topology: Topology, handle: Handle)

  /** _tasks and _frontiers. */
  datatype Agent = Agent(tasks: map<TaskId, Task>, frontiers: seq<Frontier>)

  /** What the master has planned: graphs, split by container, and the agent of every container. */
  datatype Plan = Plan(graphs: map<Id, Topology>, host: map<TaskId, Id>)

  /** `building`: tasks constructed, whose promise to be inserted is still to be carried out. `broken`: a
      task was asked for a hatchery it no longer has. */
  datatype World = World(agents: map<Id, Agent>, building: map<TaskId, Task>, done: set<TaskId>, packets: seq<Packet>, broken: bool)

  predicate Planned(p: Plan, k: TaskId) { k.graph in p.graphs && k.container in p.graphs[k.graph].containers }

  /** Graphs are sound, and every container has an agent. */
  ghost predicate WellPlanned(p: Plan) {
    && (forall g | g in p.graphs :: Sound(p.graphs[g]) && p.graphs[g].graph == g)
    && (forall k | Planned(p, k) :: k in p.host)
  }

  function PieceOf(p: Plan, k: TaskId): Topology
    requires Planned(p, k) && Joined(p.graphs[k.graph])
  {
    Piece(p.graphs[k.graph], k.container)
  }

  // ---- What an agent does ------------------------------------------------------------------

  /** match. */
  predicate Matches(t: Task, f: Frontier) { t.topology.graph == f.graph && HasInterOut(t.topology, f.stream) }

  /** ready. */
  predicate Ready(h: Handle) { h.Hatchery? && |h.frontiers| == h.numInterStreams }

  /** _deploy, where it succeeds. */
  function Deployed(t: Task): Task { t.(handle := Executor(t.handle.frontiers)) }

  function DeployIfReady(t: Task): Task { if Ready(t.handle) then Deployed(t) else t }

  /** What std::partition may make of the waiting frontiers: those that match, and the others, each in
      any order. */
  predicate IsSplit(t: Task, fs: seq<Frontier>, taken: seq<Frontier>, rest: seq<Frontier>) {
    && multiset(taken) + multiset(rest) == multiset(fs)
    && (forall f | f in taken :: Matches(t, f)) && forall f | f in rest :: !Matches(t, f)
  }

  /** splice_frontiers, after the partition. */
  function Spliced(t: Task, taken: seq<Frontier>): Task
    requires t.handle.Hatchery?
  {
    t.(handle := t.handle.(frontiers := taken + t.handle.frontiers))
  }

  /** _insert_task; the task is not entered if it is ready and cannot be deployed. */
  function InsertTask(a: Agent, k: TaskId, t: Task, taken: seq<Frontier>, rest: seq<Frontier>, deploys: bool): Agent
    requires t.handle.Hatchery?
  {
    var u := Spliced(t, taken);
    Agent(if Ready(u.handle) && !deploys then a.tasks else a.tasks[k := DeployIfReady(u)], rest)
  }

  /** What find_if may give: a task that matches, if there is one. */
  predicate Finds(a: Agent, f: Frontier, found: Option<TaskId>) {
    match found
    case None => forall k | k in a.tasks :: !Matches(a.tasks[k], f)
    case Some(k) => k in a.tasks && Matches(a.tasks[k], f)
  }

  /** A waiting task with one frontier more. */
  function WithFrontier(t: Task, f: Frontier): Task
    requires t.handle.Hatchery?
  {
    t.(handle := t.handle.(frontiers := t.handle.frontiers + [f]))
  }

  /** _insert_frontier; None where the task found has no hatchery. A task that is ready and cannot be
      deployed is removed. */
  function InsertFrontier(a: Agent, f: Frontier, found: Option<TaskId>, deploys: bool): Option<Agent>
    requires found.Some? ==> found.value in a.tasks
  {
    match found
    case None => Some(a.(frontiers := a.frontiers + [f]))
    case Some(k) =>
      var t := a.tasks[k];
      if t.handle.Executor? then None
      else
        var u := WithFrontier(t, f);
        Some(a.(tasks := if Ready(u.handle) && !deploys then a.tasks - {k} else a.tasks[k := DeployIfReady(u)]))
  }

  /** The constructor of a task: the frontiers of its incoming streams, in the order of iteration. */
  function Incoming(t: Topology, order: seq<Id>): seq<Frontier> {
    if order == [] then []
    else (if HasInterIn(t, order[0]) then [Frontier(t.graph, order[0])] else []) + Incoming(t, order[1..])
  }

  // ---- Steps -------------------------------------------------------------------------------

  datatype Event =
    | Construct(k: TaskId, order: seq<Id>)        // an agent receives a topology
    | Insert(k: TaskId, taken: seq<Frontier>, rest: seq<Frontier>, deploys: bool)   // and carries out its promise
    | Deliver(j: nat, found: Option<TaskId>, deploys: bool)                         // a packet arrives
    | Finish(k: TaskId)                           // a started task ends

  predicate Inserted(p: Plan, w: World, k: TaskId) {
    k in p.host && p.host[k] in w.agents && k in w.agents[p.host[k]].tasks
  }

  /** The topology of the task has been received. */
  predicate Sent(p: Plan, w: World, k: TaskId) { k in w.building || Inserted(p, w, k) || k in w.done }

  /** The task at the writing end, whose agent the reading end connects to. */
  function Writer(p: Plan, f: Frontier): TaskId
    requires IsFrontier(p, f)
  {
    TaskId(f.graph, p.graphs[f.graph].vertices[p.graphs[f.graph].streams[f.stream].tail])
  }

  function Reader(p: Plan, f: Frontier): TaskId
    requires IsFrontier(p, f)
  {
    TaskId(f.graph, p.graphs[f.graph].vertices[p.graphs[f.graph].streams[f.stream].head])
  }

  /** A stream between two tasks. */
  predicate IsFrontier(p: Plan, f: Frontier) {
    && f.graph in p.graphs && Joined(p.graphs[f.graph])
    && f.stream in p.graphs[f.graph].streams && Crosses(p.graphs[f.graph], f.stream)
  }

  function PacketTo(p: Plan, f: Frontier): Packet {
    Packet(if IsFrontier(p, f) && Writer(p, f) in p.host then p.host[Writer(p, f)] else f.graph, f)
  }

  function PacketsTo(p: Plan, fs: seq<Frontier>): seq<Packet> {
    if fs == [] then [] else [PacketTo(p, fs[0])] + PacketsTo(p, fs[1..])
  }

  predicate Enabled(p: Plan, w: World, e: Event) {
    match e
    case Construct(k, order) =>
      && Planned(p, k) && Joined(p.graphs[k.graph]) && !Sent(p, w, k)
      && Enumerates(order, PieceOf(p, k).streams.Keys)
    case Insert(k, taken, rest, deploys) =>
      && k in w.building && w.building[k].handle.Hatchery? && k in p.host && p.host[k] in w.agents
      && IsSplit(w.building[k], w.agents[p.host[k]].frontiers, taken, rest)
    case Deliver(j, found, deploys) =>
      && j < |w.packets| && w.packets[j].agent in w.agents
      && Finds(w.agents[w.packets[j].agent], w.packets[j].frontier, found)
    case Finish(k) => Inserted(p, w, k) && w.agents[p.host[k]].tasks[k].handle.Executor?
  }

  function Do(p: Plan, w: World, e: Event): World {
    if !Enabled(p, w, e) then w
    else
      match e
      case Construct(k, order) =>
        var t := PieceOf(p, k);
        var fs := Incoming(t, order);
        w.(building := w.building[k := Task(t, Hatchery(NumInter(t), fs))], packets := w.packets + PacketsTo(p, fs))
      case Insert(k, taken, rest, deploys) =>
        var a := p.host[k];
        var b := InsertTask(w.agents[a], k, w.building[k], taken, rest, deploys);
        w.(building := w.building - {k}, agents := w.agents[a := b], done := if k in b.tasks then w.done else w.done + {k})
      case Deliver(j, found, deploys) =>
        var x := w.packets[j];
        var rest := w.packets[..j] + w.packets[j + 1..];
        (match InsertFrontier(w.agents[x.agent], x.frontier, found, deploys)
         case None => w.(packets := rest, broken := true)
         case Some(b) =>
           var gone := if found.Some? && found.value !in b.tasks then {found.value} else {};
           w.(packets := rest, agents := w.agents[x.agent := b], done := w.done + gone))
      case Finish(k) =>
        var a := p.host[k];
        w.(agents := w.agents[a := w.agents[a].(tasks := w.agents[a].tasks - {k})], done := w.done + {k})
  }

  function Run(p: Plan, w: World, schedule: seq<Event>): World
    decreases |schedule|
  {
    if schedule == [] then w else Run(p, Do(p, w, schedule[0]), schedule[1..])
  }

  /** Agents without tasks, and nothing on its way. */
  ghost predicate Initial(p: Plan, w: World) {
    && WellPlanned(p) && w.building == map[] && w.done == {} && w.packets == [] && !w.broken
    && (forall k | Planned(p, k) :: p.host[k] in w.agents)
    && (forall a | a in w.agents :: w.agents[a] == Agent(map[], []))
  }

  // ---- Lists -------------------------------------------------------------------------------

  predicate Distinct<T(==)>(s: seq<T>) { forall i, j | 0 <= i < j < |s| :: s[i] != s[j] }

  function Elements<T>(s: seq<T>): set<T> { set x | x in s }

  lemma {:induction false} DistinctCount<T>(s: seq<T>)
    requires Distinct(s)
    ensures |Elements(s)| == |s|
  {
    if s != [] {
      var n := |s| - 1;
      DistinctCount(s[..n]);
      assert s == s[..n] + [s[n]];
      assert Elements(s) == Elements(s[..n]) + {s[n]};
    }
  }

  lemma DistinctJoin<T>(a: seq<T>, b: seq<T>)
    requires Distinct(a) && Distinct(b) && Elements(a) !! Elements(b)
    ensures Distinct(a + b) && Elements(a + b) == Elements(a) + Elements(b)
  {
    forall i, j | 0 <= i < j < |a + b| ensures (a + b)[i] != (a + b)[j] {
      if i < |a| <= j {
        assert a[i] in Elements(a) && b[j - |a|] in Elements(b);
      }
    }
  }

  lemma DistinctRemove<T>(s: seq<T>, j: nat)
    requires Distinct(s) && j < |s|
    ensures Distinct(s[..j] + s[j + 1..]) && Elements(s[..j] + s[j + 1..]) == Elements(s) - {s[j]}
  {
    var r := s[..j] + s[j + 1..];
    forall x ensures x in r <==> x in s && x != s[j] {
      if x in s && x != s[j] {
        var i :| 0 <= i < |s| && s[i] == x;
        assert if i < j then r[i] == x else r[i - 1] == x;
      }
      if x in r {
        var i :| 0 <= i < |r| && r[i] == x;
        assert x == s[if i < j then i else i + 1];
      }
    }
  }

  lemma {:induction false} DistinctOnce<T>(s: seq<T>)
    ensures Distinct(s) <==> forall x | x in s :: multiset(s)[x] == 1
    decreases |s|
  {
    if s != [] {
      var n := |s| - 1;
      var front, last := s[..n], s[n];
      assert s == front + [last];
      DistinctOnce(front);
      assert forall x :: multiset(s)[x] == multiset(front)[x] + if x == last then 1 else 0;
      assert last in s;
      assert last !in front <==> multiset(front)[last] == 0;
      if Distinct(s) {
        assert forall i | 0 <= i < n :: front[i] == s[i];
        assert last !in front;
      }
    }
  }

  /** The two parts of a list without repetitions. */
  lemma SplitIs(t: Task, fs: seq<Frontier>, taken: seq<Frontier>, rest: seq<Frontier>)
    requires Distinct(fs) && IsSplit(t, fs, taken, rest)
    ensures Distinct(taken) && Distinct(rest)
    ensures forall f :: (f in taken <==> f in fs && Matches(t, f)) && (f in rest <==> f in fs && !Matches(t, f))
  {
    hide Matches, Distinct;
    DistinctOnce(fs);
    DistinctOnce(taken);
    DistinctOnce(rest);
    forall f ensures multiset(fs)[f] == multiset(taken)[f] + multiset(rest)[f] {}
    forall f ensures f in fs <==> f in taken || f in rest {
      assert f in fs <==> multiset(fs)[f] > 0;
      assert f in taken <==> multiset(taken)[f] > 0;
      assert f in rest <==> multiset(rest)[f] > 0;
    }
  }

  lemma TailDistinct<T>(s: seq<T>)
    requires Distinct(s) && s != []
    ensures Distinct(s[1..]) && s[0] !in s[1..]
  {
    assert forall i | 0 <= i < |s[1..]| :: s[1..][i] == s[i + 1];
  }

  // ---- Ends of streams ---------------------------------------------------------------------

  /** The frontiers of a task: the ends of its streams to other tasks. */
  lemma EndsOfPiece(p: Plan, k: TaskId, f: Frontier)
    requires WellPlanned(p) && Planned(p, k)
    ensures HasInterOut(PieceOf(p, k), f.stream) && f.graph == k.graph <==> IsFrontier(p, f) && Writer(p, f) == k
    ensures HasInterIn(PieceOf(p, k), f.stream) && f.graph == k.graph <==> IsFrontier(p, f) && Reader(p, f) == k
    ensures PieceOf(p, k).graph == k.graph
  {
  }

  lemma PlannedEnds(p: Plan, f: Frontier)
    requires WellPlanned(p) && IsFrontier(p, f)
    ensures Planned(p, Writer(p, f)) && Planned(p, Reader(p, f)) && Writer(p, f) != Reader(p, f)
  {
  }

  ghost predicate EndOf(p: Plan, k: TaskId, f: Frontier) {
    IsFrontier(p, f) && (Writer(p, f) == k || Reader(p, f) == k)
  }

  /** The frontiers held belong to the task, those of its incoming streams are among them. */
  ghost predicate Holds(p: Plan, k: TaskId, fs: seq<Frontier>) {
    && Distinct(fs)
    && (forall f | f in fs :: EndOf(p, k, f))
    && (forall f | EndOf(p, k, f) && Reader(p, f) == k :: f in fs)
  }

  ghost predicate HoldsAll(p: Plan, k: TaskId, fs: seq<Frontier>) {
    Holds(p, k, fs) && forall f | EndOf(p, k, f) :: f in fs
  }

  function Keyed(g: Id, keys: set<Id>): set<Frontier> { set s | s in keys :: Frontier(g, s) }

  function Streams(fs: set<Frontier>): set<Id> { set f | f in fs :: f.stream }

  lemma {:induction false} StreamsCount(g: Id, fs: set<Frontier>)
    requires forall f | f in fs :: f.graph == g
    ensures |Streams(fs)| == |fs|
    decreases |fs|
  {
    if fs != {} {
      var x :| x in fs;
      StreamsCount(g, fs - {x});
      assert Streams(fs) == Streams(fs - {x}) + {x.stream};
      assert forall f | f in fs - {x} :: f.stream != x.stream;
    } else {
      assert Streams(fs) == {};
    }
  }

  lemma KeyedCount(g: Id, keys: set<Id>)
    ensures |Keyed(g, keys)| == |keys|
  {
    forall s ensures s in Streams(Keyed(g, keys)) <==> s in keys {
      assert s in keys ==> Frontier(g, s) in Keyed(g, keys);
    }
    assert Streams(Keyed(g, keys)) == keys;
    StreamsCount(g, Keyed(g, keys));
  }

  /** As many frontiers as streams to other tasks: exactly these streams. */
  lemma ReadyMeansAll(p: Plan, k: TaskId, fs: seq<Frontier>)
    requires WellPlanned(p) && Planned(p, k) && Holds(p, k, fs)
    ensures |fs| <= NumInter(PieceOf(p, k))
    ensures |fs| == NumInter(PieceOf(p, k)) <==> HoldsAll(p, k, fs)
    ensures HoldsAll(p, k, fs) <==> Elements(fs) == Keyed(k.graph, Inter(PieceOf(p, k)))
  {
    var keys := Inter(PieceOf(p, k));
    var all := Keyed(k.graph, keys);
    forall f ensures f in all <==> EndOf(p, k, f) {
      EndsOfPiece(p, k, f);
      assert f == Frontier(f.graph, f.stream);
    }
    hide EndOf, Inter;
    assert Elements(fs) <= all;
    DistinctCount(fs);
    KeyedCount(k.graph, keys);
    CardinalityIs(Elements(fs), all);
  }

  lemma CardinalityIs<T>(a: set<T>, b: set<T>)
    requires a <= b
    ensures |a| <= |b| && (|a| == |b| <==> a == b)
  {
    assert b == a + (b - a);
    assert a != b ==> b - a != {};
  }

  // ---- The invariant -----------------------------------------------------------------------

  /** A task that was just constructed holds the frontiers of its incoming streams and no others. */
  ghost predicate BuiltOk(p: Plan, k: TaskId, t: Task)
    requires WellPlanned(p)
  {
    && Planned(p, k) && t.topology == PieceOf(p, k)
    && t.handle.Hatchery? && t.handle.numInterStreams == NumInter(t.topology)
    && Holds(p, k, t.handle.frontiers)
    && forall f | f in t.handle.frontiers :: Reader(p, f) == k
  }

  /** A task that waits lacks a frontier, one that was started has them all. */
  ghost predicate TaskOk(p: Plan, k: TaskId, t: Task)
    requires WellPlanned(p)
  {
    && Planned(p, k) && t.topology == PieceOf(p, k)
    && match t.handle
       case Hatchery(n, fs) => n == NumInter(t.topology) && Holds(p, k, fs) && !HoldsAll(p, k, fs)
       case Executor(fs) => HoldsAll(p, k, fs)
  }

  predicate Flying(p: Plan, w: World, f: Frontier) { PacketTo(p, f) in w.packets }

  predicate Waiting(p: Plan, w: World, f: Frontier)
    requires IsFrontier(p, f)
  {
    var o := Writer(p, f);
    o in p.host && p.host[o] in w.agents && f in w.agents[p.host[o]].frontiers
  }

  predicate Held(p: Plan, w: World, f: Frontier)
    requires IsFrontier(p, f)
  {
    var o := Writer(p, f);
    o in w.done || (Inserted(p, w, o) && f in w.agents[p.host[o]].tasks[o].handle.frontiers)
  }

  /** Once the reading task is constructed its frontier is on its way, waits at the agent of the writing
      task, or is held by that task: in exactly one of these places; and it waits only while there is no
      task to take it. */
  ghost predicate InOnePlace(p: Plan, w: World, f: Frontier)
    requires IsFrontier(p, f)
  {
    && (Sent(p, w, Reader(p, f)) <==> Flying(p, w, f) || Waiting(p, w, f) || Held(p, w, f))
    && !(Flying(p, w, f) && Waiting(p, w, f)) && !(Flying(p, w, f) && Held(p, w, f)) && !(Waiting(p, w, f) && Held(p, w, f))
    && (Waiting(p, w, f) ==> !Inserted(p, w, Writer(p, f)))
  }

  ghost predicate BuildingOk(p: Plan, w: World)
    requires WellPlanned(p)
  {
    forall k | k in w.building :: BuiltOk(p, k, w.building[k]) && !Inserted(p, w, k) && k !in w.done
  }

  ghost predicate TasksOk(p: Plan, w: World)
    requires WellPlanned(p)
  {
    forall a, k | a in w.agents && k in w.agents[a].tasks ::
      k in p.host && p.host[k] == a && TaskOk(p, k, w.agents[a].tasks[k]) && k !in w.done
  }

  ghost predicate WaitingOk(p: Plan, w: World) {
    forall a | a in w.agents ::
      && Distinct(w.agents[a].frontiers)
      && forall f | f in w.agents[a].frontiers :: IsFrontier(p, f) && Writer(p, f) in p.host && p.host[Writer(p, f)] == a
  }

  ghost predicate PacketsOk(p: Plan, w: World) {
    Distinct(w.packets) && forall x | x in w.packets :: IsFrontier(p, x.frontier) && x == PacketTo(p, x.frontier)
  }

  ghost predicate PlacesOk(p: Plan, w: World) {
    forall f | IsFrontier(p, f) :: InOnePlace(p, w, f)
  }

  ghost predicate Inv(p: Plan, w: World) {
    && WellPlanned(p) && !w.broken && (forall k | Planned(p, k) :: p.host[k] in w.agents)
    && BuildingOk(p, w) && TasksOk(p, w) && WaitingOk(p, w) && PacketsOk(p, w) && PlacesOk(p, w)
  }

  lemma InitialInv(p: Plan, w: World)
    requires Initial(p, w)
    ensures Inv(p, w)
  {
    assert forall a | a in w.agents :: w.agents[a].tasks == map[] && w.agents[a].frontiers == [];
    assert WaitingOk(p, w);
    forall f | IsFrontier(p, f) ensures InOnePlace(p, w, f) {
      assert !Sent(p, w, Reader(p, f)) && !Flying(p, w, f) && !Waiting(p, w, f) && !Held(p, w, f);
    }
  }

  // ---- A topology arrives ------------------------------------------------------------------

  lemma {:induction false} IncomingIs(t: Topology, order: seq<Id>)
    ensures Elements(Incoming(t, order)) == set s | s in order && HasInterIn(t, s) :: Frontier(t.graph, s)
    decreases |order|
  {
    hide HasInterIn;
    if order != [] {
      IncomingIs(t, order[1..]);
      assert order == [order[0]] + order[1..];
      var rest := Incoming(t, order[1..]);
      assert Elements(Incoming(t, order)) == (if HasInterIn(t, order[0]) then {Frontier(t.graph, order[0])} else {}) + Elements(rest);
      forall f ensures f in Elements(Incoming(t, order)) <==> f.graph == t.graph && f.stream in order && HasInterIn(t, f.stream) {
        assert f.stream in order <==> f.stream == order[0] || f.stream in order[1..];
      }
    }
  }

  lemma {:induction false} IncomingDistinct(t: Topology, order: seq<Id>)
    requires Distinct(order)
    ensures Distinct(Incoming(t, order))
    decreases |order|
  {
    hide HasInterIn;
    if order != [] {
      TailDistinct(order);
      IncomingDistinct(t, order[1..]);
      IncomingIs(t, order[1..]);
      DistinctJoin([Frontier(t.graph, order[0])], Incoming(t, order[1..]));
    }
  }

  lemma {:induction false} PacketsToIs(p: Plan, fs: seq<Frontier>)
    ensures |PacketsTo(p, fs)| == |fs| && forall i | 0 <= i < |fs| :: PacketsTo(p, fs)[i] == PacketTo(p, fs[i])
    decreases |fs|
  {
    if fs != [] {
      PacketsToIs(p, fs[1..]);
    }
  }

  /** A new task has the frontiers of its incoming streams. */
  lemma ConstructBuilds(p: Plan, k: TaskId, order: seq<Id>)
    requires WellPlanned(p) && Planned(p, k) && Enumerates(order, PieceOf(p, k).streams.Keys)
    ensures var t := PieceOf(p, k);
      var fs := Incoming(t, order);
      && BuiltOk(p, k, Task(t, Hatchery(NumInter(t), fs)))
      && forall f :: f in fs <==> IsFrontier(p, f) && Reader(p, f) == k
  {
    var t := PieceOf(p, k);
    var fs := Incoming(t, order);
    IncomingIs(t, order);
    IncomingDistinct(t, order);
    forall f ensures f in fs <==> IsFrontier(p, f) && Reader(p, f) == k {
      EndsOfPiece(p, k, f);
      assert f in fs <==> f in Elements(fs);
      assert HasInterIn(t, f.stream) ==> f.stream in t.streams.Keys && f.stream in order;
      assert f == Frontier(f.graph, f.stream);
    }
  }

  lemma PacketsGrow(p: Plan, w: World, k: TaskId, fs: seq<Frontier>)
    requires PacketsOk(p, w) && Distinct(fs) && (forall f | f in fs :: IsFrontier(p, f) && !Flying(p, w, f))
    ensures var packets := w.packets + PacketsTo(p, fs);
      && Distinct(packets) && (forall x | x in packets :: IsFrontier(p, x.frontier) && x == PacketTo(p, x.frontier))
      && forall f :: PacketTo(p, f) in packets <==> PacketTo(p, f) in w.packets || f in fs
  {
    hide IsFrontier;
    var more := PacketsTo(p, fs);
    PacketsToIs(p, fs);
    forall i, j | 0 <= i < j < |more| ensures more[i] != more[j] {
      assert more[i].frontier == fs[i] && more[j].frontier == fs[j];
    }
    forall x ensures x in more <==> x == PacketTo(p, x.frontier) && x.frontier in fs {
      if x in more {
        var i :| 0 <= i < |more| && more[i] == x;
        assert x == PacketTo(p, fs[i]);
      }
      if x == PacketTo(p, x.frontier) && x.frontier in fs {
        var i :| 0 <= i < |fs| && fs[i] == x.frontier;
        assert more[i] == x;
      }
    }
    forall x | x in w.packets ensures x !in more {
      assert x == PacketTo(p, x.frontier);
    }
    assert Elements(w.packets) !! Elements(more);
    DistinctJoin(w.packets, more);
    forall f ensures PacketTo(p, f).frontier == f {
    }
  }

  lemma ConstructKeeps(p: Plan, w: World, k: TaskId, order: seq<Id>)
    requires Inv(p, w) && Enabled(p, w, Construct(k, order))
    ensures Inv(p, Do(p, w, Construct(k, order)))
  {
    hide BuiltOk, TaskOk, Holds, HoldsAll, PieceOf, Incoming;
    var r := Do(p, w, Construct(k, order));
    var fs := Incoming(PieceOf(p, k), order);
    ConstructBuilds(p, k, order);
    ConstructDistinct(p, k, order);
    forall f | f in fs ensures IsFrontier(p, f) && !Flying(p, w, f) {
      assert InOnePlace(p, w, f);
    }
    PacketsGrow(p, w, k, fs);
    forall f | IsFrontier(p, f) ensures InOnePlace(p, r, f) {
      assert InOnePlace(p, w, f);
      assert Flying(p, r, f) <==> Flying(p, w, f) || Reader(p, f) == k;
      assert Waiting(p, r, f) <==> Waiting(p, w, f);
      assert Held(p, r, f) <==> Held(p, w, f);
    }
    forall x | x in r.building ensures BuiltOk(p, x, r.building[x]) && !Inserted(p, r, x) && x !in r.done {
      assert x != k ==> BuiltOk(p, x, w.building[x]);
    }
  }

  lemma ConstructDistinct(p: Plan, k: TaskId, order: seq<Id>)
    requires WellPlanned(p) && Planned(p, k) && Enumerates(order, PieceOf(p, k).streams.Keys)
    ensures Distinct(Incoming(PieceOf(p, k), order))
  {
    IncomingDistinct(PieceOf(p, k), order);
  }

  // ---- A task is inserted ------------------------------------------------------------------

  /** What the task takes from the waiting frontiers are the ends of its outgoing streams. */
  lemma SpliceTakes(p: Plan, k: TaskId, t: Task, fs: seq<Frontier>, taken: seq<Frontier>, rest: seq<Frontier>)
    requires WellPlanned(p) && BuiltOk(p, k, t) && Distinct(fs) && forall f | f in fs :: IsFrontier(p, f)
    requires IsSplit(t, fs, taken, rest)
    ensures var all := Spliced(t, taken).handle.frontiers;
      && Holds(p, k, all)
      && (forall f | IsFrontier(p, f) && Writer(p, f) == k :: f in all <==> f in fs)
    ensures forall f :: f in rest <==> f in fs && Writer(p, f) != k
    ensures Distinct(rest)
  {
    SplitIs(t, fs, taken, rest);
    var own := t.handle.frontiers;
    forall f | f in fs ensures Matches(t, f) <==> Writer(p, f) == k {
      EndsOfPiece(p, k, f);
    }
    forall f | f in own ensures f !in taken {
      PlannedEnds(p, f);
    }
    hide Matches, PieceOf, IsSplit;
    assert Elements(taken) !! Elements(own);
    DistinctJoin(taken, own);
    forall f | IsFrontier(p, f) && Writer(p, f) == k ensures f in taken + own <==> f in fs {
      PlannedEnds(p, f);
    }
  }

  lemma DeployedOk(p: Plan, k: TaskId, t: Task)
    requires WellPlanned(p) && Planned(p, k) && t.topology == PieceOf(p, k)
    requires t.handle.Hatchery? && t.handle.numInterStreams == NumInter(t.topology) && Holds(p, k, t.handle.frontiers)
    ensures TaskOk(p, k, DeployIfReady(t)) && DeployIfReady(t).handle.frontiers == t.handle.frontiers
  {
    hide Holds, HoldsAll, PieceOf, NumInter;
    ReadyMeansAll(p, k, t.handle.frontiers);
  }

  /** The change that inserting task k makes. */
  ghost predicate InsertedBy(p: Plan, w: World, k: TaskId, r: World) {
    && k in p.host && p.host[k] in w.agents && k in w.building && !Inserted(p, w, k) && k !in w.done
    && r.building == w.building - {k} && r.done == w.done && r.packets == w.packets && r.broken == w.broken
    && var a := p.host[k];
       && (forall b :: b in r.agents <==> b in w.agents) && (forall b | b in w.agents && b != a :: r.agents[b] == w.agents[b])
       && k in r.agents[a].tasks && r.agents[a].tasks == w.agents[a].tasks[k := r.agents[a].tasks[k]]
  }

  lemma InsertDoes(p: Plan, w: World, k: TaskId, taken: seq<Frontier>, rest: seq<Frontier>)
    requires Inv(p, w) && Enabled(p, w, Insert(k, taken, rest, true))
    ensures var r, a, t := Do(p, w, Insert(k, taken, rest, true)), p.host[k], w.building[k];
      && InsertedBy(p, w, k, r)
      && r.agents[a].tasks[k] == DeployIfReady(Spliced(t, taken))
      && r.agents[a].frontiers == rest
  {
    hide BuiltOk, TasksOk, WaitingOk, PacketsOk, PlacesOk, Spliced, DeployIfReady, IsSplit, Ready;
  }

  lemma TaskAt(p: Plan, w: World, a: Id, k: TaskId)
    requires WellPlanned(p) && TasksOk(p, w) && a in w.agents && k in w.agents[a].tasks
    ensures k in p.host && p.host[k] == a && TaskOk(p, k, w.agents[a].tasks[k]) && k !in w.done
  {
    hide TaskOk;
  }

  lemma InsertTasks(p: Plan, w: World, k: TaskId, r: World)
    requires WellPlanned(p) && TasksOk(p, w) && BuildingOk(p, w) && InsertedBy(p, w, k, r)
    requires TaskOk(p, k, r.agents[p.host[k]].tasks[k])
    ensures TasksOk(p, r) && BuildingOk(p, r)
  {
    hide TaskOk, BuiltOk;
    forall b, x | b in r.agents && x in r.agents[b].tasks
      ensures x in p.host && p.host[x] == b && TaskOk(p, x, r.agents[b].tasks[x]) && x !in r.done
    {
      assert b in w.agents;
      if x != k || b != p.host[k] {
        assert x in w.agents[b].tasks && r.agents[b].tasks[x] == w.agents[b].tasks[x];
        TaskAt(p, w, b, x);
      }
    }
    forall x | x in r.building ensures BuiltOk(p, x, r.building[x]) && !Inserted(p, r, x) && x !in r.done {
      assert BuiltOk(p, x, w.building[x]);
    }
  }

  lemma InsertKeeps(p: Plan, w: World, k: TaskId, taken: seq<Frontier>, rest: seq<Frontier>)
    requires Inv(p, w) && Enabled(p, w, Insert(k, taken, rest, true))
    ensures Inv(p, Do(p, w, Insert(k, taken, rest, true)))
  {
    hide TaskOk, Holds, HoldsAll, PieceOf, IsSplit, NumInter, Distinct, DeployIfReady, InsertTask, TasksOk, PacketsOk, Do;
    var r, a, t := Do(p, w, Insert(k, taken, rest, true)), p.host[k], w.building[k];
    InsertDoes(p, w, k, taken, rest);
    assert BuiltOk(p, k, t);
    SpliceTakes(p, k, t, w.agents[a].frontiers, taken, rest);
    DeployedOk(p, k, Spliced(t, taken));
    hide BuiltOk, Spliced;
    InsertTasks(p, w, k, r);
    forall f | IsFrontier(p, f) ensures InOnePlace(p, r, f) {
      assert InOnePlace(p, w, f);
      hide InOnePlace;
      InsertPlaces(p, w, k, r, f);
    }
    SamePackets(p, w, r);
    forall x | Planned(p, x) ensures p.host[x] in r.agents {
      var b := p.host[x];
      assert b in r.agents <==> b in w.agents;
    }
    assert WaitingOk(p, r);
  }

  lemma SamePackets(p: Plan, w: World, r: World)
    requires PacketsOk(p, w) && r.packets == w.packets
    ensures PacketsOk(p, r)
  {
  }

  lemma InsertedNow(p: Plan, w: World, k: TaskId, r: World, x: TaskId)
    requires InsertedBy(p, w, k, r)
    ensures Inserted(p, r, x) <==> Inserted(p, w, x) || x == k
    ensures x != k && Inserted(p, w, x) ==> r.agents[p.host[x]].tasks[x] == w.agents[p.host[x]].tasks[x]
  {
    if x in p.host {
      var b := p.host[x];
      assert b in r.agents <==> b in w.agents;
      assert b in w.agents && b != p.host[k] ==> r.agents[b] == w.agents[b];
    }
  }

  lemma InsertPlaces(p: Plan, w: World, k: TaskId, r: World, f: Frontier)
    requires WellPlanned(p) && IsFrontier(p, f) && InOnePlace(p, w, f)
    requires InsertedBy(p, w, k, r)
    requires var a := p.host[k];
      && (Writer(p, f) == k ==> (f in r.agents[a].tasks[k].handle.frontiers <==> f in w.agents[a].frontiers))
      && (f in r.agents[a].frontiers <==> f in w.agents[a].frontiers && Writer(p, f) != k)
    ensures InOnePlace(p, r, f)
  {
    var o := Writer(p, f);
    PlannedEnds(p, f);
    InsertedNow(p, w, k, r, o);
    InsertedNow(p, w, k, r, Reader(p, f));
    assert Sent(p, r, Reader(p, f)) <==> Sent(p, w, Reader(p, f));
    if o == k {
      assert Held(p, r, f) <==> Waiting(p, w, f);
      assert !Waiting(p, r, f) && !Held(p, w, f);
    } else {
      assert Held(p, r, f) <==> Held(p, w, f);
      assert Waiting(p, r, f) <==> Waiting(p, w, f);
    }
  }

  // ---- A packet arrives --------------------------------------------------------------------

  /** A task that matches a frontier is the one at its writing end. */
  lemma MatchIsWriter(p: Plan, k: TaskId, t: Task, f: Frontier)
    requires WellPlanned(p) && Planned(p, k) && t.topology == PieceOf(p, k) && IsFrontier(p, f)
    ensures Matches(t, f) <==> Writer(p, f) == k
  {
    EndsOfPiece(p, k, f);
  }

  /** The packet at j is taken out. */
  ghost predicate TakenOut(w: World, j: nat, r: World) {
    && j < |w.packets| && r.packets == w.packets[..j] + w.packets[j + 1..]
    && r.building == w.building && r.done == w.done
  }

  lemma FlyingNow(p: Plan, w: World, j: nat, r: World, f: Frontier)
    requires PacketsOk(p, w) && TakenOut(w, j, r)
    ensures PacketsOk(p, r)
    ensures Flying(p, r, f) <==> Flying(p, w, f) && f != w.packets[j].frontier
  {
    DistinctRemove(w.packets, j);
    assert forall x :: x in r.packets <==> x in Elements(r.packets);
    assert w.packets[j] in w.packets;
    assert w.packets[j] == PacketTo(p, w.packets[j].frontier);
    assert PacketTo(p, f).frontier == f;
  }

  /** No task matches: the frontier waits. */
  lemma DeliverWaits(p: Plan, w: World, j: nat, deploys: bool)
    requires Inv(p, w) && Enabled(p, w, Deliver(j, None, deploys))
    ensures Inv(p, Do(p, w, Deliver(j, None, deploys)))
  {
    hide TaskOk, BuiltOk, Holds, HoldsAll, PieceOf, NumInter, Matches;
    var r, x := Do(p, w, Deliver(j, None, deploys)), w.packets[j];
    var f0, a := x.frontier, x.agent;
    assert x in w.packets;
    assert InOnePlace(p, w, f0);
    if Inserted(p, w, Writer(p, f0)) {
      TaskAt(p, w, a, Writer(p, f0));
      WriterMatches(p, Writer(p, f0), w.agents[a].tasks[Writer(p, f0)], f0);
    }
    FlyingNow(p, w, j, r, f0);
    DistinctJoin(w.agents[a].frontiers, [f0]);
    forall f | IsFrontier(p, f) ensures InOnePlace(p, r, f) {
      assert InOnePlace(p, w, f);
      FlyingNow(p, w, j, r, f);
      assert Waiting(p, r, f) <==> Waiting(p, w, f) || f == f0;
      assert Held(p, r, f) <==> Held(p, w, f);
    }
    assert BuildingOk(p, r);
    forall b, k | b in r.agents && k in r.agents[b].tasks
      ensures k in p.host && p.host[k] == b && TaskOk(p, k, r.agents[b].tasks[k]) && k !in r.done
    {
      TaskAt(p, w, b, k);
    }
  }

  lemma WriterMatches(p: Plan, k: TaskId, t: Task, f: Frontier)
    requires WellPlanned(p) && TaskOk(p, k, t) && IsFrontier(p, f) && Writer(p, f) == k
    ensures Matches(t, f)
  {
    MatchIsWriter(p, k, t, f);
  }

  lemma MatchesWriter(p: Plan, k: TaskId, t: Task, f: Frontier)
    requires WellPlanned(p) && TaskOk(p, k, t) && IsFrontier(p, f) && Matches(t, f)
    ensures Writer(p, f) == k
    ensures t.handle.Executor? ==> f in t.handle.frontiers
  {
    MatchIsWriter(p, k, t, f);
    assert EndOf(p, k, f);
  }

  /** A waiting task with one frontier more. */
  lemma TakesOk(p: Plan, k: TaskId, t: Task, f: Frontier)
    requires WellPlanned(p) && TaskOk(p, k, t) && t.handle.Hatchery? && IsFrontier(p, f) && Writer(p, f) == k
    requires f !in t.handle.frontiers
    ensures var u := DeployIfReady(WithFrontier(t, f));
      TaskOk(p, k, u) && u.handle.frontiers == t.handle.frontiers + [f]
  {
    hide PieceOf, NumInter;
    var fs := t.handle.frontiers;
    DistinctJoin(fs, [f]);
    assert Holds(p, k, fs + [f]);
    DeployedOk(p, k, WithFrontier(t, f));
  }

  /** Frontier f0 goes to task k, its writer, at agent a. */
  ghost predicate TakenBy(p: Plan, w: World, j: nat, k: TaskId, f0: Frontier, r: World) {
    && TakenOut(w, j, r) && f0 == w.packets[j].frontier && r.broken == w.broken
    && k in p.host && var a := p.host[k];
       && a in w.agents && k in w.agents[a].tasks && (forall b :: b in r.agents <==> b in w.agents)
       && (forall b | b in w.agents && b != a :: r.agents[b] == w.agents[b])
       && r.agents[a].frontiers == w.agents[a].frontiers
       && k in r.agents[a].tasks && r.agents[a].tasks == w.agents[a].tasks[k := r.agents[a].tasks[k]]
       && r.agents[a].tasks[k].handle.frontiers == w.agents[a].tasks[k].handle.frontiers + [f0]
  }

  lemma InsertedStill(p: Plan, w: World, j: nat, k: TaskId, f0: Frontier, r: World, x: TaskId)
    requires TakenBy(p, w, j, k, f0, r)
    ensures Inserted(p, r, x) <==> Inserted(p, w, x)
    ensures x != k && Inserted(p, w, x) ==> r.agents[p.host[x]].tasks[x] == w.agents[p.host[x]].tasks[x]
  {
    if x in p.host {
      var b := p.host[x];
      assert b in r.agents <==> b in w.agents;
      assert b in w.agents && b != p.host[k] ==> r.agents[b] == w.agents[b];
    }
  }

  lemma TakenPlaces(p: Plan, w: World, j: nat, k: TaskId, f0: Frontier, r: World, f: Frontier)
    requires WellPlanned(p) && PacketsOk(p, w) && TakenBy(p, w, j, k, f0, r) && IsFrontier(p, f) && InOnePlace(p, w, f)
    requires IsFrontier(p, f0) && Writer(p, f0) == k && Flying(p, w, f0)
    ensures InOnePlace(p, r, f)
  {
    FlyingNow(p, w, j, r, f);
    InsertedStill(p, w, j, k, f0, r, Writer(p, f));
    InsertedStill(p, w, j, k, f0, r, Reader(p, f));
    assert Sent(p, r, Reader(p, f)) <==> Sent(p, w, Reader(p, f));
    assert Waiting(p, r, f) <==> Waiting(p, w, f);
    assert Held(p, r, f) <==> Held(p, w, f) || f == f0;
  }

  lemma TakenTasks(p: Plan, w: World, j: nat, k: TaskId, f0: Frontier, r: World)
    requires WellPlanned(p) && TasksOk(p, w) && BuildingOk(p, w) && TakenBy(p, w, j, k, f0, r)
    requires TaskOk(p, k, r.agents[p.host[k]].tasks[k])
    ensures TasksOk(p, r) && BuildingOk(p, r)
  {
    hide TaskOk, BuiltOk;
    forall b, x | b in r.agents && x in r.agents[b].tasks
      ensures x in p.host && p.host[x] == b && TaskOk(p, x, r.agents[b].tasks[x]) && x !in r.done
    {
      assert b in w.agents;
      TaskAt(p, w, b, x);
    }
    forall x | x in r.building ensures BuiltOk(p, x, r.building[x]) && !Inserted(p, r, x) && x !in r.done {
      assert BuiltOk(p, x, w.building[x]);
      InsertedStill(p, w, j, k, f0, r, x);
    }
  }

  /** A task matches: it is the writing task, it still has its hatchery, and it takes the frontier. */
  lemma DeliverTakes(p: Plan, w: World, j: nat, k: TaskId)
    requires Inv(p, w) && Enabled(p, w, Deliver(j, Some(k), true))
    ensures Inv(p, Do(p, w, Deliver(j, Some(k), true)))
  {
    hide TaskOk, BuiltOk, Holds, HoldsAll, PieceOf, NumInter, Matches, TasksOk, BuildingOk, DeployIfReady;
    var r, x := Do(p, w, Deliver(j, Some(k), true)), w.packets[j];
    var f0, a := x.frontier, x.agent;
    assert x in w.packets;
    TaskAt(p, w, a, k);
    var t := w.agents[a].tasks[k];
    MatchesWriter(p, k, t, f0);
    assert InOnePlace(p, w, f0) && Flying(p, w, f0);
    assert t.handle.Hatchery? && f0 !in t.handle.frontiers;
    TakesOk(p, k, t, f0);
    assert TakenBy(p, w, j, k, f0, r);
    TakenTasks(p, w, j, k, f0, r);
    FlyingNow(p, w, j, r, f0);
    hide TakenBy;
    forall f | IsFrontier(p, f) ensures InOnePlace(p, r, f) {
      assert InOnePlace(p, w, f);
      hide InOnePlace;
      TakenPlaces(p, w, j, k, f0, r, f);
    }
  }

  // ---- A task ends -------------------------------------------------------------------------

  lemma FinishKeeps(p: Plan, w: World, k: TaskId)
    requires Inv(p, w) && Enabled(p, w, Finish(k))
    ensures Inv(p, Do(p, w, Finish(k)))
  {
    hide TaskOk, BuiltOk, Holds, HoldsAll, PieceOf, NumInter;
    var r, a := Do(p, w, Finish(k)), p.host[k];
    forall b, x | b in r.agents && x in r.agents[b].tasks
      ensures x in p.host && p.host[x] == b && TaskOk(p, x, r.agents[b].tasks[x]) && x !in r.done
    {
      TaskAt(p, w, b, x);
    }
    forall x | x in r.building ensures BuiltOk(p, x, r.building[x]) && !Inserted(p, r, x) && x !in r.done {
      assert BuiltOk(p, x, w.building[x]);
    }
    TaskAt(p, w, a, k);
    forall f | IsFrontier(p, f) ensures InOnePlace(p, r, f) {
      assert InOnePlace(p, w, f);
      if Writer(p, f) == k {
        StartedHolds(p, k, w.agents[a].tasks[k], f);
      }
      assert Held(p, r, f) <==> Held(p, w, f);
      assert Waiting(p, r, f) <==> Waiting(p, w, f);
      assert Sent(p, r, Reader(p, f)) <==> Sent(p, w, Reader(p, f));
    }
  }

  lemma StartedHolds(p: Plan, k: TaskId, t: Task, f: Frontier)
    requires WellPlanned(p) && TaskOk(p, k, t) && t.handle.Executor? && EndOf(p, k, f)
    ensures f in t.handle.frontiers
  {
  }

  // ---- A task cannot be deployed -----------------------------------------------------------

  /** It is as if the task had been started and had ended at once. */
  lemma InsertFails(p: Plan, w: World, k: TaskId, taken: seq<Frontier>, rest: seq<Frontier>)
    requires Inv(p, w) && Enabled(p, w, Insert(k, taken, rest, true)) && Inv(p, Do(p, w, Insert(k, taken, rest, true)))
    ensures Inv(p, Do(p, w, Insert(k, taken, rest, false)))
  {
    hide Inv, IsSplit, PieceOf, NumInter;
    var r, a := Do(p, w, Insert(k, taken, rest, true)), p.host[k];
    var u := Spliced(w.building[k], taken);
    if Ready(u.handle) {
      NotYetInserted(p, w, k);
      assert w.agents[a].tasks[k := Deployed(u)] - {k} == w.agents[a].tasks;
      assert r.agents[a := r.agents[a].(tasks := r.agents[a].tasks - {k})]
        == w.agents[a := InsertTask(w.agents[a], k, w.building[k], taken, rest, false)];
      assert Do(p, r, Finish(k)) == Do(p, w, Insert(k, taken, rest, false));
      FinishKeeps(p, r, k);
    }
  }

  lemma NotYetInserted(p: Plan, w: World, k: TaskId)
    requires Inv(p, w) && k in w.building
    ensures !Inserted(p, w, k) && k !in w.done
  {
    hide BuiltOk;
  }

  lemma DeliverFails(p: Plan, w: World, j: nat, k: TaskId)
    requires Inv(p, w) && Enabled(p, w, Deliver(j, Some(k), true)) && Inv(p, Do(p, w, Deliver(j, Some(k), true)))
    ensures Inv(p, Do(p, w, Deliver(j, Some(k), false)))
  {
    var a, f := w.packets[j].agent, w.packets[j].frontier;
    TaskAt(p, w, a, k);
    hide Inv, PieceOf, NumInter, Matches;
    var r, t := Do(p, w, Deliver(j, Some(k), true)), w.agents[a].tasks[k];
    if t.handle.Hatchery? && Ready(WithFrontier(t, f).handle) {
      var u := WithFrontier(t, f);
      assert w.agents[a].tasks[k := Deployed(u)] - {k} == w.agents[a].tasks - {k};
      assert r.agents[a := r.agents[a].(tasks := r.agents[a].tasks - {k})]
        == w.agents[a := w.agents[a].(tasks := w.agents[a].tasks - {k})];
      assert Do(p, r, Finish(k)) == Do(p, w, Deliver(j, Some(k), false));
      FinishKeeps(p, r, k);
    }
  }

  // ---- Every run ---------------------------------------------------------------------------

  lemma DoKeeps(p: Plan, w: World, e: Event)
    requires Inv(p, w)
    ensures Inv(p, Do(p, w, e))
  {
    if Enabled(p, w, e) {
      hide Inv, Do;
      match e {
        case Construct(k, order) => ConstructKeeps(p, w, k, order);
        case Insert(k, taken, rest, deploys) =>
          InsertKeeps(p, w, k, taken, rest);
          if !deploys { InsertFails(p, w, k, taken, rest); }
        case Deliver(j, None, deploys) => DeliverWaits(p, w, j, deploys);
        case Deliver(j, Some(k), deploys) =>
          DeliverTakes(p, w, j, k);
          if !deploys { DeliverFails(p, w, j, k); }
        case Finish(k) => FinishKeeps(p, w, k);
      }
    }
  }

  lemma {:induction false} RunKeeps(p: Plan, w: World, schedule: seq<Event>)
    requires Inv(p, w)
    ensures Inv(p, Run(p, w, schedule))
    decreases |schedule|
  {
    hide Inv, Do;
    if schedule != [] {
      DoKeeps(p, w, schedule[0]);
      RunKeeps(p, Do(p, w, schedule[0]), schedule[1..]);
    }
  }

  /** In no order of messages does a frontier reach a task that was started already. */
  lemma NoStartedTaskIsAsked(p: Plan, w: World, schedule: seq<Event>)
    requires Initial(p, w)
    ensures !Run(p, w, schedule).broken
  {
    hide Initial, Run;
    InitialInv(p, w);
    RunKeeps(p, w, schedule);
  }

  /** Once its reading task was constructed a frontier is in exactly one place, and before in none. */
  lemma EveryFrontierIsInOnePlace(p: Plan, w: World, schedule: seq<Event>, f: Frontier)
    requires Initial(p, w) && IsFrontier(p, f)
    ensures InOnePlace(p, Run(p, w, schedule), f)
  {
    hide Initial, Run, InOnePlace;
    InitialInv(p, w);
    RunKeeps(p, w, schedule);
  }

  /** A task is started with exactly the frontiers of its streams to other tasks, not just as many. */
  lemma StartedWithItsFrontiers(p: Plan, w: World, schedule: seq<Event>, a: Id, k: TaskId)
    requires Initial(p, w)
    requires var r := Run(p, w, schedule); a in r.agents && k in r.agents[a].tasks && r.agents[a].tasks[k].handle.Executor?
    ensures var fs := Run(p, w, schedule).agents[a].tasks[k].handle.frontiers;
      && Planned(p, k) && Joined(p.graphs[k.graph])
      && Distinct(fs) && Elements(fs) == Keyed(k.graph, Inter(PieceOf(p, k)))
  {
    hide Initial, Run, TasksOk;
    InitialInv(p, w);
    RunKeeps(p, w, schedule);
    TaskAt(p, Run(p, w, schedule), a, k);
    hide Holds, HoldsAll, PieceOf, Inter;
    ReadyMeansAll(p, k, Run(p, w, schedule).agents[a].tasks[k].handle.frontiers);
  }

  /** All topologies of the graph of task k were received and inserted, and no packet of it is on its way. */
  ghost predicate AllDelivered(p: Plan, w: World, g: Id)
    requires g in p.graphs
  {
    && (forall k | Planned(p, k) && k.graph == g :: Inserted(p, w, k) || k in w.done)
    && forall x | x in w.packets :: x.frontier.graph != g
  }

  lemma AllArrived(p: Plan, w: World, k: TaskId, f: Frontier)
    requires Inv(p, w) && Planned(p, k) && AllDelivered(p, w, k.graph) && Inserted(p, w, k) && EndOf(p, k, f)
    ensures f in w.agents[p.host[k]].tasks[k].handle.frontiers
  {
    hide PieceOf, NumInter, Inter, BuildingOk, WaitingOk, PacketsOk, TasksOk;
    TaskAt(p, w, p.host[k], k);
    if Writer(p, f) == k {
      PlannedEnds(p, f);
      assert InOnePlace(p, w, f);
      assert Sent(p, w, Reader(p, f));
      assert PacketTo(p, f).frontier == f;
    }
  }

  /** Once the topologies of a graph have all been received and inserted, and no packet of it is on its
      way, every task of it was started. */
  lemma EveryTaskIsStarted(p: Plan, w: World, schedule: seq<Event>, k: TaskId)
    requires Initial(p, w) && Planned(p, k) && AllDelivered(p, Run(p, w, schedule), k.graph)
    ensures var r := Run(p, w, schedule);
      k in r.done || (Inserted(p, r, k) && r.agents[p.host[k]].tasks[k].handle.Executor?)
  {
    hide Initial, Run, TasksOk, PieceOf, NumInter, InOnePlace, EndOf;
    InitialInv(p, w);
    RunKeeps(p, w, schedule);
    var r := Run(p, w, schedule);
    if k !in r.done {
      TaskAt(p, r, p.host[k], k);
      forall f | EndOf(p, k, f) ensures f in r.agents[p.host[k]].tasks[k].handle.frontiers {
        AllArrived(p, r, k, f);
      }
    }
  }

  // ---- Why a task is done ------------------------------------------------------------------

  /** Task k runs. */
  predicate Started(p: Plan, w: World, k: TaskId) { Inserted(p, w, k) && w.agents[p.host[k]].tasks[k].handle.Executor? }

  /** Task k had come to hold all its frontiers, and deploying it failed. */
  ghost predicate CannotDeploy(p: Plan, w: World, e: Event, k: TaskId) {
    && Enabled(p, w, e)
    && match e
       case Insert(x, taken, rest, deploys) =>
         x == k && !deploys && HoldsAll(p, k, taken + w.building[k].handle.frontiers)
       case Deliver(j, found, deploys) =>
         && found == Some(k) && !deploys
         && var t := w.agents[w.packets[j].agent].tasks[k];
            t.handle.Hatchery? && HoldsAll(p, k, t.handle.frontiers + [w.packets[j].frontier])
       case _ => false
  }

  lemma ReadyHoldsAll(p: Plan, k: TaskId, t: Task)
    requires WellPlanned(p) && Planned(p, k) && t.topology == PieceOf(p, k)
    requires t.handle.Hatchery? && t.handle.numInterStreams == NumInter(t.topology) && Holds(p, k, t.handle.frontiers)
    requires Ready(t.handle)
    ensures HoldsAll(p, k, t.handle.frontiers)
  {
    hide Holds, HoldsAll, PieceOf, NumInter;
    ReadyMeansAll(p, k, t.handle.frontiers);
  }

  lemma InsertDone(p: Plan, w: World, k: TaskId, taken: seq<Frontier>, rest: seq<Frontier>, deploys: bool)
    requires Inv(p, w) && Enabled(p, w, Insert(k, taken, rest, deploys)) && k !in w.done
    ensures k in Do(p, w, Insert(k, taken, rest, deploys)).done ==> CannotDeploy(p, w, Insert(k, taken, rest, deploys), k)
  {
    var a, t := p.host[k], w.building[k];
    assert BuiltOk(p, k, t);
    assert WaitingOk(p, w);
    SpliceTakes(p, k, t, w.agents[a].frontiers, taken, rest);
    var u := Spliced(t, taken);
    assert u.topology == t.topology && u.handle.numInterStreams == t.handle.numInterStreams;
    hide Inv, Holds, HoldsAll, PieceOf, NumInter, IsSplit, Matches, BuiltOk;
    if Ready(u.handle) && !deploys {
      BuiltIs(p, k, t);
      ReadyHoldsAll(p, k, u);
    }
  }

  lemma BuiltIs(p: Plan, k: TaskId, t: Task)
    requires WellPlanned(p) && BuiltOk(p, k, t)
    ensures Planned(p, k) && t.topology == PieceOf(p, k) && t.handle.Hatchery? && t.handle.numInterStreams == NumInter(t.topology)
  {
  }

  lemma DeliverDone(p: Plan, w: World, j: nat, k: TaskId, deploys: bool)
    requires Inv(p, w) && Enabled(p, w, Deliver(j, Some(k), deploys)) && k !in w.done
    ensures k in Do(p, w, Deliver(j, Some(k), deploys)).done ==> CannotDeploy(p, w, Deliver(j, Some(k), deploys), k)
  {
    hide TaskOk, BuiltOk, Holds, HoldsAll, PieceOf, NumInter, Matches, TasksOk, BuildingOk;
    var x := w.packets[j];
    var f, a := x.frontier, x.agent;
    assert x in w.packets;
    TaskAt(p, w, a, k);
    var t := w.agents[a].tasks[k];
    MatchesWriter(p, k, t, f);
    assert InOnePlace(p, w, f) && Flying(p, w, f);
    if t.handle.Hatchery? && Ready(WithFrontier(t, f).handle) && !deploys {
      assert f !in t.handle.frontiers;
      WaitingHolds(p, k, t, f);
      ReadyHoldsAll(p, k, WithFrontier(t, f));
    }
  }

  lemma WaitingHolds(p: Plan, k: TaskId, t: Task, f: Frontier)
    requires WellPlanned(p) && TaskOk(p, k, t) && t.handle.Hatchery? && IsFrontier(p, f) && Writer(p, f) == k
    requires f !in t.handle.frontiers
    ensures var u := WithFrontier(t, f);
      && Planned(p, k) && u.topology == PieceOf(p, k) && u.handle.Hatchery? && u.handle.numInterStreams == NumInter(u.topology)
      && Holds(p, k, u.handle.frontiers)
  {
    hide PieceOf, NumInter;
    DistinctJoin(t.handle.frontiers, [f]);
  }

  /** A step after which a task is done: it ran, or it could not be deployed. */
  lemma StepIsDone(p: Plan, w: World, e: Event, k: TaskId)
    requires Inv(p, w) && k !in w.done && k in Do(p, w, e).done
    ensures Started(p, w, k) || CannotDeploy(p, w, e, k)
  {
    hide CannotDeploy, PieceOf, NumInter, IsSplit, TaskOk, BuiltOk, InOnePlace;
    match e {
      case Construct(_, _) =>
      case Insert(x, taken, rest, deploys) => InsertDone(p, w, x, taken, rest, deploys);
      case Deliver(j, None, deploys) =>
      case Deliver(j, Some(x), deploys) => DeliverDone(p, w, j, x, deploys);
      case Finish(x) =>
    }
  }

  lemma {:induction false} RunSnoc(p: Plan, w: World, schedule: seq<Event>, e: Event)
    ensures Run(p, w, schedule + [e]) == Do(p, Run(p, w, schedule), e)
    decreases |schedule|
  {
    hide Do;
    if schedule == [] {
      assert (schedule + [e])[1..] == [];
    } else {
      assert (schedule + [e])[1..] == schedule[1..] + [e];
      RunSnoc(p, Do(p, w, schedule[0]), schedule[1..], e);
    }
  }

  /** A task is done only after it ran, or at a step at which it held all its frontiers and could not be
      deployed. */
  lemma {:induction false} DoneHasAReason(p: Plan, w: World, schedule: seq<Event>, k: TaskId) returns (i: nat)
    requires Initial(p, w) && k in Run(p, w, schedule).done
    ensures i < |schedule|
    ensures Started(p, Run(p, w, schedule[..i]), k) || CannotDeploy(p, Run(p, w, schedule[..i]), schedule[i], k)
    decreases |schedule|
  {
    hide Started, CannotDeploy, Inv, Do;
    i := 0;
    if schedule != [] {
      var n := |schedule| - 1;
      var before := schedule[..n];
      assert schedule == before + [schedule[n]];
      InitialInv(p, w);
      RunKeeps(p, w, before);
      RunSnoc(p, w, before, schedule[n]);
      hide Run, Initial;
      if k in Run(p, w, before).done {
        i := DoneHasAReason(p, w, before, k);
        assert before[..i] == schedule[..i];
      } else {
        i := n;
        StepIsDone(p, Run(p, w, before), schedule[n], k);
      }
    }
  }

  /** Where every deployment succeeds, every task of a graph whose topologies are all inserted and whose
      packets have all arrived has run or runs. */
  lemma EveryTaskRuns(p: Plan, w: World, schedule: seq<Event>, k: TaskId) returns (i: nat)
    requires Initial(p, w) && Planned(p, k) && AllDelivered(p, Run(p, w, schedule), k.graph)
    requires forall i | 0 <= i < |schedule| ::
      (schedule[i].Insert? ==> schedule[i].deploys) && (schedule[i].Deliver? ==> schedule[i].deploys)
    ensures i <= |schedule| && Started(p, Run(p, w, schedule[..i]), k)
  {
    EveryTaskIsStarted(p, w, schedule, k);
    hide Run, Initial, AllDelivered, HoldsAll, Enabled;
    i := |schedule|;
    assert schedule[..i] == schedule;
    if k in Run(p, w, schedule).done {
      i := DoneHasAReason(p, w, schedule, k);
      var e := schedule[i];
      assert (e.Insert? ==> e.deploys) && (e.Deliver? ==> e.deploys);
    }
  }
}
