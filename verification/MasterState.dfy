/**
 The books of the master: agents with what they have and hold, graphs with where their containers
 run, and the queue of graphs that wait. Every message is a step on these books.
 */
module MasterState {
  import opened Options
  import opened Scheduler

  // ---- Data --------------------------------------------------------------------------------

  datatype TaskId = TaskId(graph: Key, container: Key)

  /** `released` is what is left of `resource`; `tasks` maps each task held to what it takes. */
  datatype Agent = Agent(resource: Option<Resource>, released: Option<Resource>, tasks: map<TaskId, Resource>)

  datatype TaskInfo = TaskInfo(task: TaskId, error: bool)

  type Containers = seq<(Key, Resource)>

  /** `containers` are those of the topology, once it was received, in the order of iteration. */
  datatype Graph = Graph(containers: Option<Containers>, infos: seq<TaskInfo>, placement: map<TaskId, Key>)

  /** What a client is sent when its graph ends. */
  datatype Solution = Solution(graph: Key, infos: seq<TaskInfo>, fits: bool)

  /** `order` is the order of iteration over the agents; `kills` are the kill messages sent. */
  datatype Master = Master(
    agents: map<Key, Agent>, order: seq<Key>, graphs: map<Key, Graph>, queue: seq<Key>,
    solutions: seq<Solution>, kills: set<(Key, TaskId)>, nextAgent: Key, nextGraph: Key)

  const UNUSED := Master(map[], [], map[], [], [], {}, 0, 0)

  predicate Distinct(s: seq<Key>) { forall i, j | 0 <= i < j < |s| :: s[i] != s[j] }

  /** The order of iteration lists every agent once. */
  predicate Ordered(m: Master) {
    Distinct(m.order) && (forall k | k in m.order :: k in m.agents) && (forall k | k in m.agents :: k in m.order)
  }

  function Resources(m: Master): Pool
    requires Ordered(m)
  {
    seq(|m.order|, i requires 0 <= i < |m.order| => assert m.order[i] in m.order; m.agents[m.order[i]].resource)
  }

  function Released(m: Master): Pool
    requires Ordered(m)
  {
    seq(|m.order|, i requires 0 <= i < |m.order| => assert m.order[i] in m.order; m.agents[m.order[i]].released)
  }

  function Needs(cs: Containers): seq<Resource> { seq(|cs|, j requires 0 <= j < |cs| => cs[j].1) }

  // ---- Handlers ----------------------------------------------------------------------------

  /** _try_enqueue: would the graph fit if nothing ran? */
  predicate TryEnqueue(m: Master, cs: Containers)
    requires Ordered(m)
  {
    Assignable(Resources(m), Needs(cs))
  }

  /** One container of graph g goes to agent a. */
  function PlaceOne(m: Master, g: Key, c: (Key, Resource), a: Key): Master
    requires g in m.graphs && a in m.agents && m.agents[a].released.Some? && Covers(m.agents[a].released.value, c.1)
  {
    var t, agent, graph := TaskId(g, c.0), m.agents[a], m.graphs[g];
    m.(agents := m.agents[a := agent.(released := Some(Minus(agent.released.value, c.1)), tasks := agent.tasks[t := c.1])],
       graphs := m.graphs[g := graph.(placement := graph.placement[t := a])])
  }

  /** The agent that the next container goes to. */
  function Chosen(m: Master, need: Resource): (a: Option<Key>)
    requires Ordered(m)
    ensures a.Some? ==>
      a.value in m.agents && m.agents[a.value].released.Some? && Covers(m.agents[a.value].released.value, need)
  {
    match Best(Released(m), need, |m.order|)
    case None => None
    case Some(b) => assert m.order[b] in m.order; Some(m.order[b])
  }

  lemma PlaceOneOrdered(m: Master, g: Key, c: (Key, Resource), a: Key)
    requires Ordered(m) && g in m.graphs && a in m.agents
    requires m.agents[a].released.Some? && Covers(m.agents[a].released.value, c.1)
    ensures Ordered(PlaceOne(m, g, c, a)) && g in PlaceOne(m, g, c, a).graphs
  {
  }

  /** _try_dequeue: all containers, one after the other, or nothing. */
  function PlaceAll(m: Master, g: Key, cs: Containers): (r: Option<Master>)
    requires Ordered(m) && g in m.graphs
    ensures r.Some? ==> Ordered(r.value) && r.value.queue == m.queue && r.value.graphs.Keys == m.graphs.Keys
    decreases |cs|
  {
    if cs == [] then Some(m)
    else
      match Chosen(m, cs[0].1)
      case None => None
      case Some(a) =>
        PlaceOneOrdered(m, g, cs[0], a);
        PlaceAll(PlaceOne(m, g, cs[0], a), g, cs[1..])
  }

  function TryDequeue(m: Master, g: Key): (r: Option<Master>)
    requires Ordered(m) && g in m.graphs
    ensures r.Some? ==> Ordered(r.value) && r.value.queue == m.queue && r.value.graphs.Keys == m.graphs.Keys
  {
    if m.graphs[g].containers.None? then None else PlaceAll(m, g, m.graphs[g].containers.value)
  }

  /** _dequeue: graphs that are gone are dropped, the others started until one does not fit. */
  function Dequeue(m: Master): (r: Master)
    requires Ordered(m)
    ensures Ordered(r)
    decreases |m.queue|
  {
    if m.queue == [] then m
    else
      var g, rest := m.queue[0], m.queue[1..];
      if g !in m.graphs then Dequeue(m.(queue := rest))
      else
        match TryDequeue(m.(queue := rest), g)
        case None => m
        case Some(n) => Dequeue(n)
  }

  /** _remove_graph: kill what still runs, send the solution, forget the graph. */
  function RemoveGraph(m: Master, g: Key, fits: bool): (r: Master)
    ensures r.agents == m.agents && r.order == m.order
  {
    if g !in m.graphs then m
    else
      var p := m.graphs[g].placement;
      m.(kills := m.kills + (set t | t in p && p[t] in m.agents && t in m.agents[p[t]].tasks :: (p[t], t)),
         solutions := m.solutions + [Solution(g, m.graphs[g].infos, fits)],
         graphs := m.graphs - {g})
  }

  function RemoveGraphs(m: Master, ts: seq<TaskId>): (r: Master)
    ensures r.agents == m.agents && r.order == m.order
    decreases |ts|
  {
    if ts == [] then m else RemoveGraphs(RemoveGraph(m, ts[0].graph, true), ts[1..])
  }

  function Without(s: seq<Key>, x: Key): seq<Key> {
    if s == [] then [] else (if s[0] == x then [] else [s[0]]) + Without(s[1..], x)
  }

  datatype Event =
    | Connect                                        // an agent connects
    | OnResource(agent: Key, resource: Resource)     // and says what it has
    | Submit                                         // a client connects
    | OnTopology(graph: Key, containers: Containers) // and sends its graph
    | OnTaskInfo(agent: Key, info: TaskInfo)         // a task has ended
    | AgentLost(agent: Key, tasks: seq<TaskId>)      // an agent is gone; its tasks in some order
    | GraphLost(graph: Key)                          // a client is gone

  /** An agent reports its resource once, a client sends one topology with distinct containers, and a
      task's end is reported by the agent that holds it. */
  predicate Enabled(m: Master, e: Event) {
    match e
    case Connect => true
    case OnResource(a, r) => a in m.agents && m.agents[a].resource.None?
    case Submit => true
    case OnTopology(g, cs) =>
      && g in m.graphs && m.graphs[g].containers.None?
      && forall i, j | 0 <= i < j < |cs| :: cs[i].0 != cs[j].0
    case OnTaskInfo(a, info) => a in m.agents && info.task in m.agents[a].tasks
    case AgentLost(a, ts) => a in m.agents && (forall t | t in m.agents[a].tasks :: t in ts) && (forall t | t in ts :: t in m.agents[a].tasks)
    case GraphLost(g) => g in m.graphs && m.graphs[g].containers.Some?
  }

  /** A message that arrives after its agent is gone, and with it the graphs that ran there. */
  predicate Stale(m: Master, e: Event) {
    match e
    case OnResource(a, r) => a !in m.agents
    case OnTaskInfo(a, info) => a !in m.agents && info.task.graph !in m.graphs
    case _ => false
  }

  /** Agent::remove and Graph::update. */
  function Book(m: Master, a: Key, info: TaskInfo): (r: Master)
    requires a in m.agents && info.task in m.agents[a].tasks && m.agents[a].released.Some?
    ensures r.agents.Keys == m.agents.Keys && r.order == m.order
  {
    var agent, t := m.agents[a], info.task;
    var n := m.(agents := m.agents[a := agent.(
      released := Some(Plus(agent.released.value, agent.tasks[t])), tasks := agent.tasks - {t})]);
    if t.graph in m.graphs && t in m.graphs[t.graph].placement then
      var graph := m.graphs[t.graph];
      n.(graphs := n.graphs[t.graph := graph.(placement := graph.placement - {t}, infos := graph.infos + [info])])
    else n
  }

  /** The graph of a finished task ends with an error or with its last task. */
  function Settle(m: Master, info: TaskInfo): (r: Master)
    ensures r.agents == m.agents && r.order == m.order
  {
    var g := info.task.graph;
    if g in m.graphs && (info.error || m.graphs[g].placement == map[]) then RemoveGraph(m, g, true) else m
  }

  function Do(m: Master, e: Event): (r: Master)
    requires Ordered(m)
    ensures Ordered(r)
  {
    if Stale(m, e) then Dequeue(m)
    else if !Enabled(m, e) then m
    else
      match e
      case Connect =>
        if m.nextAgent in m.agents then m
        else
          AppendOrdered(m, m.nextAgent, Agent(None, None, map[]));
          m.(agents := m.agents[m.nextAgent := Agent(None, None, map[])], order := m.order + [m.nextAgent],
             nextAgent := m.nextAgent + 1)
      case OnResource(a, r) =>
        Dequeue(m.(agents := m.agents[a := m.agents[a].(resource := Some(r), released := Some(r))]))
      case Submit =>
        m.(graphs := m.graphs[m.nextGraph := Graph(None, [], map[])], nextGraph := m.nextGraph + 1)
      case OnTopology(g, cs) =>
        var n := m.(graphs := m.graphs[g := Graph(Some(cs), [], m.graphs[g].placement)]);
        if !TryEnqueue(n, cs) then RemoveGraph(n, g, false) else Dequeue(n.(queue := n.queue + [g]))
      case OnTaskInfo(a, info) =>
        if m.agents[a].released.None? then m else Dequeue(Settle(Book(m, a, info), info))
      case AgentLost(a, ts) =>
        var n := RemoveGraphs(m, ts);
        WithoutOrdered(n, a);
        n.(agents := n.agents - {a}, order := Without(n.order, a))
      case GraphLost(g) => RemoveGraph(m, g, true)
  }

  lemma AppendOrdered(m: Master, a: Key, agent: Agent)
    requires Ordered(m) && a !in m.agents
    ensures Ordered(m.(agents := m.agents[a := agent], order := m.order + [a]))
  {
    var order := m.order + [a];
    forall i, j | 0 <= i < j < |order| ensures order[i] != order[j] {
      assert order[i] == m.order[i] && m.order[i] in m.order;
    }
  }

  lemma {:induction false} WithoutHas(s: seq<Key>, x: Key, y: Key)
    ensures y in Without(s, x) <==> y in s && y != x
  {
    if s != [] {
      WithoutHas(s[1..], x, y);
    }
  }

  lemma {:induction false} WithoutDistinct(s: seq<Key>, x: Key)
    requires Distinct(s)
    ensures Distinct(Without(s, x))
  {
    if s != [] {
      var rest := s[1..];
      forall i, j | 0 <= i < j < |rest| ensures rest[i] != rest[j] {
        assert rest[i] == s[i + 1] && rest[j] == s[j + 1];
      }
      WithoutDistinct(rest, x);
      var r := Without(s, x);
      if s[0] != x {
        forall i, j | 0 <= i < j < |r| ensures r[i] != r[j] {
          if i == 0 {
            WithoutHas(rest, x, r[j]);
            assert r[j] in Without(rest, x);
            assert forall k | 0 <= k < |rest| :: rest[k] == s[k + 1] != s[0];
          }
        }
      }
    }
  }

  lemma WithoutOrdered(m: Master, a: Key)
    requires Ordered(m)
    ensures Ordered(m.(agents := m.agents - {a}, order := Without(m.order, a)))
  {
    WithoutDistinct(m.order, a);
    forall k ensures k in Without(m.order, a) <==> k in m.order && k != a { WithoutHas(m.order, a, k); }
  }

  function Run(m: Master, schedule: seq<Event>): (r: Master)
    requires Ordered(m)
    ensures Ordered(r)
    decreases |schedule|
  {
    if schedule == [] then m else Run(Do(m, schedule[0]), schedule[1..])
  }
}
